/** The older per-location scraper (service/RestaurantScraper.java). It sends
    the caller's JSON payload text as it is, then rewrites only its offset
    for each further page; it tests the 250 limit after a page rather than
    before one, and keeps no MetaData. Entries are turned into restaurants
    exactly as in `ScrapingService`. */
module LegacyScraper {
  import opened Common
  import opened PayloadModel
  import opened RestaurantModel
  import opened Wire
  import opened ScrapingService

  /** `preparePayloadFromExistingPayLoad`: `setOffset` stands for parsing the
      text as a JSON object and putting `offset` into it (None: the text is
      not a JSON object); in that case the payload is sent again unchanged. */
  function PrepareFromExisting(payload: string, offset: int, setOffset: (string, int) -> Option<string>): string {
    match setOffset(payload, offset)
    case Some(updated) => updated
    case None => payload
  }

  /** The `while (true)` loop of `scrape` from the state with `payload` as the
      next request body, `offset` reached, and the requests and restaurants
      so far. */
  function LegacyLoop(payload: string, replies: seq<Reply>, parseDouble: string -> Option<real>,
                      setOffset: (string, int) -> Option<string>, offset: int,
                      requests: seq<string>, built: seq<Restaurant>): Run<string>
    decreases |replies|
  {
    var sent := requests + [payload];
    match NextReply(replies)
    case Raised => Run(sent, built, FetchThrew, Later(replies))
    case Refused => Run(sent, built, FailedResponse, Later(replies))
    case Delivered(NotArray) => Run(sent, built, NotArrayResult, Later(replies))
    case Delivered(Results(entries)) =>
      var pg := BuildPage(entries, parseDouble);
      var built' := built + pg.built;
      if pg.failure.Some? then Run(sent, built', InvalidEntry(pg.failure.value), Later(replies))
      else if |built'| >= Cap then Run(sent, built', CapReached, Later(replies))
      else
        LegacyLoop(PrepareFromExisting(payload, offset + PageSize, setOffset), replies[1..], parseDouble,
                   setOffset, offset + PageSize, sent, built')
  }

  /** A whole `scrape(address, existingPayload)` as a value. */
  function LegacyRun(existingPayload: string, replies: seq<Reply>, parseDouble: string -> Option<real>,
                     setOffset: (string, int) -> Option<string>): Run<string> {
    LegacyLoop(existingPayload, replies, parseDouble, setOffset, 0, [], [])
  }

  /** What `scrape` returns for a run: the exception it threw, or the set of
      the restaurants built. */
  function LegacyOutcome(run: Run<string>): Result<set<Restaurant>, ScrapeError> {
    match run.end
    case FetchThrew => Err(FetchFailed)
    case InvalidEntry(e) => Err(InvalidRestaurant(e))
    case _ => Ok(Elems(run.built))
  }

  /** Each request after the first is the previous one with its offset
      rewritten to the next multiple of 26, or the previous one unchanged when
      it is not a JSON object. */
  predicate Chained(requests: seq<string>, setOffset: (string, int) -> Option<string>) {
    forall k :: 0 < k < |requests| ==>
      requests[k] == PrepareFromExisting(requests[k - 1], PageSize * k, setOffset)
  }

  lemma {:induction false} LegacyLoopChains(payload: string, replies: seq<Reply>, parseDouble: string -> Option<real>,
                                            setOffset: (string, int) -> Option<string>, offset: int,
                                            requests: seq<string>, built: seq<Restaurant>)
    requires offset == PageSize * |requests| && Chained(requests, setOffset)
    requires requests != [] ==> payload == PrepareFromExisting(requests[|requests| - 1], offset, setOffset)
    ensures var run := LegacyLoop(payload, replies, parseDouble, setOffset, offset, requests, built);
      && |run.requests| > |requests| && run.requests[..|requests|] == requests
      && run.requests[|requests|] == payload
      && Chained(run.requests, setOffset)
    decreases |replies|
  {
    var sent := requests + [payload];
    assert sent[..|requests|] == requests;
    assert Chained(sent, setOffset);
    var run := LegacyLoop(payload, replies, parseDouble, setOffset, offset, requests, built);
    if replies != [] && replies[0].Delivered? && replies[0].body.Results? {
      var pg := BuildPage(replies[0].body.entries, parseDouble);
      if pg.failure.None? && |built + pg.built| < Cap {
        LegacyLoopChains(PrepareFromExisting(payload, offset + PageSize, setOffset), replies[1..], parseDouble,
                         setOffset, offset + PageSize, sent, built + pg.built);
        assert run.requests[..|requests|] == run.requests[..|sent|][..|requests|];
      }
    }
  }

  /** The first request is the caller's payload unchanged; each later one is
      the one before with only its offset rewritten, to 26 * k for the k-th. */
  lemma LegacyRequestsChain(existingPayload: string, replies: seq<Reply>, parseDouble: string -> Option<real>,
                            setOffset: (string, int) -> Option<string>)
    ensures var run := LegacyRun(existingPayload, replies, parseDouble, setOffset);
      && |run.requests| >= 1 && run.requests[0] == existingPayload
      && Chained(run.requests, setOffset)
  {
    LegacyLoopChains(existingPayload, replies, parseDouble, setOffset, 0, [], []);
  }

  /** When the offset can always be put into the payload (`readOffset` reads
      back what `setOffset` wrote), the k-th request after the first carries
      offset 26 * k. */
  lemma LegacyOffsets(existingPayload: string, replies: seq<Reply>, parseDouble: string -> Option<real>,
                      setOffset: (string, int) -> Option<string>, readOffset: string -> int, k: nat)
    requires forall s, o :: setOffset(s, o).Some? && readOffset(setOffset(s, o).value) == o
    requires 0 < k < |LegacyRun(existingPayload, replies, parseDouble, setOffset).requests|
    ensures readOffset(LegacyRun(existingPayload, replies, parseDouble, setOffset).requests[k]) == PageSize * k
  {
    LegacyRequestsChain(existingPayload, replies, parseDouble, setOffset);
    var requests := LegacyRun(existingPayload, replies, parseDouble, setOffset).requests;
    assert requests[k] == PrepareFromExisting(requests[k - 1], PageSize * k, setOffset);
  }

  /** A payload that is not a JSON object is sent again, unchanged, for
      every page. */
  lemma LegacyInvalidJsonResends(existingPayload: string, replies: seq<Reply>, parseDouble: string -> Option<real>,
                                 setOffset: (string, int) -> Option<string>)
    requires forall s, o :: setOffset(s, o).None?
    ensures var run := LegacyRun(existingPayload, replies, parseDouble, setOffset);
      forall k :: 0 <= k < |run.requests| ==> run.requests[k] == existingPayload
  {
    LegacyRequestsChain(existingPayload, replies, parseDouble, setOffset);
    var run := LegacyRun(existingPayload, replies, parseDouble, setOffset);
    forall k | 0 <= k < |run.requests|
      ensures run.requests[k] == existingPayload
    {
      SameUpTo(run.requests, existingPayload, setOffset, k);
    }
  }

  lemma {:induction false} SameUpTo(requests: seq<string>, payload: string, setOffset: (string, int) -> Option<string>, k: nat)
    requires forall s, o :: setOffset(s, o).None?
    requires Chained(requests, setOffset) && requests != [] && requests[0] == payload && k < |requests|
    ensures requests[k] == payload
  {
    if k > 0 {
      SameUpTo(requests, payload, setOffset, k - 1);
    }
  }

  /** The limit is checked only after a whole page: the loop ends for it only
      once at least 250 restaurants are counted, and the count passes 250 by
      less than the largest page. At most one request more than there are
      scripted replies is made. */
  lemma {:induction false} LegacyLoopBounds(payload: string, replies: seq<Reply>, parseDouble: string -> Option<real>,
                                            setOffset: (string, int) -> Option<string>, offset: int,
                                            requests: seq<string>, built: seq<Restaurant>)
    requires |built| < Cap
    ensures var run := LegacyLoop(payload, replies, parseDouble, setOffset, offset, requests, built);
      && |requests| < |run.requests| <= |requests| + |replies| + 1
      && |built| <= |run.built| && run.built[..|built|] == built
      && (run.end == CapReached ==> |run.built| >= Cap)
      && |run.built| < Cap + LargestPage(replies)
    decreases |replies|
  {
    var run := LegacyLoop(payload, replies, parseDouble, setOffset, offset, requests, built);
    if replies != [] && replies[0].Delivered? && replies[0].body.Results? {
      var entries := replies[0].body.entries;
      var pg := BuildPage(entries, parseDouble);
      BuildPageFacts(entries, parseDouble);
      CandidateCountBound(entries);
      assert (built + pg.built)[..|built|] == built;
      if pg.failure.None? && |built + pg.built| < Cap {
        LegacyLoopBounds(PrepareFromExisting(payload, offset + PageSize, setOffset), replies[1..], parseDouble,
                         setOffset, offset + PageSize, requests + [payload], built + pg.built);
        assert run.built[..|built|] == run.built[..|built| + |pg.built|][..|built|];
      }
    }
  }

  lemma LegacyCountBounds(existingPayload: string, replies: seq<Reply>, parseDouble: string -> Option<real>,
                          setOffset: (string, int) -> Option<string>)
    ensures var run := LegacyRun(existingPayload, replies, parseDouble, setOffset);
      && 1 <= |run.requests| <= |replies| + 1
      && (run.end == CapReached ==> |run.built| >= Cap)
      && |run.built| < Cap + LargestPage(replies)
  {
    LegacyLoopBounds(existingPayload, replies, parseDouble, setOffset, 0, [], []);
  }

  /** An array page without "4-" entries, the empty array included, only
      moves the loop on to the next offset with the count unchanged. */
  lemma LegacyEmptyArrayContinues(payload: string, replies: seq<Reply>, parseDouble: string -> Option<real>,
                                  setOffset: (string, int) -> Option<string>, offset: int,
                                  requests: seq<string>, built: seq<Restaurant>)
    requires |built| < Cap && replies != [] && replies[0].Delivered? && replies[0].body.Results?
    requires forall e :: e in replies[0].body.entries ==> !IsCandidate(e)
    ensures LegacyLoop(payload, replies, parseDouble, setOffset, offset, requests, built)
      == LegacyLoop(PrepareFromExisting(payload, offset + PageSize, setOffset), replies[1..], parseDouble,
                    setOffset, offset + PageSize, requests + [payload], built)
  {
    NoCandidatesBuildNothing(replies[0].body.entries, parseDouble);
    assert built + [] == built;
  }

  /** The two scrapers differ in the request bodies and in where they test
      the limit, but against the same replies they build the same
      restaurants, make the same number of requests and stop for the same
      reason: testing before the next page and after the last one agree. */
  lemma {:induction false} LegacyAgreesWithService(
    payload: string, p: PayloadFields, replies: seq<Reply>, parseDouble: string -> Option<real>,
    setOffset: (string, int) -> Option<string>, offset: int, page: nat,
    legacyRequests: seq<string>, requests: seq<PayloadFields>, built: seq<Restaurant>)
    requires |built| < Cap && |legacyRequests| == |requests|
    ensures var legacy := LegacyLoop(payload, replies, parseDouble, setOffset, offset, legacyRequests, built);
      var service := Loop(p, replies, parseDouble, page, requests, built);
      && legacy.built == service.built && legacy.end == service.end
      && |legacy.requests| == |service.requests| && legacy.rest == service.rest
    decreases |replies|
  {
    if replies != [] && replies[0].Delivered? && replies[0].body.Results? {
      var pg := BuildPage(replies[0].body.entries, parseDouble);
      if pg.failure.None? && |built + pg.built| < Cap {
        LegacyAgreesWithService(PrepareFromExisting(payload, offset + PageSize, setOffset), p, replies[1..],
                                parseDouble, setOffset, offset + PageSize, page + 1,
                                legacyRequests + [payload], requests + [PreparedPayload(p, PageSize * page)],
                                built + pg.built);
      }
    }
  }

  lemma LegacyRunAgreesWithServiceRun(existingPayload: string, p: PayloadFields, replies: seq<Reply>,
                                      parseDouble: string -> Option<real>, setOffset: (string, int) -> Option<string>)
    ensures var legacy := LegacyRun(existingPayload, replies, parseDouble, setOffset);
      var service := ServiceRun(p, replies, parseDouble);
      && legacy.built == service.built && legacy.end == service.end
      && |legacy.requests| == |service.requests| && legacy.rest == service.rest
  {
    LegacyAgreesWithService(existingPayload, p, replies, parseDouble, setOffset, 0, 0, [], [], []);
  }

  /** `GrabApiClient.makeRequest(String)` answers null, so a scraper wired to
      it makes one request and returns the empty set. */
  lemma LegacyOverNullClient(existingPayload: string, replies: seq<Reply>, parseDouble: string -> Option<real>,
                             setOffset: (string, int) -> Option<string>)
    requires NextReply(replies) == Refused
    ensures var run := LegacyRun(existingPayload, replies, parseDouble, setOffset);
      run.requests == [existingPayload] && LegacyOutcome(run) == Ok({})
  {
  }

  /** Every restaurant the older scraper builds is valid, has a "4-" id, and
      carries a promo description and closing-soon text. */
  lemma {:induction false} LegacyLoopBuildsExtracted(payload: string, replies: seq<Reply>, parseDouble: string -> Option<real>,
                                                     setOffset: (string, int) -> Option<string>, offset: int,
                                                     requests: seq<string>, built: seq<Restaurant>)
    requires forall r :: r in built ==> Extracted(r)
    ensures forall r :: r in LegacyLoop(payload, replies, parseDouble, setOffset, offset, requests, built).built ==> Extracted(r)
    decreases |replies|
  {
    if replies != [] && replies[0].Delivered? && replies[0].body.Results? {
      var pg := BuildPage(replies[0].body.entries, parseDouble);
      BuildPageFacts(replies[0].body.entries, parseDouble);
      if pg.failure.None? && |built + pg.built| < Cap {
        LegacyLoopBuildsExtracted(PrepareFromExisting(payload, offset + PageSize, setOffset), replies[1..], parseDouble,
                                  setOffset, offset + PageSize, requests + [payload], built + pg.built);
      }
    }
  }

  lemma LegacyRunBuildsExtracted(existingPayload: string, replies: seq<Reply>, parseDouble: string -> Option<real>,
                                 setOffset: (string, int) -> Option<string>)
    ensures forall r :: r in LegacyRun(existingPayload, replies, parseDouble, setOffset).built ==> Extracted(r)
  {
    LegacyLoopBuildsExtracted(existingPayload, replies, parseDouble, setOffset, 0, [], []);
  }

  class LegacyRestaurantScraper {
    const client: ScriptedClient<string>
    /** `Double.parseDouble`: None where it throws. */
    const parseDouble: string -> Option<real>
    /** `new JSONObject(payload).put("offset", offset).toString()`: None where
        the text is not a JSON object. */
    const setOffset: (string, int) -> Option<string>

    constructor (client: ScriptedClient<string>, parseDouble: string -> Option<real>,
                 setOffset: (string, int) -> Option<string>)
      ensures this.client == client && this.parseDouble == parseDouble && this.setOffset == setOffset
    {
      this.client := client;
      this.parseDouble := parseDouble;
      this.setOffset := setOffset;
    }

    /** `scrape(address, existingPayload)`: `address` is not used. */
    method Scrape(address: NString, existingPayload: string) returns (result: Result<set<Restaurant>, ScrapeError>)
      modifies client
      ensures var run := LegacyRun(existingPayload, old(client.pending), parseDouble, setOffset);
        && client.sent == old(client.sent) + run.requests
        && client.pending == run.rest
        && result == LegacyOutcome(run)
    {
      ghost var run := LegacyRun(existingPayload, client.pending, parseDouble, setOffset);
      ghost var sent0 := client.sent;
      ghost var requests: seq<string> := [];
      ghost var built: seq<Restaurant> := [];
      var payload := existingPayload;
      var allRestaurants: set<Restaurant> := {};
      var offset := 0;
      var count := 0;
      while true
        invariant count == |built| && count < Cap
        invariant allRestaurants == Elems(built)
        invariant client.sent == sent0 + requests
        invariant run == LegacyLoop(payload, client.pending, parseDouble, setOffset, offset, requests, built)
        decreases |client.pending|
      {
        ghost var pending := client.pending;
        var response := client.MakeRequest(payload);
        requests := requests + [payload];
        match response {
          case Raised =>
            return Err(FetchFailed);
          case Refused =>
            break;
          case Delivered(NotArray) =>
            break;
          case Delivered(Results(entries)) =>
            var failure;
            allRestaurants, count, failure := AddPage(entries, allRestaurants, count);
            ElemsAppend(built, BuildPage(entries, parseDouble).built);
            built := built + BuildPage(entries, parseDouble).built;
            if failure.Some? {
              return Err(InvalidRestaurant(failure.value));
            }
            if count >= Cap {
              break;
            }
            offset := offset + PageSize;
            payload := PreparePayloadFromExistingPayload(payload, offset);
        }
      }
      result := Ok(allRestaurants);
    }

    /** The `for` loop over one page's array: entries whose id does not start
        with "4-" are skipped, each other one is built, added and counted,
        until one fails validation. */
    method AddPage(entries: seq<Entry>, allRestaurants: set<Restaurant>, count: int)
      returns (allRestaurants': set<Restaurant>, count': int, failure: Option<ValidationError>)
      ensures var pg := BuildPage(entries, parseDouble);
        && failure == pg.failure
        && allRestaurants' == allRestaurants + Elems(pg.built)
        && count' == count + |pg.built|
    {
      ghost var pageBuilt: seq<Restaurant> := [];
      allRestaurants', count', failure := allRestaurants, count, None;
      for j := 0 to |entries|
        invariant count' == count + |pageBuilt|
        invariant allRestaurants' == allRestaurants + Elems(pageBuilt)
        invariant BuildPage(entries[..j], parseDouble) == Page(pageBuilt, None)
      {
        var node := entries[j];
        BuildPagePrefix(entries, j, parseDouble);
        if IsCandidate(node) {
          var restaurant := ExtractRestaurantData(node, parseDouble);
          if restaurant.Err? {
            failure := Some(restaurant.error);
            BuildPageFailedPrefix(entries, j + 1, parseDouble);
            return;
          }
          allRestaurants' := allRestaurants' + {restaurant.value};
          count' := count' + 1;
          ElemsSnoc(pageBuilt, restaurant.value);
          pageBuilt := pageBuilt + [restaurant.value];
        }
      }
      assert entries[..|entries|] == entries;
    }

    /** `preparePayloadFromExistingPayLoad` */
    method PreparePayloadFromExistingPayload(payload: string, offset: int) returns (updated: string)
      ensures setOffset(payload, offset).Some? ==> updated == setOffset(payload, offset).value
      ensures setOffset(payload, offset).None? ==> updated == payload
    {
      var parsed := setOffset(payload, offset);
      if parsed.Some? {
        updated := parsed.value;
      } else {
        updated := payload;
      }
    }
  }
}
