/** The older multi-location scraper (service/MultiLocationScraper.java): one
    task per payload text, each scraping it with a new older-style scraper;
    a failed task counts as an empty set, and the result is the union of all
    sets. Its pool is shut down at the end of every call and never replaced.
    Its tasks are run one after another in payload order over the shared
    client. */
module LegacyMultiLocation {
  import opened Common
  import opened RestaurantModel
  import opened Wire
  import opened ScrapingService
  import opened LegacyScraper

  /** The future of one task: the set its scrape returned, or the exception
      it threw. */
  type LegacyTask = Result<set<Restaurant>, ScrapeError>

  /** What the submission loop has produced once its tasks are done. */
  datatype LegacyFetched = LegacyFetched(futures: seq<LegacyTask>, sent: seq<string>, rest: seq<Reply>)

  /** Tasks for `payloads` run in order, each over the part of the script
      the ones before it left, after the futures and requests so far. */
  function LegacyFetchFrom(payloads: seq<string>, replies: seq<Reply>, parseDouble: string -> Option<real>,
                           setOffset: (string, int) -> Option<string>,
                           futures: seq<LegacyTask>, sent: seq<string>): LegacyFetched
    decreases |payloads|
  {
    if payloads == [] then LegacyFetched(futures, sent, replies)
    else
      var run := LegacyRun(payloads[0], replies, parseDouble, setOffset);
      LegacyFetchFrom(payloads[1..], run.rest, parseDouble, setOffset, futures + [LegacyOutcome(run)], sent + run.requests)
  }

  function LegacyFetch(payloads: seq<string>, replies: seq<Reply>, parseDouble: string -> Option<real>,
                       setOffset: (string, int) -> Option<string>): LegacyFetched {
    LegacyFetchFrom(payloads, replies, parseDouble, setOffset, [], [])
  }

  /** The stream pipeline: each failed future becomes an empty set, and the
      sets are collected into one. */
  function Collected(futures: seq<LegacyTask>): set<Restaurant> {
    if futures == [] then {}
    else
      var last := futures[|futures| - 1];
      Collected(futures[..|futures| - 1]) + (if last.Ok? then last.value else {})
  }

  /** A restaurant is collected exactly when some task that did not fail
      returned it. */
  lemma {:induction false} CollectedMembers(futures: seq<LegacyTask>, r: Restaurant)
    ensures r in Collected(futures) <==> exists i :: 0 <= i < |futures| && futures[i].Ok? && r in futures[i].value
  {
    if futures != [] {
      var init := futures[..|futures| - 1];
      CollectedMembers(init, r);
      assert forall i :: 0 <= i < |init| ==> init[i] == futures[i];
      var last := futures[|futures| - 1];
      if last.Ok? && r in last.value {
        assert 0 <= |futures| - 1 < |futures|;
      }
    }
  }

  /** One task per payload, in order; every restaurant of every task that
      did not fail is valid and has a "4-" id. */
  lemma {:induction false} LegacyFetchFacts(payloads: seq<string>, replies: seq<Reply>, parseDouble: string -> Option<real>,
                                            setOffset: (string, int) -> Option<string>,
                                            futures: seq<LegacyTask>, sent: seq<string>)
    requires forall r :: r in Collected(futures) ==> Extracted(r)
    ensures var f := LegacyFetchFrom(payloads, replies, parseDouble, setOffset, futures, sent).futures;
      && |f| == |futures| + |payloads|
      && forall r :: r in Collected(f) ==> Extracted(r)
    decreases |payloads|
  {
    if payloads != [] {
      var run := LegacyRun(payloads[0], replies, parseDouble, setOffset);
      LegacyRunBuildsExtracted(payloads[0], replies, parseDouble, setOffset);
      var t := LegacyOutcome(run);
      if t.Ok? {
        forall r | r in t.value
          ensures Extracted(r)
        {
          ElemsMembers(run.built, r);
        }
      }
      assert (futures + [t])[..|futures|] == futures;
      LegacyFetchFacts(payloads[1..], run.rest, parseDouble, setOffset, futures + [t], sent + run.requests);
    }
  }

  lemma LegacyScrapeLocationsFacts(payloads: seq<string>, replies: seq<Reply>, parseDouble: string -> Option<real>,
                                   setOffset: (string, int) -> Option<string>)
    ensures var f := LegacyFetch(payloads, replies, parseDouble, setOffset).futures;
      && |f| == |payloads|
      && forall r :: r in Collected(f) ==> Extracted(r)
  {
    LegacyFetchFacts(payloads, replies, parseDouble, setOffset, [], []);
  }

  /** The exceptions `scrapeLocations` throws. */
  datatype MultiError =
    | Rejected      // the pool was shut down by an earlier call
    | Interrupted   // ScrapingException("Scraping interrupted") from awaitTermination

  class MultiLocationScraper {
    const client: ScriptedClient<string>
    const parseDouble: string -> Option<real>
    const setOffset: (string, int) -> Option<string>
    /** Whether the pool created by the constructor has been shut down. */
    var poolShutdown: bool

    constructor (client: ScriptedClient<string>, parseDouble: string -> Option<real>,
                 setOffset: (string, int) -> Option<string>)
      ensures this.client == client && this.parseDouble == parseDouble && this.setOffset == setOffset
      ensures !poolShutdown
    {
      this.client := client;
      this.parseDouble := parseDouble;
      this.setOffset := setOffset;
      poolShutdown := false;
    }

    /** `scrapeLocations(locations, payloads)`: `locations` is not read. Once a
        call has shut the pool down, a later call with payloads is refused at
        its first submission. `interrupted` is whether the wait for the pool's
        termination is interrupted. */
    method ScrapeLocations(locations: seq<NString>, payloads: seq<string>, interrupted: bool)
      returns (result: Result<set<Restaurant>, MultiError>)
      modifies this, client
      ensures old(poolShutdown) && payloads != [] ==>
        result == Err(Rejected) && poolShutdown && unchanged(client)
      ensures !(old(poolShutdown) && payloads != []) ==>
        var fetched := LegacyFetch(payloads, old(client.pending), parseDouble, setOffset);
        && client.sent == old(client.sent) + fetched.sent
        && client.pending == fetched.rest
        && poolShutdown
        && result == if interrupted then Err(Interrupted) else Ok(Collected(fetched.futures))
    {
      if poolShutdown && payloads != [] {
        return Err(Rejected);
      }
      var futures := SubmitAll(payloads);
      var allRestaurants := CollectAll(futures);
      poolShutdown := true;
      if interrupted {
        return Err(Interrupted);
      }
      return Ok(allRestaurants);
    }

    /** The submission loop: one task per payload, each scraping `null`
        and the payload with a new scraper over the shared client. */
    method SubmitAll(payloads: seq<string>) returns (futures: seq<LegacyTask>)
      modifies client
      ensures var fetched := LegacyFetch(payloads, old(client.pending), parseDouble, setOffset);
        && futures == fetched.futures
        && client.sent == old(client.sent) + fetched.sent
        && client.pending == fetched.rest
    {
      ghost var fetched := LegacyFetch(payloads, client.pending, parseDouble, setOffset);
      ghost var sent: seq<string> := [];
      ghost var sent0 := client.sent;
      futures := [];
      for i := 0 to |payloads|
        invariant fetched == LegacyFetchFrom(payloads[i..], client.pending, parseDouble, setOffset, futures, sent)
        invariant client.sent == sent0 + sent
      {
        ghost var pending := client.pending;
        var scraper := new LegacyRestaurantScraper(client, parseDouble, setOffset);
        var future := scraper.Scrape(None, payloads[i]);
        assert payloads[i..][1..] == payloads[i + 1..];
        sent := sent + LegacyRun(payloads[i], pending, parseDouble, setOffset).requests;
        futures := futures + [future];
      }
    }

    /** The stream pipeline over the futures. */
    method CollectAll(futures: seq<LegacyTask>) returns (allRestaurants: set<Restaurant>)
      ensures allRestaurants == Collected(futures)
    {
      allRestaurants := {};
      for i := 0 to |futures|
        invariant allRestaurants == Collected(futures[..i])
      {
        assert futures[..i + 1][..i] == futures[..i];
        var restaurants := if futures[i].Ok? then futures[i].value else {};
        allRestaurants := allRestaurants + restaurants;
      }
      assert futures[..|futures|] == futures;
    }
  }
}
