/** The per-location scraper (service/RestaurantScrapingService.java): it
    requests pages at offsets 0, 26, 52, ... while fewer than 250 restaurants
    have been accepted, builds a Restaurant from every entry whose id starts
    with "4-", records each one in the MetaData and collects them in a set. */
module ScrapingService {
  import opened Common
  import opened PayloadModel
  import opened RestaurantModel
  import opened MetaDataModel
  import opened Wire

  /** `PAGE_SIZE` */
  const PageSize := 26
  /** The limit checked at the head of the pagination loop. */
  const Cap := 250

  // ---------------------------------------------------------------------
  // Turning one entry into a Restaurant
  // ---------------------------------------------------------------------

  /** Only entries whose id starts with "4-" are turned into restaurants. */
  predicate IsCandidate(e: Entry) {
    StartsWith(e.id, "4-")
  }

  /** `s.replace("S$", "")`: each "S$" found scanning left to right is deleted. */
  function StripCurrency(s: string): (r: string)
    ensures |r| <= |s|
  {
    if |s| >= 2 && s[0] == 'S' && s[1] == '$' then StripCurrency(s[2..])
    else if s == [] then []
    else [s[0]] + StripCurrency(s[1..])
  }

  /** A display without the two-character marker is passed on unchanged. */
  lemma {:induction false} StripCurrencyWithoutMarker(s: string)
    requires forall i :: 0 <= i < |s| - 1 ==> !(s[i] == 'S' && s[i + 1] == '$')
    ensures StripCurrency(s) == s
  {
    if s != [] {
      var t := s[1..];
      assert forall i :: 0 <= i < |t| ==> t[i] == s[i + 1];
      StripCurrencyWithoutMarker(t);
    }
  }

  /** Deleting works piece by piece: a text is stripped as two parts stripped
      separately, provided the first part does not end in an 'S' that could
      start a marker across the cut; and the marker alone is deleted whole.
      With `StripCurrencyWithoutMarker` this fixes the value on every text
      made of markers and marker-free pieces that do not end in 'S'. */
  lemma {:induction false} StripCurrencyAppend(a: string, b: string)
    requires a == [] || a[|a| - 1] != 'S'
    ensures StripCurrency(a + b) == StripCurrency(a) + StripCurrency(b)
    ensures StripCurrency("S$") == ""
  {
    assert StripCurrency("S$") == StripCurrency([]);
    if a == [] {
      assert a + b == b;
    } else if |a| >= 2 && a[0] == 'S' && a[1] == '$' {
      assert (a + b)[2..] == a[2..] + b;
      StripCurrencyAppend(a[2..], b);
    } else if |a| == 1 {
      assert (a + b)[1..] == b;
      assert StripCurrency(a) == [a[0]] + StripCurrency([]);
    } else {
      assert (a + b)[1..] == a[1..] + b;
      StripCurrencyAppend(a[1..], b);
    }
  }

  /** The scan is a single pass: a marker formed by deleting one is kept. */
  lemma StripCurrencySinglePass()
    ensures StripCurrency("SS$$") == "S$"
    ensures StripCurrency("S$5.00") == "5.00"
  {
  }

  /** The delivery fee: absent for an empty display; otherwise whatever
      `Double.parseDouble` (the parameter) makes of the display with "S$"
      removed, where a `NumberFormatException` (None) also leaves it absent. */
  function DeliveryFee(priceDisplay: string, parseDouble: string -> Option<real>): Option<real> {
    if priceDisplay == "" then None else parseDouble(StripCurrency(priceDisplay))
  }

  /** The record components `extractRestaurantData` passes to the constructor.
      `asText` never yields null, so every string component is present, and
      `Optional.ofNullable` of such a text is never empty. */
  function Components(e: Entry, parseDouble: string -> Option<real>): Restaurant {
    Restaurant(
      Some(e.name), Some(e.cuisine), e.rating, e.estimatedDeliveryTime, e.distanceInKm,
      e.hasPromoKey, Some(e.promoDescription), Some(e.photoHref), Some(e.id),
      e.latitude, e.longitude, DeliveryFee(e.priceDisplay, parseDouble), Some(e.closingSoonText))
  }

  /** `extractRestaurantData`: the Restaurant, or the constructor's exception. */
  function ExtractRestaurantData(e: Entry, parseDouble: string -> Option<real>): Result<Restaurant, ValidationError> {
    NewRestaurant(Components(e, parseDouble))
  }

  /** For a "4-" entry the id check always passes, so extraction fails exactly
      when the name or cuisine is blank, the rating is outside [0, 5], or the
      delivery time or distance is negative; on success the fee is absent
      exactly when the display is empty or does not parse. */
  lemma CandidateExtraction(e: Entry, parseDouble: string -> Option<real>)
    requires IsCandidate(e)
    ensures ExtractRestaurantData(e, parseDouble).Ok? <==>
      && !IsBlank(Some(e.name)) && !IsBlank(Some(e.cuisine))
      && 0.0 <= e.rating <= 5.0 && e.estimatedDeliveryTime >= 0 && e.distanceInKm >= 0.0
    ensures ExtractRestaurantData(e, parseDouble).Ok? ==>
      var r := ExtractRestaurantData(e, parseDouble).value;
      && r.restaurantId == Some(e.id)
      && (r.estimatedDeliveryFee.None? <==>
          e.priceDisplay == "" || parseDouble(StripCurrency(e.priceDisplay)).None?)
  {
    assert e.id[0] == '4';
    assert !IsTrimmable(e.id[0]);
    TrimEmptyIffAllTrimmable(e.id);
  }

  // ---------------------------------------------------------------------
  // What updateMetaData counts
  // ---------------------------------------------------------------------

  /** Whether `updateMetaData` counts field `f` of `r` as null. Rating, delivery
      time, distance, promo flag and coordinates are always counted present. */
  predicate CountsAsNull(r: Restaurant, f: Field) {
    match f
    case Name => IsBlank(r.name)
    case Cuisine => IsBlank(r.cuisine)
    case Rating => false
    case EstimatedDeliveryTime => false
    case Distance => false
    case IsPromoAvailable => false
    case PromoDescription => r.promoDescription.None?
    case ImageLink => IsBlank(r.imageLink)
    case RestaurantId => IsBlank(r.restaurantId)
    case Latitude => false
    case Longitude => false
    case EstimatedDeliveryFee => r.estimatedDeliveryFee.None?
    case ClosingSoonText => r.closingSoonText.None?
  }

  /** One more observation of a field: null or present. */
  function Record(fc: FieldCounts, isNull: bool): FieldCounts {
    var n := if isNull then 1 else 0;
    FieldCounts(fc.nulls + n, fc.notNulls + 1 - n)
  }

  /** The counters after one `updateMetaData(r)`: the total and, for every
      field, exactly one of its two counters rise by one. */
  function Tally(c: Counts, r: Restaurant): Counts {
    Counts(
      c.total + 1,
      Record(c.name, IsBlank(r.name)),
      Record(c.cuisine, IsBlank(r.cuisine)),
      Record(c.rating, false),
      Record(c.estimatedDeliveryTime, false),
      Record(c.distance, false),
      Record(c.isPromoAvailable, false),
      Record(c.promoDescription, r.promoDescription.None?),
      Record(c.imageLink, IsBlank(r.imageLink)),
      Record(c.restaurantId, IsBlank(r.restaurantId)),
      Record(c.latitude, false),
      Record(c.longitude, false),
      Record(c.estimatedDeliveryFee, r.estimatedDeliveryFee.None?),
      Record(c.closingSoonText, r.closingSoonText.None?))
  }

  /** Recording `r` raises the total and, for each field, the null counter
      when `r` lacks the field and the not-null counter otherwise. */
  lemma TallyRecordsEachField(c: Counts, r: Restaurant, f: Field)
    ensures Tally(c, r).total == c.total + 1
    ensures Tally(c, r).Of(f) == Record(c.Of(f), CountsAsNull(r, f))
  {
  }

  /** The counters after recording each of `rs` in order. */
  function TallyAll(c: Counts, rs: seq<Restaurant>): Counts {
    if rs == [] then c else Tally(TallyAll(c, rs[..|rs| - 1]), rs[|rs| - 1])
  }

  /** Recording one more restaurant after `rs`. */
  lemma TallyAllSnoc(c: Counts, rs: seq<Restaurant>, r: Restaurant)
    ensures TallyAll(c, rs + [r]) == Tally(TallyAll(c, rs), r)
  {
    assert (rs + [r])[..|rs|] == rs;
  }

  /** Recording `a` and then `b` is recording `a + b`. */
  lemma {:induction false} TallyAllAppend(c: Counts, a: seq<Restaurant>, b: seq<Restaurant>)
    ensures TallyAll(c, a + b) == TallyAll(TallyAll(c, a), b)
  {
    if b != [] {
      assert (a + b)[..|a + b| - 1] == a + b[..|b| - 1];
      TallyAllAppend(c, a, b[..|b| - 1]);
    } else {
      assert a + b == a;
    }
  }

  /** How many of `rs` count field `f` as null. */
  function NullsAmong(rs: seq<Restaurant>, f: Field): nat {
    if rs == [] then 0
    else NullsAmong(rs[..|rs| - 1], f) + (if CountsAsNull(rs[|rs| - 1], f) then 1 else 0)
  }

  /** Recording `rs` raises the total by |rs|; each field's null counter by the
      number of `rs` that lack it and its not-null counter by the rest. */
  lemma {:induction false} TallyAllCounts(c: Counts, rs: seq<Restaurant>, f: Field)
    ensures NullsAmong(rs, f) <= |rs|
    ensures TallyAll(c, rs).total == c.total + |rs|
    ensures TallyAll(c, rs).Of(f).nulls == c.Of(f).nulls + NullsAmong(rs, f)
    ensures TallyAll(c, rs).Of(f).notNulls == c.Of(f).notNulls + |rs| - NullsAmong(rs, f)
  {
    if rs != [] {
      TallyAllCounts(c, rs[..|rs| - 1], f);
      TallyRecordsEachField(TallyAll(c, rs[..|rs| - 1]), rs[|rs| - 1], f);
    }
  }

  /** A field that is never counted as null keeps its null counter. */
  lemma {:induction false} AlwaysPresentNeverNull(rs: seq<Restaurant>, f: Field)
    requires f in {Rating, EstimatedDeliveryTime, Distance, IsPromoAvailable, Latitude, Longitude}
    ensures NullsAmong(rs, f) == 0
  {
    if rs != [] {
      AlwaysPresentNeverNull(rs[..|rs| - 1], f);
    }
  }

  /** The records the scraper builds: valid, with a "4-" id, and with a
      promo description and closing-soon text always present. */
  predicate Extracted(r: Restaurant) {
    && Valid(r)
    && r.restaurantId.Some? && StartsWith(r.restaurantId.value, "4-")
    && r.promoDescription.Some? && r.closingSoonText.Some?
  }

  lemma ExtractedIsExtracted(e: Entry, parseDouble: string -> Option<real>)
    requires IsCandidate(e) && ExtractRestaurantData(e, parseDouble).Ok?
    ensures Extracted(ExtractRestaurantData(e, parseDouble).value)
  {
  }

  /** Of the thirteen fields, a built record can only be counted null for its
      image link and its delivery fee; an empty promo description or closing
      text still counts as present. */
  lemma ExtractedNullFields(r: Restaurant, f: Field)
    requires Extracted(r)
    ensures CountsAsNull(r, f) ==> f == ImageLink || f == EstimatedDeliveryFee
  {
  }

  // ---------------------------------------------------------------------
  // One page, and the whole pagination loop, as values
  // ---------------------------------------------------------------------

  /** The restaurants built from one page in order, and the exception that
      stopped the page, if any. */
  datatype Page = Page(built: seq<Restaurant>, failure: Option<ValidationError>)

  /** The number of "4-" entries on a page. */
  function CandidateCount(entries: seq<Entry>): nat {
    if entries == [] then 0
    else (if IsCandidate(entries[0]) then 1 else 0) + CandidateCount(entries[1..])
  }

  /** The inner loop over one page: non-"4-" entries are skipped, the others
      are built in order until one fails validation. */
  function BuildPage(entries: seq<Entry>, parseDouble: string -> Option<real>): Page {
    if entries == [] then Page([], None)
    else if !IsCandidate(entries[0]) then BuildPage(entries[1..], parseDouble)
    else match ExtractRestaurantData(entries[0], parseDouble)
      case Err(e) => Page([], Some(e))
      case Ok(r) =>
        var rest := BuildPage(entries[1..], parseDouble);
        Page([r] + rest.built, rest.failure)
  }

  /** A page that completes builds one restaurant per "4-" entry, one that
      fails builds fewer; every restaurant built is one the scraper accepts. */
  lemma {:induction false} BuildPageFacts(entries: seq<Entry>, parseDouble: string -> Option<real>)
    ensures var page := BuildPage(entries, parseDouble);
      && (page.failure.None? ==> |page.built| == CandidateCount(entries))
      && (page.failure.Some? ==> |page.built| < CandidateCount(entries))
      && forall r :: r in page.built ==> Extracted(r)
  {
    if entries != [] {
      BuildPageFacts(entries[1..], parseDouble);
      if IsCandidate(entries[0]) && ExtractRestaurantData(entries[0], parseDouble).Ok? {
        ExtractedIsExtracted(entries[0], parseDouble);
      }
    }
  }

  /** The page built from `a` followed by one more entry `e`, when `a` did
      not fail: `e` is skipped, ends the page with its failure, or is added. */
  lemma {:induction false} BuildPageSnoc(a: seq<Entry>, e: Entry, parseDouble: string -> Option<real>)
    requires BuildPage(a, parseDouble).failure.None?
    ensures var before := BuildPage(a, parseDouble).built;
      BuildPage(a + [e], parseDouble) ==
        if !IsCandidate(e) then Page(before, None)
        else match ExtractRestaurantData(e, parseDouble)
          case Err(err) => Page(before, Some(err))
          case Ok(r) => Page(before + [r], None)
  {
    if a == [] {
      assert a + [e] == [e];
      assert [e][1..] == [];
    } else {
      assert (a + [e])[1..] == a[1..] + [e];
      BuildPageSnoc(a[1..], e, parseDouble);
    }
  }

  /** Once a page has failed, later entries are never looked at. */
  lemma {:induction false} BuildPageFailureSticks(a: seq<Entry>, b: seq<Entry>, parseDouble: string -> Option<real>)
    requires BuildPage(a, parseDouble).failure.Some?
    ensures BuildPage(a + b, parseDouble) == BuildPage(a, parseDouble)
  {
    assert a != [];
    assert (a + b)[1..] == a[1..] + b;
    if !IsCandidate(a[0]) || ExtractRestaurantData(a[0], parseDouble).Ok? {
      BuildPageFailureSticks(a[1..], b, parseDouble);
    }
  }

  /** `BuildPageSnoc` for the first `j + 1` entries of a page. */
  lemma BuildPagePrefix(entries: seq<Entry>, j: nat, parseDouble: string -> Option<real>)
    requires j < |entries| && BuildPage(entries[..j], parseDouble).failure.None?
    ensures var before := BuildPage(entries[..j], parseDouble).built;
      BuildPage(entries[..j + 1], parseDouble) ==
        if !IsCandidate(entries[j]) then Page(before, None)
        else match ExtractRestaurantData(entries[j], parseDouble)
          case Err(err) => Page(before, Some(err))
          case Ok(r) => Page(before + [r], None)
  {
    assert entries[..j + 1] == entries[..j] + [entries[j]];
    BuildPageSnoc(entries[..j], entries[j], parseDouble);
  }

  /** `BuildPageFailureSticks` for a page whose first `k` entries failed. */
  lemma BuildPageFailedPrefix(entries: seq<Entry>, k: nat, parseDouble: string -> Option<real>)
    requires k <= |entries| && BuildPage(entries[..k], parseDouble).failure.Some?
    ensures BuildPage(entries, parseDouble) == BuildPage(entries[..k], parseDouble)
  {
    assert entries[..k] + entries[k..] == entries;
    BuildPageFailureSticks(entries[..k], entries[k..], parseDouble);
  }

  /** A page without "4-" entries, the empty page included, builds nothing. */
  lemma {:induction false} NoCandidatesBuildNothing(entries: seq<Entry>, parseDouble: string -> Option<real>)
    requires forall e :: e in entries ==> !IsCandidate(e)
    ensures BuildPage(entries, parseDouble) == Page([], None)
  {
    if entries != [] {
      NoCandidatesBuildNothing(entries[1..], parseDouble);
    }
  }

  /** Why a scrape stopped. */
  datatype End =
    | CapReached         // the count was at least 250 at the loop head
    | NotArrayResult     // the result node was not an array
    | FailedResponse     // null or unsuccessful response
    | FetchThrew         // makeRequest threw
    | InvalidEntry(error: ValidationError)

  /** A scrape as a value: the requests in order, the restaurants built in
      order (duplicates included), why it stopped, and the part of the
      client's script it left unused. */
  datatype Run<Req> = Run(requests: seq<Req>, built: seq<Restaurant>, end: End, rest: seq<Reply>)

  /** `prepareExistingPayload`: the page request at `offset`. */
  function PreparedPayload(p: PayloadFields, offset: int): PayloadFields {
    PayloadFields(p.latlng, p.keyword, offset, PageSize, p.countryCode)
  }

  /** One turn of the pagination loop: the request made, the restaurants
      built from its reply, and why the loop stops after it (None: it goes
      on to the next offset). An exhausted script answers as `Refused`. */
  datatype Turn = Turn(request: PayloadFields, built: seq<Restaurant>, stop: Option<End>)

  /** The reply the client gives next. */
  function NextReply(replies: seq<Reply>): Reply {
    if replies == [] then Refused else replies[0]
  }

  /** The script left after one request. */
  function Later(replies: seq<Reply>): seq<Reply> {
    if replies == [] then [] else replies[1..]
  }

  /** The turn for page number `page`: a failed or thrown request and a
      non-array result stop the loop; an array is built page-wise, and a
      validation failure on it stops the loop too. */
  function TurnAt(p: PayloadFields, replies: seq<Reply>, parseDouble: string -> Option<real>, page: nat): Turn {
    var request := PreparedPayload(p, PageSize * page);
    match NextReply(replies)
    case Raised => Turn(request, [], Some(FetchThrew))
    case Refused => Turn(request, [], Some(FailedResponse))
    case Delivered(NotArray) => Turn(request, [], Some(NotArrayResult))
    case Delivered(Results(entries)) =>
      var pg := BuildPage(entries, parseDouble);
      Turn(request, pg.built, if pg.failure.Some? then Some(InvalidEntry(pg.failure.value)) else None)
  }

  /** The pagination loop from page number `page`, with the requests made
      and the restaurants built so far (one per `count++`, duplicates
      included), against the scripted replies. */
  function Loop(p: PayloadFields, replies: seq<Reply>, parseDouble: string -> Option<real>, page: nat,
                requests: seq<PayloadFields>, built: seq<Restaurant>): Run<PayloadFields>
    decreases |replies|
  {
    if |built| >= Cap then Run(requests, built, CapReached, replies)
    else
      var turn := TurnAt(p, replies, parseDouble, page);
      if turn.stop.Some? || replies == [] then
        Run(requests + [turn.request], built + turn.built, turn.stop.GetOr(FailedResponse), Later(replies))
      else
        Loop(p, replies[1..], parseDouble, page + 1, requests + [turn.request], built + turn.built)
  }

  /** A whole `scrape` as a value: the loop from offset 0 with nothing counted. */
  function ServiceRun(p: PayloadFields, replies: seq<Reply>, parseDouble: string -> Option<real>): Run<PayloadFields> {
    Loop(p, replies, parseDouble, 0, [], [])
  }

  /** The i-th request asks for page size 26 at offset 26 * i and copies the
      location, keyword and country code of the caller's payload. */
  lemma {:induction false} LoopRequestsArePaged(p: PayloadFields, replies: seq<Reply>, parseDouble: string -> Option<real>, page: nat,
                                                requests: seq<PayloadFields>, built: seq<Restaurant>)
    requires page == |requests|
    requires forall i :: 0 <= i < |requests| ==> requests[i] == PreparedPayload(p, PageSize * i)
    ensures var run := Loop(p, replies, parseDouble, page, requests, built);
      forall i :: 0 <= i < |run.requests| ==> run.requests[i] == PreparedPayload(p, PageSize * i)
    decreases |replies|
  {
    if |built| < Cap {
      var turn := TurnAt(p, replies, parseDouble, page);
      if !(turn.stop.Some? || replies == []) {
        LoopRequestsArePaged(p, replies[1..], parseDouble, page + 1, requests + [turn.request], built + turn.built);
      }
    }
  }

  lemma RequestsArePaged(p: PayloadFields, replies: seq<Reply>, parseDouble: string -> Option<real>, i: nat)
    requires i < |ServiceRun(p, replies, parseDouble).requests|
    ensures var q := ServiceRun(p, replies, parseDouble).requests[i];
      && q.offset == PageSize * i && q.pageSize == PageSize
      && q.latlng == p.latlng && q.keyword == p.keyword && q.countryCode == p.countryCode
  {
    LoopRequestsArePaged(p, replies, parseDouble, 0, [], []);
  }

  /** The most entries any array page of the script holds. */
  function LargestPage(replies: seq<Reply>): nat {
    if replies == [] then 0
    else
      var here := if replies[0].Delivered? && replies[0].body.Results? then |replies[0].body.entries| else 0;
      var later := LargestPage(replies[1..]);
      if here < later then later else here
  }

  /** A turn builds at most as many restaurants as its page has entries, and
      only restaurants the scraper accepts. */
  lemma TurnBound(p: PayloadFields, replies: seq<Reply>, parseDouble: string -> Option<real>, page: nat)
    ensures |TurnAt(p, replies, parseDouble, page).built| <= LargestPage(replies)
    ensures forall r :: r in TurnAt(p, replies, parseDouble, page).built ==> Extracted(r)
  {
    if replies != [] && replies[0].Delivered? && replies[0].body.Results? {
      var entries := replies[0].body.entries;
      BuildPageFacts(entries, parseDouble);
      CandidateCountBound(entries);
    }
  }

  lemma {:induction false} CandidateCountBound(entries: seq<Entry>)
    ensures CandidateCount(entries) <= |entries|
  {
    if entries != [] {
      CandidateCountBound(entries[1..]);
    }
  }

  /** The loop only adds to what it was given; it stops for the cap only
      once 250 restaurants are counted, and the count can pass 250 by less
      than one page, since it is only checked between pages. At most one
      request more than there are scripted replies is made. */
  lemma {:induction false} LoopBounds(p: PayloadFields, replies: seq<Reply>, parseDouble: string -> Option<real>, page: nat,
                                      requests: seq<PayloadFields>, built: seq<Restaurant>)
    ensures var run := Loop(p, replies, parseDouble, page, requests, built);
      && |requests| <= |run.requests| <= |requests| + |replies| + 1
      && run.requests[..|requests|] == requests
      && |built| <= |run.built| && run.built[..|built|] == built
      && (|built| < Cap ==> |run.requests| > |requests|)
      && (run.end == CapReached ==> |run.built| >= Cap)
      && (|built| < Cap ==> |run.built| < Cap + LargestPage(replies))
    decreases |replies|
  {
    if |built| < Cap {
      var turn := TurnAt(p, replies, parseDouble, page);
      TurnBound(p, replies, parseDouble, page);
      if turn.stop.Some? || replies == [] {
        assert (requests + [turn.request])[..|requests|] == requests;
        assert (built + turn.built)[..|built|] == built;
      } else {
        LoopBounds(p, replies[1..], parseDouble, page + 1, requests + [turn.request], built + turn.built);
        var run := Loop(p, replies, parseDouble, page, requests, built);
        assert run.requests[..|requests|] == (run.requests[..|requests| + 1])[..|requests|];
        assert run.built[..|built|] == (run.built[..|built| + |turn.built|])[..|built|];
      }
    }
  }

  /** A whole scrape makes at least one request and at most one more than
      there are scripted replies; it ends for the cap only once 250
      restaurants are counted, and the count passes 250 by less than the
      largest page. */
  lemma CountBounds(p: PayloadFields, replies: seq<Reply>, parseDouble: string -> Option<real>)
    ensures var run := ServiceRun(p, replies, parseDouble);
      && 1 <= |run.requests| <= |replies| + 1
      && (run.end == CapReached ==> |run.built| >= Cap)
      && |run.built| < Cap + LargestPage(replies)
  {
    LoopBounds(p, replies, parseDouble, 0, [], []);
  }

  /** An array page with no "4-" entries, the empty array included, does not
      stop the loop: it only moves on to the next offset. */
  lemma EmptyArrayContinues(p: PayloadFields, replies: seq<Reply>, parseDouble: string -> Option<real>, page: nat,
                            requests: seq<PayloadFields>, built: seq<Restaurant>)
    requires |built| < Cap && replies != [] && replies[0].Delivered? && replies[0].body.Results?
    requires forall e :: e in replies[0].body.entries ==> !IsCandidate(e)
    ensures Loop(p, replies, parseDouble, page, requests, built)
      == Loop(p, replies[1..], parseDouble, page + 1, requests + [PreparedPayload(p, PageSize * page)], built)
  {
    NoCandidatesBuildNothing(replies[0].body.entries, parseDouble);
    assert built + [] == built;
  }

  /** Every restaurant a scrape builds is valid, has a "4-" id, and carries a
      promo description and closing-soon text. */
  lemma {:induction false} LoopBuildsExtracted(p: PayloadFields, replies: seq<Reply>, parseDouble: string -> Option<real>, page: nat,
                                               requests: seq<PayloadFields>, built: seq<Restaurant>)
    requires forall r :: r in built ==> Extracted(r)
    ensures forall r :: r in Loop(p, replies, parseDouble, page, requests, built).built ==> Extracted(r)
    decreases |replies|
  {
    if |built| < Cap {
      var turn := TurnAt(p, replies, parseDouble, page);
      TurnBound(p, replies, parseDouble, page);
      if !(turn.stop.Some? || replies == []) {
        LoopBuildsExtracted(p, replies[1..], parseDouble, page + 1, requests + [turn.request], built + turn.built);
      }
    }
  }

  lemma RunBuildsExtracted(p: PayloadFields, replies: seq<Reply>, parseDouble: string -> Option<real>)
    ensures forall r :: r in ServiceRun(p, replies, parseDouble).built ==> Extracted(r)
  {
    LoopBuildsExtracted(p, replies, parseDouble, 0, [], []);
  }

  // ---------------------------------------------------------------------
  // The service object
  // ---------------------------------------------------------------------

  /** The exception that leaves `scrape`. */
  datatype ScrapeError =
    | FetchFailed                                // from makeRequest
    | InvalidRestaurant(error: ValidationError)  // from the Restaurant constructor

  /** `ScrapedData`: the set of restaurants and the final state of the MetaData. */
  datatype ScrapedData = ScrapedData(restaurantSet: set<Restaurant>, metaData: MetaDataView)

  /** What `scrape` gives back for a run: the exception it threw, or the
      deduplicated set of the restaurants built. */
  function ScrapeOutcome(run: Run<PayloadFields>, meta: MetaDataView): Result<ScrapedData, ScrapeError> {
    match run.end
    case FetchThrew => Err(FetchFailed)
    case InvalidEntry(e) => Err(InvalidRestaurant(e))
    case _ => Ok(ScrapedData(Elems(run.built), meta))
  }

  /** The set never holds more restaurants than were counted. */
  lemma SetNoLargerThanCount(run: Run<PayloadFields>, meta: MetaDataView)
    requires ScrapeOutcome(run, meta).Ok?
    ensures |ScrapeOutcome(run, meta).value.restaurantSet| <= |run.built|
  {
    ElemsBound(run.built);
  }

  class RestaurantScrapingService {
    const client: ScriptedClient<PayloadFields>
    const metaData: MetaData
    /** `Double.parseDouble`: None where it throws `NumberFormatException`. */
    const parseDouble: string -> Option<real>

    constructor (client: ScriptedClient<PayloadFields>, metaData: MetaData, parseDouble: string -> Option<real>)
      ensures this.client == client && this.metaData == metaData && this.parseDouble == parseDouble
    {
      this.client := client;
      this.metaData := metaData;
      this.parseDouble := parseDouble;
    }

    /** `scrape`: requests pages until the count reaches 250, a response
        fails or the result node is not an array, and returns the set of the
        restaurants built with this service's MetaData; see `ServiceRun`. */
    method Scrape(payload: Payload) returns (result: Result<ScrapedData, ScrapeError>)
      modifies client, metaData
      ensures var run := ServiceRun(old(payload.Fields()), old(client.pending), parseDouble);
        && client.sent == old(client.sent) + run.requests
        && client.pending == run.rest
        && metaData.counts == TallyAll(old(metaData.counts), run.built)
        && result == ScrapeOutcome(run, metaData.View())
    {
      ghost var P := payload.Fields();
      ghost var run := ServiceRun(P, client.pending, parseDouble);
      ghost var counts0 := metaData.counts;
      ghost var sent0 := client.sent;
      ghost var page: nat := 0;
      ghost var requests: seq<PayloadFields> := [];
      ghost var built: seq<Restaurant> := [];

      var allRestaurants: set<Restaurant> := {};
      var offset := 0;
      var count := 0;
      while count < Cap
        invariant payload.Fields() == P
        invariant offset == PageSize * page && count == |built|
        invariant allRestaurants == Elems(built)
        invariant client.sent == sent0 + requests
        invariant metaData.counts == TallyAll(counts0, built)
        invariant run == Loop(P, client.pending, parseDouble, page, requests, built)
        decreases |client.pending|
      {
        ghost var turn := TurnAt(P, client.pending, parseDouble, page);
        ghost var pending := client.pending;
        var stop;
        allRestaurants, count, stop := NextPage(payload, offset, page, allRestaurants, count);
        TallyAllAppend(counts0, built, turn.built);
        ElemsAppend(built, turn.built);
        requests := requests + [turn.request];
        built := built + turn.built;
        if stop.Some? {
          match stop.value {
            case FetchThrew =>
              return Err(FetchFailed);
            case InvalidEntry(e) =>
              return Err(InvalidRestaurant(e));
            case _ =>
              break;
          }
        }
        offset := offset + PageSize;
        page := page + 1;
      }
      result := Ok(ScrapedData(allRestaurants, metaData.View()));
    }

    /** The body of the `while` loop of `scrape`: the page request at
        `offset` is made; a thrown, failed or non-array response ends the
        loop, and an array is scraped entry by entry. */
    method NextPage(payload: Payload, offset: int, ghost page: nat, allRestaurants: set<Restaurant>, count: int)
      returns (allRestaurants': set<Restaurant>, count': int, stop: Option<End>)
      requires offset == PageSize * page
      modifies client, metaData
      ensures var turn := TurnAt(payload.Fields(), old(client.pending), parseDouble, page);
        && client.sent == old(client.sent) + [turn.request]
        && client.pending == Later(old(client.pending))
        && metaData.counts == TallyAll(old(metaData.counts), turn.built)
        && allRestaurants' == allRestaurants + Elems(turn.built)
        && count' == count + |turn.built|
        && stop == turn.stop
    {
      var updatedPayload := PrepareExistingPayload(payload, offset);
      var response := client.MakeRequest(updatedPayload.Fields());
      allRestaurants', count' := allRestaurants, count;
      match response {
        case Raised =>
          stop := Some(FetchThrew);
        case Refused =>
          stop := Some(FailedResponse);
        case Delivered(NotArray) =>
          stop := Some(NotArrayResult);
        case Delivered(Results(entries)) =>
          var failure;
          allRestaurants', count', failure := ScrapeEntries(entries, allRestaurants, count);
          stop := if failure.Some? then Some(InvalidEntry(failure.value)) else None;
      }
    }

    /** The inner `for` loop of `scrape` over one page's array: entries whose
        id does not start with "4-" are skipped; each other one is built,
        recorded in the MetaData, added to the set and counted, until one
        fails validation, whose exception is returned as `failure`. */
    method ScrapeEntries(entries: seq<Entry>, allRestaurants: set<Restaurant>, count: int)
      returns (allRestaurants': set<Restaurant>, count': int, failure: Option<ValidationError>)
      modifies metaData
      ensures var pg := BuildPage(entries, parseDouble);
        && failure == pg.failure
        && metaData.counts == TallyAll(old(metaData.counts), pg.built)
        && allRestaurants' == allRestaurants + Elems(pg.built)
        && count' == count + |pg.built|
    {
      ghost var counts0 := metaData.counts;
      ghost var pageBuilt: seq<Restaurant> := [];
      allRestaurants', count', failure := allRestaurants, count, None;
      for j := 0 to |entries|
        invariant count' == count + |pageBuilt|
        invariant allRestaurants' == allRestaurants + Elems(pageBuilt)
        invariant metaData.counts == TallyAll(counts0, pageBuilt)
        invariant BuildPage(entries[..j], parseDouble) == Page(pageBuilt, None)
      {
        var node := entries[j];
        BuildPagePrefix(entries, j, parseDouble);
        if IsCandidate(node) {
          var restaurant := ExtractRestaurantData(node, parseDouble);
          if restaurant.Err? {
            failure := Some(restaurant.error);
            BuildPageFailedPrefix(entries, j + 1, parseDouble);
            return;
          }
          UpdateMetaData(restaurant.value);
          TallyAllSnoc(counts0, pageBuilt, restaurant.value);
          allRestaurants' := allRestaurants' + {restaurant.value};
          count' := count' + 1;
          ElemsSnoc(pageBuilt, restaurant.value);
          pageBuilt := pageBuilt + [restaurant.value];
        }
      }
      assert entries[..|entries|] == entries;
    }

    /** `prepareExistingPayload`: a new payload for the page at `offset`. */
    method PrepareExistingPayload(payload: Payload, offset: int) returns (updated: Payload)
      ensures fresh(updated) && updated.Fields() == PreparedPayload(payload.Fields(), offset)
    {
      updated := new Payload(payload.GetLatlng(), payload.GetKeyword(), offset, PageSize, payload.GetCountryCode());
    }

    /** `updateMetaData`: records one restaurant, raising the total and, for
        each of the thirteen fields in turn, its null counter when the check
        finds the value missing and its not-null counter otherwise. The calls
        are made in the source's order; they are grouped into four steps so
        that each step is proved on its own. */
    method UpdateMetaData(restaurant: Restaurant)
      modifies metaData
      ensures metaData.counts == Tally(old(metaData.counts), restaurant)
    {
      RecordNameAndCuisine(restaurant);
      RecordFigures();
      RecordTexts(restaurant);
      RecordPlaceAndExtras(restaurant);
    }

    /** The total, then the name and cuisine checks. */
    method RecordNameAndCuisine(restaurant: Restaurant)
      modifies metaData
      ensures var c := old(metaData.counts);
        metaData.counts == c.(total := c.total + 1,
          name := Record(c.name, IsBlank(restaurant.name)),
          cuisine := Record(c.cuisine, IsBlank(restaurant.cuisine)))
    {
      metaData.IncrementTotalCount();
      Observe(Name, IsBlank(restaurant.name));
      Observe(Cuisine, IsBlank(restaurant.cuisine));
    }

    /** Rating, delivery time, distance and promo flag: always counted present. */
    method RecordFigures()
      modifies metaData
      ensures var c := old(metaData.counts);
        metaData.counts == c.(rating := Record(c.rating, false),
          estimatedDeliveryTime := Record(c.estimatedDeliveryTime, false),
          distance := Record(c.distance, false),
          isPromoAvailable := Record(c.isPromoAvailable, false))
    {
      metaData.CountNotNull(Rating);
      metaData.CountNotNull(EstimatedDeliveryTime);
      metaData.CountNotNull(Distance);
      metaData.CountNotNull(IsPromoAvailable);
    }

    /** The promo description, image link and restaurant id checks. */
    method RecordTexts(restaurant: Restaurant)
      modifies metaData
      ensures var c := old(metaData.counts);
        metaData.counts == c.(promoDescription := Record(c.promoDescription, restaurant.promoDescription.None?),
          imageLink := Record(c.imageLink, IsBlank(restaurant.imageLink)),
          restaurantId := Record(c.restaurantId, IsBlank(restaurant.restaurantId)))
    {
      Observe(PromoDescription, restaurant.promoDescription.None?);
      Observe(ImageLink, IsBlank(restaurant.imageLink));
      Observe(RestaurantId, IsBlank(restaurant.restaurantId));
    }

    /** Latitude and longitude (always present), then the fee and closing-soon checks. */
    method RecordPlaceAndExtras(restaurant: Restaurant)
      modifies metaData
      ensures var c := old(metaData.counts);
        metaData.counts == c.(latitude := Record(c.latitude, false),
          longitude := Record(c.longitude, false),
          estimatedDeliveryFee := Record(c.estimatedDeliveryFee, restaurant.estimatedDeliveryFee.None?),
          closingSoonText := Record(c.closingSoonText, restaurant.closingSoonText.None?))
    {
      metaData.CountNotNull(Latitude);
      metaData.CountNotNull(Longitude);
      Observe(EstimatedDeliveryFee, restaurant.estimatedDeliveryFee.None?);
      Observe(ClosingSoonText, restaurant.closingSoonText.None?);
    }

    /** One null check: the null counter of `f` when the value is missing,
        its not-null counter otherwise. */
    method Observe(f: Field, isNull: bool)
      modifies metaData
      ensures metaData.counts == old(metaData.counts).With(f, Record(old(metaData.counts).Of(f), isNull))
    {
      if isNull {
        metaData.CountNull(f);
      } else {
        metaData.CountNotNull(f);
      }
    }
  }
}
