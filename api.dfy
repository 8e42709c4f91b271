/** The entry point for several locations (api/RestaurantScraper.java): it
    scrapes all payloads through the multi-location service, unites the
    restaurant sets, replaces its fee and time map, and answers lookups in
    that map. */
module Api {
  import opened Common
  import opened PayloadModel
  import opened RestaurantModel
  import opened Wire
  import opened ScrapingService
  import opened MultiLocationService

  /** The exceptions that leave `scrapeLocations` and `showEstimatedFeeTime`. */
  datatype ApiError =
    | TaskRejected                     // the service's pool refused new tasks
    | TaskFailed(cause: ScrapeError)   // a task failed; thrown by generateAggregateMetaData
    | NotPresent                       // "The restaurantId is not present in our list"

  /** The union of the restaurant sets of the futures that completed with a
      value, added future by future. */
  function UnionOf(futures: seq<Task>): set<Restaurant> {
    if futures == [] then {} else UnionOf(futures[..|futures| - 1]) + Members(futures[|futures| - 1])
  }

  /** A restaurant is in the union exactly when some future that completed
      with a value holds it; failed and null futures add nothing. */
  lemma {:induction false} UnionOfMembers(futures: seq<Task>, r: Restaurant)
    ensures r in UnionOf(futures) <==> exists i :: 0 <= i < |futures| && r in Members(futures[i])
  {
    if futures != [] {
      var init := futures[..|futures| - 1];
      UnionOfMembers(init, r);
      assert forall i :: 0 <= i < |init| ==> init[i] == futures[i];
      if r in Members(futures[|futures| - 1]) {
        assert 0 <= |futures| - 1 < |futures|;
      }
    }
  }

  /** What `scrapeLocations` returns once the futures are known: the union,
      unless a future failed, in which case the aggregate MetaData step throws
      that failure's cause although the union step had skipped it. */
  function ScrapeLocationsResult(futures: seq<Task>): Result<set<Restaurant>, ApiError> {
    match AggregateReport(futures)
    case Err(e) => Err(TaskFailed(e))
    case Ok(_) => Ok(UnionOf(futures))
  }

  /** `scrapeLocations` returns exactly when every task completed, and then
      returns every restaurant of every task. */
  lemma ScrapeLocationsFailsIffATaskFailed(futures: seq<Task>, r: Restaurant)
    ensures ScrapeLocationsResult(futures).Ok? <==> forall i :: 0 <= i < |futures| ==> !futures[i].Failed?
    ensures ScrapeLocationsResult(futures).Ok? ==>
      (r in ScrapeLocationsResult(futures).value <==> exists i :: 0 <= i < |futures| && r in Members(futures[i]))
  {
    AggregateReportFails(futures);
    UnionOfMembers(futures, r);
  }

  /** Every restaurant the scraping of several locations returns is valid,
      has a "4-" id, and carries a promo description and closing-soon text. */
  lemma {:induction false} FetchedRestaurantsAreExtracted(ps: seq<PayloadFields>, k: nat, replies: seq<Reply>,
                                                         parseDouble: string -> Option<real>,
                                                         futures: seq<Task>, sent: seq<PayloadFields>)
    requires k <= |ps| && forall r :: r in UnionOf(futures) ==> Extracted(r)
    ensures forall r :: r in UnionOf(FetchFrom(ps[k..], replies, parseDouble, futures, sent).futures) ==> Extracted(r)
    decreases |ps| - k
  {
    if k < |ps| {
      var run := ServiceRun(ps[k], replies, parseDouble);
      var t := TaskFuture(ps[k], run);
      RunBuildsExtracted(ps[k], replies, parseDouble);
      forall r | r in Members(t)
        ensures Extracted(r)
      {
        ElemsMembers(run.built, r);
      }
      assert (futures + [t])[..|futures|] == futures;
      assert ps[k..][1..] == ps[k + 1..];
      FetchedRestaurantsAreExtracted(ps, k + 1, run.rest, parseDouble, futures + [t], sent + run.requests);
    }
  }

  class RestaurantScraper {
    const multiLocationScrapingService: MultiLocationScrapingService
    var restaurantIdFeeTimeMap: map<NString, FeeTime>

    /** Stores the service and the given map as the initial fee and time map. */
    constructor (multiLocationScrapingService: MultiLocationScrapingService, restaurantIdMap: map<NString, FeeTime>)
      ensures this.multiLocationScrapingService == multiLocationScrapingService
      ensures restaurantIdFeeTimeMap == restaurantIdMap
    {
      this.multiLocationScrapingService := multiLocationScrapingService;
      restaurantIdFeeTimeMap := restaurantIdMap;
    }

    /** `scrapeLocations`: fetches one future per payload, unites their
        restaurant sets (skipping failed futures), replaces the fee and time
        map by `processScrapedData`'s result, then has the MetaData reports
        generated, which throws if any future failed. */
    method ScrapeLocations(payloads: seq<Payload>) returns (result: Result<set<Restaurant>, ApiError>)
      modifies this, multiLocationScrapingService.client
      ensures var service := multiLocationScrapingService;
        old(service.pool.shutdown) && payloads != [] ==>
          && result == Err(TaskRejected)
          && restaurantIdFeeTimeMap == old(restaurantIdFeeTimeMap)
          && unchanged(service.client)
      ensures var service := multiLocationScrapingService;
        !(old(service.pool.shutdown) && payloads != []) ==>
          var fetched := Fetch(old(FieldsOf(payloads)), old(service.client.pending), service.parseDouble);
          && service.client.sent == old(service.client.sent) + fetched.sent
          && service.client.pending == fetched.rest
          && FeeTimeMap(fetched.futures, restaurantIdFeeTimeMap)
          && result == ScrapeLocationsResult(fetched.futures)
    {
      var fetched := multiLocationScrapingService.FetchScrapedData(payloads);
      if fetched.Err? {
        return Err(TaskRejected);
      }
      var futures := fetched.value;
      var restaurantSet := UniteSets(futures);
      restaurantIdFeeTimeMap := multiLocationScrapingService.ProcessScrapedData(futures);
      var reports := multiLocationScrapingService.GenerateAggregateMetaData(futures);
      if reports.Err? {
        return Err(TaskFailed(reports.error));
      }
      return Ok(restaurantSet);
    }

    /** The `forEach` of `scrapeLocations` that adds each completed future's
        set of restaurants into one set; a failed future is logged and skipped. */
    method UniteSets(futures: seq<Task>) returns (restaurantSet: set<Restaurant>)
      ensures restaurantSet == UnionOf(futures)
    {
      restaurantSet := {};
      for i := 0 to |futures|
        invariant restaurantSet == UnionOf(futures[..i])
      {
        assert futures[..i + 1][..i] == futures[..i];
        match futures[i] {
          case Completed(Some(scrapedData)) =>
            restaurantSet := restaurantSet + scrapedData.restaurantSet;
          case Completed(None) =>
          case Failed(_) =>
        }
      }
      assert futures[..|futures|] == futures;
    }

    /** `showEstimatedFeeTime`: the pair for a known id (which the source
        logs); an unknown id throws. Nothing is changed. */
    method ShowEstimatedFeeTime(restaurantId: NString) returns (result: Result<FeeTime, ApiError>)
      ensures restaurantId in restaurantIdFeeTimeMap ==> result == Ok(restaurantIdFeeTimeMap[restaurantId])
      ensures restaurantId !in restaurantIdFeeTimeMap ==> result == Err(NotPresent)
    {
      if restaurantId in restaurantIdFeeTimeMap {
        result := Ok(restaurantIdFeeTimeMap[restaurantId]);
      } else {
        result := Err(NotPresent);
      }
    }
  }
}
