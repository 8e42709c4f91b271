/** Scraping several locations (service/MultiLocationScrapingService.java):
    one task per payload, each with its own scraper and MetaData; the
    delivery fee and time of every restaurant found, by id; the per-location
    MetaData reports; and the start/stop state of the thread pool. Its tasks
    are run one after another in payload order over the shared client. */
module MultiLocationService {
  import opened Common
  import opened PayloadModel
  import opened RestaurantModel
  import opened MetaDataModel
  import opened Wire
  import opened ScrapingService

  /** The outcome of one scraping task. */
  type Task = Future<ScrapedData, ScrapeError>

  // ---------------------------------------------------------------------
  // The thread pool
  // ---------------------------------------------------------------------

  /** The executor in `executorService`: which pool it is (each
      `newFixedThreadPool` makes a new one), whether `shutdown` was called,
      and whether all its tasks have finished since. */
  datatype Pool = Pool(generation: nat, shutdown: bool, terminated: bool)

  /** Only a pool that was shut down can be terminated. */
  predicate PoolValid(p: Pool) {
    p.terminated ==> p.shutdown
  }

  /** `startService`: a shut-down or terminated pool is replaced by a new one;
      a running one is kept. */
  function Started(p: Pool): Pool {
    if p.shutdown || p.terminated then Pool(p.generation + 1, false, false) else p
  }

  /** How `awaitTermination` ends: every task finished within the timeout,
      the timeout passed, or the waiting thread was interrupted. */
  datatype Wait = TasksFinished | WaitTimedOut | WaitInterrupted

  /** The exception `stopService` throws. */
  datatype StopError = AwaitInterrupted   // InterruptedException from awaitTermination

  /** `stopService`: a running pool is shut down and then waited for. It is
      terminated only when its tasks finished in time; after a timeout
      `shutdownNow` is called, and an interrupted wait skips that. A pool
      already shut down is left alone. */
  function Stopped(p: Pool, wait: Wait): Pool {
    if p.shutdown then p else p.(shutdown := true, terminated := wait == TasksFinished)
  }

  /** Whether `stopService` throws: only a running pool is waited for, so only
      its wait can be interrupted. */
  predicate StopThrows(p: Pool, wait: Wait) {
    !p.shutdown && wait == WaitInterrupted
  }

  /** After `startService` the pool accepts tasks; it is a new pool exactly
      when the old one had been shut down or had terminated. */
  lemma StartedAcceptsTasks(p: Pool)
    ensures !Started(p).shutdown && !Started(p).terminated && PoolValid(Started(p))
    ensures Started(p) == p <==> !p.shutdown && !p.terminated
    ensures Started(p).generation == if p.shutdown || p.terminated then p.generation + 1 else p.generation
  {
  }

  /** `stopService` always leaves the pool shut down and keeps it valid, even
      when its wait is interrupted; the pool is terminated afterwards exactly
      when it already was or its tasks finished in time. Calling it a second
      time changes nothing and never throws. */
  lemma StopIsIdempotent(p: Pool, w1: Wait, w2: Wait)
    requires PoolValid(p)
    ensures Stopped(p, w1).shutdown && PoolValid(Stopped(p, w1))
    ensures Stopped(p, w1).terminated <==> p.terminated || (!p.shutdown && w1 == TasksFinished)
    ensures StopThrows(p, w1) ==> !Stopped(p, w1).terminated
    ensures Stopped(Stopped(p, w1), w2) == Stopped(p, w1) && !StopThrows(Stopped(p, w1), w2)
    ensures Stopped(p, w1).generation == p.generation
  {
  }

  // ---------------------------------------------------------------------
  // Running scraping tasks
  // ---------------------------------------------------------------------

  /** The current fields of each payload, in order. */
  function FieldsOf(payloads: seq<Payload>): (r: seq<PayloadFields>)
    reads set p | p in payloads
    ensures |r| == |payloads| && forall i :: 0 <= i < |payloads| ==> r[i] == payloads[i].Fields()
  {
    if payloads == [] then [] else [payloads[0].Fields()] + FieldsOf(payloads[1..])
  }

  /** The future of a task for payload `p` whose scrape went as `run`: the
      task's MetaData was made for `p`'s latlng and counted `run`'s
      restaurants; an exception of `scrape` fails the future. */
  function TaskFuture(p: PayloadFields, run: Run<PayloadFields>): Task {
    match ScrapeOutcome(run, MetaDataView(p.latlng, TallyAll(ZeroCounts(), run.built)))
    case Ok(data) => Completed(Some(data))
    case Err(e) => Failed(e)
  }

  /** What `fetchScrapedData` has produced once all tasks are done. */
  datatype Fetched = Fetched(futures: seq<Task>, sent: seq<PayloadFields>, rest: seq<Reply>)

  /** Tasks for `ps` run in order, each over the part of the script the
      ones before it left, after the futures and requests so far. */
  function FetchFrom(ps: seq<PayloadFields>, replies: seq<Reply>, parseDouble: string -> Option<real>,
                     futures: seq<Task>, sent: seq<PayloadFields>): Fetched
    decreases |ps|
  {
    if ps == [] then Fetched(futures, sent, replies)
    else
      var run := ServiceRun(ps[0], replies, parseDouble);
      FetchFrom(ps[1..], run.rest, parseDouble, futures + [TaskFuture(ps[0], run)], sent + run.requests)
  }

  function Fetch(ps: seq<PayloadFields>, replies: seq<Reply>, parseDouble: string -> Option<real>): Fetched {
    FetchFrom(ps, replies, parseDouble, [], [])
  }

  /** The exception `fetchScrapedData` throws: a pool that was shut down
      refuses new tasks (`RejectedExecutionException`). */
  datatype Rejected = Rejected

  /** What the future of a task for payload `p` is known to hold: when it
      completed, a value whose MetaData was made for `p`'s latlng and
      counted at least as many restaurants as the set holds. */
  predicate FutureFor(p: PayloadFields, f: Task) {
    f.Completed? ==>
      && f.value.Some?
      && f.value.value.metaData.location == p.latlng
      && |f.value.value.restaurantSet| <= f.value.value.metaData.counts.total
  }

  lemma TaskFutureFor(p: PayloadFields, run: Run<PayloadFields>)
    ensures FutureFor(p, TaskFuture(p, run))
  {
    if TaskFuture(p, run).Completed? {
      SetNoLargerThanCount(run, MetaDataView(p.latlng, TallyAll(ZeroCounts(), run.built)));
      TallyAllCounts(ZeroCounts(), run.built, Name);
    }
  }

  lemma {:induction false} FetchFromOnePerPayload(ps: seq<PayloadFields>, k: nat, replies: seq<Reply>,
                                                 parseDouble: string -> Option<real>,
                                                 futures: seq<Task>, sent: seq<PayloadFields>)
    requires k == |futures| <= |ps|
    requires forall i :: 0 <= i < k ==> FutureFor(ps[i], futures[i])
    ensures var f := FetchFrom(ps[k..], replies, parseDouble, futures, sent).futures;
      |f| == |ps| && forall i :: 0 <= i < |ps| ==> FutureFor(ps[i], f[i])
    decreases |ps| - k
  {
    if k < |ps| {
      var run := ServiceRun(ps[k], replies, parseDouble);
      TaskFutureFor(ps[k], run);
      assert ps[k..][1..] == ps[k + 1..];
      FetchFromOnePerPayload(ps, k + 1, run.rest, parseDouble, futures + [TaskFuture(ps[k], run)], sent + run.requests);
    }
  }

  /** One future per payload, in payload order; a completed future carries
      the set of its scrape and a MetaData made for that payload's latlng,
      which counted at least as many restaurants as the set holds. */
  lemma FetchOnePerPayload(ps: seq<PayloadFields>, replies: seq<Reply>, parseDouble: string -> Option<real>)
    ensures var f := Fetch(ps, replies, parseDouble).futures;
      |f| == |ps| && forall i :: 0 <= i < |ps| ==> FutureFor(ps[i], f[i])
  {
    assert ps[0..] == ps;
    FetchFromOnePerPayload(ps, 0, replies, parseDouble, [], []);
  }

  // ---------------------------------------------------------------------
  // The fee and time map
  // ---------------------------------------------------------------------

  /** The pair `processScrapedData` stores for a restaurant: its fee, 0.0 when
      absent, and its delivery time. */
  datatype FeeTime = FeeTime(fee: real, time: int)

  function FeeTimeOf(r: Restaurant): FeeTime {
    FeeTime(r.estimatedDeliveryFee.GetOr(0.0), r.estimatedDeliveryTimeMinutes)
  }

  /** The restaurants a future contributes: none when it failed or holds null. */
  function Members(f: Task): set<Restaurant> {
    if f.Completed? && f.value.Some? then f.value.value.restaurantSet else {}
  }

  /** The ids of a set of restaurants. */
  function Ids(s: set<Restaurant>): set<NString> {
    set r | r in s :: r.restaurantId
  }

  /** `v` is the pair of some restaurant of `s` with id `k`. */
  ghost predicate PairOf(s: set<Restaurant>, k: NString, v: FeeTime) {
    exists r :: r in s && r.restaurantId == k && FeeTimeOf(r) == v
  }

  /** `m` is `m0` after `put(id, FeeTimeOf(r))` for every `r` of `s`, in some
      order: the ids of `s` are added, each one to the pair of one of its
      restaurants in `s` (which one, if several share the id, depends on the
      set's iteration order), and every other key is left alone. */
  ghost predicate Overwrites(m0: map<NString, FeeTime>, s: set<Restaurant>, m: map<NString, FeeTime>) {
    && m.Keys == m0.Keys + Ids(s)
    && (forall k :: k in m0 && k !in Ids(s) ==> m[k] == m0[k])
    && (forall k :: k in Ids(s) ==> PairOf(s, k, m[k]))
  }

  /** The ids of all restaurants of all futures. */
  function AllIds(futures: seq<Task>): set<NString> {
    if futures == [] then {} else AllIds(futures[..|futures| - 1]) + Ids(Members(futures[|futures| - 1]))
  }

  /** The index of the last future with a restaurant of id `k`, or -1. */
  function LastHolder(futures: seq<Task>, k: NString): int {
    if futures == [] then -1
    else if k in Ids(Members(futures[|futures| - 1])) then |futures| - 1
    else LastHolder(futures[..|futures| - 1], k)
  }

  /** An id belongs to some future exactly when it has a last holder, which
      has a restaurant with that id while no later future has one. */
  lemma {:induction false} LastHolderIsLast(futures: seq<Task>, k: NString)
    ensures var i := LastHolder(futures, k);
      && -1 <= i < |futures|
      && (k in AllIds(futures) <==> i >= 0)
      && (i >= 0 ==> k in Ids(Members(futures[i])))
      && forall j :: i < j < |futures| ==> k !in Ids(Members(futures[j]))
  {
    if futures != [] {
      var init := futures[..|futures| - 1];
      LastHolderIsLast(init, k);
      assert forall j :: 0 <= j < |init| ==> init[j] == futures[j];
    }
  }

  /** The map `processScrapedData` returns for `futures`: its keys are exactly
      the ids of the restaurants of the futures that completed with a value,
      and each id maps to the pair of a restaurant with that id in the last
      future that has one: later puts overwrite earlier ones. */
  ghost predicate FeeTimeMap(futures: seq<Task>, m: map<NString, FeeTime>) {
    && m.Keys == AllIds(futures)
    && forall k :: k in m ==>
         0 <= LastHolder(futures, k) < |futures| && PairOf(Members(futures[LastHolder(futures, k)]), k, m[k])
  }

  /** Processing one more future on top of the map for the ones before it. */
  lemma FeeTimeMapSnoc(futures: seq<Task>, f: Task, m0: map<NString, FeeTime>, m: map<NString, FeeTime>)
    requires FeeTimeMap(futures, m0) && Overwrites(m0, Members(f), m)
    ensures FeeTimeMap(futures + [f], m)
  {
    var fs := futures + [f];
    assert fs[..|fs| - 1] == futures;
    forall k | k in m
      ensures 0 <= LastHolder(fs, k) < |fs| && PairOf(Members(fs[LastHolder(fs, k)]), k, m[k])
    {
      if k !in Ids(Members(f)) {
        assert fs[LastHolder(futures, k)] == futures[LastHolder(futures, k)];
      }
    }
  }

  /** One more `put` while going through a set. */
  lemma OverwritesStep(m0: map<NString, FeeTime>, done: set<Restaurant>, r: Restaurant, m: map<NString, FeeTime>)
    requires Overwrites(m0, done, m)
    ensures Overwrites(m0, done + {r}, m[r.restaurantId := FeeTimeOf(r)])
  {
    var s := done + {r};
    var m' := m[r.restaurantId := FeeTimeOf(r)];
    assert Ids(s) == Ids(done) + {r.restaurantId};
    forall k | k in Ids(s)
      ensures PairOf(s, k, m'[k])
    {
      if k == r.restaurantId {
        assert r in s;
      } else {
        var q :| q in done && q.restaurantId == k && FeeTimeOf(q) == m[k];
        assert q in s;
      }
    }
  }

  /** A failed future and one that holds null add nothing to the map. */
  lemma NothingOverwritesNothing(m: map<NString, FeeTime>)
    ensures Overwrites(m, {}, m)
  {
    assert Ids({}) == {};
  }

  /** A restaurant whose id no other restaurant of any future shares ends up
      mapped to its own fee and time. */
  lemma UniqueIdMapsToItsPair(futures: seq<Task>, m: map<NString, FeeTime>, i: nat, r: Restaurant)
    requires FeeTimeMap(futures, m)
    requires i < |futures| && r in Members(futures[i])
    requires forall j, q :: 0 <= j < |futures| && q in Members(futures[j]) && q.restaurantId == r.restaurantId ==> q == r
    ensures r.restaurantId in m && m[r.restaurantId] == FeeTimeOf(r)
  {
    AllIdsMembers(futures, i, r);
  }

  lemma {:induction false} AllIdsMembers(futures: seq<Task>, i: nat, r: Restaurant)
    requires i < |futures| && r in Members(futures[i])
    ensures r.restaurantId in AllIds(futures)
  {
    if i < |futures| - 1 {
      AllIdsMembers(futures[..|futures| - 1], i, r);
    }
  }

  // ---------------------------------------------------------------------
  // The MetaData reports
  // ---------------------------------------------------------------------

  /** What `generateAggregateMetaData` prints, location by location: the
      MetaData of each future that completed with a value, in order; the
      first failed future makes `join` throw its cause out of the method. */
  function AggregateReport(futures: seq<Task>): Result<seq<MetaDataView>, ScrapeError> {
    if futures == [] then Ok([])
    else
      var last := futures[|futures| - 1];
      match AggregateReport(futures[..|futures| - 1])
      case Err(e) => Err(e)
      case Ok(reports) =>
        match last
        case Failed(e) => Err(e)
        case Completed(None) => Ok(reports)
        case Completed(Some(data)) => Ok(reports + [data.metaData])
  }

  /** The reports are produced exactly when no future failed; otherwise the
      cause of the first failed future is thrown. */
  lemma {:induction false} AggregateReportFails(futures: seq<Task>)
    ensures AggregateReport(futures).Ok? <==> forall i :: 0 <= i < |futures| ==> !futures[i].Failed?
    ensures AggregateReport(futures).Err? ==>
      exists i :: 0 <= i < |futures| && futures[i] == Failed(AggregateReport(futures).error)
        && forall j :: 0 <= j < i ==> !futures[j].Failed?
  {
    if futures != [] {
      var init := futures[..|futures| - 1];
      AggregateReportFails(init);
      assert forall i :: 0 <= i < |init| ==> futures[i] == init[i];
    }
  }

  // ---------------------------------------------------------------------
  // The service object
  // ---------------------------------------------------------------------

  class MultiLocationScrapingService {
    const client: ScriptedClient<PayloadFields>
    /** `Double.parseDouble`, handed to every scraper. */
    const parseDouble: string -> Option<real>
    /** `executorService` */
    var pool: Pool

    /** Starts with a fresh, running pool. */
    constructor (client: ScriptedClient<PayloadFields>, parseDouble: string -> Option<real>)
      ensures this.client == client && this.parseDouble == parseDouble
      ensures pool == Pool(0, false, false)
    {
      this.client := client;
      this.parseDouble := parseDouble;
      pool := Pool(0, false, false);
    }

    /** `startService` */
    method StartService()
      modifies this
      ensures pool == Started(old(pool))
    {
      if pool.shutdown || pool.terminated {
        pool := Pool(pool.generation + 1, false, false);
      }
    }

    /** `stopService`; how `awaitTermination` ends is the parameter `wait`. An
        interrupted wait leaves the pool shut down but not terminated and
        throws to the caller. */
    method StopService(wait: Wait) returns (r: Result<(), StopError>)
      modifies this
      ensures pool == Stopped(old(pool), wait)
      ensures r.Err? <==> StopThrows(old(pool), wait)
    {
      if !pool.shutdown {
        pool := pool.(shutdown := true);
        match wait
        case WaitInterrupted =>
          pool := pool.(terminated := false);
          return Err(AwaitInterrupted);
        case TasksFinished =>
          pool := pool.(terminated := true);
        case WaitTimedOut =>
          pool := pool.(terminated := false);  // shutdownNow
      }
      r := Ok(());
    }

    /** `fetchScrapedData`: one task per payload, in order, each scraping its
        payload with a new RestaurantScrapingService over the shared client
        and a new MetaData for the payload's latlng; an exception of a task
        fails its future. A shut-down pool refuses the first task. */
    method FetchScrapedData(payloads: seq<Payload>) returns (result: Result<seq<Task>, Rejected>)
      modifies client
      ensures pool.shutdown && payloads != [] ==> result == Err(Rejected) && unchanged(client)
      ensures !(pool.shutdown && payloads != []) ==>
        var fetched := Fetch(old(FieldsOf(payloads)), old(client.pending), parseDouble);
        && result == Ok(fetched.futures)
        && client.sent == old(client.sent) + fetched.sent
        && client.pending == fetched.rest
    {
      if pool.shutdown && payloads != [] {
        return Err(Rejected);
      }
      ghost var ps := FieldsOf(payloads);
      ghost var fetched := Fetch(ps, client.pending, parseDouble);
      ghost var sent: seq<PayloadFields> := [];
      ghost var sent0 := client.sent;
      var futures: seq<Task> := [];
      for i := 0 to |payloads|
        invariant fetched == FetchFrom(ps[i..], client.pending, parseDouble, futures, sent)
        invariant client.sent == sent0 + sent
      {
        ghost var pending := client.pending;
        var future := RunTask(payloads[i]);
        assert ps[i..][1..] == ps[i + 1..];
        sent := sent + ServiceRun(ps[i], pending, parseDouble).requests;
        futures := futures + [future];
      }
      return Ok(futures);
    }

    /** The body of one task: a new scraper with a new MetaData for the
        payload's latlng scrapes the payload. */
    method RunTask(payload: Payload) returns (future: Task)
      modifies client
      ensures var run := ServiceRun(payload.Fields(), old(client.pending), parseDouble);
        && future == TaskFuture(payload.Fields(), run)
        && client.sent == old(client.sent) + run.requests
        && client.pending == run.rest
    {
      var metaData := new MetaData(payload.GetLatlng());
      var scraper := new RestaurantScrapingService(client, metaData, parseDouble);
      var outcome := scraper.Scrape(payload);
      match outcome {
        case Ok(data) => future := Completed(Some(data));
        case Err(e) => future := Failed(e);
      }
    }

    /** `processScrapedData`: for each future in order, a failed one is
        skipped, and every restaurant of a completed one puts its id with its
        fee (0.0 if absent) and delivery time. */
    method ProcessScrapedData(futures: seq<Task>) returns (locationData: map<NString, FeeTime>)
      ensures FeeTimeMap(futures, locationData)
    {
      locationData := map[];
      for i := 0 to |futures|
        invariant FeeTimeMap(futures[..i], locationData)
      {
        var before := locationData;
        match futures[i] {
          case Failed(_) =>
            NothingOverwritesNothing(locationData);
          case Completed(None) =>
            NothingOverwritesNothing(locationData);
          case Completed(Some(scrapedData)) =>
            locationData := PutAll(locationData, scrapedData.restaurantSet);
        }
        assert futures[..i + 1] == futures[..i] + [futures[i]];
        FeeTimeMapSnoc(futures[..i], futures[i], before, locationData);
      }
      assert futures[..|futures|] == futures;
    }

    /** The inner `forEach` over one set of restaurants. */
    method PutAll(m0: map<NString, FeeTime>, restaurants: set<Restaurant>) returns (m: map<NString, FeeTime>)
      ensures Overwrites(m0, restaurants, m)
    {
      m := m0;
      var remaining := restaurants;
      while remaining != {}
        invariant remaining <= restaurants
        invariant Overwrites(m0, restaurants - remaining, m)
        decreases |remaining|
      {
        var r :| r in remaining;
        OverwritesStep(m0, restaurants - remaining, r, m);
        m := m[r.restaurantId := FeeTimeOf(r)];
        assert restaurants - (remaining - {r}) == (restaurants - remaining) + {r};
        remaining := remaining - {r};
      }
    }

    /** `generateAggregateMetaData`: the MetaData reports it prints, or the
        exception the first failed future's `join` throws. */
    method GenerateAggregateMetaData(futures: seq<Task>) returns (result: Result<seq<MetaDataView>, ScrapeError>)
      ensures result == AggregateReport(futures)
    {
      var reports: seq<MetaDataView> := [];
      for i := 0 to |futures|
        invariant AggregateReport(futures[..i]) == Ok(reports)
      {
        assert futures[..i + 1][..i] == futures[..i];
        match futures[i] {
          case Failed(e) =>
            AggregateReportStops(futures, i + 1);
            return Err(e);
          case Completed(None) =>
          case Completed(Some(scrapedData)) =>
            reports := reports + [scrapedData.metaData];
        }
      }
      assert futures[..|futures|] == futures;
      return Ok(reports);
    }
  }

  /** Once a prefix has failed, the report for the whole list is that failure. */
  lemma {:induction false} AggregateReportStops(futures: seq<Task>, k: nat)
    requires k <= |futures| && AggregateReport(futures[..k]).Err?
    ensures AggregateReport(futures) == AggregateReport(futures[..k])
    decreases |futures| - k
  {
    if k < |futures| {
      assert futures[..k + 1][..k] == futures[..k];
      AggregateReportStops(futures, k + 1);
    } else {
      assert futures[..k] == futures;
    }
  }
}
