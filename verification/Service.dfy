/**
 The service as a state machine: a scan thread that builds, installs and clears, and any number of
 searches that capture a snapshot and share the cache. Each locked region is one step, so every
 interleaving of them is a run.
 */
module Service {
  import opened IndexBuilder
  import opened LruCache
  import opened Ranking
  import opened Results
  import opened SearchEngine
  import opened Tokenizer

  /** An LRU cache holds at least one entry. */
  type Capacity = n: nat | n >= 1 witness 1

  datatype Status = NoIndex | Scanning | Ready

  /** How far the scan thread has come. */
  datatype Scan = Idle | Working | Built(snapshot: IndexSnapshot) | Installed | Cleared | Failed

  datatype Stage = Captured | Judged | Superseded | Computing | Answered(response: Result<SearchResponse>)

  datatype Search = Search(snapshot: IndexSnapshot, query: Text, limit: nat, stale: bool, stage: Stage)

  /** `log` lists the snapshots published so far. */
  datatype State = State(
    status: Status,
    shutdownRequested: bool,
    scan: Scan,
    current: Option<IndexSnapshot>,
    nextGeneration: nat,
    log: seq<IndexSnapshot>,
    capacity: Capacity,
    cache: seq<CacheEntry>,
    searches: map<nat, Search>)

  datatype Event =
    | StartScan
    | FailScan
    | FinishBuild(snapshot: IndexSnapshot)
    | Install
    | ClearCache
    | FinishScan
    | RequestShutdown
    | CompleteShutdown
    | Capture(id: nat, query: Text, limit: nat)
    | ReadStale(id: nat)
    | Consult(id: nat)
    | ClearOld(id: nat)
    | Compute(id: nat, hits: seq<SearchHit>)

  const SHUTTING_DOWN := Error(Cancelled, "service is shutting down")
  const SCAN_IN_PROGRESS := Error(Busy, "scan already in progress")
  const INDEX_NOT_READY := Error(IndexNotReady, "index is not ready")

  function Init(capacity: nat): State {
    State(NoIndex, false, Idle, None, 1, [], if capacity == 0 then 1 else capacity, [], map[])
  }

  /** Why a scan may not start now. */
  function Refusal(s: State): Option<Error> {
    if s.shutdownRequested then Some(SHUTTING_DOWN)
    else if s.status == Scanning then Some(SCAN_IN_PROGRESS)
    else None
  }

  function StatusAfterScan(s: State, installed: bool): Status {
    if s.shutdownRequested then s.status
    else if installed || s.current.Some? then Ready
    else NoIndex
  }

  predicate AtStage(s: State, id: nat, stage: Stage) {
    id in s.searches && s.searches[id].stage == stage
  }

  /** What the surroundings may do next; the answer to a query is any an uncached search may give. */
  ghost predicate Enabled(s: State, e: Event) {
    match e
    case FailScan => s.scan.Working?
    case FinishBuild(snapshot) => s.scan.Working? && WellFormed(snapshot) && snapshot.generation == s.nextGeneration
    case Install => s.scan.Built?
    case ClearCache => s.scan.Installed?
    case FinishScan => s.scan.Cleared? || s.scan.Failed?
    case CompleteShutdown => s.shutdownRequested && s.scan.Idle?
    case Capture(id, _, _) => id !in s.searches
    case ReadStale(id) => AtStage(s, id, Captured)
    case Consult(id) => AtStage(s, id, Judged)
    case ClearOld(id) => AtStage(s, id, Superseded)
    case Compute(id, hits) =>
      && AtStage(s, id, Computing)
      && var x := s.searches[id];
         IsAnswer(x.snapshot.records, SearchedFor(x.query), ClampLimit(x.limit), hits)
    case _ => true
  }

  /** The first locked look at the cache: what it answers, if it does, and the cache after it. */
  function ConsultStage(x: Search, cache: seq<CacheEntry>): Stage {
    var q := SearchedFor(x.query);
    if |x.query| > MAX_QUERY_BYTES then Answered(Failure(QUERY_TOO_LONG))
    else if q == [] then Answered(Success(SearchResponse(x.snapshot.generation, [], false)))
    else
      match Find(cache, CacheKey(q, ClampLimit(x.limit)))
      case None => Computing
      case Some(found) =>
        if found.generation == x.snapshot.generation
        then Answered(Success(SearchResponse(found.generation, found.hits, true)))
        else Superseded
  }

  function ConsultCache(x: Search, cache: seq<CacheEntry>): seq<CacheEntry> {
    var q := SearchedFor(x.query);
    if |x.query| > MAX_QUERY_BYTES || q == [] then cache else Get(cache, CacheKey(q, ClampLimit(x.limit)))
  }

  function ComputeCache(x: Search, capacity: Capacity, cache: seq<CacheEntry>, hits: seq<SearchHit>): seq<CacheEntry>
  {
    var q := SearchedFor(x.query);
    if Tokens(q) == [] then cache
    else Put(capacity, cache, CacheKey(q, ClampLimit(x.limit)), CachedSearch(x.snapshot.generation, hits))
  }

  function EmptySnapshot(generation: nat): IndexSnapshot {
    IndexSnapshot(generation, [], map[], map[], [], [])
  }

  function MoveSearch(s: State, id: nat, x: Search): State {
    s.(searches := s.searches[id := x])
  }

  function SearchOf(s: State, id: nat): Search {
    if id in s.searches then s.searches[id] else Search(EmptySnapshot(0), [], 0, false, Captured)
  }

  function Apply(s: State, e: Event): State {
    match e
    case StartScan => if Refusal(s).Some? then s else s.(status := Scanning, scan := Working)
    case FailScan => s.(scan := Failed)
    case FinishBuild(snapshot) => s.(scan := Built(snapshot))
    case Install =>
      var built := if s.scan.Built? then s.scan.snapshot else EmptySnapshot(0);
      s.(scan := Installed, current := Some(built), nextGeneration := built.generation + 1, log := s.log + [built])
    case ClearCache => s.(scan := Cleared, cache := [])
    case FinishScan => s.(scan := Idle, status := StatusAfterScan(s, s.scan.Cleared?))
    case RequestShutdown => s.(shutdownRequested := true)
    case CompleteShutdown => s.(status := if s.current.Some? then Ready else NoIndex)
    case Capture(id, query, limit) =>
      if s.current.None? then s
      else MoveSearch(s, id, Search(s.current.value, query, limit, false, Captured))
    case ReadStale(id) =>
      MoveSearch(s, id, SearchOf(s, id).(stale := s.status == Scanning, stage := Judged))
    case Consult(id) =>
      var x := SearchOf(s, id);
      MoveSearch(s, id, x.(stage := ConsultStage(x, s.cache))).(cache := ConsultCache(x, s.cache))
    case ClearOld(id) =>
      MoveSearch(s, id, SearchOf(s, id).(stage := Computing)).(cache := [])
    case Compute(id, hits) =>
      var x := SearchOf(s, id);
      var response := SearchResponse(x.snapshot.generation, hits, false);
      MoveSearch(s, id, x.(stage := Answered(Success(response)))).(cache := ComputeCache(x, s.capacity, s.cache, hits))
  }

  ghost predicate Legal(s: State, es: seq<Event>)
    decreases |es|
  {
    es == [] || (Enabled(s, es[0]) && Legal(Apply(s, es[0]), es[1..]))
  }

  function After(s: State, es: seq<Event>): State
    decreases |es|
  {
    if es == [] then s else After(Apply(s, es[0]), es[1..])
  }

  /* ---------------------------------------------------------------- the invariant */

  predicate Numbers(log: seq<IndexSnapshot>, generation: nat) {
    1 <= generation <= |log|
  }

  function RecordsOf(log: seq<IndexSnapshot>, generation: nat): seq<FileRecord>
    requires Numbers(log, generation)
  {
    log[generation - 1].records
  }

  /** The records each generation was published with. */
  function Published(log: seq<IndexSnapshot>): map<nat, seq<FileRecord>> {
    map g: nat | g <= |log| && Numbers(log, g) :: RecordsOf(log, g)
  }

  /** Generations are handed out consecutively from one, one to each published snapshot. */
  ghost predicate Numbered(s: State) {
    && (forall i :: 0 <= i < |s.log| ==> s.log[i].generation == i + 1 && WellFormed(s.log[i]))
    && s.nextGeneration == |s.log| + 1
    && s.current == (if s.log == [] then None else Some(s.log[|s.log| - 1]))
    && (s.scan.Built? ==> WellFormed(s.scan.snapshot) && s.scan.snapshot.generation == s.nextGeneration)
    && (!s.scan.Idle? ==> s.status == Scanning)
  }

  predicate InLog(log: seq<IndexSnapshot>, snapshot: IndexSnapshot) {
    1 <= snapshot.generation <= |log| && log[snapshot.generation - 1] == snapshot
  }

  /** An answer is for the captured snapshot and is one an uncached search on it may give. */
  ghost predicate AnswerSound(x: Search, response: Result<SearchResponse>) {
    && (response.Failure? <==> |x.query| > MAX_QUERY_BYTES)
    && (response.Failure? ==> response.error == QUERY_TOO_LONG)
    && (response.Success? ==>
          && response.value.generation == x.snapshot.generation
          && IsAnswer(x.snapshot.records, SearchedFor(x.query), ClampLimit(x.limit), response.value.hits))
  }

  ghost predicate SearchSound(log: seq<IndexSnapshot>, x: Search) {
    && InLog(log, x.snapshot)
    && (x.stage.Answered? ==> AnswerSound(x, x.stage.response))
    && (x.stage == Superseded || x.stage == Computing ==> |x.query| <= MAX_QUERY_BYTES)
  }

  ghost predicate SearchesSound(log: seq<IndexSnapshot>, searches: map<nat, Search>) {
    forall id :: id in searches ==> SearchSound(log, searches[id])
  }

  ghost predicate Inv(s: State) {
    Numbered(s) && CacheSound(Published(s.log), s.cache) && SearchesSound(s.log, s.searches)
  }

  lemma PublishingKeepsSound(log: seq<IndexSnapshot>, added: IndexSnapshot, cache: seq<CacheEntry>)
    requires CacheSound(Published(log), cache)
    ensures CacheSound(Published(log + [added]), cache)
  {
    hide CacheKey, IsAnswer;
    forall e | e in cache ensures EntrySound(Published(log + [added]), e) {
      assert EntrySound(Published(log), e);
      assert Published(log + [added])[e.value.generation] == Published(log)[e.value.generation];
    }
  }

  lemma ConsultIsSound(log: seq<IndexSnapshot>, x: Search, cache: seq<CacheEntry>)
    requires CacheSound(Published(log), cache) && InLog(log, x.snapshot) && x.stage == Judged
    ensures SearchSound(log, x.(stage := ConsultStage(x, cache)))
    ensures CacheSound(Published(log), ConsultCache(x, cache))
  {
    hide CacheSound, IsAnswer, Tokens, CacheKey, Get;
    var q, l := SearchedFor(x.query), ClampLimit(x.limit);
    if |x.query| <= MAX_QUERY_BYTES && q != [] {
      if Find(cache, CacheKey(q, l)).Some? {
        FoundIsSound(Published(log), cache, q, l);
      }
      GetKeepsSound(Published(log), cache, CacheKey(q, l));
    } else if q == [] {
      EmptyQueryAnswer(x.snapshot.records, l);
    }
  }

  lemma EmptyQueryAnswer(records: seq<FileRecord>, limit: nat)
    ensures IsAnswer(records, [], limit, [])
  {
    NoTokensInNothing();
    NothingAnswers(records, [], limit);
  }

  lemma ComputeIsSound(log: seq<IndexSnapshot>, x: Search, capacity: Capacity, cache: seq<CacheEntry>, hits: seq<SearchHit>)
    requires CacheSound(Published(log), cache) && InLog(log, x.snapshot)
    requires IsAnswer(x.snapshot.records, SearchedFor(x.query), ClampLimit(x.limit), hits)
    ensures CacheSound(Published(log), ComputeCache(x, capacity, cache, hits))
  {
    hide CacheSound, IsAnswer, Tokens, CacheKey, Put;
    PutKeepsSound(Published(log), cache, capacity, x.snapshot.generation, SearchedFor(x.query), ClampLimit(x.limit), hits);
  }

  lemma SearchesMoveOn(s: State, id: nat, x: Search)
    requires SearchesSound(s.log, s.searches) && SearchSound(s.log, x)
    ensures SearchesSound(s.log, s.searches[id := x])
  {
    hide SearchSound;
  }

  lemma InstallKeepsInv(s: State)
    requires Inv(s) && s.scan.Built?
    ensures Inv(Apply(s, Install))
  {
    hide WellFormed, AnswerSound, CacheSound;
    PublishingKeepsSound(s.log, s.scan.snapshot, s.cache);
  }

  lemma ScanStepKeepsInv(s: State, e: Event)
    requires Inv(s) && Enabled(s, e)
    requires e.StartScan? || e.FailScan? || e.FinishBuild? || e.ClearCache? || e.FinishScan?
             || e.RequestShutdown? || e.CompleteShutdown?
    ensures Inv(Apply(s, e))
  {
    hide WellFormed, SearchSound, IsAnswer;
    EmptyCacheSound(Published(s.log));
    hide CacheSound, Published;
  }

  lemma SearchStepKeepsInv(s: State, e: Event)
    requires Inv(s) && Enabled(s, e)
    requires e.Capture? || e.ReadStale? || e.Consult? || e.ClearOld? || e.Compute?
    ensures Inv(Apply(s, e))
  {
    hide WellFormed, CacheSound, IsAnswer, ConsultStage, ConsultCache, ComputeCache, Published, SearchesSound;
    EmptyCacheSound(Published(s.log));
    match e
    case Capture(id, query, limit) =>
      if s.current.Some? {
        SearchesMoveOn(s, id, Search(s.current.value, query, limit, false, Captured));
      }
    case ReadStale(id) =>
      KnownSearchSound(s, id);
      SearchesMoveOn(s, id, s.searches[id].(stale := s.status == Scanning, stage := Judged));
    case Consult(id) =>
      var x := SearchOf(s, id);
      KnownSearchSound(s, id);
      ConsultIsSound(s.log, x, s.cache);
      SearchesMoveOn(s, id, x.(stage := ConsultStage(x, s.cache)));
    case ClearOld(id) =>
      KnownSearchSound(s, id);
      SearchesMoveOn(s, id, s.searches[id].(stage := Computing));
    case Compute(id, hits) =>
      var x := SearchOf(s, id);
      KnownSearchSound(s, id);
      ComputeIsSound(s.log, x, s.capacity, s.cache, hits);
      SearchesMoveOn(s, id, x.(stage := Answered(Success(SearchResponse(x.snapshot.generation, hits, false)))));
  }

  lemma KnownSearchSound(s: State, id: nat)
    requires SearchesSound(s.log, s.searches) && id in s.searches
    ensures SearchSound(s.log, s.searches[id])
  {}

  lemma InvStep(s: State, e: Event)
    requires Inv(s) && Enabled(s, e)
    ensures Inv(Apply(s, e))
  {
    hide Inv, Apply, Enabled;
    if e.Install? {
      assert s.scan.Built? by { InstallIsReady(s, e); }
      InstallKeepsInv(s);
    } else if e.Capture? || e.ReadStale? || e.Consult? || e.ClearOld? || e.Compute? {
      SearchStepKeepsInv(s, e);
    } else {
      ScanStepKeepsInv(s, e);
    }
  }

  lemma InstallIsReady(s: State, e: Event)
    requires e.Install? && Enabled(s, e)
    ensures s.scan.Built?
  {}

  lemma {:induction false} InvRun(s: State, es: seq<Event>)
    requires Inv(s) && Legal(s, es)
    ensures Inv(After(s, es))
    decreases |es|
  {
    if es != [] {
      hide Apply, Enabled, Numbered, SearchesSound, CacheSound;
      InvStep(s, es[0]);
      InvRun(Apply(s, es[0]), es[1..]);
    }
  }

  /* ---------------------------------------------------------------- what every run guarantees */

  /**
   Whatever the interleaving of searches with installs and cache clears, an answered search answers
   for the snapshot it captured exactly as an uncached search on that snapshot may.
   */
  lemma CacheIsTransparent(capacity: nat, es: seq<Event>, id: nat)
    requires Legal(Init(capacity), es)
    ensures var s := After(Init(capacity), es);
      id in s.searches && s.searches[id].stage.Answered? ==>
        InLog(s.log, s.searches[id].snapshot) && AnswerSound(s.searches[id], s.searches[id].stage.response)
  {
    hide AnswerSound, Apply, Enabled, Legal, After;
    InitInv(capacity);
    InvRun(Init(capacity), es);
  }

  lemma InitInv(capacity: nat)
    ensures Inv(Init(capacity))
  {}

  /** Published generations are consecutive from one, and the current snapshot is the latest published. */
  lemma GenerationsIncrease(capacity: nat, es: seq<Event>)
    requires Legal(Init(capacity), es)
    ensures var s := After(Init(capacity), es);
      && (forall i :: 0 <= i < |s.log| ==> s.log[i].generation == i + 1)
      && (s.current.Some? <==> s.log != [])
      && (s.current.Some? ==> s.current.value == s.log[|s.log| - 1] && s.current.value.generation == |s.log|)
  {
    hide Apply, Enabled, Legal, After;
    InitInv(capacity);
    InvRun(Init(capacity), es);
  }

  function Installs(es: seq<Event>): nat {
    if es == [] then 0 else (if es[0].Install? then 1 else 0) + Installs(es[1..])
  }

  /** A run publishes as many snapshots as it has installs, after those already there. */
  lemma {:induction false} PublishedByInstalls(s: State, es: seq<Event>)
    requires Legal(s, es)
    ensures s.log <= After(s, es).log && |After(s, es).log| == |s.log| + Installs(es)
    decreases |es|
  {
    if es != [] {
      assert s.log <= Apply(s, es[0]).log by { LogStep(s, es[0]); }
      LogStep(s, es[0]);
      hide Apply, Enabled;
      PublishedByInstalls(Apply(s, es[0]), es[1..]);
    }
  }

  lemma LogStep(s: State, e: Event)
    requires Enabled(s, e)
    ensures s.log <= Apply(s, e).log
    ensures |Apply(s, e).log| == |s.log| + if e.Install? then 1 else 0
    ensures !e.Install? ==> Apply(s, e).current == s.current
  {
    hide WellFormed, IsAnswer, ConsultStage, ConsultCache, ComputeCache;
  }

  /** Scans accepted along a run. */
  function Accepted(s: State, es: seq<Event>): nat
    requires Legal(s, es)
    decreases |es|
  {
    if es == [] then 0
    else (if es[0].StartScan? && Refusal(s).None? then 1 else 0) + Accepted(Apply(s, es[0]), es[1..])
  }

  function Failures(es: seq<Event>): nat {
    if es == [] then 0 else (if es[0].FailScan? then 1 else 0) + Failures(es[1..])
  }

  /** Scans that have neither published nor failed yet. */
  function InFlight(s: State): nat {
    if s.scan.Working? || s.scan.Built? then 1 else 0
  }

  /** Every accepted scan publishes exactly one snapshot, or fails and publishes none. */
  lemma {:induction false} ScansPublishOnceOrFail(s: State, es: seq<Event>)
    requires Inv(s) && Legal(s, es)
    ensures Accepted(s, es) + InFlight(s) == Installs(es) + Failures(es) + InFlight(After(s, es))
    decreases |es|
  {
    if es != [] {
      InvStep(s, es[0]);
      InFlightStep(s, es[0]);
      hide Apply, Enabled, Inv, Refusal;
      ScansPublishOnceOrFail(Apply(s, es[0]), es[1..]);
    }
  }

  lemma InFlightStep(s: State, e: Event)
    requires Inv(s) && Enabled(s, e)
    ensures InFlight(Apply(s, e)) + (if e.Install? || e.FailScan? then 1 else 0)
         == InFlight(s) + (if e.StartScan? && Refusal(s).None? then 1 else 0)
  {
    hide WellFormed, SearchesSound, CacheSound, ConsultStage, ConsultCache, ComputeCache, IsAnswer;
  }
}
