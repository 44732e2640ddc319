/**
 The service controller as the object it is. The ghost field keeps the state of the step model; Valid
 ties it to the real fields and to the cache of the engine.
 */
module ServiceController {
  import opened IndexBuilder
  import opened LruCache
  import opened Results
  import opened Tokenizer
  import opened Service
  import Engine = SearchEngine

  class Controller {
    var status: Status
    var shutdownRequested: bool
    var current: Option<IndexSnapshot>
    var nextGeneration: nat
    const engine: Engine.SearchEngine
    ghost var Model: State

    ghost predicate Valid()
      reads this, engine, engine.cache, engine.cache.items
    {
      && Model.status == status && Model.shutdownRequested == shutdownRequested
      && Model.current == current && Model.nextGeneration == nextGeneration
      && engine.cache.Valid() && Model.capacity == engine.cache.capacity
      && Model.cache == engine.cache.Contents()
      && Inv(Model)
    }

    constructor (cacheCapacity: nat)
      ensures Valid() && Model == Init(cacheCapacity)
      ensures fresh(engine) && fresh(engine.cache) && engine.cache.items == []
    {
      status, shutdownRequested, current, nextGeneration := NoIndex, false, None, 1;
      engine := new Engine.SearchEngine(cacheCapacity);
      Model := Init(cacheCapacity);
      new;
      InitInv(cacheCapacity);
    }

    /** The locked region that accepts or refuses a scan. */
    method StartScan() returns (refused: Option<Error>)
      requires Valid()
      modifies this
      ensures Valid() && Model == Apply(old(Model), Event.StartScan)
      ensures refused == if old(shutdownRequested) then Some(SHUTTING_DOWN)
                         else if old(status) == Scanning then Some(SCAN_IN_PROGRESS) else None
      ensures status == if refused.None? then Scanning else old(status)
    {
      hide Inv;
      InvStep(Model, Event.StartScan);
      Model := Apply(Model, Event.StartScan);
      if shutdownRequested {
        return Some(SHUTTING_DOWN);
      }
      if status == Scanning {
        return Some(SCAN_IN_PROGRESS);
      }
      status := Scanning;
      return None;
    }

    /** The locked region that publishes a snapshot. */
    method InstallSnapshot(snapshot: IndexSnapshot)
      requires Valid() && Model.scan == Built(snapshot)
      modifies this
      ensures Valid() && Model == Apply(old(Model), Event.Install)
      ensures current == Some(snapshot) && nextGeneration == snapshot.generation + 1
      ensures shutdownRequested == old(shutdownRequested)
    {
      hide Inv;
      InvStep(Model, Event.Install);
      Model := Apply(Model, Event.Install);
      current := Some(snapshot);
      nextGeneration := snapshot.generation + 1;
    }

    method ClearSearchCache()
      requires Valid() && Model.scan == Installed
      modifies this`Model, engine.cache
      ensures Valid() && Model == Apply(old(Model), Event.ClearCache)
      ensures engine.cache.items == []
    {
      hide Inv;
      InvStep(Model, Event.ClearCache);
      Model := Apply(Model, Event.ClearCache);
      engine.ClearCache();
      assert engine.cache.Contents() == [];
    }

    /** Leave the scanning state, unless a shutdown is going to. */
    method FinishScanState(installed: bool)
      requires Valid() && (if installed then Model.scan == Cleared else Model.scan == Failed)
      modifies this
      ensures Valid() && Model == Apply(old(Model), Event.FinishScan)
      ensures current == old(current) && nextGeneration == old(nextGeneration)
      ensures shutdownRequested == old(shutdownRequested)
      ensures status == if shutdownRequested then old(status) else if installed || current.Some? then Ready else NoIndex
    {
      hide Inv;
      InvStep(Model, Event.FinishScan);
      Model := Apply(Model, Event.FinishScan);
      var hasSnapshot := installed || current.Some?;
      if shutdownRequested {
        return;
      }
      status := if hasSnapshot then Ready else NoIndex;
    }

    /** The scan failed, was cancelled or threw. */
    method FailScan()
      requires Valid() && Model.scan == Working
      modifies this
      ensures Valid() && Model == Apply(Apply(old(Model), Event.FailScan), Event.FinishScan)
      ensures current == old(current) && nextGeneration == old(nextGeneration)
      ensures shutdownRequested == old(shutdownRequested)
      ensures status == if shutdownRequested then old(status) else if current.Some? then Ready else NoIndex
    {
      hide Inv, WellFormed, ConsultStage, ConsultCache, ComputeCache, Engine.IsAnswer, StatusAfterScan;
      InvStep(Model, Event.FailScan);
      Model := Apply(Model, Event.FailScan);
      FinishScanState(false);
    }

    /**
     The body of the scan thread, given what the scanner found. It fails exactly if the scanner did or a
     poll of the build finds the scan cancelled; a failure changes nothing but the status, and a success
     publishes the index of what was scanned.
     */
    method RunScan(scanned: Result<seq<FileRecord>>, polls: nat -> bool) returns (r: Result<nat>)
      requires Valid() && Model.scan == Working
      modifies this, engine.cache
      ensures Valid() && Model.scan == Idle
      ensures r.Failure? <==> scanned.Failure? || BuildCancelled(scanned.value, polls)
      ensures r.Failure? ==> r.error == if scanned.Failure? then scanned.error else CANCELLED
      ensures shutdownRequested == old(shutdownRequested)
      ensures status == if shutdownRequested then old(status) else if current.Some? then Ready else NoIndex
      ensures r.Failure? ==> current == old(current) && nextGeneration == old(nextGeneration)
      ensures r.Failure? ==> Model.log == old(Model.log) && Model.cache == old(Model.cache)
      ensures r.Success? ==>
        && scanned.Success? && r.value == old(nextGeneration) && nextGeneration == r.value + 1
        && current.Some? && WellFormed(current.value) && current.value.generation == r.value
        && current.value.records == Renumber(scanned.value) && FindsRuns(scanned.value, current.value.tokenIndex)
        && Model.log == old(Model.log) + [current.value] && Model.cache == []
    {
      hide Inv, WellFormed, ConsultStage, ConsultCache, ComputeCache, Engine.IsAnswer, StatusAfterScan;
      hide BuildCancelled, FindsRuns;
      if scanned.Failure? {
        FailScan();
        return Failure(scanned.error);
      }
      var built := Build(nextGeneration, scanned.value, polls);
      if built.Failure? {
        FailScan();
        return Failure(built.error);
      }
      var snapshot := built.value;
      InvStep(Model, FinishBuild(snapshot));
      Model := Apply(Model, FinishBuild(snapshot));
      InstallSnapshot(snapshot);
      ClearSearchCache();
      FinishScanState(true);
      return Success(snapshot.generation);
    }

    /** One search with nothing in between: it answers for the current snapshot. */
    method Search(query: Text, limit: nat) returns (r: Result<Engine.SearchResponse>, stale: bool)
      requires Valid()
      modifies this`Model, engine.cache, engine.cache.items
      ensures Valid()
      ensures current.None? ==> r == Failure(INDEX_NOT_READY)
      ensures current.Some? ==>
        && stale == (status == Scanning)
        && AnswerSound(Service.Search(current.value, query, limit, stale, Judged), r)
      ensures Model == old(Model).(cache := Model.cache)
    {
      hide Inv, WellFormed, Engine.Searched, Engine.IsAnswer, Engine.CacheSound, Engine.SearchedFor, Published;
      stale := false;
      if current.None? {
        return Failure(INDEX_NOT_READY), stale;
      }
      var snapshot := current.value;
      stale := status == Scanning;
      CurrentIsPublished(Model, snapshot);
      ghost var before := engine.cache.Contents();
      r := engine.Search(snapshot, query, limit);
      ghost var after := engine.cache.Contents();
      Engine.SearchIsTransparent(Published(Model.log), snapshot, query, limit, engine.cache.capacity, before, r, after);
      CacheMayChange(Model, after);
      Model := Model.(cache := after);
    }

    static lemma CurrentIsPublished(s: State, snapshot: IndexSnapshot)
      requires Inv(s) && s.current == Some(snapshot)
      ensures WellFormed(snapshot) && snapshot.generation in Published(s.log)
      ensures Published(s.log)[snapshot.generation] == snapshot.records
      ensures Engine.CacheSound(Published(s.log), s.cache)
    {
      hide WellFormed, SearchesSound;
    }

    static lemma CacheMayChange(s: State, cache: seq<Engine.CacheEntry>)
      requires Inv(s) && Engine.CacheSound(Published(s.log), cache)
      ensures Inv(s.(cache := cache))
    {
      hide WellFormed, SearchesSound, Engine.CacheSound;
    }

    /** The first locked region of shutdown; false when another call has been here before. */
    method RequestShutdown() returns (first: bool, cancelScan: bool)
      requires Valid()
      modifies this
      ensures Valid() && Model == Apply(old(Model), Event.RequestShutdown) && shutdownRequested
      ensures first <==> !old(shutdownRequested)
      ensures cancelScan <==> first && status == Scanning
    {
      hide Inv;
      InvStep(Model, Event.RequestShutdown);
      Model := Apply(Model, Event.RequestShutdown);
      if shutdownRequested {
        return false, false;
      }
      shutdownRequested := true;
      return true, status == Scanning;
    }

    /** Its last region, after joining the scan thread. */
    method CompleteShutdown()
      requires Valid() && shutdownRequested && Model.scan == Idle
      modifies this
      ensures Valid() && Model == Apply(old(Model), Event.CompleteShutdown)
      ensures status == (if current.Some? then Ready else NoIndex) && current == old(current)
    {
      hide Inv;
      InvStep(Model, Event.CompleteShutdown);
      Model := Apply(Model, Event.CompleteShutdown);
      status := if current.Some? then Ready else NoIndex;
    }
  }
}
