/**
 What a caller can tell about the freshness of a reply: not from its stale flag, but from comparing its
 generation with the one the status reports.
 */
module Staleness {
  import opened IndexBuilder
  import opened Ranking
  import opened Results
  import opened SearchEngine
  import opened Service
  import opened Tokenizer

  /** The generation the status reports: zero while there is no index. */
  function StatusGeneration(s: State): nat {
    if s.current.Some? then s.current.value.generation else 0
  }

  predicate IsCurrent(s: State, id: nat) {
    id in s.searches && s.current == Some(s.searches[id].snapshot)
  }

  lemma KnownGeneration(s: State, id: nat)
    requires Inv(s) && id in s.searches
    ensures s.current.Some? && 1 <= s.searches[id].snapshot.generation <= StatusGeneration(s) == |s.log|
    ensures IsCurrent(s, id) <==> s.searches[id].snapshot.generation == StatusGeneration(s)
  {
    hide WellFormed, CacheSound;
    KnownSearchSound(s, id);
  }

  lemma AnsweredIsCurrentIff(s: State, id: nat)
    requires Inv(s) && id in s.searches && s.searches[id].stage.Answered? && s.searches[id].stage.response.Success?
    ensures IsCurrent(s, id) <==> s.searches[id].stage.response.value.generation == StatusGeneration(s)
  {
    KnownSearchSound(s, id);
    AnswerIsForCaptured(s.searches[id]);
    hide Inv, IsCurrent, StatusGeneration;
    KnownGeneration(s, id);
  }

  /** In every run, at any time after the reply: it is for the current snapshot exactly if its generation is the reported one. */
  lemma CurrentIffGenerationsAgree(capacity: nat, es: seq<Event>, id: nat)
    requires Legal(Init(capacity), es)
    ensures var s := After(Init(capacity), es);
      id in s.searches && s.searches[id].stage.Answered? && s.searches[id].stage.response.Success? ==>
        (IsCurrent(s, id) <==> s.searches[id].stage.response.value.generation == StatusGeneration(s))
  {
    InitInv(capacity);
    hide Inv, Legal, After, IsCurrent, StatusGeneration;
    InvRun(Init(capacity), es);
    var s := After(Init(capacity), es);
    if id in s.searches && s.searches[id].stage.Answered? && s.searches[id].stage.response.Success? {
      AnsweredIsCurrentIff(s, id);
    }
  }

  lemma AnswerIsForCaptured(x: Search)
    requires x.stage.Answered? && AnswerSound(x, x.stage.response) && x.stage.response.Success?
    ensures x.stage.response.value.generation == x.snapshot.generation
  {}

  /* ---------------------------------------------------------------- what the flag says */

  lemma {:induction false} SearchKeepsSnapshot(s: State, es: seq<Event>, id: nat)
    requires id in s.searches && Legal(s, es)
    ensures id in After(s, es).searches && After(s, es).searches[id].snapshot == s.searches[id].snapshot
    decreases |es|
  {
    if es != [] {
      SearchStep(s, es[0], id);
      hide Apply, Enabled;
      SearchKeepsSnapshot(Apply(s, es[0]), es[1..], id);
    }
  }

  lemma SearchStep(s: State, e: Event, id: nat)
    requires id in s.searches && Enabled(s, e)
    ensures id in Apply(s, e).searches && Apply(s, e).searches[id].snapshot == s.searches[id].snapshot
  {
    hide IsAnswer, WellFormed, ConsultStage, ConsultCache, ComputeCache;
  }

  /**
   A flag that is not set says no scan was under way when it was read, and nothing else: the snapshot
   is current at a later time exactly if it was so at the reading and nothing was installed since, for
   which a new scan must have been accepted.
   */
  lemma NotStaleMeans(s: State, id: nat, es: seq<Event>)
    requires Inv(s) && AtStage(s, id, Captured) && Legal(Apply(s, ReadStale(id)), es)
    requires !Apply(s, ReadStale(id)).searches[id].stale
    ensures var read := Apply(s, ReadStale(id));
      && s.scan.Idle?
      && (IsCurrent(After(read, es), id) <==>
            s.searches[id].snapshot.generation == StatusGeneration(s) && Installs(es) == 0)
      && Installs(es) <= Accepted(read, es)
  {
    var read := Apply(s, ReadStale(id));
    ReadingTheFlag(s, id);
    hide Inv, Apply, Enabled, Legal, After, IsCurrent, StatusGeneration, AtStage;
    InvStep(s, ReadStale(id));
    InvRun(read, es);
    SearchKeepsSnapshot(read, es, id);
    PublishedByInstalls(read, es);
    KnownGeneration(s, id);
    KnownGeneration(After(read, es), id);
    ScansPublishOnceOrFail(read, es);
  }

  lemma ReadingTheFlag(s: State, id: nat)
    requires Inv(s) && AtStage(s, id, Captured)
    ensures var read := Apply(s, ReadStale(id));
      && Enabled(s, ReadStale(id)) && id in read.searches && read.searches[id].snapshot == s.searches[id].snapshot
      && read.log == s.log && read.scan == s.scan
      && (!read.searches[id].stale ==> s.scan.Idle?)
  {
    hide SearchesSound, CacheSound, WellFormed;
  }

  /* ---------------------------------------------------------------- a superseded reply that is not stale */

  /** A whole rescan, from the acceptance to the end of the scan thread. */
  function Rescan(next: IndexSnapshot): seq<Event> {
    [StartScan, FinishBuild(next), Install, ClearCache, FinishScan]
  }

  function Rescanned(s: State, next: IndexSnapshot): State {
    s.(status := Ready, scan := Idle, current := Some(next), nextGeneration := next.generation + 1,
       log := s.log + [next], cache := [])
  }

  lemma OneMore(s: State, e: Event, es: seq<Event>)
    requires Enabled(s, e) && Legal(Apply(s, e), es)
    ensures Legal(s, [e] + es) && After(s, [e] + es) == After(Apply(s, e), es)
  {
    assert ([e] + es)[1..] == es;
    hide Apply, Enabled;
  }

  lemma RescanThen(s: State, next: IndexSnapshot, es: seq<Event>)
    requires s.status != Scanning && s.scan.Idle? && !s.shutdownRequested
    requires WellFormed(next) && next.generation == s.nextGeneration
    requires Legal(Rescanned(s, next), es)
    ensures Legal(s, Rescan(next) + es) && After(s, Rescan(next) + es) == After(Rescanned(s, next), es)
  {
    hide WellFormed, Legal, After;
    var s1 := Apply(s, StartScan);
    var s2 := Apply(s1, FinishBuild(next));
    var s3 := Apply(s2, Install);
    var s4 := Apply(s3, ClearCache);
    assert Apply(s4, FinishScan) == Rescanned(s, next);
    hide Apply, Enabled;
    OneMore(s4, FinishScan, es);
    OneMore(s3, ClearCache, [FinishScan] + es);
    OneMore(s2, Install, [ClearCache] + ([FinishScan] + es));
    OneMore(s1, FinishBuild(next), [Install] + ([ClearCache] + ([FinishScan] + es)));
    OneMore(s, StartScan, [FinishBuild(next)] + ([Install] + ([ClearCache] + ([FinishScan] + es))));
    assert Rescan(next) + es
        == [StartScan] + ([FinishBuild(next)] + ([Install] + ([ClearCache] + ([FinishScan] + es))));
  }

  /** A scan, a search that captures its snapshot, a whole rescan before the flag is read, and the rest of the search. */
  function Superseding(query: Text, limit: nat): seq<Event> {
    Rescan(EmptySnapshot(1))
    + ([Capture(0, query, limit)] + (Rescan(EmptySnapshot(2)) + [ReadStale(0), Consult(0), Compute(0, [])]))
  }

  lemma NoRecordsNoHits(query: Text, limit: nat)
    ensures IsAnswer([], query, limit, [])
  {
    assert Splits([], limit, [], []);
    assert HitsOf([]) == [];
  }

  /** The rest of a search, with nothing in the cache and nothing to find. */
  lemma SearchRuns(s: State, query: Text, limit: nat)
    requires AtStage(s, 0, Captured) && s.searches[0] == Search(EmptySnapshot(1), query, limit, false, Captured)
    requires |query| <= MAX_QUERY_BYTES && SearchedFor(query) != [] && s.cache == [] && s.status == Ready
    ensures var es := [ReadStale(0), Consult(0), Compute(0, [])];
      && Legal(s, es)
      && var t := After(s, es);
         && t.current == s.current && AtStage(t, 0, Answered(Success(SearchResponse(1, [], false))))
         && !t.searches[0].stale
  {
    hide IsAnswer, SearchedFor, CacheKey, ComputeCache, ConsultCache;
    var judged := Apply(s, ReadStale(0));
    var missed := Apply(judged, Consult(0));
    assert AtStage(missed, 0, Computing);
    NoRecordsNoHits(SearchedFor(query), ClampLimit(limit));
    var answered := Apply(missed, Compute(0, []));
    assert answered.current == s.current && AtStage(answered, 0, Answered(Success(SearchResponse(1, [], false))))
      && !answered.searches[0].stale;
    assert Enabled(s, ReadStale(0)) && Enabled(judged, Consult(0)) && Enabled(missed, Compute(0, []));
    hide Apply, Enabled, AtStage;
    OneMore(missed, Compute(0, []), []);
    OneMore(judged, Consult(0), [Compute(0, [])]);
    OneMore(s, ReadStale(0), [Consult(0), Compute(0, [])]);
    assert [ReadStale(0)] + [Consult(0), Compute(0, [])] == [ReadStale(0), Consult(0), Compute(0, [])];
    assert [Consult(0)] + [Compute(0, [])] == [Consult(0), Compute(0, [])];
    assert [Compute(0, [])] + [] == [Compute(0, [])];
  }

  /** A run from the start whose reply is not stale, though the status already reports a later generation. */
  lemma NotStaleYetSuperseded(capacity: nat, query: Text, limit: nat)
    requires |query| <= MAX_QUERY_BYTES && SearchedFor(query) != []
    ensures var es := Superseding(query, limit);
      && Legal(Init(capacity), es)
      && var s := After(Init(capacity), es);
         && AtStage(s, 0, Answered(Success(SearchResponse(1, [], false)))) && !s.searches[0].stale
         && StatusGeneration(s) == 2
  {
    var s := Init(capacity);
    var first := Rescanned(s, EmptySnapshot(1));
    var captured := Apply(first, Capture(0, query, limit));
    var second := Rescanned(captured, EmptySnapshot(2));
    var rest := [ReadStale(0), Consult(0), Compute(0, [])];
    assert WellFormed(EmptySnapshot(1)) && WellFormed(EmptySnapshot(2));
    assert Enabled(first, Capture(0, query, limit));
    assert second.searches[0] == Search(EmptySnapshot(1), query, limit, false, Captured);
    hide SearchedFor, WellFormed, Legal, After, Enabled;
    SearchRuns(second, query, limit);
    RescanThen(captured, EmptySnapshot(2), rest);
    OneMore(first, Capture(0, query, limit), Rescan(EmptySnapshot(2)) + rest);
    RescanThen(s, EmptySnapshot(1), [Capture(0, query, limit)] + (Rescan(EmptySnapshot(2)) + rest));
  }
}
