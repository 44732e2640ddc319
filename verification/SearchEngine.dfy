/** Scoring, the two ways to collect hits, and the search with its cache. */
module SearchEngine {
  import opened Candidates
  import opened IndexBuilder
  import opened LruCache
  import opened Ranking
  import opened Results
  import opened Sorting
  import opened Tokenizer

  const MAX_QUERY_BYTES: nat := 256
  const MAX_LIMIT: nat := 100
  const SUBSTRING_SCORE: nat := 30
  const QUERY_TOO_LONG := Error(InvalidArgument, "search query is too long")

  /** A limit that may be used for the requested one; zero asks for all there is. */
  predicate MayLimit(limit: nat, requested: nat) {
    1 <= limit <= MAX_LIMIT && (requested != 0 ==> limit <= requested)
  }

  function ClampLimit(limit: nat): (r: nat)
    ensures MayLimit(r, limit) && forall k: nat :: MayLimit(k, limit) ==> k <= r
  {
    if limit == 0 || limit > MAX_LIMIT then MAX_LIMIT else limit
  }

  /* ---------------------------------------------------------------- cache keys */

  function Decimal(n: nat): (digits: Text)
    ensures digits != [] && forall i :: 0 <= i < |digits| ==> 48 <= digits[i] <= 57
  {
    if n < 10 then [48 + n] else Decimal(n / 10) + [48 + n % 10]
  }

  function CacheKey(normalizedQuery: Text, limit: nat): Text {
    normalizedQuery + [10] + Decimal(limit)
  }

  lemma {:induction false} DecimalInjective(k: nat, m: nat)
    requires Decimal(k) == Decimal(m)
    ensures k == m
  {
    var a, b := Decimal(k), Decimal(m);
    assert a[|a| - 1] == b[|b| - 1];
    if k >= 10 && m >= 10 {
      assert a[..|a| - 1] == Decimal(k / 10) && b[..|b| - 1] == Decimal(m / 10);
      DecimalInjective(k / 10, m / 10);
    }
  }

  /** The last newline of a key is the one before the limit. */
  lemma LastNewline(a: Text, k: nat, i: nat)
    ensures |a| < i < |CacheKey(a, k)| ==> CacheKey(a, k)[i] != 10
  {
    if |a| < i < |CacheKey(a, k)| {
      assert CacheKey(a, k)[i] == Decimal(k)[i - |a| - 1];
    }
  }

  /** Two searches share a cache key only if they agree on the query and the limit, newlines in queries included. */
  lemma CacheKeyInjective(a: Text, k: nat, b: Text, m: nat)
    requires CacheKey(a, k) == CacheKey(b, m)
    ensures a == b && k == m
  {
    hide Decimal;
    var key := CacheKey(a, k);
    assert key[|a|] == 10 && key[|b|] == 10;
    LastNewline(a, k, |b|);
    LastNewline(b, m, |a|);
    assert a == key[..|a|] && b == key[..|b|];
    assert Decimal(k) == key[|a| + 1..] && Decimal(m) == key[|b| + 1..];
    DecimalInjective(k, m);
  }

  /* ---------------------------------------------------------------- scores */

  /** One of the query tokens is among the record's tokens. */
  predicate AnyExact(queryTokens: seq<Text>, tokens: set<Text>) {
    exists i | 0 <= i < |queryTokens| :: queryTokens[i] in tokens
  }

  /** One of the record's tokens starts with one of the query tokens. */
  predicate AnyPrefix(queryTokens: seq<Text>, tokens: set<Text>) {
    exists i | 0 <= i < |queryTokens| :: exists u | u in tokens :: StartsWith(u, queryTokens[i])
  }

  function ScoreIndexHit(record: FileRecord, fileName: Text, query: Text, queryTokens: seq<Text>): nat {
    if fileName == query then 100
    else if query != [] && StartsWith(fileName, query) then 80
    else if AnyExact(queryTokens, RecordTokens(record)) then 60
    else if AnyPrefix(queryTokens, RecordTokens(record)) then 50
    else 30
  }

  /** A fallback score of zero asks for the score of an index hit. */
  function MakeRankedHit(record: FileRecord, query: Text, queryTokens: seq<Text>, fallbackScore: nat): RankedHit {
    var fileName := Normalize(record.fileName);
    var score := if fallbackScore == 0 then ScoreIndexHit(record, fileName, query, queryTokens) else fallbackScore;
    RankedHit(SearchHit(record.id, score), |fileName|, Normalize(record.relativePath))
  }

  /* ---------------------------------------------------------------- what a search should find */

  ghost predicate NumberedFromOne(records: seq<FileRecord>) {
    forall i :: 0 <= i < |records| ==> records[i].id == i + 1
  }

  /** The identifiers up to n that match every token, in ascending order. */
  function MatchingIds(records: seq<FileRecord>, tokens: seq<Text>, n: nat): seq<nat>
    requires n <= |records|
  {
    if n == 0 then []
    else MatchingIds(records, tokens, n - 1) + if MatchesAll(records, n, tokens) then [n] else []
  }

  /** The first `room` identifiers after n whose name contains the query. */
  function SubstringIds(records: seq<FileRecord>, query: Text, n: nat, room: nat): seq<nat>
    requires n <= |records|
    decreases |records| - n
  {
    if n == |records| || room == 0 then []
    else if Contains(NameOf(records[n]), query) then [n + 1] + SubstringIds(records, query, n + 1, room - 1)
    else SubstringIds(records, query, n + 1, room)
  }

  predicate InRange(ids: seq<nat>, n: nat) {
    forall i :: 0 <= i < |ids| ==> 1 <= ids[i] <= n
  }

  function RankAll(records: seq<FileRecord>, ids: seq<nat>, query: Text, queryTokens: seq<Text>, fallbackScore: nat)
    : (ranked: seq<RankedHit>)
    requires InRange(ids, |records|)
    ensures |ranked| == |ids|
    ensures forall i :: 0 <= i < |ids| ==>
      ranked[i] == MakeRankedHit(records[ids[i] - 1], query, queryTokens, fallbackScore)
  {
    seq(|ids|, i requires 0 <= i < |ids| =>
      MakeRankedHit(records[ids[i] - 1], query, queryTokens, fallbackScore))
  }

  lemma {:induction false} MatchingIdsExact(records: seq<FileRecord>, tokens: seq<Text>, n: nat)
    requires n <= |records|
    ensures Ascending(MatchingIds(records, tokens, n)) && InRange(MatchingIds(records, tokens, n), n)
    ensures forall id: nat :: id in MatchingIds(records, tokens, n) <==> id <= n && MatchesAll(records, id, tokens)
  {
    hide MatchesAll;
    if n > 0 {
      MatchingIdsExact(records, tokens, n - 1);
    } else {
      forall id: nat ensures id == 0 ==> !MatchesAll(records, id, tokens) {
        NoRecordZero(records, tokens);
      }
    }
  }

  lemma NoRecordZero(records: seq<FileRecord>, tokens: seq<Text>)
    ensures !MatchesAll(records, 0, tokens)
  {}

  /** The name of the record with this identifier contains the query. */
  predicate NameContains(records: seq<FileRecord>, id: nat, query: Text) {
    1 <= id <= |records| && Contains(NameOf(records[id - 1]), query)
  }

  lemma {:induction false} SubstringIdsShape(records: seq<FileRecord>, query: Text, n: nat, room: nat)
    requires n <= |records|
    ensures var ids := SubstringIds(records, query, n, room);
      && Ascending(ids) && InRange(ids, |records|) && |ids| <= room
      && (forall i :: 0 <= i < |ids| ==> n < ids[i])
    decreases |records| - n
  {
    hide NameOf, Contains;
    if n < |records| && room > 0 {
      SubstringIdsShape(records, query, n + 1, room - 1);
      SubstringIdsShape(records, query, n + 1, room);
    }
  }

  lemma {:induction false} SubstringIdsMembers(records: seq<FileRecord>, query: Text, n: nat, room: nat, id: nat)
    requires n <= |records|
    ensures id in SubstringIds(records, query, n, room) ==> NameContains(records, id, query)
    ensures n < id && NameContains(records, id, query) && |SubstringIds(records, query, n, room)| < room ==>
      id in SubstringIds(records, query, n, room)
    decreases |records| - n
  {
    hide NameOf, Contains;
    if n < |records| && room > 0 {
      if Contains(NameOf(records[n]), query) {
        SubstringIdsMembers(records, query, n + 1, room - 1, id);
      } else {
        SubstringIdsMembers(records, query, n + 1, room, id);
      }
    }
  }

  /** The matches a search ranks: none without tokens, else by tokens if any record matches them all, else by substring, at most 100. */
  function Collected(records: seq<FileRecord>, query: Text): seq<RankedHit> {
    var tokens := Tokens(query);
    var ids := MatchingIds(records, tokens, |records|);
    MatchingIdsExact(records, tokens, |records|);
    SubstringIdsShape(records, query, 0, MAX_LIMIT);
    if tokens == [] then []
    else if ids != [] then RankAll(records, ids, query, tokens, 0)
    else RankAll(records, SubstringIds(records, query, 0, MAX_LIMIT), query, [], SUBSTRING_SCORE)
  }

  /** What an uncached search may answer. Only the choice between hits of equal rank is open. */
  ghost predicate IsAnswer(records: seq<FileRecord>, query: Text, limit: nat, hits: seq<SearchHit>) {
    AreTopHits(Collected(records, query), limit, hits)
  }

  /* ---------------------------------------------------------------- computing it */

  /** The identifiers that belong to one of n records. */
  function Known(ids: seq<nat>, n: nat): (known: seq<nat>)
    ensures InRange(known, n)
    ensures InRange(ids, n) ==> known == ids
  {
    if ids == [] then []
    else
      var last := ids[|ids| - 1];
      Known(ids[..|ids| - 1], n) + if 1 <= last <= n then [last] else []
  }

  lemma OneMoreRanked(s: IndexSnapshot, ids: seq<nat>, id: nat, query: Text, queryTokens: seq<Text>)
    requires Numbered(s)
    ensures RankAll(s.records, Known(ids + [id], |s.records|), query, queryTokens, 0)
         == RankAll(s.records, Known(ids, |s.records|), query, queryTokens, 0)
            + if id in s.idToPos then [MakeRankedHit(s.records[s.idToPos[id]], query, queryTokens, 0)] else []
  {
    hide MakeRankedHit, NameOf;
    assert (ids + [id])[..|ids|] == ids;
  }

  /** Candidates that no record answers to are passed over. */
  method BuildIndexHits(s: IndexSnapshot, candidates: seq<nat>, query: Text, queryTokens: seq<Text>, limit: nat)
    returns (hits: seq<SearchHit>)
    requires Numbered(s)
    ensures AreTopHits(RankAll(s.records, Known(candidates, |s.records|), query, queryTokens, 0), limit, hits)
  {
    hide MakeRankedHit, NameOf, AreTopHits, RankAll, Known;
    var ranked: seq<RankedHit> := [];
    assert RankAll(s.records, Known([], |s.records|), query, queryTokens, 0) == [] by { NothingKnown(|s.records|); }
    for i := 0 to |candidates|
      invariant ranked == RankAll(s.records, Known(candidates[..i], |s.records|), query, queryTokens, 0)
    {
      OneMoreRanked(s, candidates[..i], candidates[i], query, queryTokens);
      assert candidates[..i + 1] == candidates[..i] + [candidates[i]];
      if candidates[i] !in s.idToPos {
        continue;
      }
      var pos := s.idToPos[candidates[i]];
      ranked := ranked + [MakeRankedHit(s.records[pos], query, queryTokens, 0)];
    }
    assert candidates[..|candidates|] == candidates;
    hits := TopHits(ranked, limit);
  }

  lemma NothingKnown(n: nat)
    ensures Known([], n) == []
  {}

  method BuildSubstringHits(s: IndexSnapshot, query: Text, limit: nat)
    returns (hits: seq<SearchHit>)
    requires Numbered(s)
    ensures InRange(SubstringIds(s.records, query, 0, MAX_LIMIT), |s.records|)
    ensures AreTopHits(RankAll(s.records, SubstringIds(s.records, query, 0, MAX_LIMIT), query, [], SUBSTRING_SCORE),
                       limit, hits)
  {
    hide MakeRankedHit, NameOf, Contains, AreTopHits;
    SubstringIdsShape(s.records, query, 0, MAX_LIMIT);
    ghost var ids := SubstringIds(s.records, query, 0, MAX_LIMIT);
    ghost var all := RankAll(s.records, ids, query, [], SUBSTRING_SCORE);
    var ranked: seq<RankedHit> := [];
    var pos := 0;
    while pos < |s.normalizedNames| && |ranked| < MAX_LIMIT
      invariant pos <= |s.normalizedNames| && |ranked| <= MAX_LIMIT
      invariant |ranked| <= |ids| && ranked == all[..|ranked|]
      invariant ids[|ranked|..] == SubstringIds(s.records, query, pos, MAX_LIMIT - |ranked|)
      decreases |s.normalizedNames| - pos
    {
      if Contains(s.normalizedNames[pos], query) {
        assert ids[|ranked|..][0] == pos + 1;
        ranked := ranked + [MakeRankedHit(s.records[pos], query, [], SUBSTRING_SCORE)];
      }
      pos := pos + 1;
    }
    assert ids[|ranked|..] == [];
    assert ranked == all;
    hits := TopHits(ranked, limit);
  }

  lemma CandidatesAreMatchingIds(records: seq<FileRecord>, tokens: seq<Text>, ids: seq<nat>)
    requires Ascending(ids) && forall id: nat :: id in ids <==> MatchesAll(records, id, tokens)
    ensures ids == MatchingIds(records, tokens, |records|)
  {
    var n := |records|;
    MatchingIdsExact(records, tokens, n);
    forall id: nat ensures id in ids <==> id in MatchingIds(records, tokens, n) {
      assert MatchesAll(records, id, tokens) ==> id <= n;
    }
    AscendingIsUnique(ids, MatchingIds(records, tokens, n));
  }

  /** The search behind the cache, for a query with at least one token. */
  method ComputeHits(s: IndexSnapshot, query: Text, limit: nat) returns (hits: seq<SearchHit>)
    requires WellFormed(s) && Tokens(query) != []
    ensures IsAnswer(s.records, query, limit, hits)
  {
    hide MatchesAll, Ascending, InRange, AreTopHits, WellFormed, Known;
    OfWellFormed(s);
    var tokens := Tokenize(query);
    var candidates := FindCandidates(s, tokens);
    CandidatesAreMatchingIds(s.records, tokens, candidates);
    MatchingIdsExact(s.records, tokens, |s.records|);
    if candidates != [] {
      hits := BuildIndexHits(s, candidates, query, tokens, limit);
    } else {
      hits := BuildSubstringHits(s, query, limit);
    }
    assert AreTopHits(Collected(s.records, query), limit, hits);
  }

  lemma OfWellFormed(s: IndexSnapshot)
    requires WellFormed(s)
    ensures Numbered(s) && NumberedFromOne(s.records)
  {}

  /* ---------------------------------------------------------------- the cached search */

  datatype CachedSearch = CachedSearch(generation: nat, hits: seq<SearchHit>)

  datatype SearchResponse = SearchResponse(generation: nat, hits: seq<SearchHit>, fromCache: bool)

  type CacheEntry = Entry<Text, CachedSearch>

  /** The query as it is searched for. */
  function SearchedFor(query: Text): Text {
    Normalize(Trim(query))
  }

  /** An entry answers its own key on the records it was computed from. */
  ghost predicate EntrySound(published: map<nat, seq<FileRecord>>, e: CacheEntry) {
    && e.value.generation in published
    && forall query, limit :: e.key == CacheKey(query, limit) ==>
         IsAnswer(published[e.value.generation], query, limit, e.value.hits)
  }

  ghost predicate CacheSound(published: map<nat, seq<FileRecord>>, cache: seq<CacheEntry>) {
    forall e :: e in cache ==> EntrySound(published, e)
  }

  lemma FoundIsSound(published: map<nat, seq<FileRecord>>, cache: seq<CacheEntry>, query: Text, limit: nat)
    requires CacheSound(published, cache) && Find(cache, CacheKey(query, limit)).Some?
    ensures var found := Find(cache, CacheKey(query, limit)).value;
      found.generation in published && IsAnswer(published[found.generation], query, limit, found.hits)
  {
    hide IsAnswer, CacheKey;
    FindKey(cache, CacheKey(query, limit));
    assert EntrySound(published, Entry(CacheKey(query, limit), Find(cache, CacheKey(query, limit)).value));
  }

  lemma GetKeepsSound(published: map<nat, seq<FileRecord>>, cache: seq<CacheEntry>, key: Text)
    requires CacheSound(published, cache)
    ensures CacheSound(published, Get(cache, key))
  {
    hide EntrySound;
    FindKey(cache, key);
    forall e | e in Get(cache, key) ensures EntrySound(published, e) {
      WithoutMembers(cache, key, e);
    }
  }

  lemma PutKeepsSound(published: map<nat, seq<FileRecord>>, cache: seq<CacheEntry>, capacity: nat,
                      generation: nat, query: Text, limit: nat, hits: seq<SearchHit>)
    requires capacity >= 1 && CacheSound(published, cache)
    requires generation in published && IsAnswer(published[generation], query, limit, hits)
    ensures CacheSound(published, Put(capacity, cache, CacheKey(query, limit), CachedSearch(generation, hits)))
  {
    var added := Entry(CacheKey(query, limit), CachedSearch(generation, hits));
    assert EntrySound(published, added) by {
      hide IsAnswer, CacheKey;
      forall q, l | added.key == CacheKey(q, l) ensures IsAnswer(published[generation], q, l, hits) {
        CacheKeyInjective(query, limit, q, l);
      }
    }
    hide EntrySound, CacheKey;
    forall e | e in Put(capacity, cache, added.key, added.value) ensures EntrySound(published, e) {
      assert e in [added] + Without(cache, added.key);
      WithoutMembers(cache, added.key, e);
    }
  }

  /** The cache after the lookup has moved a hit to the front, or cleared the cache over an old one. */
  function AfterLookup(cache: seq<CacheEntry>, generation: nat, key: Text): seq<CacheEntry> {
    match Find(cache, key)
    case None => cache
    case Some(found) => if found.generation == generation then Get(cache, key) else []
  }

  /** What a search for a query with something in it does to the cache and answers. */
  ghost predicate SearchedFurther(s: IndexSnapshot, q: Text, l: nat, capacity: nat, before: seq<CacheEntry>,
                                  r: SearchResponse, after: seq<CacheEntry>)
    requires capacity >= 1
  {
    var found := Find(before, CacheKey(q, l));
    var looked := AfterLookup(before, s.generation, CacheKey(q, l));
    if found.Some? && found.value.generation == s.generation then
      r == SearchResponse(s.generation, found.value.hits, true) && after == looked
    else if Tokens(q) == [] then r == SearchResponse(s.generation, [], false) && after == looked
    else
      && r.generation == s.generation && !r.fromCache
      && IsAnswer(s.records, q, l, r.hits)
      && after == Put(capacity, looked, CacheKey(q, l), CachedSearch(s.generation, r.hits))
  }

  /** What one search does to the cache and answers. */
  ghost predicate Searched(s: IndexSnapshot, query: Text, limit: nat, capacity: nat, before: seq<CacheEntry>,
                           r: Result<SearchResponse>, after: seq<CacheEntry>)
    requires capacity >= 1
  {
    if |query| > MAX_QUERY_BYTES then r == Failure(QUERY_TOO_LONG) && after == before
    else if SearchedFor(query) == [] then r == Success(SearchResponse(s.generation, [], false)) && after == before
    else r.Success? && SearchedFurther(s, SearchedFor(query), ClampLimit(limit), capacity, before, r.value, after)
  }

  class SearchEngine {
    const cache: Cache<Text, CachedSearch>

    constructor (cacheCapacity: nat)
      ensures fresh(cache) && cache.Valid() && cache.Contents() == [] && cache.items == []
      ensures cache.capacity == if cacheCapacity == 0 then 1 else cacheCapacity
    {
      cache := new Cache(cacheCapacity);
    }

    /** A hit of this generation is used; a hit of another one clears the cache. */
    method LookUp(generation: nat, key: Text) returns (cached: Option<CachedSearch>)
      requires cache.Valid()
      modifies cache
      ensures cache.Valid() && cached == Find(old(cache.Contents()), key)
      ensures cache.Contents() == AfterLookup(old(cache.Contents()), generation, key)
      ensures forall n :: n in cache.items ==> n in old(cache.items)
    {
      cached := cache.Lookup(key);
      if cached.Some? && cached.value.generation != generation {
        cache.Clear();
      }
    }

    method Store(key: Text, found: CachedSearch)
      requires cache.Valid()
      modifies cache, cache.items
      ensures cache.Valid() && cache.Contents() == Put(cache.capacity, old(cache.Contents()), key, found)
      ensures forall n :: n in cache.items ==> n in old(cache.items) || fresh(n)
    {
      hide Put;
      cache.Insert(key, found);
    }

    method SearchFurther(s: IndexSnapshot, query: Text, limit: nat) returns (r: SearchResponse)
      requires cache.Valid() && WellFormed(s)
      modifies cache, cache.items
      ensures cache.Valid()
      ensures SearchedFurther(s, query, limit, cache.capacity, old(cache.Contents()), r, cache.Contents())
      ensures forall n :: n in cache.items ==> n in old(cache.items) || fresh(n)
    {
      hide WellFormed, Tokens, IsAnswer, Put, CacheKey, AfterLookup, Find;
      var key := CacheKey(query, limit);
      var cached := LookUp(s.generation, key);
      if cached.Some? && cached.value.generation == s.generation {
        return SearchResponse(s.generation, cached.value.hits, true);
      }
      var tokens := Tokenize(query);
      if tokens == [] {
        return SearchResponse(s.generation, [], false);
      }
      var hits := ComputeHits(s, query, limit);
      assert forall i :: 0 <= i < |cache.items| ==> cache.items[i] in old(cache.items);
      Store(key, CachedSearch(s.generation, hits));
      return SearchResponse(s.generation, hits, false);
    }

    method Search(s: IndexSnapshot, query: Text, limit: nat) returns (r: Result<SearchResponse>)
      requires cache.Valid() && WellFormed(s)
      modifies cache, cache.items
      ensures cache.Valid()
      ensures Searched(s, query, limit, cache.capacity, old(cache.Contents()), r, cache.Contents())
      ensures forall n :: n in cache.items ==> n in old(cache.items) || fresh(n)
    {
      hide WellFormed, SearchedFurther;
      if |query| > MAX_QUERY_BYTES {
        return Failure(QUERY_TOO_LONG);
      }
      var clamped := ClampLimit(limit);
      var trimmed := TrimAscii(query);
      var normalized := NormalizeIndexText(trimmed);
      if normalized == [] {
        return Success(SearchResponse(s.generation, [], false));
      }
      var response := SearchFurther(s, normalized, clamped);
      return Success(response);
    }

    method ClearCache()
      requires cache.Valid()
      modifies cache
      ensures cache.Valid() && cache.Contents() == []
    {
      cache.Clear();
    }
  }

  /** One search against a sound cache answers what an uncached one may, and leaves the cache sound. */
  lemma SearchIsTransparent(published: map<nat, seq<FileRecord>>, s: IndexSnapshot, query: Text, limit: nat,
                            capacity: nat, before: seq<CacheEntry>, r: Result<SearchResponse>, after: seq<CacheEntry>)
    requires capacity >= 1 && CacheSound(published, before)
    requires s.generation in published && published[s.generation] == s.records
    requires Searched(s, query, limit, capacity, before, r, after)
    ensures r.Failure? <==> |query| > MAX_QUERY_BYTES
    ensures r.Failure? ==> r.error == QUERY_TOO_LONG
    ensures r.Success? ==>
      r.value.generation == s.generation && IsAnswer(s.records, SearchedFor(query), ClampLimit(limit), r.value.hits)
    ensures CacheSound(published, after)
  {
    hide CacheSound, CacheKey, Tokens, Find, Get, Put;
    var q, l := SearchedFor(query), ClampLimit(limit);
    if |query| <= MAX_QUERY_BYTES && q != [] {
      if Find(before, CacheKey(q, l)).Some? {
        FoundIsSound(published, before, q, l);
      }
      GetKeepsSound(published, before, CacheKey(q, l));
      EmptyCacheSound(published);
      if r.Success? && IsAnswer(s.records, q, l, r.value.hits) {
        var looked := AfterLookup(before, s.generation, CacheKey(q, l));
        hide IsAnswer;
        PutKeepsSound(published, looked, capacity, s.generation, q, l, r.value.hits);
      }
    }
    NoTokensInNothing();
    if Tokens(q) == [] {
      NothingAnswers(s.records, q, l);
    }
  }

  /** The query is lower-cased and the spaces around it do not matter. */
  lemma SearchedForPadded(left: Text, query: Text, right: Text)
    requires AllSpaces(left) && AllSpaces(right) && NoOuterSpaces(query)
    ensures SearchedFor(left + query + right) == Normalize(query)
  {
    TrimOfPadded(left, query, right);
  }

  /**
   A search that has been answered is answered from the cache when it is asked again on the same index:
   with the same hits, and leaving the cache as it is.
   */
  lemma AskedAgainIsCached(s: IndexSnapshot, query: Text, limit: nat, capacity: nat, before: seq<CacheEntry>,
                           first: SearchResponse, between: seq<CacheEntry>, again: Result<SearchResponse>,
                           after: seq<CacheEntry>)
    requires capacity >= 1 && Searched(s, query, limit, capacity, before, Success(first), between)
    requires Searched(s, query, limit, capacity, between, again, after)
    ensures again.Success? && again.value.hits == first.hits && after == between
    ensures Tokens(SearchedFor(query)) != [] ==> again.value.fromCache
  {
    hide CacheKey, Tokens, IsAnswer, Put, Get;
    var q, l := SearchedFor(query), ClampLimit(limit);
    NoTokensInNothing();
    if q != [] {
      var key := CacheKey(q, l);
      GetAgain(before, key);
      PutThenGet(capacity, AfterLookup(before, s.generation, key), key, CachedSearch(s.generation, first.hits));
    }
  }

  lemma EmptyCacheSound(published: map<nat, seq<FileRecord>>)
    ensures CacheSound(published, [])
  {}

  /** A query without tokens is answered with nothing. */
  lemma NothingAnswers(records: seq<FileRecord>, query: Text, limit: nat)
    requires Tokens(query) == []
    ensures IsAnswer(records, query, limit, [])
  {
    assert Splits([], limit, [], []);
    assert HitsOf([]) == [];
  }

  lemma NoTokensInNothing()
    ensures Tokens([]) == []
  {}
}
