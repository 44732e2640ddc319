/** What the answers of a search have in common: scores, ranking, limits and agreement with a linear scan. */
module SearchProperties {
  import opened Candidates
  import opened IndexBuilder
  import opened Ranking
  import opened SearchEngine
  import opened Sorting
  import opened Tokenizer

  function Indexed(records: seq<FileRecord>, query: Text): seq<nat> {
    MatchingIds(records, Tokens(query), |records|)
  }

  function CollectedIds(records: seq<FileRecord>, query: Text): seq<nat> {
    if Tokens(query) == [] then []
    else if Indexed(records, query) != [] then Indexed(records, query)
    else SubstringIds(records, query, 0, MAX_LIMIT)
  }

  /** How the search ranks a record. */
  function RankOf(records: seq<FileRecord>, query: Text, id: nat): RankedHit
    requires 1 <= id <= |records|
  {
    MakeRankedHit(records[id - 1], query, Tokens(query), if Indexed(records, query) != [] then 0 else SUBSTRING_SCORE)
  }

  lemma CollectedIdsShape(records: seq<FileRecord>, query: Text)
    ensures Ascending(CollectedIds(records, query)) && InRange(CollectedIds(records, query), |records|)
  {
    hide Tokens, MatchesAll, MatchingIds, SubstringIds, NameOf, Contains;
    MatchingIdsExact(records, Tokens(query), |records|);
    SubstringIdsShape(records, query, 0, MAX_LIMIT);
  }

  lemma CollectedShape(records: seq<FileRecord>, query: Text)
    ensures var ids := CollectedIds(records, query);
      && Ascending(ids) && InRange(ids, |records|) && |Collected(records, query)| == |ids|
      && forall k :: 0 <= k < |ids| ==> Collected(records, query)[k] == RankOf(records, query, ids[k])
  {
    hide Tokens, MatchesAll, MatchingIds, SubstringIds, Ascending, NameOf, Contains, ScoreIndexHit;
    CollectedIdsShape(records, query);
  }

  /** Where a returned hit was collected. */
  lemma HitOrigin(records: seq<FileRecord>, query: Text, limit: nat, top: seq<RankedHit>, i: nat) returns (k: nat)
    requires IsTop(Collected(records, query), limit, top) && i < |top|
    ensures k < |CollectedIds(records, query)|
    ensures 1 <= CollectedIds(records, query)[k] <= |records|
    ensures top[i] == RankOf(records, query, CollectedIds(records, query)[k])
  {
    hide Collected, RankOf, CollectedIds, Ascending;
    CollectedShape(records, query);
    var all := Collected(records, query);
    var rest :| Splits(all, limit, top, rest);
    assert top[i] in multiset(top) + multiset(rest);
    assert top[i] in all;
    k :| 0 <= k < |all| && all[k] == top[i];
  }

  /* ---------------------------------------------------------------- what is found */

  ghost predicate IsFoundUnderAll(r: FileRecord, tokens: seq<Text>) {
    forall i :: 0 <= i < |tokens| ==> IsFoundUnder(r, tokens[i])
  }

  lemma KnownTokensMatch(records: seq<FileRecord>, tokens: seq<Text>, k: nat, id: nat)
    requires k < |records| && IsFoundUnderAll(records[k], tokens)
    ensures MatchesAll(records, id, tokens) <==> 1 <= id <= |records| && IsFoundUnderAll(records[id - 1], tokens)
  {
    hide Matches, IsFoundUnder, IsFoundFrom;
    forall i | 0 <= i < |tokens| && 1 <= id <= |records|
      ensures Matches(records, id, tokens[i]) <==> IsFoundUnder(records[id - 1], tokens[i])
    {
      assert IsKnown(records, tokens[i]);
      MatchesByRuns(records, id, tokens[i]);
    }
  }

  /**
   If some record is found under every token of the query, in its file name, its extension or its path,
   the search collects exactly the records that are.
   */
  lemma ExactQueryFinds(records: seq<FileRecord>, query: Text, k: nat, id: nat)
    requires Tokens(query) != [] && k < |records| && IsFoundUnderAll(records[k], Tokens(query))
    ensures id in CollectedIds(records, query) <==> 1 <= id <= |records| && IsFoundUnderAll(records[id - 1], Tokens(query))
  {
    hide Tokens, MatchesAll, IsFoundUnderAll, SubstringIds;
    KnownTokensMatch(records, Tokens(query), k, k + 1);
    KnownTokensMatch(records, Tokens(query), k, id);
    MatchingIdsExact(records, Tokens(query), |records|);
    assert k + 1 in Indexed(records, query);
  }

  /** For a query that is one whole token every record with that run in its file name, extension or path is collected. */
  lemma WholeTokenFinds(records: seq<FileRecord>, query: Text, id: nat)
    requires IsToken(query) && 1 <= id <= |records| && IsFoundUnder(records[id - 1], query)
    ensures id in CollectedIds(records, query)
  {
    hide IsFoundUnder, CollectedIds, IsToken, Tokens;
    WholeToken(query);
    ExactQueryFinds(records, query, id - 1, id);
  }

  /** Every hit was collected, and if the limit allows for all that was, every one of them is a hit. */
  lemma HitsAreCollected(records: seq<FileRecord>, query: Text, limit: nat, hits: seq<SearchHit>, id: nat)
    requires NumberedFromOne(records) && IsAnswer(records, query, limit, hits)
    ensures (exists i :: 0 <= i < |hits| && hits[i].id == id) ==> id in CollectedIds(records, query)
    ensures id in CollectedIds(records, query) && |CollectedIds(records, query)| <= limit ==>
      exists i :: 0 <= i < |hits| && hits[i].id == id
  {
    hide Collected, CollectedIds, Tokens, ScoreIndexHit, MatchingIds, IsTop;
    var top :| IsTop(Collected(records, query), limit, top) && hits == HitsOf(top);
    CollectedShape(records, query);
    if i :| 0 <= i < |hits| && hits[i].id == id {
      var k := HitOrigin(records, query, limit, top, i);
    }
    if id in CollectedIds(records, query) && |CollectedIds(records, query)| <= limit {
      var ids := CollectedIds(records, query);
      var k :| 0 <= k < |ids| && ids[k] == id;
      AllFit(Collected(records, query), limit, top, k);
      var i :| 0 <= i < |top| && top[i] == Collected(records, query)[k];
      assert hits[i].id == id;
    }
  }

  lemma AllFit(all: seq<RankedHit>, limit: nat, top: seq<RankedHit>, k: nat)
    requires IsTop(all, limit, top) && |all| <= limit && k < |all|
    ensures all[k] in top
  {
    hide Sorted, RankLeq;
    var rest :| Splits(all, limit, top, rest);
    assert |multiset(top)| + |multiset(rest)| == |multiset(all)|;
    assert rest == [];
    assert all[k] in multiset(top) + multiset(rest);
  }

  /* ---------------------------------------------------------------- ranking */

  lemma {:induction false} OnceEach<T>(s: seq<T>, x: T)
    requires forall i, j :: 0 <= i < j < |s| ==> s[i] != s[j]
    ensures multiset(s)[x] <= 1
  {
    if s != [] {
      assert s == [s[0]] + s[1..];
      OnceEach(s[1..], x);
      assert x == s[0] ==> x !in s[1..];
    }
  }

  lemma CollectedOnce(records: seq<FileRecord>, query: Text, x: RankedHit)
    requires NumberedFromOne(records)
    ensures multiset(Collected(records, query))[x] <= 1
  {
    hide Collected, CollectedIds, Tokens, ScoreIndexHit, MatchingIds;
    CollectedShape(records, query);
    OnceEach(Collected(records, query), x);
  }

  lemma TopOnce(records: seq<FileRecord>, query: Text, limit: nat, top: seq<RankedHit>, i: nat, j: nat)
    requires NumberedFromOne(records) && IsTop(Collected(records, query), limit, top) && i < j < |top|
    ensures top[i] != top[j]
  {
    hide Collected, Tokens;
    var rest :| Splits(Collected(records, query), limit, top, rest);
    CollectedOnce(records, query, top[i]);
    assert multiset(top)[top[i]] <= (multiset(top) + multiset(rest))[top[i]] <= 1;
    if top[i] == top[j] {
      OccursTwice(top, i, j);
    }
  }

  /** No record is returned twice. */
  lemma IdsAreDistinct(records: seq<FileRecord>, query: Text, limit: nat, hits: seq<SearchHit>, i: nat, j: nat)
    requires NumberedFromOne(records) && IsAnswer(records, query, limit, hits) && i < j < |hits|
    ensures hits[i].id != hits[j].id
  {
    hide Collected, CollectedIds, Tokens, ScoreIndexHit, MatchingIds;
    var top :| IsTop(Collected(records, query), limit, top) && hits == HitsOf(top);
    var k := HitOrigin(records, query, limit, top, i);
    var l := HitOrigin(records, query, limit, top, j);
    TopOnce(records, query, limit, top, i, j);
  }

  /** What the order of the answer looks at, read off the hit and its record. */
  function HitKey(records: seq<FileRecord>, h: SearchHit): RankKey
    requires 1 <= h.id <= |records|
  {
    var r := records[h.id - 1];
    RankKey(h.score, |r.fileName|, Normalize(r.relativePath))
  }

  predicate HitsInRange(records: seq<FileRecord>, hits: seq<SearchHit>) {
    forall i :: 0 <= i < |hits| ==> 1 <= hits[i].id <= |records|
  }

  lemma KeyOfRank(records: seq<FileRecord>, query: Text, id: nat)
    requires NumberedFromOne(records) && 1 <= id <= |records|
    ensures RankOf(records, query, id).hit.id == id
    ensures KeyOf(RankOf(records, query, id)) == HitKey(records, RankOf(records, query, id).hit)
  {
    hide Tokens, ScoreIndexHit, MatchingIds, Normalize;
  }

  lemma KeysOfAnswer(records: seq<FileRecord>, query: Text, limit: nat, top: seq<RankedHit>)
    requires NumberedFromOne(records) && IsTop(Collected(records, query), limit, top)
    ensures HitsInRange(records, HitsOf(top))
    ensures forall i :: 0 <= i < |top| ==> KeyOf(top[i]) == HitKey(records, HitsOf(top)[i])
  {
    hide Collected, CollectedIds, RankOf, HitKey, KeyOf, IsTop;
    forall i | 0 <= i < |top|
      ensures 1 <= HitsOf(top)[i].id <= |records| && KeyOf(top[i]) == HitKey(records, HitsOf(top)[i])
    {
      var k := HitOrigin(records, query, limit, top, i);
      KeyOfRank(records, query, CollectedIds(records, query)[k]);
    }
  }

  /** Hits come by score, then by length of the file name, then by path, and as many as the limit allows. */
  lemma AnswerIsRanked(records: seq<FileRecord>, query: Text, limit: nat, hits: seq<SearchHit>)
    requires NumberedFromOne(records) && IsAnswer(records, query, limit, hits)
    ensures HitsInRange(records, hits) && |hits| == Min(limit, |CollectedIds(records, query)|)
    ensures forall i, j :: 0 <= i < j < |hits| ==> KeyLeq(HitKey(records, hits[i]), HitKey(records, hits[j]))
    ensures forall i, j :: 0 <= i < j < |hits| ==>
      var a, b := records[hits[i].id - 1], records[hits[j].id - 1];
      && hits[i].score >= hits[j].score
      && (hits[i].score == hits[j].score ==> |a.fileName| <= |b.fileName|)
      && (hits[i].score == hits[j].score && |a.fileName| == |b.fileName| ==>
            LexLeq(Normalize(a.relativePath), Normalize(b.relativePath)))
  {
    hide Collected, CollectedIds, Tokens;
    var top :| IsTop(Collected(records, query), limit, top) && hits == HitsOf(top);
    KeysOfAnswer(records, query, limit, top);
    CollectedShape(records, query);
    RankIsTotalPreorder();
    var rest :| Splits(Collected(records, query), limit, top, rest);
    forall i, j | 0 <= i < j < |hits| ensures KeyLeq(HitKey(records, hits[i]), HitKey(records, hits[j])) {
      hide RankLeq, KeyLeq, KeyOf, HitKey;
      assert RankLeq(top[i], top[j]);
    }
    hide RankLeq, KeyOf, LexLeq;
  }

  /** A collected match that is not returned outranks none that is. */
  lemma OmittedRankBehind(records: seq<FileRecord>, query: Text, limit: nat, hits: seq<SearchHit>, id: nat, i: nat)
    requires NumberedFromOne(records) && IsAnswer(records, query, limit, hits)
    requires id in CollectedIds(records, query) && i < |hits|
    requires forall j :: 0 <= j < |hits| ==> hits[j].id != id
    ensures 1 <= id <= |records| && 1 <= hits[i].id <= |records|
    ensures !RankedHitLess(RankOf(records, query, id), RankOf(records, query, hits[i].id))
  {
    hide Collected, CollectedIds, Tokens, ScoreIndexHit, RankedHitLess, IsTop, MatchingIds;
    var top :| IsTop(Collected(records, query), limit, top) && hits == HitsOf(top);
    CollectedShape(records, query);
    var ids := CollectedIds(records, query);
    var k :| 0 <= k < |ids| && ids[k] == id;
    var l := HitOrigin(records, query, limit, top, i);
    var x := RankOf(records, query, id);
    assert x == Collected(records, query)[k];
    assert x !in top;
    assert multiset(top)[x] == 0;
    NoOmittedOutranks(Collected(records, query), limit, top, i, x);
  }

  function HitKeys(records: seq<FileRecord>, hits: seq<SearchHit>): seq<RankKey>
    requires HitsInRange(records, hits)
  {
    seq(|hits|, i requires 0 <= i < |hits| => HitKey(records, hits[i]))
  }

  /** Under a smaller limit a search returns what ranks first under a larger one. */
  lemma SmallerLimitReturnsPrefix(records: seq<FileRecord>, query: Text, k: nat, m: nat,
                                  few: seq<SearchHit>, many: seq<SearchHit>)
    requires NumberedFromOne(records) && k <= m
    requires IsAnswer(records, query, k, few) && IsAnswer(records, query, m, many)
    ensures HitsInRange(records, few) && HitsInRange(records, many)
    ensures HitKeys(records, few) <= HitKeys(records, many)
  {
    hide Collected, Tokens, IsTop, KeyOf, HitKey;
    var topK :| IsTop(Collected(records, query), k, topK) && few == HitsOf(topK);
    var topM :| IsTop(Collected(records, query), m, topM) && many == HitsOf(topM);
    KeysOfAnswer(records, query, k, topK);
    KeysOfAnswer(records, query, m, topM);
    SmallerLimitIsPrefix(Collected(records, query), k, m, topK, topM);
    KeysAlike(records, topK);
    KeysAlike(records, topM);
  }

  lemma {:induction false} KeysAlike(records: seq<FileRecord>, top: seq<RankedHit>)
    requires HitsInRange(records, HitsOf(top))
    requires forall i :: 0 <= i < |top| ==> KeyOf(top[i]) == HitKey(records, HitsOf(top)[i])
    ensures HitKeys(records, HitsOf(top)) == KeysOf(top)
  {
    forall i | 0 <= i < |top| ensures HitKeys(records, HitsOf(top))[i] == KeysOf(top)[i] {
      KeysOfAt(top, i);
    }
  }

  /* ---------------------------------------------------------------- scores */

  predicate AnyIndexed(records: seq<FileRecord>, tokens: seq<Text>) {
    exists i | 0 <= i < |tokens| :: IsIndexed(records, tokens[i])
  }

  lemma TokenOfRecord(records: seq<FileRecord>, id: nat, t: Text)
    ensures HasToken(records, id, t) ==> IsIndexed(records, t)
  {}

  /** Whether a match scores as an exact or as a prefix one does not depend on the record. */
  lemma ScoreOfMatch(records: seq<FileRecord>, id: nat, query: Text, tokens: seq<Text>)
    requires MatchesAll(records, id, tokens) && tokens != [] && query != []
    ensures var name := Normalize(records[id - 1].fileName);
      ScoreIndexHit(records[id - 1], name, query, tokens)
      == if name == query then 100
         else if StartsWith(name, query) then 80
         else if AnyIndexed(records, tokens) then 60
         else 50
  {
    hide RecordTokens;
    var r := records[id - 1];
    if AnyIndexed(records, tokens) {
      var i :| 0 <= i < |tokens| && IsIndexed(records, tokens[i]);
      assert Matches(records, id, tokens[i]);
      assert AnyExact(tokens, RecordTokens(r));
    } else {
      forall i | 0 <= i < |tokens| ensures tokens[i] !in RecordTokens(r) {
        TokenOfRecord(records, id, tokens[i]);
      }
      assert Matches(records, id, tokens[0]);
      assert AnyPrefix(tokens, RecordTokens(r));
    }
  }

  /** The name of a hit's record, as queries are compared with it. */
  function HitName(records: seq<FileRecord>, h: SearchHit): Text
    requires 1 <= h.id <= |records|
  {
    Normalize(records[h.id - 1].fileName)
  }

  /**
   Scores tell the branch and the match: a fallback answer holds only 30s and an indexed one none; in
   the latter 100 means the file name is the query and 80 that it goes on from it; every other hit has
   60 or every other hit has 50, by whether any query token is indexed at all.
   */
  lemma ScoreClasses(records: seq<FileRecord>, query: Text, limit: nat, hits: seq<SearchHit>, i: nat)
    requires NumberedFromOne(records) && IsAnswer(records, query, limit, hits) && i < |hits|
    ensures 1 <= hits[i].id <= |records|
    ensures Indexed(records, query) == [] ==> hits[i].score == 30
    ensures Indexed(records, query) != [] ==>
      hits[i].score == if HitName(records, hits[i]) == query then 100
                       else if StartsWith(HitName(records, hits[i]), query) then 80
                       else if AnyIndexed(records, Tokens(query)) then 60
                       else 50
  {
    hide Collected, Tokens, MatchesAll, MatchingIds, AnyIndexed, IsTop, Normalize, AnyExact, AnyPrefix;
    var top :| IsTop(Collected(records, query), limit, top) && hits == HitsOf(top);
    var k := HitOrigin(records, query, limit, top, i);
    if Indexed(records, query) != [] {
      var id := Indexed(records, query)[k];
      MatchingIdsExact(records, Tokens(query), |records|);
      assert id in Indexed(records, query);
      NoTokensInNothing();
      ScoreOfMatch(records, id, query, Tokens(query));
    }
  }

  /* ---------------------------------------------------------------- agreement with a linear scan */

  /** The extension ends the file name, as the scanner splits names. */
  predicate ExtensionEndsName(r: FileRecord) {
    |r.extension| <= |r.fileName| && r.fileName[|r.fileName| - |r.extension|..] == r.extension
  }

  lemma NameParts(r: FileRecord, t: Text)
    ensures Contains(Normalize(r.fileName), t) ==> Contains(NameOf(r), t)
    ensures Contains(Normalize(r.relativePath), t) ==> Contains(NameOf(r), t)
  {
    hide Contains;
    var front := Normalize(r.fileName) + [32];
    assert NameOf(r) == front + Normalize(r.relativePath);
    ContainsInPart(Normalize(r.fileName), [32], t);
    ContainsInPart(front, Normalize(r.relativePath), t);
  }

  lemma TokenIsInName(r: FileRecord, t: Text)
    requires ExtensionEndsName(r) && t in RecordTokens(r)
    ensures Contains(NameOf(r), t)
  {
    hide Tokens, Contains, NameOf;
    NameParts(r, t);
    if t in TokenSet(r.fileName) {
      TokensAreTokens(r.fileName, t);
    } else if t in TokenSet(r.relativePath) {
      TokensAreTokens(r.relativePath, t);
    } else {
      TokensAreTokens(r.extension, t);
      var stem := r.fileName[..|r.fileName| - |r.extension|];
      assert r.fileName == stem + r.extension;
      assert Normalize(r.fileName) == Normalize(stem) + Normalize(r.extension);
      ContainsInPart(Normalize(stem), Normalize(r.extension), t);
    }
  }

  lemma MatchIsInName(records: seq<FileRecord>, id: nat, t: Text)
    requires forall r :: r in records ==> ExtensionEndsName(r)
    requires Matches(records, id, t)
    ensures NameContains(records, id, t)
  {
    hide RecordTokens, NameOf, Contains, ExtensionEndsName;
    var r := records[id - 1];
    if IsIndexed(records, t) {
      TokenIsInName(r, t);
    } else {
      var u :| u in RecordTokens(r) && StartsWith(u, t);
      TokenIsInName(r, u);
      ContainsPrefixOf(NameOf(r), u, t);
    }
  }

  lemma CollectedNamesContain(records: seq<FileRecord>, query: Text, id: nat)
    requires forall r :: r in records ==> ExtensionEndsName(r)
    requires IsToken(query) && id in CollectedIds(records, query)
    ensures NameContains(records, id, query)
  {
    hide Matches, NameContains, IsToken, Tokens, ExtensionEndsName;
    WholeToken(query);
    if Indexed(records, query) != [] {
      MatchingIdsExact(records, Tokens(query), |records|);
      assert Matches(records, id, Tokens(query)[0]);
      MatchIsInName(records, id, query);
    } else {
      SubstringIdsMembers(records, query, 0, MAX_LIMIT, id);
    }
  }

  lemma SomethingCollected(records: seq<FileRecord>, query: Text, id: nat)
    requires NameContains(records, id, query) && Tokens(query) != []
    ensures CollectedIds(records, query) != []
  {
    hide NameContains, Indexed, Tokens;
    SubstringIdsMembers(records, query, 0, MAX_LIMIT, id);
    assert 1 <= id by { InRangeOfNames(records, query, id); }
  }

  lemma InRangeOfNames(records: seq<FileRecord>, query: Text, id: nat)
    requires NameContains(records, id, query)
    ensures 1 <= id <= |records|
  {}

  /**
   For a query that is one whole token the answer agrees with scanning the names: every hit's name
   contains the query, and there is a hit exactly when some name does.
   */
  lemma AgreesWithLinearScan(records: seq<FileRecord>, query: Text, limit: nat, hits: seq<SearchHit>)
    requires NumberedFromOne(records) && forall r :: r in records ==> ExtensionEndsName(r)
    requires Tokens(query) == [query] && 1 <= limit && IsAnswer(records, query, limit, hits)
    ensures forall i :: 0 <= i < |hits| ==> NameContains(records, hits[i].id, query)
    ensures hits == [] <==> forall id: nat :: !NameContains(records, id, query)
  {
    hide Tokens, Collected, NameContains, ExtensionEndsName, CollectedIds, IsTop, IsToken;
    WholeToken(query);
    var top :| IsTop(Collected(records, query), limit, top) && hits == HitsOf(top);
    AnswerIsRanked(records, query, limit, hits);
    forall i | 0 <= i < |hits| ensures NameContains(records, hits[i].id, query) {
      hide ScoreIndexHit, Indexed;
      var k := HitOrigin(records, query, limit, top, i);
      CollectedNamesContain(records, query, hits[i].id);
    }
    if id: nat :| NameContains(records, id, query) {
      SomethingCollected(records, query, id);
    }
  }
}
