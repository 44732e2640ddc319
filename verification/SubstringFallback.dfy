/**
 The substring fallback ranks the first 100 matches it meets. It answers with the best of all matches
 for every index exactly when there are no more than that.
 */
module SubstringFallback {
  import opened Candidates
  import opened IndexBuilder
  import opened Ranking
  import opened SearchEngine
  import opened SearchProperties
  import opened Sorting
  import opened Tokenizer

  /** Every record whose name contains the query. */
  function AllSubstringIds(records: seq<FileRecord>, query: Text): seq<nat> {
    SubstringIds(records, query, 0, |records| + 1)
  }

  function AllRanked(records: seq<FileRecord>, query: Text): seq<RankedHit> {
    SubstringIdsShape(records, query, 0, |records| + 1);
    RankAll(records, AllSubstringIds(records, query), query, [], SUBSTRING_SCORE)
  }

  /** The hits are the best of all the records whose name contains the query. */
  ghost predicate IsBest(records: seq<FileRecord>, query: Text, limit: nat, hits: seq<SearchHit>) {
    AreTopHits(AllRanked(records, query), limit, hits)
  }

  predicate FallsBack(records: seq<FileRecord>, query: Text) {
    Tokens(query) != [] && Indexed(records, query) == []
  }

  lemma {:induction false} MoreRoom(records: seq<FileRecord>, query: Text, n: nat, room: nat, more: nat)
    requires n <= |records| && room <= more
    ensures var all := SubstringIds(records, query, n, more);
      SubstringIds(records, query, n, room) == if |all| <= room then all else all[..room]
    decreases |records| - n
  {
    hide NameOf, Contains;
    if n < |records| && room > 0 {
      if Contains(NameOf(records[n]), query) {
        MoreRoom(records, query, n + 1, room - 1, more - 1);
      } else {
        MoreRoom(records, query, n + 1, room, more);
      }
    }
  }

  lemma BestWhenFew(records: seq<FileRecord>, query: Text, limit: nat, hits: seq<SearchHit>)
    requires FallsBack(records, query) && IsAnswer(records, query, limit, hits)
    requires |AllSubstringIds(records, query)| <= MAX_LIMIT
    ensures IsBest(records, query, limit, hits)
  {
    hide Tokens, MatchingIds, SubstringIds, IsTop, RankAll;
    MoreRoom(records, query, 0, MAX_LIMIT, if |records| >= MAX_LIMIT then |records| + 1 else MAX_LIMIT);
    MoreRoom(records, query, 0, |records| + 1, if |records| >= MAX_LIMIT then |records| + 1 else MAX_LIMIT);
    SubstringIdsShape(records, query, 0, |records| + 1);
    AtMostEachOnce(records, query);
    assert Collected(records, query) == AllRanked(records, query);
  }

  lemma AtMostEachOnce(records: seq<FileRecord>, query: Text)
    ensures |SubstringIds(records, query, 0, MAX_LIMIT)| <= |records|
    ensures |SubstringIds(records, query, 0, |records| + 1)| <= |records|
  {
    NoMoreThanRecords(records, query, 0, MAX_LIMIT);
    NoMoreThanRecords(records, query, 0, |records| + 1);
  }

  lemma {:induction false} NoMoreThanRecords(records: seq<FileRecord>, query: Text, n: nat, room: nat)
    requires n <= |records|
    ensures |SubstringIds(records, query, n, room)| <= |records| - n
    decreases |records| - n
  {
    hide NameOf, Contains;
    if n < |records| && room > 0 {
      NoMoreThanRecords(records, query, n + 1, room - 1);
      NoMoreThanRecords(records, query, n + 1, room);
    }
  }

  /** Some answer is always open to a search. */
  lemma AnswerExists(records: seq<FileRecord>, query: Text, limit: nat) returns (hits: seq<SearchHit>)
    ensures IsAnswer(records, query, limit, hits)
  {
    hide Collected;
    var top := TopExists(Collected(records, query), limit);
    hits := HitsOf(top);
  }

  lemma TopExists(ranked: seq<RankedHit>, limit: nat) returns (top: seq<RankedHit>)
    ensures IsTop(ranked, limit, top)
  {
    RankIsTotalPreorder();
    SortIsSorted(ranked, RankLeq);
    var sorted := Sort(ranked, RankLeq);
    var m := Min(limit, |ranked|);
    FrontOfSorted(ranked, sorted, m);
    top := sorted[..m];
    hide RankLeq, Sorted;
    assert Splits(ranked, limit, top, sorted[m..]);
  }

  lemma FrontOfSorted(ranked: seq<RankedHit>, sorted: seq<RankedHit>, m: nat)
    requires Sorted(sorted, RankLeq) && multiset(sorted) == multiset(ranked) && m <= |sorted| == |ranked|
    ensures Splits(ranked, m, sorted[..m], sorted[m..])
  {
    hide RankLeq;
    assert sorted == sorted[..m] + sorted[m..];
  }

  /* ---------------------------------------------------------------- a crowd of matches */

  const XXB: Text := [120, 120, 98]
  const XB: Text := [120, 98]
  const B: Text := [98]

  function CrowdName(n: nat, i: nat): Text {
    if i == n - 1 then XB else XXB
  }

  /** Files without extension at the top of the scanned tree: all but the last are named xxb, the last one xb. */
  function Crowd(n: nat): (records: seq<FileRecord>)
    requires n >= 1
    ensures |records| == n
    ensures forall i :: 0 <= i < n ==> records[i] == FileRecord(i + 1, CrowdName(n, i), [], CrowdName(n, i))
    ensures NumberedFromOne(records)
  {
    seq(n, i requires 0 <= i < n => FileRecord(i + 1, CrowdName(n, i), [], CrowdName(n, i)))
  }

  lemma CrowdTokens(r: FileRecord, u: Text)
    requires (r.fileName == XXB || r.fileName == XB) && r.extension == [] && r.relativePath == r.fileName
    requires u in RecordTokens(r)
    ensures !StartsWith(u, B)
  {
    WholeToken(r.fileName);
  }

  lemma CrowdNames(r: FileRecord)
    requires (r.fileName == XXB || r.fileName == XB) && r.extension == [] && r.relativePath == r.fileName
    ensures Contains(NameOf(r), B)
  {
    assert OccursAt(NameOf(r), B, |r.fileName| - 1);
  }

  lemma NobodyHasToken(n: nat, id: nat)
    requires n >= 1
    ensures !Matches(Crowd(n), id, B)
  {
    var records := Crowd(n);
    hide RecordTokens;
    forall k: nat ensures !HasToken(records, k, B) {
      if HasToken(records, k, B) {
        CrowdTokens(records[k - 1], B);
      }
    }
    if HasTokenFrom(records, id, B) {
      var u :| u in RecordTokens(records[id - 1]) && StartsWith(u, B);
      CrowdTokens(records[id - 1], u);
    }
  }

  lemma CrowdFallsBack(n: nat)
    requires n >= 1
    ensures FallsBack(Crowd(n), B)
  {
    WholeToken(B);
    var tokens := Tokens(B);
    hide Matches, Tokens;
    MatchingIdsExact(Crowd(n), tokens, n);
    if Indexed(Crowd(n), B) != [] {
      var id := Indexed(Crowd(n), B)[0];
      assert id in Indexed(Crowd(n), B);
      assert MatchesAll(Crowd(n), id, tokens) ==> Matches(Crowd(n), id, tokens[0]);
      NobodyHasToken(n, id);
    }
  }

  lemma {:induction false} EveryNameMatches(n: nat, from: nat, room: nat)
    requires n >= 1 && from <= n
    ensures var ids := SubstringIds(Crowd(n), B, from, room);
      |ids| == Min(room, n - from) && forall k :: 0 <= k < |ids| ==> ids[k] == from + k + 1
    decreases n - from
  {
    hide NameOf, Contains;
    if from < n && room > 0 {
      CrowdNames(Crowd(n)[from]);
      EveryNameMatches(n, from + 1, room - 1);
    }
  }

  lemma FirstHundredOnly(n: nat, hits: seq<SearchHit>)
    requires n > MAX_LIMIT && IsAnswer(Crowd(n), B, 1, hits)
    ensures |hits| == 1 && 1 <= hits[0].id <= MAX_LIMIT
  {
    hide Tokens, SubstringIds, MatchingIds, IsTop, Collected, ScoreIndexHit;
    CrowdFallsBack(n);
    EveryNameMatches(n, 0, MAX_LIMIT);
    AnswerIsRanked(Crowd(n), B, 1, hits);
    var top :| IsTop(Collected(Crowd(n), B), 1, top) && hits == HitsOf(top);
    var k := HitOrigin(Crowd(n), B, 1, top, 0);
  }

  lemma TheOneBest(all: seq<RankedHit>, top: seq<RankedHit>, x: RankedHit)
    requires IsTop(all, 1, top) && x in all
    requires forall y :: y in all && y != x ==> RankedHitLess(x, y)
    ensures top == [x]
  {
    hide RankedHitLess, RankLeq;
    var rest :| Splits(all, 1, top, rest);
    assert |top| == 1;
    assert top[0] in multiset(top) + multiset(rest);
    assert top[0] in all;
    if top[0] != x {
      assert multiset(top)[x] == 0;
      NoOmittedOutranks(all, 1, top, 0, x);
    }
  }

  lemma BestIsTheLast(n: nat, hits: seq<SearchHit>)
    requires n > MAX_LIMIT && IsBest(Crowd(n), B, 1, hits)
    ensures |hits| == 1 && hits[0].id == n
  {
    hide SubstringIds, ScoreIndexHit, IsTop;
    EveryNameMatches(n, 0, n + 1);
    var all := AllRanked(Crowd(n), B);
    var last := all[n - 1];
    forall y | y in all && y != last ensures RankedHitLess(last, y) {
      var k :| 0 <= k < |all| && all[k] == y;
    }
    var top :| IsTop(all, 1, top) && hits == HitsOf(top);
    TheOneBest(all, top, last);
  }

  /** Up to 100 matches the fallback answers with the best of them; for any larger number it may not. */
  lemma BestExactlyUpToTheLimit(matches: nat)
    ensures matches <= MAX_LIMIT <==>
      forall records, query, limit, hits ::
        (NumberedFromOne(records) && FallsBack(records, query) && |AllSubstringIds(records, query)| == matches
         && IsAnswer(records, query, limit, hits)) ==> IsBest(records, query, limit, hits)
  {
    hide FallsBack, IsAnswer, IsBest, AllSubstringIds;
    if matches <= MAX_LIMIT {
      forall records, query, limit, hits | FallsBack(records, query) && IsAnswer(records, query, limit, hits)
        && |AllSubstringIds(records, query)| == matches
        ensures IsBest(records, query, limit, hits)
      {
        BestWhenFew(records, query, limit, hits);
      }
    } else {
      CrowdFallsBack(matches);
      CrowdMatches(matches);
      var hits := AnswerExists(Crowd(matches), B, 1);
      FirstHundredOnly(matches, hits);
      if IsBest(Crowd(matches), B, 1, hits) {
        BestIsTheLast(matches, hits);
      }
    }
  }

  lemma CrowdMatches(n: nat)
    requires n >= 1
    ensures |AllSubstringIds(Crowd(n), B)| == n
  {
    EveryNameMatches(n, 0, n + 1);
  }
}
