/** From query tokens to the records that match them: prefix ranges, posting lists and intersections. */
module Candidates {
  import opened IndexBuilder
  import opened Sorting
  import opened Tokenizer

  /** The record with this identifier carries a token that starts with t. */
  predicate HasTokenFrom(records: seq<FileRecord>, id: nat, t: Text) {
    1 <= id <= |records| && exists u | u in RecordTokens(records[id - 1]) :: StartsWith(u, t)
  }

  /** A query token asks for itself if any record carries it, and for its continuations if none does. */
  predicate Matches(records: seq<FileRecord>, id: nat, t: Text) {
    if IsIndexed(records, t) then HasToken(records, id, t) else HasTokenFrom(records, id, t)
  }

  /** The record is found under a token that starts with t. */
  ghost predicate IsFoundFrom(r: FileRecord, t: Text) {
    exists u :: IsFoundUnder(r, u) && StartsWith(u, t)
  }

  lemma FoundFromIff(r: FileRecord, t: Text)
    ensures IsFoundFrom(r, t) <==> exists u | u in RecordTokens(r) :: StartsWith(u, t)
  {
    hide RecordTokens, IsFoundUnder, StartsWith;
    if u :| IsFoundUnder(r, u) && StartsWith(u, t) {
      RecordTokensAreRuns(r, u);
    }
    if u :| u in RecordTokens(r) && StartsWith(u, t) {
      RecordTokensAreRuns(r, u);
    }
  }

  /**
   What a query token asks for, in terms of the runs of names and paths: the records found under it if
   there are any, and otherwise those found under a token that starts with it.
   */
  lemma MatchesByRuns(records: seq<FileRecord>, id: nat, t: Text)
    ensures Matches(records, id, t) <==>
      && 1 <= id <= |records|
      && if IsKnown(records, t) then IsFoundUnder(records[id - 1], t) else IsFoundFrom(records[id - 1], t)
  {
    hide RecordTokens, IsFoundUnder, StartsWith, IsFoundFrom, IsKnown, IsIndexed;
    KnownIffIndexed(records, t);
    if 1 <= id <= |records| {
      RecordTokensAreRuns(records[id - 1], t);
      FoundFromIff(records[id - 1], t);
    }
  }

  predicate MatchesAll(records: seq<FileRecord>, id: nat, tokens: seq<Text>) {
    1 <= id <= |records| && forall i :: 0 <= i < |tokens| ==> Matches(records, id, tokens[i])
  }

  ghost predicate InOrder(tokens: seq<Text>) {
    forall i, j :: 0 <= i < j < |tokens| ==> LexLeq(tokens[i], tokens[j])
  }

  /* ---------------------------------------------------------------- one token */

  /** std::lower_bound: the first position whose token is not less than the given one. */
  method LowerBound(tokens: seq<Text>, token: Text) returns (first: nat)
    requires InOrder(tokens)
    ensures first <= |tokens|
    ensures forall i :: 0 <= i < first ==> !LexLeq(token, tokens[i])
    ensures forall i :: first <= i < |tokens| ==> LexLeq(token, tokens[i])
  {
    first := 0;
    var count: nat := |tokens|;
    while count > 0
      invariant first + count <= |tokens|
      invariant forall i :: 0 <= i < first ==> !LexLeq(token, tokens[i])
      invariant forall i :: first + count <= i < |tokens| ==> LexLeq(token, tokens[i])
    {
      var step := count / 2;
      var middle := first + step;
      Straddle(tokens, token, middle);
      hide LexLess, LexLeq;
      if !LexLeq(token, tokens[middle]) {
        first := middle + 1;
        count := count - step - 1;
      } else {
        count := step;
      }
    }
  }

  lemma Straddle(tokens: seq<Text>, token: Text, middle: nat)
    requires InOrder(tokens) && middle < |tokens|
    ensures LexLeq(token, tokens[middle]) ==> forall i :: middle <= i < |tokens| ==> LexLeq(token, tokens[i])
    ensures !LexLeq(token, tokens[middle]) ==> forall i :: 0 <= i <= middle ==> !LexLeq(token, tokens[i])
  {
    hide LexLess, LexLeq;
    LexIsTotalOrder();
  }

  /** The listed token u continues the given one and has id among its postings. */
  ghost predicate Continues(tokens: seq<Text>, index: map<Text, seq<nat>>, u: Text, token: Text, id: nat) {
    u in tokens && u in index && StartsWith(u, token) && id in index[u]
  }

  /** Between the lower bound and the first token that does not continue it lie all that do. */
  lemma ContinuationsAreContiguous(tokens: seq<Text>, token: Text, from: nat, to: nat, k: nat)
    requires InOrder(tokens) && from <= to <= |tokens| && k < |tokens|
    requires forall i :: 0 <= i < from ==> !LexLeq(token, tokens[i])
    requires forall i :: from <= i < |tokens| ==> LexLeq(token, tokens[i])
    requires forall i :: from <= i < to ==> StartsWith(tokens[i], token)
    requires to < |tokens| ==> !StartsWith(tokens[to], token)
    ensures StartsWith(tokens[k], token) <==> from <= k < to
  {
    hide LexLess, LexLeq;
    PrefixInterval(token, tokens[k], tokens[k]);
    if to < |tokens| && to <= k {
      LexIsTotalOrder();
      assert LexLeq(tokens[to], tokens[k]);
      PrefixInterval(token, tokens[to], tokens[k]);
    }
  }

  method GatherContinuations(tokens: seq<Text>, index: map<Text, seq<nat>>, token: Text) returns (merged: seq<nat>)
    requires InOrder(tokens)
    ensures forall id: nat :: id in merged <==> exists u :: Continues(tokens, index, u, token, id)
  {
    var from := LowerBound(tokens, token);
    merged := [];
    var it := from;
    while it != |tokens| && StartsWith(tokens[it], token)
      invariant from <= it <= |tokens|
      invariant forall i :: from <= i < it ==> StartsWith(tokens[i], token)
      invariant forall id: nat :: id in merged <==> exists i :: from <= i < it && tokens[i] in index && id in index[tokens[i]]
    {
      ghost var before := merged;
      if tokens[it] in index {
        merged := merged + index[tokens[it]];
      }
      it := it + 1;
      OneMoreRange(tokens, index, from, it, before, merged);
    }
    forall id: nat ensures id in merged <==> exists u :: Continues(tokens, index, u, token, id) {
      GatheredAll(tokens, index, token, from, it, merged, id);
    }
  }

  lemma OneMoreRange(tokens: seq<Text>, index: map<Text, seq<nat>>, from: nat, it: nat, before: seq<nat>, merged: seq<nat>)
    requires from < it <= |tokens|
    requires forall id: nat :: id in before <==> exists i :: from <= i < it - 1 && tokens[i] in index && id in index[tokens[i]]
    requires merged == before + if tokens[it - 1] in index then index[tokens[it - 1]] else []
    ensures forall id: nat :: id in merged <==> exists i :: from <= i < it && tokens[i] in index && id in index[tokens[i]]
  {
    forall id: nat
      ensures id in merged <==> exists i :: from <= i < it && tokens[i] in index && id in index[tokens[i]]
    {
      if id in merged && id !in before {
        assert tokens[it - 1] in index && id in index[tokens[it - 1]];
      }
    }
  }

  lemma GatheredAll(tokens: seq<Text>, index: map<Text, seq<nat>>, token: Text, from: nat, to: nat, merged: seq<nat>, id: nat)
    requires InOrder(tokens)
    requires from <= to <= |tokens|
    requires forall i :: 0 <= i < from ==> !LexLeq(token, tokens[i])
    requires forall i :: from <= i < |tokens| ==> LexLeq(token, tokens[i])
    requires forall i :: from <= i < to ==> StartsWith(tokens[i], token)
    requires to < |tokens| ==> !StartsWith(tokens[to], token)
    requires id in merged <==> exists i :: from <= i < to && tokens[i] in index && id in index[tokens[i]]
    ensures id in merged <==> exists u :: Continues(tokens, index, u, token, id)
  {
    hide LexLeq, LexLess, InOrder, StartsWith;
    if id in merged {
      var i :| from <= i < to && tokens[i] in index && id in index[tokens[i]];
      assert Continues(tokens, index, tokens[i], token, id);
    }
    if u :| Continues(tokens, index, u, token, id) {
      var k :| 0 <= k < |tokens| && tokens[k] == u;
      ContinuationsAreContiguous(tokens, token, from, to, k);
    }
  }

  /** The identifiers posted under any listed continuation of the token, each once, in order; tokens not posted are passed over. */
  method MergePrefixPostings(tokens: seq<Text>, index: map<Text, seq<nat>>, token: Text) returns (r: seq<nat>)
    requires InOrder(tokens)
    ensures Ascending(r)
    ensures forall id: nat :: id in r <==> exists u :: Continues(tokens, index, u, token, id)
  {
    var merged := GatherContinuations(tokens, index, token);
    hide Continues;
    r := SortedOnce(merged);
  }

  method SortedOnce(ids: seq<nat>) returns (r: seq<nat>)
    ensures Ascending(r) && forall id: nat :: id in r <==> id in ids
  {
    SortIsSorted(ids, Leq);
    var all := Sort(ids, Leq);
    UniqueOfSorted(all, Leq);
    r := Unique(all);
    forall id: nat ensures id in r <==> id in ids {
      UniqueKeepsElements(all, id);
      assert id in multiset(all) <==> id in multiset(ids);
    }
    forall i, j | 0 <= i < j < |r| ensures r[i] < r[j] {
      assert Leq(r[i], r[j]);
    }
  }

  lemma PostingsGiveMatches(records: seq<FileRecord>, tokens: seq<Text>, index: map<Text, seq<nat>>, t: Text, id: nat)
    requires PostingsExact(records, index) && forall u :: u in tokens <==> u in index
    ensures t in index ==> (id in index[t] <==> Matches(records, id, t))
    ensures t !in index ==> ((exists u :: Continues(tokens, index, u, t, id)) <==> Matches(records, id, t))
  {
    hide RecordTokens, StartsWith;
    if t !in index {
      if u :| Continues(tokens, index, u, t, id) {
        assert HasToken(records, id, u);
      }
      if HasTokenFrom(records, id, t) {
        var u :| u in RecordTokens(records[id - 1]) && StartsWith(u, t);
        assert HasToken(records, id, u) && IsIndexed(records, u);
        assert Continues(tokens, index, u, t, id);
      }
    }
  }

  lemma SortedTokensCover(s: IndexSnapshot)
    requires TokensSorted(s)
    ensures InOrder(s.sortedTokens) && forall t :: t in s.sortedTokens <==> t in s.tokenIndex
  {
    forall t ensures t in s.sortedTokens <==> t in s.tokenIndex {
      assert t in SetOf(s.sortedTokens) <==> t in s.tokenIndex.Keys;
    }
  }

  method CandidatesForToken(s: IndexSnapshot, token: Text) returns (ids: seq<nat>)
    requires WellFormed(s)
    ensures Ascending(ids) && forall id: nat :: id in ids <==> Matches(s.records, id, token)
  {
    SortedTokensCover(s);
    if token in s.tokenIndex {
      ids := s.tokenIndex[token];
    } else {
      ids := MergePrefixPostings(s.sortedTokens, s.tokenIndex, token);
    }
    forall id: nat ensures id in ids <==> Matches(s.records, id, token) {
      hide Matches, InOrder, Continues;
      PostingsGiveMatches(s.records, s.sortedTokens, s.tokenIndex, token, id);
    }
  }

  /* ---------------------------------------------------------------- all tokens */

  /** The elements of two ascending lists in both of them, found by walking down the two in step. */
  method IntersectSorted(left: seq<nat>, right: seq<nat>) returns (r: seq<nat>)
    requires Ascending(left) && Ascending(right)
    ensures Ascending(r) && forall x: nat :: x in r <==> x in left && x in right
  {
    r := [];
    var i, j := 0, 0;
    while i < |left| && j < |right|
      invariant i <= |left| && j <= |right|
      invariant Walked(left, right, i, j, r)
      decreases |left| - i + |right| - j
    {
      WalkStep(left, right, i, j, r);
      hide Walked, Ascending;
      if left[i] < right[j] {
        i := i + 1;
      } else if right[j] < left[i] {
        j := j + 1;
      } else {
        r := r + [left[i]];
        i, j := i + 1, j + 1;
      }
    }
  }

  /** r is what the passed parts share, and nothing passed on one side is still to come on the other. */
  ghost predicate Walked(left: seq<nat>, right: seq<nat>, i: nat, j: nat, r: seq<nat>)
    requires i <= |left| && j <= |right|
  {
    && Ascending(r)
    && (forall x :: x in r <==> x in left[..i] && x in right[..j])
    && (forall k, l :: 0 <= k < i && j <= l < |right| ==> left[k] < right[l])
    && (forall k, l :: i <= k < |left| && 0 <= l < j ==> right[l] < left[k])
  }

  lemma WalkStep(left: seq<nat>, right: seq<nat>, i: nat, j: nat, r: seq<nat>)
    requires Ascending(left) && Ascending(right) && i < |left| && j < |right| && Walked(left, right, i, j, r)
    ensures left[i] < right[j] ==> Walked(left, right, i + 1, j, r)
    ensures right[j] < left[i] ==> Walked(left, right, i, j + 1, r)
    ensures left[i] == right[j] ==> Walked(left, right, i + 1, j + 1, r + [left[i]])
  {
    assert left[..i + 1] == left[..i] + [left[i]];
    assert right[..j + 1] == right[..j] + [right[j]];
    forall x | x in right[..j] ensures x < left[i] {}
    forall x | x in left[..i] ensures x < right[j] {}
    if left[i] == right[j] {
      SharedFront(left, right, i, j, r);
    }
  }

  lemma SharedFront(left: seq<nat>, right: seq<nat>, i: nat, j: nat, r: seq<nat>)
    requires Ascending(left) && Ascending(right) && i < |left| && j < |right| && Walked(left, right, i, j, r)
    requires left[i] == right[j]
    ensures Walked(left, right, i + 1, j + 1, r + [left[i]])
  {
    assert left[..i + 1] == left[..i] + [left[i]];
    assert right[..j + 1] == right[..j] + [right[j]];
    forall k | 0 <= k < |r| ensures r[k] < left[i] {
      assert r[k] in left[..i];
    }
    forall x ensures x in r + [left[i]] <==> x in left[..i + 1] && x in right[..j + 1] {
      assert x in left[..i] ==> x < left[i];
      assert x in right[..j] ==> x < right[j];
    }
  }

  predicate NoLonger(a: seq<nat>, b: seq<nat>) {
    |a| <= |b|
  }

  ghost predicate InEvery(lists: seq<seq<nat>>, x: nat) {
    forall i :: 0 <= i < |lists| ==> x in lists[i]
  }

  ghost predicate AllAscending(lists: seq<seq<nat>>) {
    forall i :: 0 <= i < |lists| ==> Ascending(lists[i])
  }

  lemma PermutedLists(a: seq<seq<nat>>, b: seq<seq<nat>>)
    requires multiset(a) == multiset(b)
    ensures AllAscending(a) ==> AllAscending(b)
    ensures forall x: nat :: InEvery(a, x) ==> InEvery(b, x)
  {
    forall i | 0 <= i < |b| ensures b[i] in a {
      assert b[i] in multiset(b);
    }
    hide Ascending;
  }

  /** What all the lists share; smallest list first, stopping once nothing is left. */
  method IntersectAll(lists: seq<seq<nat>>) returns (r: seq<nat>)
    requires lists != [] && AllAscending(lists)
    ensures Ascending(r) && forall x: nat :: x in r <==> InEvery(lists, x)
  {
    hide Ascending;
    assert TotalPreorder(NoLonger);
    SortIsSorted(lists, NoLonger);
    var sorted := Sort(lists, NoLonger);
    PermutedLists(lists, sorted);
    PermutedLists(sorted, lists);
    r := IntersectInOrder(sorted);
  }

  method IntersectInOrder(lists: seq<seq<nat>>) returns (r: seq<nat>)
    requires lists != [] && AllAscending(lists)
    ensures Ascending(r) && forall x: nat :: x in r <==> InEvery(lists, x)
  {
    hide Ascending;
    r := lists[0];
    var i := 1;
    while i < |lists| && r != []
      invariant 1 <= i <= |lists|
      invariant Ascending(r) && forall x: nat :: x in r <==> InEvery(lists[..i], x)
    {
      ghost var before := r;
      r := IntersectSorted(r, lists[i]);
      i := i + 1;
      forall x: nat ensures x in r <==> InEvery(lists[..i], x) {
        assert x in before <==> InEvery(lists[..i - 1], x);
        assert lists[..i] == lists[..i - 1] + [lists[i - 1]];
      }
    }
    forall x: nat ensures x in r <==> InEvery(lists, x) {
      if InEvery(lists, x) {
        assert InEvery(lists[..i], x);
      }
      if x in r {
        assert lists[..i] == lists;
      }
    }
  }

  ghost predicate ListsFor(records: seq<FileRecord>, tokens: seq<Text>, lists: seq<seq<nat>>) {
    && |lists| == |tokens|
    && AllAscending(lists)
    && forall i, id: nat :: 0 <= i < |lists| ==> (id in lists[i] <==> Matches(records, id, tokens[i]))
  }

  /** The candidates are exactly the records that match every query token, in ascending order. */
  method FindCandidates(s: IndexSnapshot, tokens: seq<Text>) returns (ids: seq<nat>)
    requires WellFormed(s) && tokens != []
    ensures Ascending(ids) && forall id: nat :: id in ids <==> MatchesAll(s.records, id, tokens)
  {
    hide Matches, Ascending, WellFormed;
    var lists: seq<seq<nat>> := [];
    for i := 0 to |tokens|
      invariant ListsFor(s.records, tokens[..i], lists)
    {
      var list := CandidatesForToken(s, tokens[i]);
      lists := lists + [list];
    }
    assert tokens[..|tokens|] == tokens;
    ids := IntersectAll(lists);
    forall id: nat ensures InEvery(lists, id) <==> MatchesAll(s.records, id, tokens) {
      EveryListMatches(s.records, tokens, lists, id);
    }
  }

  lemma EveryListMatches(records: seq<FileRecord>, tokens: seq<Text>, lists: seq<seq<nat>>, id: nat)
    requires ListsFor(records, tokens, lists) && tokens != []
    ensures InEvery(lists, id) <==> MatchesAll(records, id, tokens)
  {
    if InEvery(lists, id) {
      assert id in lists[0];
      assert Matches(records, id, tokens[0]);
    }
  }
}
