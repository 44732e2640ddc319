/** The order of search hits and the selection of the best of them. */
module Ranking {
  import opened Bytes
  import opened Sorting

  datatype SearchHit = SearchHit(id: nat, score: nat)

  datatype RankedHit = RankedHit(hit: SearchHit, nameLength: nat, path: Bytes)

  /** What the order looks at: higher score, then shorter name, then path. */
  datatype RankKey = RankKey(score: nat, nameLength: nat, path: Bytes)

  function KeyOf(r: RankedHit): RankKey {
    RankKey(r.hit.score, r.nameLength, r.path)
  }

  predicate RankedHitLess(l: RankedHit, r: RankedHit) {
    if l.hit.score != r.hit.score then l.hit.score > r.hit.score
    else if l.nameLength != r.nameLength then l.nameLength < r.nameLength
    else LexLess(l.path, r.path)
  }

  predicate KeyLeq(a: RankKey, b: RankKey) {
    a.score > b.score
    || (a.score == b.score && (a.nameLength < b.nameLength || (a.nameLength == b.nameLength && LexLeq(a.path, b.path))))
  }

  predicate RankLeq(l: RankedHit, r: RankedHit) {
    !RankedHitLess(r, l)
  }

  lemma RankIsTotalPreorder()
    ensures TotalPreorder(RankLeq)
    ensures TotalPreorder(KeyLeq) && Antisymmetric(KeyLeq)
    ensures forall l, r :: RankLeq(l, r) <==> KeyLeq(KeyOf(l), KeyOf(r))
  {
    LexIsTotalOrder();
    forall a: Bytes, b: Bytes ensures LexLeq(a, b) || LexLeq(b, a) { LexTotal(a, b); }
    hide LexLess;
    assert forall l, r :: RankLeq(l, r) <==> KeyLeq(KeyOf(l), KeyOf(r));
    assert forall x, y, z :: KeyLeq(x, y) && KeyLeq(y, z) ==> KeyLeq(x, z);
  }

  function Min(a: nat, b: nat): nat {
    if a <= b then a else b
  }

  function KeysOf(s: seq<RankedHit>): (keys: seq<RankKey>)
    ensures |keys| == |s|
  {
    if s == [] then [] else [KeyOf(s[0])] + KeysOf(s[1..])
  }

  function HitsOf(s: seq<RankedHit>): (h: seq<SearchHit>)
    ensures |h| == |s|
    ensures forall i :: 0 <= i < |s| ==> h[i] == s[i].hit
  {
    if s == [] then [] else [s[0].hit] + HitsOf(s[1..])
  }

  /** `top` is the best `limit` of `ranked`, in order; `rest` is what was left over. */
  ghost predicate Splits(ranked: seq<RankedHit>, limit: nat, top: seq<RankedHit>, rest: seq<RankedHit>) {
    && multiset(top) + multiset(rest) == multiset(ranked)
    && |top| == Min(limit, |ranked|)
    && Sorted(top, RankLeq)
    && forall t, r :: t in top && r in rest ==> RankLeq(t, r)
  }

  ghost predicate IsTop(ranked: seq<RankedHit>, limit: nat, top: seq<RankedHit>) {
    exists rest :: Splits(ranked, limit, top, rest)
  }

  /** The hits are those of such a selection. */
  ghost predicate AreTopHits(ranked: seq<RankedHit>, limit: nat, hits: seq<SearchHit>) {
    exists top :: IsTop(ranked, limit, top) && hits == HitsOf(top)
  }

  lemma {:induction false} KeysOfAt(s: seq<RankedHit>, i: nat)
    requires i < |s|
    ensures KeysOf(s)[i] == KeyOf(s[i])
  {
    if i > 0 {
      KeysOfAt(s[1..], i - 1);
    }
  }

  lemma {:induction false} KeysOfConcat(a: seq<RankedHit>, b: seq<RankedHit>)
    ensures KeysOf(a + b) == KeysOf(a) + KeysOf(b)
  {
    if a == [] {
      assert a + b == b;
    } else {
      assert (a + b)[1..] == a[1..] + b;
      KeysOfConcat(a[1..], b);
    }
  }

  lemma RemoveHit(b: seq<RankedHit>, x: RankedHit) returns (b': seq<RankedHit>)
    requires x in multiset(b)
    ensures |b'| == |b| - 1
    ensures multiset(b') == multiset(b) - multiset{x}
    ensures multiset(KeysOf(b)) == multiset(KeysOf(b')) + multiset{KeyOf(x)}
  {
    assert x in b;
    var j :| 0 <= j < |b| && b[j] == x;
    b' := b[..j] + b[j + 1..];
    var tail := [b[j]] + b[j + 1..];
    assert b == b[..j] + tail;
    KeysOfConcat(b[..j], b[j + 1..]);
    KeysOfConcat(b[..j], tail);
    assert tail[1..] == b[j + 1..];
  }

  lemma {:induction false} KeysOfPermutation(a: seq<RankedHit>, b: seq<RankedHit>)
    requires multiset(a) == multiset(b)
    ensures multiset(KeysOf(a)) == multiset(KeysOf(b))
    decreases |a|
  {
    assert |a| == |multiset(a)| == |multiset(b)| == |b|;
    if a != [] {
      var x := a[0];
      assert x in multiset(a);
      hide KeysOf;
      var a' := RemoveHit(a, x);
      var b' := RemoveHit(b, x);
      KeysOfPermutation(a', b');
    }
  }

  lemma SortedKeys(s: seq<RankedHit>)
    requires Sorted(s, RankLeq)
    ensures Sorted(KeysOf(s), KeyLeq)
  {
    forall i, j | 0 <= i < j < |s| ensures KeyLeq(KeysOf(s)[i], KeysOf(s)[j]) {
      KeysOfAt(s, i);
      KeysOfAt(s, j);
      RankIsTotalPreorder();
      assert RankLeq(s[i], s[j]);
    }
  }

  lemma FullOrder(ranked: seq<RankedHit>, limit: nat, top: seq<RankedHit>, rest: seq<RankedHit>)
    requires Splits(ranked, limit, top, rest)
    ensures var full := top + Sort(rest, RankLeq);
      Sorted(full, RankLeq) && multiset(full) == multiset(ranked)
  {
    RankIsTotalPreorder();
    SortIsSorted(rest, RankLeq);
    var s := Sort(rest, RankLeq);
    forall i | 0 <= i < |s| ensures s[i] in rest {
      assert s[i] in multiset(s);
    }
  }

  /** The ranking keys of a selection are determined, though not which of several equals it picks. */
  lemma KeysAreDetermined(ranked: seq<RankedHit>, limit: nat, top: seq<RankedHit>)
    requires IsTop(ranked, limit, top)
    ensures |Sort(ranked, RankLeq)| == |ranked|
    ensures KeysOf(top) == KeysOf(Sort(ranked, RankLeq))[..Min(limit, |ranked|)]
  {
    var rest :| Splits(ranked, limit, top, rest);
    var full := top + Sort(rest, RankLeq);
    FullOrder(ranked, limit, top, rest);
    RankIsTotalPreorder();
    var sorted := Sort(ranked, RankLeq);
    SortIsSorted(ranked, RankLeq);
    KeysOfPermutation(full, sorted);
    SortedKeys(full);
    SortedKeys(sorted);
    SortedIsUnique(KeysOf(full), KeysOf(sorted), KeyLeq);
    KeysOfConcat(top, Sort(rest, RankLeq));
  }

  /** A smaller limit yields a prefix of what a larger one yields, as far as ranking goes. */
  lemma SmallerLimitIsPrefix(ranked: seq<RankedHit>, k: nat, m: nat, topK: seq<RankedHit>, topM: seq<RankedHit>)
    requires k <= m && IsTop(ranked, k, topK) && IsTop(ranked, m, topM)
    ensures KeysOf(topK) <= KeysOf(topM)
  {
    KeysAreDetermined(ranked, k, topK);
    KeysAreDetermined(ranked, m, topM);
    var all := KeysOf(Sort(ranked, RankLeq));
    assert all[..Min(k, |ranked|)] == all[..Min(m, |ranked|)][..Min(k, |ranked|)];
  }

  /** No hit left out outranks one returned. */
  lemma NoOmittedOutranks(ranked: seq<RankedHit>, limit: nat, top: seq<RankedHit>, i: nat, x: RankedHit)
    requires IsTop(ranked, limit, top) && i < |top|
    requires x in multiset(ranked) - multiset(top)
    ensures !RankedHitLess(x, top[i])
  {
    var rest :| Splits(ranked, limit, top, rest);
    assert multiset(ranked) - multiset(top) == multiset(rest);
    assert RankLeq(top[i], x);
  }

  /** std::partial_sort: the best `limit` in order in front, the others behind in any order. */
  method PartialSort(ranked: seq<RankedHit>, limit: nat) returns (r: seq<RankedHit>)
    requires limit <= |ranked|
    ensures |r| == |ranked| && Splits(ranked, limit, r[..limit], r[limit..])
  {
    RankIsTotalPreorder();
    SortIsSorted(ranked, RankLeq);
    r := Sort(ranked, RankLeq);
    assert r == r[..limit] + r[limit..];
  }

  method TopHits(ranked: seq<RankedHit>, limit: nat) returns (hits: seq<SearchHit>)
    ensures AreTopHits(ranked, limit, hits)
  {
    hide Sorted, RankLeq;
    var kept: seq<RankedHit>;
    ghost var rest: seq<RankedHit> := [];
    if |ranked| > limit {
      kept := PartialSort(ranked, limit);
      rest := kept[limit..];
      kept := kept[..limit];
    } else {
      kept := PartialSort(ranked, |ranked|);
      assert kept[..|ranked|] == kept && kept[|ranked|..] == [];
    }
    assert Splits(ranked, limit, kept, rest);
    assert IsTop(ranked, limit, kept);
    hits := CopyHits(kept);
  }

  method CopyHits(kept: seq<RankedHit>) returns (hits: seq<SearchHit>)
    ensures hits == HitsOf(kept)
  {
    hits := [];
    for i := 0 to |kept|
      invariant hits == HitsOf(kept)[..i]
    {
      hits := hits + [kept[i].hit];
    }
  }
}
