/**
 The least-recently-used cache: a recency list of nodes and a map from keys to nodes. The abstract
 cache is the sequence of its entries, most recent first.
 */
module LruCache {
  import opened Results

  /* ---------------------------------------------------------------- recency sequences */

  datatype Entry<K, V> = Entry(key: K, value: V)

  function Keys<K, V>(s: seq<Entry<K, V>>): (ks: seq<K>)
    ensures |ks| == |s|
  {
    if s == [] then [] else [s[0].key] + Keys(s[1..])
  }

  predicate Distinct<T(==)>(s: seq<T>) {
    s == [] || (s[0] !in s[1..] && Distinct(s[1..]))
  }

  function Find<K(==), V>(s: seq<Entry<K, V>>, k: K): Option<V> {
    if s == [] then None
    else if s[0].key == k then Some(s[0].value)
    else Find(s[1..], k)
  }

  /** The entries whose key is not k. */
  function Without<K(==), V>(s: seq<Entry<K, V>>, k: K): seq<Entry<K, V>> {
    if s == [] then []
    else if s[0].key == k then Without(s[1..], k)
    else [s[0]] + Without(s[1..], k)
  }

  function Get<K(==), V>(s: seq<Entry<K, V>>, k: K): seq<Entry<K, V>> {
    match Find(s, k)
    case None => s
    case Some(v) => [Entry(k, v)] + Without(s, k)
  }

  function Put<K(==), V>(capacity: nat, s: seq<Entry<K, V>>, k: K, v: V): seq<Entry<K, V>>
    requires capacity >= 1
  {
    Take([Entry(k, v)] + Without(s, k), capacity)
  }

  function Drop<K(==)>(ks: seq<K>, k: K): seq<K> {
    if ks == [] then [] else if ks[0] == k then Drop(ks[1..], k) else [ks[0]] + Drop(ks[1..], k)
  }

  function Take<T>(s: seq<T>, n: nat): seq<T> {
    if |s| <= n then s else s[..n]
  }

  lemma {:induction false} KeysOfWithout<K, V>(s: seq<Entry<K, V>>, k: K)
    ensures Keys(Without(s, k)) == Drop(Keys(s), k)
  {
    if s != [] {
      KeysOfWithout(s[1..], k);
      assert Keys(s)[1..] == Keys(s[1..]);
    }
  }

  lemma {:induction false} KeysOfTake<K, V>(s: seq<Entry<K, V>>, n: nat)
    ensures Keys(Take(s, n)) == Take(Keys(s), n)
  {
    if |s| > n > 0 {
      KeysOfTake(s[1..], n - 1);
      assert s[..n] == [s[0]] + s[1..][..n - 1];
      assert Take(s[1..], n - 1) == s[1..][..n - 1];
      assert Keys(s)[..n] == [s[0].key] + Keys(s[1..])[..n - 1];
    }
  }

  lemma {:induction false} KeyAt<K, V>(s: seq<Entry<K, V>>, i: nat)
    requires i < |s|
    ensures Keys(s)[i] == s[i].key
  {
    if i > 0 {
      KeyAt(s[1..], i - 1);
    }
  }

  lemma {:induction false} FindKey<K, V>(s: seq<Entry<K, V>>, k: K)
    ensures Find(s, k).Some? <==> k in Keys(s)
    ensures Find(s, k).Some? ==> Entry(k, Find(s, k).value) in s
  {
    if s != [] {
      FindKey(s[1..], k);
    }
  }

  lemma {:induction false} FindAfterWithout<K, V>(s: seq<Entry<K, V>>, k: K, x: K)
    requires x != k
    ensures Find(Without(s, k), x) == Find(s, x)
  {
    if s != [] {
      FindAfterWithout(s[1..], k, x);
    }
  }

  lemma {:induction false} FindInTake<K, V>(s: seq<Entry<K, V>>, n: nat, k: K)
    requires k in Keys(Take(s, n))
    ensures Find(Take(s, n), k) == Find(s, k)
  {
    if |s| > n > 0 {
      assert s[..n] == [s[0]] + s[1..][..n - 1];
      assert Take(s[1..], n - 1) == s[1..][..n - 1];
      if s[0].key != k {
        FindInTake(s[1..], n - 1, k);
      }
    }
  }

  lemma {:induction false} WithoutAt<K, V>(s: seq<Entry<K, V>>, i: nat)
    requires i < |s| && Distinct(Keys(s))
    ensures Without(s, s[i].key) == s[..i] + s[i + 1..]
    ensures Find(s, s[i].key) == Some(s[i].value)
  {
    if i == 0 {
      WithoutAbsent(s[1..], s[0].key);
    } else {
      KeyAt(s[1..], i - 1);
      WithoutAt(s[1..], i - 1);
      assert s[..i] + s[i + 1..] == [s[0]] + (s[1..][..i - 1] + s[1..][i..]);
    }
  }

  lemma {:induction false} WithoutAbsent<K, V>(s: seq<Entry<K, V>>, k: K)
    requires k !in Keys(s)
    ensures Without(s, k) == s
  {
    if s != [] {
      WithoutAbsent(s[1..], k);
    }
  }

  /** An entry at the front is found there, and a hit leaves everything where it is. */
  lemma FrontIsFound<K, V>(k: K, v: V, rest: seq<Entry<K, V>>)
    requires k !in Keys(rest)
    ensures Find([Entry(k, v)] + rest, k) == Some(v) && Get([Entry(k, v)] + rest, k) == [Entry(k, v)] + rest
  {
    WithoutAbsent(rest, k);
  }

  lemma WithoutHasNone<K, V>(s: seq<Entry<K, V>>, k: K)
    ensures k !in Keys(Without(s, k))
  {
    KeysOfWithout(s, k);
    DropMembers(Keys(s), k, k);
  }

  /** A second hit finds what the first one found and changes nothing. */
  lemma GetAgain<K, V>(s: seq<Entry<K, V>>, k: K)
    ensures Find(Get(s, k), k) == Find(s, k) && Get(Get(s, k), k) == Get(s, k)
  {
    if Find(s, k).Some? {
      WithoutHasNone(s, k);
      FrontIsFound(k, Find(s, k).value, Without(s, k));
    }
  }

  /** What has just been put is found, and finding it changes nothing. */
  lemma PutThenGet<K, V>(capacity: nat, s: seq<Entry<K, V>>, k: K, v: V)
    requires capacity >= 1
    ensures Find(Put(capacity, s, k, v), k) == Some(v) && Get(Put(capacity, s, k, v), k) == Put(capacity, s, k, v)
  {
    var rest := Without(s, k);
    WithoutHasNone(s, k);
    KeysOfTake(rest, capacity - 1);
    assert k !in Take(Keys(rest), capacity - 1);
    TakeCons(Entry(k, v), rest, capacity);
    FrontIsFound(k, v, Take(rest, capacity - 1));
  }

  lemma {:induction false} WithoutMembers<K, V>(s: seq<Entry<K, V>>, k: K, e: Entry<K, V>)
    ensures e in Without(s, k) ==> e in s
  {
    if s != [] {
      WithoutMembers(s[1..], k, e);
    }
  }

  lemma {:induction false} DropMembers<K>(ks: seq<K>, k: K, x: K)
    ensures x in Drop(ks, k) <==> x in ks && x != k
  {
    if ks != [] {
      DropMembers(ks[1..], k, x);
      assert ks == [ks[0]] + ks[1..];
    }
  }

  lemma {:induction false} DropAbsent<K>(ks: seq<K>, k: K)
    requires k !in ks
    ensures Drop(ks, k) == ks
  {
    if ks != [] {
      DropAbsent(ks[1..], k);
    }
  }

  lemma {:induction false} DropDistinct<K>(ks: seq<K>, k: K)
    requires Distinct(ks)
    ensures Distinct(Drop(ks, k))
    ensures |Drop(ks, k)| == (if k in ks then |ks| - 1 else |ks|)
  {
    if ks != [] {
      DropDistinct(ks[1..], k);
      DropMembers(ks[1..], k, ks[0]);
      assert ks == [ks[0]] + ks[1..];
      if ks[0] != k {
        assert ([ks[0]] + Drop(ks[1..], k))[1..] == Drop(ks[1..], k);
      }
    }
  }

  lemma {:induction false} TakeDistinct<K>(ks: seq<K>, n: nat)
    requires Distinct(ks)
    ensures Distinct(Take(ks, n))
  {
    if |ks| > n > 0 {
      TakeDistinct(ks[1..], n - 1);
      assert ks[..n][1..] == ks[1..][..n - 1] == Take(ks[1..], n - 1);
    }
  }

  /** Keys stay distinct, the bound holds, and no operation invents an entry. */
  lemma CachePreserved<K, V>(capacity: nat, s: seq<Entry<K, V>>, k: K, v: V)
    requires capacity >= 1 && Distinct(Keys(s)) && |s| <= capacity
    ensures Distinct(Keys(Get(s, k))) && |Get(s, k)| == |s|
    ensures Distinct(Keys(Put(capacity, s, k, v))) && |Put(capacity, s, k, v)| <= capacity
  {
    KeysOfWithout(s, k);
    FindKey(s, k);
    DropDistinct(Keys(s), k);
    DropMembers(Keys(s), k, k);
    var all := [Entry(k, v)] + Without(s, k);
    assert all[1..] == Without(s, k);
    assert Keys(all)[1..] == Drop(Keys(s), k);
    KeysOfTake(all, capacity);
    TakeDistinct(Keys(all), capacity);
    if Find(s, k).Some? {
      var hit := [Entry(k, Find(s, k).value)] + Without(s, k);
      assert hit[1..] == Without(s, k);
      assert Keys(hit)[1..] == Drop(Keys(s), k);
    }
  }

  /* ---------------------------------------------------------------- which keys are present */

  datatype Op<K, V> = OpGet(key: K) | OpPut(key: K, value: V)

  /** The cache after a history of operations on an empty one. */
  function Run<K(==), V>(capacity: nat, ops: seq<Op<K, V>>): (s: seq<Entry<K, V>>)
    requires capacity >= 1
    decreases |ops|
  {
    if ops == [] then []
    else
      var s := Run(capacity, ops[..|ops| - 1]);
      match ops[|ops| - 1]
      case OpGet(k) => Get(s, k)
      case OpPut(k, v) => Put(capacity, s, k, v)
  }

  /** The keys put or hit in a history, in order; a missed get touches nothing. */
  function Touches<K(==), V>(capacity: nat, ops: seq<Op<K, V>>): seq<K>
    requires capacity >= 1
    decreases |ops|
  {
    if ops == [] then []
    else
      var before := ops[..|ops| - 1];
      var last := ops[|ops| - 1];
      if last.OpGet? && Find(Run(capacity, before), last.key).None? then Touches(capacity, before)
      else Touches(capacity, before) + [last.key]
  }

  /** The value of the last put of k. */
  function LastPut<K(==), V>(ops: seq<Op<K, V>>, k: K): Option<V>
    decreases |ops|
  {
    if ops == [] then None
    else if ops[|ops| - 1].OpPut? && ops[|ops| - 1].key == k then Some(ops[|ops| - 1].value)
    else LastPut(ops[..|ops| - 1], k)
  }

  /** The distinct keys other than k touched after the last touch of k. */
  function TouchedSince<K(==)>(touches: seq<K>, k: K): set<K>
    decreases |touches|
  {
    if touches == [] || touches[|touches| - 1] == k then {}
    else TouchedSince(touches[..|touches| - 1], k) + {touches[|touches| - 1]}
  }

  /** Distinct keys by last touch, most recent first. */
  function Recency<K(==)>(touches: seq<K>): seq<K>
    decreases |touches|
  {
    if touches == [] then []
    else
      var k := touches[|touches| - 1];
      [k] + Drop(Recency(touches[..|touches| - 1]), k)
  }

  lemma {:induction false} RecencyDistinct<K>(touches: seq<K>)
    ensures Distinct(Recency(touches))
    decreases |touches|
  {
    if touches != [] {
      var before, k := touches[..|touches| - 1], touches[|touches| - 1];
      RecencyDistinct(before);
      DropDistinct(Recency(before), k);
      DropMembers(Recency(before), k, k);
      assert Recency(touches)[1..] == Drop(Recency(before), k);
    }
  }

  lemma {:induction false} TakeOfDrop<K>(ks: seq<K>, k: K, n: nat)
    requires Distinct(ks) && n >= 1
    ensures Take(Drop(ks, k), n - 1) == Take(Drop(Take(ks, n), k), n - 1)
  {
    if ks != [] {
      var t := Take(ks, n);
      assert t == [ks[0]] + Take(ks[1..], n - 1) && t[1..] == Take(ks[1..], n - 1);
      if ks[0] == k {
        DropAbsent(ks[1..], k);
        DropAbsent(Take(ks[1..], n - 1), k);
      } else if n > 1 {
        TakeOfDrop(ks[1..], k, n - 1);
        TakeCons(ks[0], Drop(ks[1..], k), n - 1);
        TakeCons(ks[0], Drop(Take(ks[1..], n - 1), k), n - 1);
      }
    }
  }

  lemma TakeCons<T>(x: T, s: seq<T>, n: nat)
    requires n >= 1
    ensures Take([x] + s, n) == [x] + Take(s, n - 1)
  {}

  /** The cache holds the `capacity` most recently touched keys, in order of recency. */
  lemma {:induction false} HoldsMostRecent<K, V>(capacity: nat, ops: seq<Op<K, V>>)
    requires capacity >= 1
    ensures Keys(Run(capacity, ops)) == Take(Recency(Touches(capacity, ops)), capacity)
    decreases |ops|
  {
    if ops != [] {
      var before, last := ops[..|ops| - 1], ops[|ops| - 1];
      HoldsMostRecent(capacity, before);
      var s := Run(capacity, before);
      FindKey(s, last.key);
      if last.OpGet? && Find(s, last.key).None? {
      } else {
        var r := Recency(Touches(capacity, before));
        var t := Touches(capacity, before) + [last.key];
        assert t[..|t| - 1] == Touches(capacity, before);
        RecencyDistinct(Touches(capacity, before));
        TouchKeys(capacity, s, last);
        TakeOfDrop(r, last.key, capacity);
        TakeCons(last.key, Drop(r, last.key), capacity);
        TakeCons(last.key, Drop(Keys(s), last.key), capacity);
        if last.OpGet? {
          TakeDistinct(r, capacity);
          DropDistinct(Take(r, capacity), last.key);
        }
      }
    }
  }

  lemma TouchKeys<K, V>(capacity: nat, s: seq<Entry<K, V>>, op: Op<K, V>)
    requires capacity >= 1
    ensures op.OpPut? ==>
      Keys(Put(capacity, s, op.key, op.value)) == Take([op.key] + Drop(Keys(s), op.key), capacity)
    ensures op.OpGet? && Find(s, op.key).Some? ==> Keys(Get(s, op.key)) == [op.key] + Drop(Keys(s), op.key)
  {
    KeysOfWithout(s, op.key);
    match op
    case OpPut(k, v) =>
      var all := [Entry(k, v)] + Without(s, k);
      assert all[1..] == Without(s, k);
      KeysOfTake(all, capacity);
    case OpGet(k) =>
      if Find(s, k).Some? {
        var hit := [Entry(k, Find(s, k).value)] + Without(s, k);
        assert hit[1..] == Without(s, k);
      }
  }

  /** Where an element ends up when another one is dropped, and what is ahead of it. */
  lemma {:induction false} DropIndex<K>(ks: seq<K>, x: K, i: nat)
    requires Distinct(ks) && i < |ks| && ks[i] != x
    ensures var d := Drop(ks, x);
      var j := if x in ks[..i] then i - 1 else i;
      && 0 <= j < |d| && d[j] == ks[i]
      && (forall y :: y in d[..j] <==> y in ks[..i] && y != x)
  {
    assert ks[..i] == if i == 0 then [] else [ks[0]] + ks[1..][..i - 1];
    if ks[0] == x {
      DropAbsent(ks[1..], x);
      assert x !in ks[1..][..i - 1];
    } else if i > 0 {
      DropIndex(ks[1..], x, i - 1);
      var j := if x in ks[1..][..i - 1] then i - 2 else i - 1;
      assert Drop(ks, x)[..j + 1] == [ks[0]] + Drop(ks[1..], x)[..j];
    }
  }

  /** The position of a touched key by recency is the number of others touched since. */
  lemma {:induction false} RecencyIndex<K>(touches: seq<K>, k: K) returns (i: nat)
    requires k in touches
    ensures var r := Recency(touches);
      && i < |r| && r[i] == k && i == |TouchedSince(touches, k)|
      && (forall y :: y in r[..i] <==> y in TouchedSince(touches, k))
    decreases |touches|
  {
    var before, last := touches[..|touches| - 1], touches[|touches| - 1];
    if last == k {
      i := 0;
    } else {
      assert touches == before + [last];
      var j := RecencyIndex(before, k);
      RecencyDistinct(before);
      var r := Recency(before);
      DropIndex(r, last, j);
      i := (if last in r[..j] then j - 1 else j) + 1;
      assert Recency(touches)[..i] == [last] + Drop(r, last)[..i - 1];
      if last in TouchedSince(before, k) {
        assert TouchedSince(before, k) + {last} == TouchedSince(before, k);
      }
    }
  }

  lemma {:induction false} DistinctIndex<K>(ks: seq<K>, i: nat, n: nat)
    requires Distinct(ks) && i < |ks|
    ensures ks[i] in Take(ks, n) <==> i < n
  {
    if |ks| <= n {
    } else if i > 0 {
      if n > 0 {
        DistinctIndex(ks[1..], i - 1, n - 1);
        assert ks[..n] == [ks[0]] + ks[1..][..n - 1];
      }
    } else if n > 0 {
      assert ks[..n][0] == ks[0];
    }
  }

  lemma {:induction false} DistinctAt<T>(s: seq<T>, i: nat, j: nat)
    requires Distinct(s) && i < j < |s|
    ensures s[i] != s[j]
  {
    if i > 0 {
      DistinctAt(s[1..], i - 1, j - 1);
    } else {
      assert s[1..][j - 1] == s[j];
    }
  }

  lemma {:induction false} RecencyMembers<K>(touches: seq<K>, k: K)
    ensures k in Recency(touches) <==> k in touches
    decreases |touches|
  {
    if touches != [] {
      var before, last := touches[..|touches| - 1], touches[|touches| - 1];
      assert touches == before + [last];
      RecencyMembers(before, k);
      DropMembers(Recency(before), last, k);
    }
  }

  /** A key is touched exactly when it has been put, and what the cache holds for it is its last put. */
  lemma {:induction false} HoldsLatest<K, V>(capacity: nat, ops: seq<Op<K, V>>, k: K)
    requires capacity >= 1
    ensures k in Touches(capacity, ops) <==> LastPut(ops, k).Some?
    ensures Find(Run(capacity, ops), k).Some? ==> Find(Run(capacity, ops), k) == LastPut(ops, k)
    decreases |ops|
  {
    if ops != [] {
      var before, last := ops[..|ops| - 1], ops[|ops| - 1];
      HoldsLatest(capacity, before, k);
      var s := Run(capacity, before);
      var w := Without(s, last.key);
      if k != last.key {
        FindAfterWithout(s, last.key, k);
      }
      match last
      case OpGet(x) =>
        if Find(s, x).Some? {
          assert ([Entry(x, Find(s, x).value)] + w)[1..] == w;
        }
      case OpPut(x, v) =>
        var all := [Entry(x, v)] + w;
        assert all[1..] == w;
        FindKey(Take(all, capacity), k);
        if k in Keys(Take(all, capacity)) {
          FindInTake(all, capacity, k);
        }
    }
  }

  /**
   Least recently used, exactly: a key yields its last put value as long as fewer than `capacity`
   distinct other keys have been put or hit since it was, and is absent from then on.
   */
  lemma PresentIffRecentlyTouched<K, V>(capacity: nat, ops: seq<Op<K, V>>, k: K)
    requires capacity >= 1
    ensures Find(Run(capacity, ops), k) ==
            if |TouchedSince(Touches(capacity, ops), k)| < capacity then LastPut(ops, k) else None
  {
    var touches := Touches(capacity, ops);
    HoldsMostRecent(capacity, ops);
    HoldsLatest(capacity, ops, k);
    FindKey(Run(capacity, ops), k);
    RecencyMembers(touches, k);
    RecencyDistinct(touches);
    if k in touches {
      var i := RecencyIndex(touches, k);
      DistinctIndex(Recency(touches), i, capacity);
    }
  }

  /* ---------------------------------------------------------------- the cache object */

  class Node<K, V> {
    const key: K
    var value: V

    constructor (key: K, value: V)
      ensures this.key == key && this.value == value
    {
      this.key := key;
      this.value := value;
    }
  }

  class Cache<K(==), V> {
    const capacity: nat
    var items: seq<Node<K, V>>
    var entries: map<K, Node<K, V>>

    /** The entries of the list, most recent first. */
    ghost function Contents(): (s: seq<Entry<K, V>>)
      reads this, items
      ensures |s| == |items|
    {
      seq(|items|, i requires 0 <= i < |items| reads this, items => Entry(items[i].key, items[i].value))
    }

    /** The map leads from each key to the one node of the list that carries it. */
    ghost predicate Valid()
      reads this, items
    {
      && 1 <= capacity && |items| <= capacity
      && Distinct(Keys(Contents()))
      && Linked()
    }

    ghost predicate Linked()
      reads this
    {
      && (forall n :: n in items ==> n.key in entries && entries[n.key] == n)
      && (forall k :: k in entries ==> entries[k] in items && entries[k].key == k)
    }

    constructor (capacity: nat)
      ensures Valid() && Contents() == [] && items == []
      ensures this.capacity == if capacity == 0 then 1 else capacity
    {
      this.capacity := if capacity == 0 then 1 else capacity;
      items := [];
      entries := map[];
    }

    /** Move a node of the list to its front, as splicing its iterator does. */
    method MoveToFront(node: Node<K, V>) returns (ghost at: nat)
      requires node in items
      modifies this`items
      ensures at < |old(items)| && old(items)[at] == node
      ensures items == [node] + old(items)[..at] + old(items)[at + 1..]
      ensures Contents() == [old(Contents())[at]] + (old(Contents())[..at] + old(Contents())[at + 1..])
      ensures forall n :: n in items <==> n in old(items)
    {
      ghost var last :| 0 <= last < |items| && items[last] == node;
      var i := 0;
      while items[i] != node
        invariant 0 <= i <= last
        decreases last - i
      {
        i := i + 1;
      }
      at := i;
      items := [node] + items[..i] + items[i + 1..];
      assert old(items) == old(items)[..i] + [node] + old(items)[i + 1..];
    }

    /** A hit returns the value and makes the entry the most recent; a miss changes nothing. */
    method Lookup(key: K) returns (r: Option<V>)
      requires Valid()
      modifies this`items
      ensures Valid() && Contents() == Get(old(Contents()), key) && r == Find(old(Contents()), key)
      ensures entries == old(entries)
      ensures forall n :: n in items <==> n in old(items)
    {
      ghost var before := Contents();
      if key !in entries {
        AbsentFromContents(key);
        FindKey(before, key);
        return None;
      }
      var node := entries[key];
      ghost var at := MoveToFront(node);
      WithoutAt(before, at);
      FindKey(before, key);
      assert before[at] == Entry(key, node.value);
      CachePreserved(capacity, before, key, node.value);
      return Some(node.value);
    }

    /** Insert or overwrite as the most recent entry; beyond the capacity the least recent one goes. */
    method Insert(key: K, value: V)
      requires Valid()
      modifies this, items
      ensures Valid() && Contents() == Put(capacity, old(Contents()), key, value)
      ensures forall n :: n in items ==> n in old(items) || fresh(n)
    {
      ghost var before := Contents();
      CachePreserved(capacity, before, key, value);
      if key in entries {
        Overwrite(entries[key], value);
        return;
      }
      AbsentFromContents(key);
      WithoutAbsent(before, key);
      PushFront(key, value);
      if |items| > capacity {
        DropLast(Entry(key, value), before);
      }
      assert Contents() == Put(capacity, before, key, value);
    }

    method PushFront(key: K, value: V)
      requires Linked() && Distinct(Keys(Contents())) && key !in entries
      modifies this
      ensures Linked() && |items| == |old(items)| + 1
      ensures Contents() == [Entry(key, value)] + old(Contents())
      ensures forall i, j :: 0 <= i < j < |items| ==> items[i] != items[j]
      ensures forall n :: n in items ==> n in old(items) || fresh(n)
    {
      NodesDiffer();
      var node := new Node(key, value);
      items := [node] + items;
      entries := entries[key := node];
    }

    method Overwrite(node: Node<K, V>, value: V)
      requires Valid() && node in items
      modifies this`items, node
      ensures Valid() && Contents() == Put(capacity, old(Contents()), node.key, value)
      ensures forall n :: n in items <==> n in old(items)
    {
      ghost var before := Contents();
      NodesDiffer();
      node.value := value;
      ghost var mid := Contents();
      ghost var at := MoveToFront(node);
      assert mid == before[at := Entry(node.key, value)];
      assert mid[..at] == before[..at] && mid[at + 1..] == before[at + 1..];
      WithoutAt(before, at);
      CachePreserved(capacity, before, node.key, value);
    }

    /** Evict the entry at the back of the list. */
    method DropLast(ghost newest: Entry<K, V>, ghost before: seq<Entry<K, V>>)
      requires 1 <= capacity < |items| && Linked()
      requires Contents() == [newest] + before && |items| == capacity + 1
      requires forall i, j :: 0 <= i < j < |items| ==> items[i] != items[j]
      modifies this
      ensures Linked() && |items| <= capacity
      ensures Contents() == ([newest] + before)[..capacity]
      ensures forall n :: n in items ==> n in old(items)
    {
      var last := items[|items| - 1];
      assert items == items[..|items| - 1] + [last];
      entries := entries - {last.key};
      items := items[..|items| - 1];
    }

    method Clear()
      requires Valid()
      modifies this
      ensures Valid() && Contents() == [] && items == []
    {
      entries := map[];
      items := [];
    }

    lemma NodesDiffer()
      requires Distinct(Keys(Contents()))
      ensures forall i, j :: 0 <= i < j < |items| ==> items[i] != items[j]
    {
      forall i, j | 0 <= i < j < |items| ensures items[i] != items[j] {
        DistinctAt(Keys(Contents()), i, j);
        KeyAt(Contents(), i);
        KeyAt(Contents(), j);
      }
    }

    lemma AbsentFromContents(key: K)
      requires Linked() && key !in entries
      ensures key !in Keys(Contents())
    {
      var s := Contents();
      forall i | 0 <= i < |s| ensures Keys(s)[i] != key {
        KeyAt(s, i);
        assert items[i] in items;
      }
    }
  }
}
