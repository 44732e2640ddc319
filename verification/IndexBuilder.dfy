/** The index snapshot and its construction from the records of a scan. */
module IndexBuilder {
  import opened Results
  import opened Sorting
  import opened Tokenizer

  datatype FileRecord = FileRecord(id: nat, fileName: Text, extension: Text, relativePath: Text)

  datatype IndexSnapshot = IndexSnapshot(
    generation: nat,
    records: seq<FileRecord>,
    idToPos: map<nat, nat>,
    tokenIndex: map<Text, seq<nat>>,
    sortedTokens: seq<Text>,
    normalizedNames: seq<Text>)

  const CANCELLED := Error(Cancelled, "index build cancelled")

  function NameOf(r: FileRecord): Text {
    Normalize(r.fileName + [32] + r.relativePath)
  }

  function SetOf(tokens: seq<Text>): (r: set<Text>)
    ensures forall t :: t in r <==> t in tokens
  {
    if tokens == [] then {}
    else
      assert tokens == tokens[..|tokens| - 1] + [tokens[|tokens| - 1]];
      SetOf(tokens[..|tokens| - 1]) + {tokens[|tokens| - 1]}
  }

  function TokenSet(text: Text): set<Text> {
    SetOf(Tokens(text))
  }

  /** The tokens a record is found under. */
  function RecordTokens(r: FileRecord): set<Text> {
    TokenSet(r.fileName) + TokenSet(r.extension) + TokenSet(r.relativePath)
  }

  /** t is the token of a run of the text. */
  ghost predicate HasRun(text: Text, t: Text) {
    exists i: nat, j: nat :: IsRunToken(text, i, j, t)
  }

  /** A run of the record's file name, extension or relative path has token t. */
  ghost predicate IsFoundUnder(r: FileRecord, t: Text) {
    HasRun(r.fileName, t) || HasRun(r.extension, t) || HasRun(r.relativePath, t)
  }

  lemma RecordTokensAreRuns(r: FileRecord, t: Text)
    ensures t in RecordTokens(r) <==> IsFoundUnder(r, t)
  {
    hide Tokens, IsRunToken;
    TokensAreRuns(r.fileName, t);
    TokensAreRuns(r.extension, t);
    TokensAreRuns(r.relativePath, t);
  }

  /** The record with this identifier carries token t. */
  predicate HasToken(records: seq<FileRecord>, id: nat, t: Text) {
    1 <= id <= |records| && t in RecordTokens(records[id - 1])
  }

  predicate IsIndexed(records: seq<FileRecord>, t: Text) {
    exists id: nat | id <= |records| :: HasToken(records, id, t)
  }

  /** Some record is found under the token. */
  ghost predicate IsKnown(records: seq<FileRecord>, t: Text) {
    exists i: nat :: i < |records| && IsFoundUnder(records[i], t)
  }

  lemma KnownIffIndexed(records: seq<FileRecord>, t: Text)
    ensures IsKnown(records, t) <==> IsIndexed(records, t)
  {
    hide RecordTokens, IsFoundUnder;
    if i: nat :| i < |records| && IsFoundUnder(records[i], t) {
      RecordTokensAreRuns(records[i], t);
      assert HasToken(records, i + 1, t);
    }
    if id: nat :| id <= |records| && HasToken(records, id, t) {
      RecordTokensAreRuns(records[id - 1], t);
    }
  }

  /* ---------------------------------------------------------------- what a snapshot is */

  ghost predicate Numbered(s: IndexSnapshot) {
    && (forall i :: 0 <= i < |s.records| ==> s.records[i].id == i + 1)
    && (forall id :: id in s.idToPos <==> 1 <= id <= |s.records|)
    && (forall id :: id in s.idToPos ==> s.idToPos[id] == id - 1)
    && |s.normalizedNames| == |s.records|
    && (forall i :: 0 <= i < |s.records| ==> s.normalizedNames[i] == NameOf(s.records[i]))
  }

  ghost predicate PostingsExact(records: seq<FileRecord>, index: map<Text, seq<nat>>) {
    && (forall t :: t in index <==> IsIndexed(records, t))
    && (forall t :: t in index ==> Ascending(index[t]))
    && (forall t, id: nat :: t in index ==> (id in index[t] <==> HasToken(records, id, t)))
  }

  ghost predicate TokensSorted(s: IndexSnapshot) {
    && SetOf(s.sortedTokens) == s.tokenIndex.Keys
    && (forall i, j :: 0 <= i < j < |s.sortedTokens| ==>
          LexLeq(s.sortedTokens[i], s.sortedTokens[j]) && s.sortedTokens[i] != s.sortedTokens[j])
  }

  ghost predicate WellFormed(s: IndexSnapshot) {
    Numbered(s) && PostingsExact(s.records, s.tokenIndex) && TokensSorted(s)
  }

  /** The scanned records, numbered from one in scan order. */
  function Renumber(scanned: seq<FileRecord>): (r: seq<FileRecord>)
    ensures |r| == |scanned|
  {
    seq(|scanned|, i requires 0 <= i < |scanned| => scanned[i].(id := i + 1))
  }

  /** Each record is found under the tokens of its runs and no others, and nothing else is found. */
  ghost predicate FindsRuns(scanned: seq<FileRecord>, index: map<Text, seq<nat>>) {
    && (forall t, i: nat :: i < |scanned| ==> (t in index && i + 1 in index[t] <==> IsFoundUnder(scanned[i], t)))
    && (forall t :: t in index ==> index[t] != [])
    && (forall t, id: nat :: t in index && id in index[t] ==> 1 <= id <= |scanned|)
  }

  lemma ExactFindsRuns(scanned: seq<FileRecord>, index: map<Text, seq<nat>>)
    requires PostingsExact(Renumber(scanned), index)
    ensures FindsRuns(scanned, index)
  {
    hide IsFoundUnder, RecordTokens, Ascending;
    var records := Renumber(scanned);
    forall t, i: nat | i < |scanned| ensures t in index && i + 1 in index[t] <==> IsFoundUnder(scanned[i], t) {
      RecordTokensAreRuns(scanned[i], t);
      SameTokens(records[i], scanned[i]);
      assert HasToken(records, i + 1, t) <==> t in RecordTokens(records[i]);
      assert HasToken(records, i + 1, t) ==> IsIndexed(records, t);
    }
    forall t | t in index ensures index[t] != [] {
      var id: nat :| id <= |records| && HasToken(records, id, t);
      assert id in index[t];
    }
  }

  /** The number of a record plays no part in its tokens. */
  lemma SameTokens(a: FileRecord, b: FileRecord)
    requires a == b.(id := a.id)
    ensures RecordTokens(a) == RecordTokens(b)
  {}

  /* ---------------------------------------------------------------- gathering tokens */

  /** The distinct tokens of the first n records. */
  function Vocabulary(records: seq<FileRecord>, n: nat): set<Text>
    requires n <= |records|
  {
    if n == 0 then {} else Vocabulary(records, n - 1) + RecordTokens(records[n - 1])
  }

  /** The identifiers up to n of the records with token t. */
  function IdsWith(records: seq<FileRecord>, n: nat, t: Text): set<nat>
    requires n <= |records|
  {
    if n == 0 then {}
    else IdsWith(records, n - 1, t) + (if t in RecordTokens(records[n - 1]) then {n} else {})
  }

  lemma {:induction false} IdsWithMembers(records: seq<FileRecord>, n: nat, t: Text, id: nat)
    requires n <= |records|
    ensures id in IdsWith(records, n, t) <==> id <= n && HasToken(records, id, t)
    ensures id in IdsWith(records, n, t) ==> t in Vocabulary(records, n)
    ensures t in Vocabulary(records, n) <==> IdsWith(records, n, t) != {}
  {
    hide RecordTokens;
    if n > 0 {
      IdsWithMembers(records, n - 1, t, id);
      if t in RecordTokens(records[n - 1]) {
        assert n in IdsWith(records, n, t);
      }
    }
  }

  ghost predicate Gathered(records: seq<FileRecord>, n: nat, m: map<Text, set<nat>>)
    requires n <= |records|
  {
    m.Keys == Vocabulary(records, n) && forall t :: t in m ==> m[t] == IdsWith(records, n, t)
  }

  /** r is m with id added under each of the tokens. */
  ghost predicate Added(m: map<Text, set<nat>>, tokens: set<Text>, id: nat, r: map<Text, set<nat>>) {
    && r.Keys == m.Keys + tokens
    && forall t :: t in r ==> r[t] == (if t in m then m[t] else {}) + (if t in tokens then {id} else {})
  }

  lemma AddedTwice(m: map<Text, set<nat>>, a: set<Text>, r: map<Text, set<nat>>, b: set<Text>, s: map<Text, set<nat>>,
                   id: nat)
    requires Added(m, a, id, r) && Added(r, b, id, s)
    ensures Added(m, a + b, id, s)
  {}

  lemma GatherStep(records: seq<FileRecord>, n: nat, m: map<Text, set<nat>>, r: map<Text, set<nat>>)
    requires n < |records| && Gathered(records, n, m) && Added(m, RecordTokens(records[n]), n + 1, r)
    ensures Gathered(records, n + 1, r)
  {
    hide RecordTokens, HasToken;
    forall t | t in r ensures r[t] == IdsWith(records, n + 1, t) {
      IdsWithMembers(records, n, t, 0);
    }
  }

  method NormalizedRecordName(record: FileRecord) returns (name: Text)
    ensures name == NameOf(record)
  {
    var text := record.fileName;
    text := text + [32];
    text := text + record.relativePath;
    name := NormalizeIndexText(text);
  }

  lemma AddedOne(m: map<Text, set<nat>>, t: Text, id: nat)
    ensures Added(m, {t}, id, m[t := (if t in m then m[t] else {}) + {id}])
  {}

  lemma AddedNone(m: map<Text, set<nat>>, id: nat)
    ensures Added(m, {}, id, m)
  {}

  method AddTokensForPath(tokenSets: map<Text, set<nat>>, path: Text, id: nat) returns (r: map<Text, set<nat>>)
    ensures Added(tokenSets, TokenSet(path), id, r)
  {
    r := tokenSets;
    var tokens := Tokenize(path);
    hide Added;
    AddedNone(tokenSets, id);
    for i := 0 to |tokens|
      invariant Added(tokenSets, SetOf(tokens[..i]), id, r)
    {
      var t := tokens[i];
      ghost var before := r;
      AddedOne(before, t, id);
      r := r[t := (if t in r then r[t] else {}) + {id}];
      AddedTwice(tokenSets, SetOf(tokens[..i]), before, {t}, r, id);
      assert tokens[..i + 1] == tokens[..i] + [t];
      assert SetOf(tokens[..i + 1]) == SetOf(tokens[..i]) + {t};
    }
    assert tokens[..|tokens|] == tokens;
  }

  method AddTokensOfRecord(tokenSets: map<Text, set<nat>>, record: FileRecord, id: nat)
    returns (r: map<Text, set<nat>>)
    ensures Added(tokenSets, RecordTokens(record), id, r)
  {
    hide Added, TokenSet;
    var r1 := AddTokensForPath(tokenSets, record.fileName, id);
    var r2 := AddTokensForPath(r1, record.extension, id);
    r := AddTokensForPath(r2, record.relativePath, id);
    AddedTwice(tokenSets, TokenSet(record.fileName), r1, TokenSet(record.extension), r2, id);
    AddedTwice(tokenSets, TokenSet(record.fileName) + TokenSet(record.extension), r2,
               TokenSet(record.relativePath), r, id);
  }

  /* ---------------------------------------------------------------- arranging them */

  /** The elements of a hash set, in whatever order it is traversed. */
  method Elements<T(==)>(s: set<T>) returns (r: seq<T>)
    ensures multiset(r) == multiset(s)
  {
    r := [];
    var left := s;
    while left != {}
      invariant left <= s && multiset(r) == multiset(s - left)
      decreases left
    {
      var x :| x in left;
      r := r + [x];
      assert s - (left - {x}) == (s - left) + {x};
      left := left - {x};
    }
    assert s - {} == s;
  }

  lemma SortedSetAscends(s: set<nat>, r: seq<nat>)
    requires multiset(r) == multiset(s) && Sorted(r, Leq)
    ensures Ascending(r) && forall x :: x in r <==> x in s
  {
    forall x ensures x in r <==> x in s {
      assert x in r <==> x in multiset(r);
    }
    forall i, j | 0 <= i < j < |r| ensures r[i] < r[j] {
      assert multiset(s)[r[i]] <= 1;
      assert Leq(r[i], r[j]);
      if r[i] == r[j] {
        OccursTwice(r, i, j);
      }
    }
  }

  method SortedIds(ids: set<nat>) returns (r: seq<nat>)
    ensures Ascending(r) && forall x :: x in r <==> x in ids
  {
    var arbitrary := Elements(ids);
    SortIsSorted(arbitrary, Leq);
    r := Sort(arbitrary, Leq);
    SortedSetAscends(ids, r);
  }

  /** Postings for the tokens done so far. */
  ghost predicate Posted(tokenSets: map<Text, set<nat>>, done: set<Text>, index: map<Text, seq<nat>>) {
    && index.Keys == done && done <= tokenSets.Keys
    && forall t :: t in index ==> Arranges(index[t], tokenSets[t])
  }

  ghost predicate Arranges(ids: seq<nat>, s: set<nat>) {
    Ascending(ids) && forall id :: id in ids <==> id in s
  }

  /** One of the n polls from the given one on finds the token cancelled. */
  predicate AnyPoll(polls: nat -> bool, from: nat, n: nat)
    decreases n
  {
    n > 0 && (polls(from) || AnyPoll(polls, from + 1, n - 1))
  }

  method BuildPostings(tokenSets: map<Text, set<nat>>, polls: nat -> bool, polled: nat)
    returns (index: map<Text, seq<nat>>, tokens: seq<Text>, cancelled: bool)
    ensures cancelled <==> AnyPoll(polls, polled, |tokenSets|)
    ensures !cancelled ==> Posted(tokenSets, tokenSets.Keys, index) && SetOf(tokens) == tokenSets.Keys
  {
    hide SetOf, Posted;
    var order := Elements(tokenSets.Keys);
    TraversalCovers(tokenSets.Keys, order);
    index, tokens, cancelled := map[], [], false;
    NothingPosted(tokenSets);
    for i := 0 to |order|
      invariant AnyPoll(polls, polled, |order|) <==> AnyPoll(polls, polled + i, |order| - i)
      invariant Posted(tokenSets, SetOf(tokens), index)
      invariant tokens == order[..i]
    {
      if polls(polled + i) {
        return index, tokens, true;
      }
      assert order[i] in tokenSets.Keys;
      index, tokens := PostToken(tokenSets, index, tokens, order[i]);
    }
    assert order[..|order|] == order;
  }

  /** Sort the identifiers of one token and list the token. */
  method PostToken(tokenSets: map<Text, set<nat>>, index: map<Text, seq<nat>>, tokens: seq<Text>, t: Text)
    returns (index': map<Text, seq<nat>>, tokens': seq<Text>)
    requires t in tokenSets && Posted(tokenSets, SetOf(tokens), index)
    ensures tokens' == tokens + [t] && Posted(tokenSets, SetOf(tokens'), index')
  {
    hide SetOf, Posted;
    var ids := SortedIds(tokenSets[t]);
    PostedOneMore(tokenSets, SetOf(tokens), index, t, ids);
    SetOfAppend(tokens, t);
    index', tokens' := index[t := ids], tokens + [t];
  }

  lemma TraversalCovers(keys: set<Text>, order: seq<Text>)
    requires multiset(order) == multiset(keys)
    ensures SetOf(order) == keys && |order| == |keys|
  {
    forall t ensures t in SetOf(order) <==> t in keys {
      assert t in order <==> t in multiset(order);
    }
    assert |multiset(order)| == |multiset(keys)|;
  }

  lemma NothingPosted(tokenSets: map<Text, set<nat>>)
    ensures Posted(tokenSets, SetOf([]), map[])
  {}

  lemma PostedOneMore(tokenSets: map<Text, set<nat>>, done: set<Text>, index: map<Text, seq<nat>>, t: Text, ids: seq<nat>)
    requires Posted(tokenSets, done, index) && t in tokenSets
    requires Ascending(ids) && forall id :: id in ids <==> id in tokenSets[t]
    ensures Posted(tokenSets, done + {t}, index[t := ids])
  {
    assert Arranges(ids, tokenSets[t]);
    hide Arranges;
  }

  lemma SetOfAppend(tokens: seq<Text>, t: Text)
    ensures SetOf(tokens + [t]) == SetOf(tokens) + {t}
  {
    assert (tokens + [t])[..|tokens|] == tokens;
  }

  lemma IndexedIffInVocabulary(records: seq<FileRecord>, t: Text)
    ensures t in Vocabulary(records, |records|) <==> IsIndexed(records, t)
  {
    hide Vocabulary, IdsWith, RecordTokens;
    var n := |records|;
    IdsWithMembers(records, n, t, 0);
    if id: nat :| id in IdsWith(records, n, t) {
      IdsWithMembers(records, n, t, id);
      assert HasToken(records, id, t);
    } else if id: nat :| id <= n && HasToken(records, id, t) {
      IdsWithMembers(records, n, t, id);
    }
  }

  lemma PostedIsExact(records: seq<FileRecord>, tokenSets: map<Text, set<nat>>, index: map<Text, seq<nat>>)
    requires Gathered(records, |records|, tokenSets) && Posted(tokenSets, tokenSets.Keys, index)
    ensures PostingsExact(records, index)
  {
    forall t, id: nat ensures t in index ==> (id in index[t] <==> HasToken(records, id, t)) {
      IdsWithMembers(records, |records|, t, id);
    }
    forall t ensures t in index <==> IsIndexed(records, t) {
      IndexedIffInVocabulary(records, t);
    }
  }

  /** Sort the token list and drop duplicates. */
  method SortTokens(tokens: seq<Text>) returns (sorted: seq<Text>)
    ensures SetOf(sorted) == SetOf(tokens)
    ensures forall i, j :: 0 <= i < j < |sorted| ==> LexLeq(sorted[i], sorted[j]) && sorted[i] != sorted[j]
  {
    LexIsTotalOrder();
    SortIsSorted(tokens, LexLeq);
    var all := Sort(tokens, LexLeq);
    UniqueOfSorted(all, LexLeq);
    sorted := Unique(all);
    forall t ensures t in sorted <==> t in tokens {
      UniqueKeepsElements(all, t);
      assert t in multiset(all) <==> t in multiset(tokens);
    }
  }

  /** What the pass over the first n records has put together. */
  ghost predicate Passed(scanned: seq<FileRecord>, n: nat, records: seq<FileRecord>, idToPos: map<nat, nat>,
                         names: seq<Text>) {
    && n <= |scanned| && records == Renumber(scanned)[..n] + scanned[n..]
    && (forall id :: id in idToPos <==> 1 <= id <= n)
    && (forall id :: id in idToPos ==> idToPos[id] == id - 1)
    && |names| == n && forall i :: 0 <= i < n ==> names[i] == NameOf(scanned[i])
  }

  lemma PassedOneMore(scanned: seq<FileRecord>, n: nat, records: seq<FileRecord>, idToPos: map<nat, nat>,
                      names: seq<Text>)
    requires Passed(scanned, n, records, idToPos, names) && n < |scanned|
    ensures records[n] == scanned[n]
    ensures Passed(scanned, n + 1, records[n := scanned[n].(id := n + 1)], idToPos[n + 1 := n],
                   names + [NameOf(scanned[n])])
  {
    hide NameOf;
    assert records[n := scanned[n].(id := n + 1)] == Renumber(scanned)[..n + 1] + scanned[n + 1..];
  }

  /** The loop over the records: number them, name them and gather their tokens. */
  method Pass(scanned: seq<FileRecord>, polls: nat -> bool, polled: nat)
    returns (records: seq<FileRecord>, idToPos: map<nat, nat>, names: seq<Text>, tokenSets: map<Text, set<nat>>,
             cancelled: bool)
    ensures cancelled <==> AnyPoll(polls, polled, |scanned|)
    ensures !cancelled ==> Passed(scanned, |scanned|, records, idToPos, names)
    ensures !cancelled ==> Gathered(Renumber(scanned), |scanned|, tokenSets)
    ensures !cancelled ==>
      forall t, i: nat :: i < |scanned| ==> (t in tokenSets && i + 1 in tokenSets[t] <==> IsFoundUnder(scanned[i], t))
  {
    hide Gathered, Added, RecordTokens, IsFoundUnder;
    ghost var numbered := Renumber(scanned);
    records, idToPos, names, tokenSets, cancelled := scanned, map[], [], map[], false;
    NothingGathered(numbered);
    assert Passed(scanned, 0, records, idToPos, names);
    for pos := 0 to |scanned|
      invariant Passed(scanned, pos, records, idToPos, names)
      invariant Gathered(numbered, pos, tokenSets)
      invariant AnyPoll(polls, polled, |scanned|) <==> AnyPoll(polls, polled + pos, |scanned| - pos)
    {
      if polls(polled + pos) {
        return records, idToPos, names, tokenSets, true;
      }
      PassedOneMore(scanned, pos, records, idToPos, names);
      hide Passed;
      var record := records[pos].(id := pos + 1);
      records := records[pos := record];
      idToPos := idToPos[pos + 1 := pos];
      var name := NormalizedRecordName(record);
      names := names + [name];
      ghost var before := tokenSets;
      tokenSets := AddTokensOfRecord(tokenSets, record, pos + 1);
      GatherStep(numbered, pos, before, tokenSets);
    }
    GatheredFindsRuns(scanned, tokenSets);
  }

  lemma GatheredFindsRuns(scanned: seq<FileRecord>, m: map<Text, set<nat>>)
    requires Gathered(Renumber(scanned), |scanned|, m)
    ensures forall t, i: nat :: i < |scanned| ==> (t in m && i + 1 in m[t] <==> IsFoundUnder(scanned[i], t))
  {
    hide IsFoundUnder, RecordTokens;
    var records := Renumber(scanned);
    forall t, i: nat | i < |scanned| ensures t in m && i + 1 in m[t] <==> IsFoundUnder(scanned[i], t) {
      RecordTokensAreRuns(scanned[i], t);
      SameTokens(records[i], scanned[i]);
      IdsWithMembers(records, |scanned|, t, i + 1);
    }
  }

  lemma NothingGathered(records: seq<FileRecord>)
    ensures Gathered(records, 0, map[])
  {}

  /** One of the polls of a build finds the token cancelled: one at the start, one per record and one per distinct token. */
  predicate BuildCancelled(scanned: seq<FileRecord>, polls: nat -> bool) {
    || polls(0) || AnyPoll(polls, 1, |scanned|)
    || AnyPoll(polls, |scanned| + 1, |Vocabulary(Renumber(scanned), |scanned|)|)
  }

  /** The tokens counted are those some record is found under. */
  lemma VocabularyByRuns(records: seq<FileRecord>, t: Text)
    ensures t in Vocabulary(records, |records|) <==> IsKnown(records, t)
  {
    hide Vocabulary, IsKnown, IsIndexed;
    IndexedIffInVocabulary(records, t);
    KnownIffIndexed(records, t);
  }

  /** The polls counted are the n from the given one on. */
  lemma {:induction false} AnyPollMeans(polls: nat -> bool, from: nat, n: nat)
    ensures AnyPoll(polls, from, n) <==> exists k: nat :: from <= k < from + n && polls(k)
    decreases n
  {
    if n > 0 {
      AnyPollMeans(polls, from + 1, n - 1);
    }
  }

  /** Build the snapshot. It fails exactly when one of the polls it makes finds the token cancelled. */
  method Build(generation: nat, scanned: seq<FileRecord>, polls: nat -> bool) returns (r: Result<IndexSnapshot>)
    ensures r.Success? ==> WellFormed(r.value)
    ensures r.Success? ==> r.value.generation == generation && r.value.records == Renumber(scanned)
    ensures r.Success? ==> FindsRuns(scanned, r.value.tokenIndex)
    ensures r.Failure? <==> BuildCancelled(scanned, polls)
    ensures r.Failure? ==> r == Failure(CANCELLED)
  {
    if polls(0) {
      return Failure(CANCELLED);
    }
    var records, idToPos, names, tokenSets, cancelled := Pass(scanned, polls, 1);
    if cancelled {
      return Failure(CANCELLED);
    }
    assert |tokenSets| == |tokenSets.Keys|;
    var index, tokens, late := BuildPostings(tokenSets, polls, |scanned| + 1);
    if late {
      return Failure(CANCELLED);
    }
    var sorted := SortTokens(tokens);
    assert records == Renumber(scanned);
    PostedIsExact(records, tokenSets, index);
    ExactFindsRuns(scanned, index);
    hide PostingsExact, Posted, Gathered, AnyPoll, FindsRuns;
    return Success(IndexSnapshot(generation, records, idToPos, index, sorted, names));
  }
}
