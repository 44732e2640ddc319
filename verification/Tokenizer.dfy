/** Text normalisation and the tokens of paths and queries. Text is a sequence of bytes. */
module Tokenizer {
  import opened Bytes

  type Text = Bytes

  const MAX_TOKEN_BYTES: nat := 128

  /** Space . _ - / \ ( ) [ ] { } */
  predicate IsSeparator(ch: byte) {
    ch == 32 || ch == 46 || ch == 95 || ch == 45 || ch == 47 || ch == 92 || ch == 40 || ch == 41
    || ch == 91 || ch == 93 || ch == 123 || ch == 125
  }

  /** Space and the control characters \t \n \v \f \r. */
  predicate IsAsciiSpace(ch: byte) {
    ch == 32 || 9 <= ch <= 13
  }

  function AsciiLower(ch: byte): byte {
    if 65 <= ch <= 90 then ch + 32 else ch
  }

  function Normalize(text: Text): (r: Text)
    ensures |r| == |text|
  {
    seq(|text|, i requires 0 <= i < |text| => AsciiLower(text[i]))
  }

  predicate NoSeparator(text: Text) {
    forall i :: 0 <= i < |text| ==> !IsSeparator(text[i])
  }

  /** Length of the separator-free run at the front. */
  function RunLength(text: Text): (n: nat)
    ensures n <= |text| && NoSeparator(text[..n])
    ensures n < |text| ==> IsSeparator(text[n])
  {
    if text == [] || IsSeparator(text[0]) then 0
    else
      var n := RunLength(text[1..]);
      assert text[..n + 1] == [text[0]] + text[1..][..n];
      n + 1
  }

  /** A token keeps the first 128 bytes of its run. */
  function Cut(text: Text): Text {
    if |text| <= MAX_TOKEN_BYTES then text else text[..MAX_TOKEN_BYTES]
  }

  /** The maximal separator-free runs, in order, each in lower case and cut to the maximum length. */
  function Tokens(text: Text): seq<Text>
    decreases |text|
  {
    if text == [] then []
    else
      var n := RunLength(text);
      if n == 0 then Tokens(text[1..])
      else [Cut(Normalize(text[..n]))] + Tokens(text[n..])
  }

  predicate StartsWith(value: Text, prefix: Text) {
    prefix <= value
  }

  predicate OccursAt(hay: Text, needle: Text, at: nat) {
    at + |needle| <= |hay| && hay[at..at + |needle|] == needle
  }

  predicate Contains(hay: Text, needle: Text) {
    exists at: nat | at <= |hay| :: OccursAt(hay, needle, at)
  }

  /* ---------------------------------------------------------------- what a token is */

  predicate IsToken(t: Text) {
    0 < |t| <= MAX_TOKEN_BYTES && NoSeparator(t) && Normalize(t) == t
  }

  lemma LowerKeepsSeparators(ch: byte)
    ensures IsSeparator(AsciiLower(ch)) <==> IsSeparator(ch)
    ensures AsciiLower(AsciiLower(ch)) == AsciiLower(ch)
  {}

  lemma CutIsToken(run: Text)
    requires run != [] && NoSeparator(run)
    ensures IsToken(Cut(Normalize(run)))
    ensures Cut(Normalize(run)) <= Normalize(run)
  {
    forall i | 0 <= i < |run|
      ensures !IsSeparator(AsciiLower(run[i])) && AsciiLower(AsciiLower(run[i])) == AsciiLower(run[i])
    {
      LowerKeepsSeparators(run[i]);
    }
  }

  lemma {:induction false} TokensAreTokens(text: Text, t: Text)
    requires t in Tokens(text)
    ensures IsToken(t) && Contains(Normalize(text), t)
    decreases |text|
  {
    var n := RunLength(text);
    if n == 0 {
      TokensAreTokens(text[1..], t);
      ContainsShift(text, 1, t);
    } else {
      CutIsToken(text[..n]);
      if t == Cut(Normalize(text[..n])) {
        assert Normalize(text)[..n] == Normalize(text[..n]);
        assert OccursAt(Normalize(text), t, 0);
      } else {
        TokensAreTokens(text[n..], t);
        ContainsShift(text, n, t);
      }
    }
  }

  lemma ContainsShift(text: Text, n: nat, t: Text)
    requires n <= |text| && Contains(Normalize(text[n..]), t)
    ensures Contains(Normalize(text), t)
  {
    var at: nat :| at <= |Normalize(text[n..])| && OccursAt(Normalize(text[n..]), t, at);
    assert Normalize(text)[n..] == Normalize(text[n..]);
    assert OccursAt(Normalize(text), t, n + at);
  }

  lemma {:induction false} RunLengthNormalized(text: Text)
    ensures RunLength(Normalize(text)) == RunLength(text)
  {
    if text != [] {
      LowerKeepsSeparators(text[0]);
      assert Normalize(text)[1..] == Normalize(text[1..]);
      RunLengthNormalized(text[1..]);
    }
  }

  lemma NormalizeTwice(text: Text)
    ensures Normalize(Normalize(text)) == Normalize(text)
  {
    forall i | 0 <= i < |text| ensures AsciiLower(AsciiLower(text[i])) == AsciiLower(text[i]) {
      LowerKeepsSeparators(text[i]);
    }
  }

  /** Tokens do not depend on letter case. */
  lemma {:induction false} TokensOfNormalized(text: Text)
    ensures Tokens(Normalize(text)) == Tokens(text)
    decreases |text|
  {
    if text != [] {
      RunLengthNormalized(text);
      var n := RunLength(text);
      if n == 0 {
        assert Normalize(text)[1..] == Normalize(text[1..]);
        TokensOfNormalized(text[1..]);
      } else {
        assert Normalize(text)[..n] == Normalize(text[..n]);
        assert Normalize(text)[n..] == Normalize(text[n..]);
        NormalizeTwice(text[..n]);
        TokensOfNormalized(text[n..]);
      }
    }
  }

  /** A text is one whole token of its own exactly when it already is a token. */
  lemma WholeToken(text: Text)
    ensures Tokens(text) == [text] <==> IsToken(text)
  {
    if IsToken(text) {
      FullRun(text);
      assert text[..|text|] == text && text[|text|..] == [];
    } else if Tokens(text) == [text] {
      assert text in Tokens(text);
      TokensAreTokens(text, text);
      assert false;
    }
  }

  lemma {:induction false} FullRun(text: Text)
    requires NoSeparator(text)
    ensures RunLength(text) == |text|
  {}

  lemma ContainsInPart(left: Text, right: Text, t: Text)
    ensures Contains(left, t) ==> Contains(left + right, t)
    ensures Contains(right, t) ==> Contains(left + right, t)
  {
    if Contains(left, t) {
      var at: nat :| at <= |left| && OccursAt(left, t, at);
      assert (left + right)[at..at + |t|] == left[at..at + |t|];
      assert OccursAt(left + right, t, at);
    }
    if Contains(right, t) {
      var at: nat :| at <= |right| && OccursAt(right, t, at);
      assert (left + right)[|left| + at..|left| + at + |t|] == right[at..at + |t|];
      assert OccursAt(left + right, t, |left| + at);
    }
  }

  lemma ContainsPrefixOf(hay: Text, t: Text, p: Text)
    requires Contains(hay, t) && p <= t
    ensures Contains(hay, p)
  {
    var at: nat :| at <= |hay| && OccursAt(hay, t, at);
    assert hay[at..at + |p|] == t[..|p|];
    assert OccursAt(hay, p, at);
  }

  /* ---------------------------------------------------------------- tokens are the maximal runs */

  /** The text between i and j is free of separators and cannot be extended either way. */
  predicate IsRun(text: Text, i: nat, j: nat) {
    && i < j <= |text| && NoSeparator(text[i..j])
    && (i == 0 || IsSeparator(text[i - 1])) && (j == |text| || IsSeparator(text[j]))
  }

  /** t is the token of the run between i and j. */
  predicate IsRunToken(text: Text, i: nat, j: nat, t: Text) {
    IsRun(text, i, j) && t == Cut(Normalize(text[i..j]))
  }

  /** One step of Tokens, seen in the whole text. */
  lemma TokensFrom(text: Text, from: nat) returns (next: nat)
    requires from < |text|
    ensures from <= next <= |text| && NoSeparator(text[from..next])
    ensures next < |text| ==> IsSeparator(text[next])
    ensures Tokens(text[from..]) ==
            if next == from then Tokens(text[from + 1..])
            else [Cut(Normalize(text[from..next]))] + Tokens(text[next..])
  {
    var rest := text[from..];
    var n := RunLength(rest);
    next := from + n;
    assert rest[..n] == text[from..next] && rest[n..] == text[next..];
    assert rest[1..] == text[from + 1..];
  }

  predicate IsBoundary(text: Text, from: nat) {
    from == 0 || from >= |text| || IsSeparator(text[from - 1]) || IsSeparator(text[from])
  }

  lemma {:induction false} EveryTokenIsOfARun(text: Text, from: nat, t: Text) returns (i: nat, j: nat)
    requires from <= |text| && IsBoundary(text, from) && t in Tokens(text[from..])
    ensures IsRunToken(text, i, j, t)
    decreases |text| - from
  {
    hide IsSeparator, Normalize, Tokens, Cut;
    NoTokensAtEnd(text);
    var next := TokensFrom(text, from);
    if next == from {
      i, j := EveryTokenIsOfARun(text, from + 1, t);
    } else if t == Cut(Normalize(text[from..next])) {
      FirstOfRun(text, from, next);
      i, j := from, next;
    } else {
      i, j := EveryTokenIsOfARun(text, next, t);
    }
  }

  lemma NoTokensAtEnd(text: Text)
    ensures Tokens(text[|text|..]) == []
  {}

  lemma FirstOfRun(text: Text, i: nat, j: nat)
    requires i < j <= |text| && NoSeparator(text[i..j])
    ensures forall k :: i <= k < j ==> !IsSeparator(text[k])
  {
    hide IsSeparator;
    forall k | i <= k < j ensures !IsSeparator(text[k]) {
      assert text[i..j][k - i] == text[k];
    }
  }

  lemma {:induction false} EveryRunHasAToken(text: Text, from: nat, i: nat, j: nat)
    requires IsRun(text, i, j) && from <= i && IsBoundary(text, from)
    ensures Cut(Normalize(text[i..j])) in Tokens(text[from..])
    decreases i - from
  {
    hide IsSeparator, Normalize, Tokens, Cut;
    var next := TokensFrom(text, from);
    FirstOfRun(text, i, j);
    if next > from {
      FirstOfRun(text, from, next);
    }
    if from == i {
      assert next == j;
    } else if next == from {
      EveryRunHasAToken(text, from + 1, i, j);
    } else {
      assert next <= i;
      EveryRunHasAToken(text, next, i, j);
    }
  }

  /** The tokens are the maximal separator-free runs, in lower case and cut, and nothing else. */
  lemma TokensAreRuns(text: Text, t: Text)
    ensures t in Tokens(text) <==> exists i: nat, j: nat :: IsRunToken(text, i, j, t)
  {
    assert text[0..] == text;
    if t in Tokens(text) {
      hide Tokens, IsRunToken;
      var i, j := EveryTokenIsOfARun(text, 0, t);
    }
    if i: nat, j: nat :| IsRunToken(text, i, j, t) {
      hide Tokens;
      EveryRunHasAToken(text, 0, i, j);
    }
  }

  /* ---------------------------------------------------------------- trimming */

  /** The first position from i on that holds no space. */
  function SkipSpaces(text: Text, i: nat): (first: nat)
    requires i <= |text|
    ensures i <= first <= |text|
    ensures forall j :: i <= j < first ==> IsAsciiSpace(text[j])
    ensures first < |text| ==> !IsAsciiSpace(text[first])
    decreases |text| - i
  {
    if i < |text| && IsAsciiSpace(text[i]) then SkipSpaces(text, i + 1) else i
  }

  /** The end of the text between first and i once the spaces before i are dropped. */
  function DropSpaces(text: Text, first: nat, i: nat): (last: nat)
    requires first <= i <= |text|
    ensures first <= last <= i
    ensures forall j :: last <= j < i ==> IsAsciiSpace(text[j])
    ensures first < last ==> !IsAsciiSpace(text[last - 1])
    decreases i
  {
    if first < i && IsAsciiSpace(text[i - 1]) then DropSpaces(text, first, i - 1) else i
  }

  function Trim(text: Text): Text {
    var first := SkipSpaces(text, 0);
    text[first..DropSpaces(text, first, |text|)]
  }

  predicate AllSpaces(text: Text) {
    forall i :: 0 <= i < |text| ==> IsAsciiSpace(text[i])
  }

  predicate NoOuterSpaces(text: Text) {
    text != [] ==> !IsAsciiSpace(text[0]) && !IsAsciiSpace(text[|text| - 1])
  }

  /** What trimming keeps lies between spaces only, and neither begins nor ends with one. */
  lemma TrimKeepsMiddle(text: Text) returns (left: Text, right: Text)
    ensures text == left + Trim(text) + right && AllSpaces(left) && AllSpaces(right) && NoOuterSpaces(Trim(text))
  {
    var first := SkipSpaces(text, 0);
    var last := DropSpaces(text, first, |text|);
    left, right := text[..first], text[last..];
  }

  /** Whatever spaces surround a text, trimming gives the text back. */
  lemma TrimOfPadded(left: Text, middle: Text, right: Text)
    requires AllSpaces(left) && AllSpaces(right) && NoOuterSpaces(middle)
    ensures Trim(left + middle + right) == middle
  {
    var text := left + middle + right;
    assert forall i :: 0 <= i < |left| ==> text[i] == left[i];
    assert forall i :: 0 <= i < |middle| ==> text[|left| + i] == middle[i];
    assert forall i :: 0 <= i < |right| ==> text[|left| + |middle| + i] == right[i];
    var first := SkipSpaces(text, 0);
    var last := DropSpaces(text, first, |text|);
    if middle == [] {
      assert forall i :: 0 <= i < |text| ==> IsAsciiSpace(text[i]);
    } else {
      assert first == |left| && last == |left| + |middle|;
      assert text[first..last] == middle;
    }
  }

  /* ---------------------------------------------------------------- the loops that compute them */

  method NormalizeIndexText(text: Text) returns (normalized: Text)
    ensures normalized == Normalize(text)
  {
    normalized := [];
    for i := 0 to |text|
      invariant normalized == Normalize(text)[..i]
    {
      normalized := normalized + [AsciiLower(text[i])];
    }
  }

  method TrimAscii(text: Text) returns (r: Text)
    ensures r == Trim(text)
  {
    var first := 0;
    while first != |text| && IsAsciiSpace(text[first])
      invariant 0 <= first <= |text|
      invariant SkipSpaces(text, 0) == SkipSpaces(text, first)
      decreases |text| - first
    {
      first := first + 1;
    }
    var last := |text|;
    while last != first && IsAsciiSpace(text[last - 1])
      invariant first <= last <= |text|
      invariant DropSpaces(text, first, |text|) == DropSpaces(text, first, last)
      decreases last
    {
      last := last - 1;
    }
    return text[first..last];
  }

  lemma {:induction false} RunEndsAt(text: Text, n: nat)
    requires n <= |text| && NoSeparator(text[..n])
    requires n == |text| || IsSeparator(text[n])
    ensures RunLength(text) == n
  {
    if n > 0 {
      assert text[..n][0] == text[0];
      assert text[1..][..n - 1] == text[..n][1..];
      RunEndsAt(text[1..], n - 1);
    }
  }

  /** Flushing a run, if there is one: no token comes of an empty run. */
  function Flushed(run: Text): seq<Text> {
    if run == [] then [] else [Cut(Normalize(run))]
  }

  lemma RunThenSeparator(text: Text, start: nat, i: nat)
    requires start <= i < |text| && NoSeparator(text[start..i]) && IsSeparator(text[i])
    ensures Tokens(text[start..]) == Flushed(text[start..i]) + Tokens(text[i + 1..])
  {
    var rest := text[start..];
    assert rest[..i - start] == text[start..i] && rest[i - start..] == text[i..];
    RunEndsAt(rest, i - start);
    RunEndsAt(text[i..], 0);
    assert text[i..][1..] == text[i + 1..];
  }

  lemma RunThenEnd(text: Text, start: nat)
    requires start <= |text| && NoSeparator(text[start..])
    ensures Tokens(text[start..]) == Flushed(text[start..])
  {
    var rest := text[start..];
    assert rest[..|rest|] == rest && rest[|rest|..] == [];
    RunEndsAt(rest, |rest|);
  }

  lemma RunGrows(text: Text, start: nat, i: nat)
    requires start <= i < |text| && NoSeparator(text[start..i]) && !IsSeparator(text[i])
    ensures NoSeparator(text[start..i + 1])
    ensures var cut := Cut(Normalize(text[start..i]));
      Cut(Normalize(text[start..i + 1])) == if |cut| < MAX_TOKEN_BYTES then cut + [AsciiLower(text[i])] else cut
  {
    assert text[start..i + 1] == text[start..i] + [text[i]];
    assert Normalize(text[start..i + 1]) == Normalize(text[start..i]) + [AsciiLower(text[i])];
  }

  method Tokenize(text: Text) returns (tokens: seq<Text>)
    ensures tokens == Tokens(text)
  {
    hide Tokens, Normalize, IsSeparator, AsciiLower;
    tokens := [];
    var current: Text := [];
    ghost var start := 0;  // where the current run begins
    assert text[0..] == text;
    for i := 0 to |text|
      invariant start <= i
      invariant NoSeparator(text[start..i]) && current == Cut(Normalize(text[start..i]))
      invariant Tokens(text) == tokens + Tokens(text[start..])
    {
      if IsSeparator(text[i]) {
        RunThenSeparator(text, start, i);
        if current != [] {
          tokens := tokens + [current];
          current := [];
        }
        start := i + 1;
        assert text[start..i + 1] == [];
        continue;
      }
      RunGrows(text, start, i);
      if |current| < MAX_TOKEN_BYTES {
        current := current + [AsciiLower(text[i])];
      }
    }
    assert text[start..|text|] == text[start..];
    RunThenEnd(text, start);
    if current != [] {
      tokens := tokens + [current];
    }
  }
}
