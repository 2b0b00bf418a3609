/** The operations on Python `str` that the agents use: substring tests,
    `lower()`, `split()`, `strip(chars)` and `sep.join(items)`.
    Character classes are the ASCII ones (see README, "Left out"). */
module Text {

  /** `c.isdigit()` on ASCII. */
  predicate IsDigit(c: char) {
    '0' <= c <= '9'
  }

  /** `any(ch.isdigit() for ch in s)` */
  predicate HasDigit(s: string) {
    exists i :: 0 <= i < |s| && IsDigit(s[i])
  }

  /** `s.startswith(prefix)` */
  predicate StartsWith(s: string, prefix: string) {
    |prefix| <= |s| && s[..|prefix|] == prefix
  }

  lemma StartsWithConcat(prefix: string, rest: string)
    ensures StartsWith(prefix + rest, prefix)
  {
    assert (prefix + rest)[..|prefix|] == prefix;
  }

  /** `sub in s` */
  predicate Contains(s: string, sub: string)
    decreases |s|
  {
    StartsWith(s, sub) || (|s| > 0 && Contains(s[1..], sub))
  }

  /** A substring found by `Contains` sits at some index of `s`. */
  lemma {:induction false} ContainsAt(s: string, sub: string) returns (i: nat)
    requires Contains(s, sub)
    ensures i + |sub| <= |s| && s[i..i + |sub|] == sub
    decreases |s|
  {
    if StartsWith(s, sub) {
      i := 0;
    } else {
      var j := ContainsAt(s[1..], sub);
      assert s[1..][j..j + |sub|] == s[j + 1..j + 1 + |sub|];
      i := j + 1;
    }
  }

  /** A substring occurring at any index is found by `Contains`. */
  lemma {:induction false} ContainsFromIndex(s: string, sub: string, i: nat)
    requires i + |sub| <= |s| && s[i..i + |sub|] == sub
    ensures Contains(s, sub)
    decreases i
  {
    if i > 0 {
      assert s[1..][i - 1..i - 1 + |sub|] == s[i..i + |sub|];
      ContainsFromIndex(s[1..], sub, i - 1);
    }
  }

  /** A string lacking the first character of `sub` does not contain `sub`. */
  lemma {:induction false} MissingCharNotContained(s: string, sub: string)
    requires sub != [] && forall k :: 0 <= k < |s| ==> s[k] != sub[0]
    ensures !Contains(s, sub)
    decreases |s|
  {
    if s != [] {
      assert |sub| <= |s| ==> s[..|sub|][0] == s[0];
      MissingCharNotContained(s[1..], sub);
    }
  }

  /** `c.lower()` for ASCII upper-case letters; every other character is kept. */
  function LowerChar(c: char): char {
    if 'A' <= c <= 'Z' then (c as int - 'A' as int + 'a' as int) as char else c
  }

  /** `s.lower()`: every character mapped by `LowerChar`, position by position. */
  function Lower(s: string): (r: string)
    ensures |r| == |s|
    ensures forall i :: 0 <= i < |s| ==> r[i] == LowerChar(s[i])
  {
    if s == [] then [] else [LowerChar(s[0])] + Lower(s[1..])
  }

  /** Lower-casing twice is lower-casing once. */
  lemma LowerIdempotent(s: string)
    ensures Lower(Lower(s)) == Lower(s)
  {
    var l := Lower(s);
    assert forall i :: 0 <= i < |l| ==> Lower(l)[i] == l[i];
  }

  /** The ASCII characters that `str.split()` treats as separators. */
  predicate IsSpace(c: char) {
    c == ' ' || '\U{9}' <= c <= '\U{D}' || '\U{1C}' <= c <= '\U{1F}'
  }

  predicate NoSpace(s: string) {
    forall i :: 0 <= i < |s| ==> !IsSpace(s[i])
  }

  predicate AllSpace(s: string) {
    forall i :: 0 <= i < |s| ==> IsSpace(s[i])
  }

  /** The leading run of separators removed. */
  function DropSpaces(s: string): (r: string)
    ensures |r| <= |s| && r == s[|s| - |r|..]
    ensures AllSpace(s[..|s| - |r|])
    ensures r == [] || !IsSpace(r[0])
  {
    if s != [] && IsSpace(s[0]) then DropSpaces(s[1..]) else s
  }

  /** The leading run of non-separators. */
  function TakeWord(s: string): (w: string)
    ensures |w| <= |s| && w == s[..|w|]
    ensures NoSpace(w)
    ensures |w| == |s| || IsSpace(s[|w|])
  {
    if s != [] && !IsSpace(s[0]) then [s[0]] + TakeWord(s[1..]) else []
  }

  /** `s.split()` with no argument: the maximal runs of non-separators, in order. */
  function Words(s: string): seq<string>
    decreases |s|
  {
    var t := DropSpaces(s);
    if t == [] then []
    else
      var w := TakeWord(t);
      assert w != [] by { assert !IsSpace(t[0]); }
      [w] + Words(t[|w|..])
  }

  /** Every item is a non-empty run of non-separators. */
  predicate AllWords(ws: seq<string>) {
    forall k :: 0 <= k < |ws| ==> ws[k] != [] && NoSpace(ws[k])
  }

  lemma AllWordsCons(w: string, ws: seq<string>)
    requires w != [] && NoSpace(w) && AllWords(ws)
    ensures AllWords([w] + ws)
  {
    assert forall k :: 1 <= k < |ws| + 1 ==> ([w] + ws)[k] == ws[k - 1];
  }

  /** `split()` yields only non-empty words free of separators. */
  lemma {:induction false} WordsAreWords(s: string)
    ensures AllWords(Words(s))
    decreases |s|
  {
    var t := DropSpaces(s);
    if t != [] {
      var w := TakeWord(t);
      var rest := t[|w|..];
      assert w != [] by { assert !IsSpace(t[0]); }
      WordsAreWords(rest);
      AllWordsCons(w, Words(rest));
      assert Words(s) == [w] + Words(rest);
    }
  }

  /** `s.split()` is empty exactly when `s` holds separators only. */
  lemma {:induction false} WordsEmptyIffBlank(s: string)
    ensures Words(s) == [] <==> AllSpace(s)
  {
    var t := DropSpaces(s);
    assert s == s[..|s| - |t|] + t;
    if t != [] {
      assert !IsSpace(s[|s| - |t|]);
    }
  }

  lemma {:induction false} TakeWordOf(w: string, rest: string)
    requires NoSpace(w) && (rest == [] || IsSpace(rest[0]))
    ensures TakeWord(w + rest) == w
    decreases |w|
  {
    if w == [] {
      assert w + rest == rest;
    } else {
      assert (w + rest)[1..] == w[1..] + rest;
      TakeWordOf(w[1..], rest);
    }
  }

  /** A leading separator does not change the words. */
  lemma WordsAfterSpace(c: char, rest: string)
    requires IsSpace(c)
    ensures Words([c] + rest) == Words(rest)
  {
    assert ([c] + rest)[1..] == rest;
  }

  /** A word followed by a separator (or by nothing) is the first of the words. */
  lemma WordsCons(w: string, rest: string)
    requires w != [] && NoSpace(w) && (rest == [] || IsSpace(rest[0]))
    ensures Words(w + rest) == [w] + Words(rest)
  {
    TakeWordOf(w, rest);
    assert (w + rest)[|w|..] == rest;
  }

  /** A single word splits into itself. */
  lemma OneWord(w: string)
    requires w != [] && NoSpace(w)
    ensures Words(w) == [w]
  {
    TakeWordOf(w, []);
    assert w + [] == w;
    assert DropSpaces(w) == w;
    assert TakeWord(w) == w;
    assert w[|w|..] == [];
  }

  /** Two words separated by one separator split into exactly those two words. */
  lemma TwoWords(w1: string, c: char, w2: string)
    requires w1 != [] && NoSpace(w1) && IsSpace(c) && w2 != [] && NoSpace(w2)
    ensures Words(w1 + [c] + w2) == [w1, w2]
  {
    var rest := [c] + w2;
    assert w1 + [c] + w2 == w1 + rest;
    WordsCons(w1, rest);
    WordsAfterSpace(c, w2);
    OneWord(w2);
  }

  /** The characters of `s` that are not separators, in order. */
  function NonSpace(s: string): (r: string)
    ensures |r| <= |s|
  {
    if s == [] then [] else (if IsSpace(s[0]) then [] else [s[0]]) + NonSpace(s[1..])
  }

  lemma {:induction false} NonSpaceAppend(a: string, b: string)
    ensures NonSpace(a + b) == NonSpace(a) + NonSpace(b)
    decreases |a|
  {
    if a == [] {
      assert a + b == b;
    } else {
      assert (a + b)[0] == a[0] && (a + b)[1..] == a[1..] + b;
      NonSpaceAppend(a[1..], b);
    }
  }

  lemma {:induction false} NonSpaceOfBlank(s: string)
    requires AllSpace(s)
    ensures NonSpace(s) == []
    decreases |s|
  {
    if s != [] {
      NonSpaceOfBlank(s[1..]);
    }
  }

  lemma {:induction false} NonSpaceOfWord(s: string)
    requires NoSpace(s)
    ensures NonSpace(s) == s
    decreases |s|
  {
    if s != [] {
      NonSpaceOfWord(s[1..]);
    }
  }

  function Concat(ws: seq<string>): string {
    if ws == [] then [] else ws[0] + Concat(ws[1..])
  }

  lemma ConcatCons(w: string, ws: seq<string>)
    ensures Concat([w] + ws) == w + Concat(ws)
  {
    assert ([w] + ws)[1..] == ws;
  }

  /** Leading separators contribute nothing to the non-separators. */
  lemma NonSpaceDropSpaces(s: string)
    ensures NonSpace(DropSpaces(s)) == NonSpace(s)
  {
    var t := DropSpaces(s);
    var pre := s[..|s| - |t|];
    assert s == pre + t;
    NonSpaceAppend(pre, t);
    NonSpaceOfBlank(pre);
  }

  /** A leading word contributes itself. */
  lemma NonSpaceTakeWord(t: string)
    ensures NonSpace(t) == TakeWord(t) + NonSpace(t[|TakeWord(t)|..])
  {
    var w := TakeWord(t);
    assert t == w + t[|w|..];
    NonSpaceAppend(w, t[|w|..]);
    NonSpaceOfWord(w);
  }

  /** `"".join(s.split())` deletes exactly the separators: `split()` loses nothing else
      and keeps the order of the characters. */
  lemma {:induction false} WordsCoverText(s: string)
    ensures Concat(Words(s)) == NonSpace(s)
    decreases |s|
  {
    var t := DropSpaces(s);
    NonSpaceDropSpaces(s);
    if t != [] {
      var w := TakeWord(t);
      var rest := t[|w|..];
      assert Words(s) == [w] + Words(rest);
      WordsCoverText(rest);
      ConcatCons(w, Words(rest));
      NonSpaceTakeWord(t);
    }
  }

  /** Leading characters of `cs` removed: `s.lstrip(cs)`. */
  function StripLeading(s: string, cs: set<char>): (r: string)
    ensures |r| <= |s| && r == s[|s| - |r|..]
    ensures forall i :: 0 <= i < |s| - |r| ==> s[i] in cs
    ensures r == [] || r[0] !in cs
  {
    if s != [] && s[0] in cs then StripLeading(s[1..], cs) else s
  }

  /** Trailing characters of `cs` removed: `s.rstrip(cs)`. */
  function StripTrailing(s: string, cs: set<char>): (r: string)
    ensures |r| <= |s| && r == s[..|r|]
    ensures forall i :: |r| <= i < |s| ==> s[i] in cs
    ensures r == [] || r[|r| - 1] !in cs
  {
    if s != [] && s[|s| - 1] in cs then StripTrailing(s[..|s| - 1], cs) else s
  }

  /** `s.strip(cs)`: the slice `s[i..j]` left once every leading and trailing
      character of `cs` is removed. */
  function Strip(s: string, cs: set<char>): (r: string)
    ensures r == [] || (r[0] !in cs && r[|r| - 1] !in cs)
    ensures |r| <= |s|
  {
    StripTrailing(StripLeading(s, cs), cs)
  }

  /** The two cut points of `Strip`, and what lies outside them. */
  lemma StripIsSlice(s: string, cs: set<char>) returns (i: nat, j: nat)
    ensures i <= j <= |s| && Strip(s, cs) == s[i..j]
    ensures forall k :: 0 <= k < i ==> s[k] in cs
    ensures forall k :: j <= k < |s| ==> s[k] in cs
  {
    var l := StripLeading(s, cs);
    var r := StripTrailing(l, cs);
    i := |s| - |l|;
    j := i + |r|;
    assert s[i..j] == l[..|r|];
    forall k | j <= k < |s| ensures s[k] in cs {
      assert s[k] == l[k - i];
    }
  }

  /** `sep.join(xs)` */
  function Join(sep: string, xs: seq<string>): string {
    if |xs| == 0 then ""
    else if |xs| == 1 then xs[0]
    else xs[0] + sep + Join(sep, xs[1..])
  }

  /** Joining is empty only when there is nothing, or nothing but empty strings, to join. */
  lemma {:induction false} JoinNonEmpty(sep: string, xs: seq<string>, k: nat)
    requires k < |xs| && xs[k] != ""
    ensures Join(sep, xs) != ""
    decreases |xs|
  {
    if |xs| > 1 {
      if k > 0 {
        JoinNonEmpty(sep, xs[1..], k - 1);
      }
    }
  }

  /** `s.split(", ")`, the inverse of `", ".join(…)`. */
  function SplitOnCommaSpace(s: string): (r: seq<string>)
    ensures |r| >= 1
    decreases |s|
  {
    if |s| < 2 then [s]
    else if s[0] == ',' && s[1] == ' ' then [""] + SplitOnCommaSpace(s[2..])
    else
      var rest := SplitOnCommaSpace(s[1..]);
      [[s[0]] + rest[0]] + rest[1..]
  }

  lemma {:induction false} SplitSingle(a: string)
    requires !Contains(a, ", ")
    ensures SplitOnCommaSpace(a) == [a]
    decreases |a|
  {
    if |a| >= 2 {
      SplitSingle(a[1..]);
      assert [a[0]] + a[1..] == a;
    }
  }

  lemma {:induction false} SplitCons(a: string, t: string)
    requires !Contains(a, ", ")
    ensures SplitOnCommaSpace(a + ", " + t) == [a] + SplitOnCommaSpace(t)
    decreases |a|
  {
    var s := a + ", " + t;
    if a == [] {
      assert s[2..] == t;
    } else {
      assert s[1..] == a[1..] + ", " + t;
      if a[1..] == [] {
        assert s[1] == ',';
      } else {
        assert s[1] == a[1];
        assert !StartsWith(a, ", ");
      }
      SplitCons(a[1..], t);
      assert [a[0]] + a[1..] == a;
    }
  }

  /** Splitting a `", "`-joined list gives the list back when no item holds `", "`. */
  lemma {:induction false} SplitJoinRoundTrip(xs: seq<string>)
    requires |xs| >= 1
    requires forall k :: 0 <= k < |xs| ==> !Contains(xs[k], ", ")
    ensures SplitOnCommaSpace(Join(", ", xs)) == xs
    decreases |xs|
  {
    if |xs| == 1 {
      SplitSingle(xs[0]);
    } else {
      SplitJoinRoundTrip(xs[1..]);
      SplitCons(xs[0], Join(", ", xs[1..]));
    }
  }

  /** `str(b)` for a Python bool. */
  function PyBool(b: bool): string {
    if b then "True" else "False"
  }
}
