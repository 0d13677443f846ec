/** The few Python string operations the pipeline relies on. */
module Text {

  /** Python's str.isspace() on one character. */
  predicate IsSpace(c: char) {
    var n := c as int;
    (9 <= n <= 13) || (28 <= n <= 32) || n == 0x85 || n == 0xA0 || n == 0x1680
    || (0x2000 <= n <= 0x200A) || n == 0x2028 || n == 0x2029 || n == 0x202F
    || n == 0x205F || n == 0x3000
  }

  predicate AllSpace(s: string) {
    forall i | 0 <= i < |s| :: IsSpace(s[i])
  }

  /** s.lstrip(): the suffix of s left after its leading whitespace. */
  function TrimStart(s: string): (r: string)
    ensures |r| <= |s| && r == s[|s| - |r|..]
    ensures AllSpace(s[..|s| - |r|])
    ensures r == [] || !IsSpace(r[0])
    decreases |s|
  {
    if |s| > 0 && IsSpace(s[0]) then
      var r := TrimStart(s[1..]);
      assert s[..|s| - |r|] == [s[0]] + s[1..][..|s| - 1 - |r|];
      r
    else s
  }

  /** s.rstrip(): the prefix of s left before its trailing whitespace. */
  function TrimEnd(s: string): (r: string)
    ensures |r| <= |s| && r == s[..|r|]
    ensures AllSpace(s[|r|..])
    ensures r == [] || !IsSpace(r[|r| - 1])
    decreases |s|
  {
    if |s| > 0 && IsSpace(s[|s| - 1]) then TrimEnd(s[..|s| - 1]) else s
  }

  /** s.strip(): s without its leading and trailing whitespace; what is left
      neither starts nor ends with whitespace (StripAround and StripPadded say which characters go). */
  function Strip(s: string): (r: string)
    ensures |r| <= |s|
    ensures r == [] || (!IsSpace(r[0]) && !IsSpace(r[|r| - 1]))
  {
    TrimEnd(TrimStart(s))
  }

  /** A string that neither starts nor ends with whitespace is its own strip. */
  lemma StripTrimmed(s: string)
    requires s == [] || (!IsSpace(s[0]) && !IsSpace(s[|s| - 1]))
    ensures Strip(s) == s
  {
    assert TrimStart(s) == s;
  }

  /** Stripping twice is stripping once. */
  lemma StripIdempotent(s: string)
    ensures Strip(Strip(s)) == Strip(s)
  {
    StripTrimmed(Strip(s));
  }

  lemma {:induction false} TrimStartPadded(w: string, b: string)
    requires AllSpace(w)
    requires b == [] || !IsSpace(b[0])
    ensures TrimStart(w + b) == b
    decreases |w|
  {
    if w != [] {
      assert (w + b)[1..] == w[1..] + b;
      TrimStartPadded(w[1..], b);
    } else {
      assert w + b == b;
    }
  }

  lemma {:induction false} TrimEndPadded(b: string, w: string)
    requires AllSpace(w)
    requires b == [] || !IsSpace(b[|b| - 1])
    ensures TrimEnd(b + w) == b
    decreases |w|
  {
    if w != [] {
      assert (b + w)[..|b + w| - 1] == b + w[..|w| - 1];
      TrimEndPadded(b, w[..|w| - 1]);
    } else {
      assert b + w == b;
    }
  }

  /** Whitespace around a string that neither starts nor ends with whitespace is
      exactly what strip removes. */
  lemma StripPadded(w1: string, b: string, w2: string)
    requires AllSpace(w1) && AllSpace(w2)
    requires b != [] && !IsSpace(b[0]) && !IsSpace(b[|b| - 1])
    ensures Strip(w1 + b + w2) == b
  {
    assert w1 + b + w2 == w1 + (b + w2);
    TrimStartPadded(w1, b + w2);
    TrimEndPadded(b, w2);
  }

  /** Leading whitespace is all lstrip looks at. */
  lemma {:induction false} TrimStartSpacePrefix(w: string, x: string)
    requires AllSpace(w)
    ensures TrimStart(w + x) == TrimStart(x)
    decreases |w|
  {
    if w != [] {
      assert (w + x)[1..] == w[1..] + x;
      TrimStartSpacePrefix(w[1..], x);
    } else {
      assert w + x == x;
    }
  }

  /** Once lstrip reaches a non-space character, whatever follows is kept. */
  lemma {:induction false} TrimStartExtend(x: string, y: string)
    requires TrimStart(x) != []
    ensures TrimStart(x + y) == TrimStart(x) + y
    decreases |x|
  {
    if IsSpace(x[0]) {
      assert (x + y)[1..] == x[1..] + y;
      TrimStartExtend(x[1..], y);
    }
  }

  /** An all-space string stays all space when more space follows. */
  lemma {:induction false} TrimStartEmptyExtend(x: string, w: string)
    requires TrimStart(x) == [] && AllSpace(w)
    ensures TrimStart(x + w) == []
  {
    assert AllSpace(x);
    assert AllSpace(x + w);
    TrimStartSpacePrefix(x + w, []);
    assert x + w + [] == x + w;
  }

  /** Trailing whitespace is all rstrip looks at. */
  lemma {:induction false} TrimEndSpaceSuffix(x: string, w: string)
    requires AllSpace(w)
    ensures TrimEnd(x + w) == TrimEnd(x)
    decreases |w|
  {
    if w != [] {
      assert (x + w)[..|x + w| - 1] == x + w[..|w| - 1];
      TrimEndSpaceSuffix(x, w[..|w| - 1]);
    } else {
      assert x + w == x;
    }
  }

  /** Whitespace added around a string does not change its strip. */
  lemma StripAround(w1: string, b: string, w2: string)
    requires AllSpace(w1) && AllSpace(w2)
    ensures Strip(w1 + b + w2) == Strip(b)
  {
    assert w1 + b + w2 == w1 + (b + w2);
    TrimStartSpacePrefix(w1, b + w2);
    if TrimStart(b) != [] {
      TrimStartExtend(b, w2);
      TrimEndSpaceSuffix(TrimStart(b), w2);
    } else {
      TrimStartEmptyExtend(b, w2);
    }
  }

  /** strip only removes characters: one absent from s is absent from its strip. */
  lemma StripChars(s: string, c: char)
    requires c !in s
    ensures c !in Strip(s)
  {
    var t := TrimStart(s);
    SliceChars(s, |s| - |t|, |s|, c);
    SliceChars(t, 0, |TrimEnd(t)|, c);
  }

  lemma SliceChars(s: string, i: nat, j: nat, c: char)
    requires i <= j <= |s| && c !in s
    ensures c !in s[i..j]
  {
    forall k | 0 <= k < j - i ensures s[i..j][k] != c {
      assert s[i..j][k] == s[i + k];
    }
  }

  /** str.lower() on one character (ASCII letters only). */
  function LowerChar(c: char): char {
    if 'A' <= c <= 'Z' then (c as int + 32) as char else c
  }

  /** str.lower() (ASCII letters only). */
  function Lower(s: string): (r: string)
    ensures |r| == |s|
    ensures forall i | 0 <= i < |r| :: !('A' <= r[i] <= 'Z')
    ensures forall i | 0 <= i < |s| && !('A' <= s[i] <= 'Z') :: r[i] == s[i]
    ensures forall i | 0 <= i < |s| && 'A' <= s[i] <= 'Z' :: r[i] as int == s[i] as int + 32
  {
    seq(|s|, i requires 0 <= i < |s| => LowerChar(s[i]))
  }

  lemma LowerAppend(s: string, t: string)
    ensures Lower(s + t) == Lower(s) + Lower(t)
  {
    assert forall i | 0 <= i < |s + t| :: Lower(s + t)[i] == (Lower(s) + Lower(t))[i];
  }

  /** `pat in text` for strings. */
  predicate Contains(text: string, pat: string) {
    exists i | 0 <= i <= |text| :: pat <= text[i..]
  }

  /** A substring of a string stays a substring of any extension of it. */
  lemma ContainsAppend(s: string, t: string, pat: string)
    requires Contains(s, pat)
    ensures Contains(s + t, pat)
  {
    var i :| 0 <= i <= |s| && pat <= s[i..];
    assert (s + t)[i..] == s[i..] + t;
  }

  /** A string contains each of its suffixes' prefixes. */
  lemma ContainsAt(text: string, i: nat, pat: string)
    requires i <= |text| && pat <= text[i..]
    ensures Contains(text, pat)
  {
  }

  /** sep.join(xs) */
  function Join(sep: string, xs: seq<string>): string
    decreases |xs|
  {
    if |xs| == 0 then "" else if |xs| == 1 then xs[0] else xs[0] + sep + Join(sep, xs[1..])
  }

  /** Every item occurs in the joined text. */
  lemma {:induction false} JoinContainsEach(sep: string, xs: seq<string>)
    ensures forall i | 0 <= i < |xs| :: Contains(Join(sep, xs), xs[i])
    decreases |xs|
  {
    if |xs| == 1 {
      ContainsAt(xs[0], 0, xs[0]);
    } else if |xs| >= 2 {
      JoinContainsEach(sep, xs[1..]);
      JoinStep(sep, xs, Join(sep, xs[1..]));
    }
  }

  /** The items of a join of at least two items: the first starts it, and the others
      occur in the join of the rest. */
  lemma JoinStep(sep: string, xs: seq<string>, rest: string)
    requires |xs| >= 2
    requires forall i | 0 <= i < |xs[1..]| :: Contains(rest, xs[1..][i])
    ensures forall i | 0 <= i < |xs| :: Contains(xs[0] + sep + rest, xs[i])
  {
    var text := xs[0] + sep + rest;
    ContainsAt(text, 0, xs[0]);
    forall i | 1 <= i < |xs| ensures Contains(text, xs[i]) {
      assert Contains(rest, xs[1..][i - 1]);
      ContainsPrepend(xs[0] + sep, rest, xs[i]);
    }
  }

  /** A substring of a string stays a substring when text is put in front of it. */
  lemma ContainsPrepend(s: string, t: string, pat: string)
    requires Contains(t, pat)
    ensures Contains(s + t, pat)
  {
    var i :| 0 <= i <= |t| && pat <= t[i..];
    assert (s + t)[|s| + i..] == t[i..];
  }

  /** Joining a list extended by one item extends the join by the separator and
      that item. */
  lemma {:induction false} JoinSnoc(sep: string, xs: seq<string>, y: string)
    ensures Join(sep, xs + [y]) == if xs == [] then y else Join(sep, xs) + sep + y
    decreases |xs|
  {
    if |xs| == 0 {
      assert xs + [y] == [y];
    } else if |xs| == 1 {
      assert xs + [y] == [xs[0], y];
      assert (xs + [y])[1..] == [y];
    } else {
      assert (xs + [y])[1..] == xs[1..] + [y];
      JoinSnoc(sep, xs[1..], y);
    }
  }
}
