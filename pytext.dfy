/**
 * The three pieces of Python's `str` and file behaviour that the checkpoint
 * format relies on: `str.strip()` with no argument, `str.split(sep, 1)` with a
 * one-character separator, and the newline translation that a file opened in
 * text mode ("r", universal newlines) applies on reading.
 */
module PyText {

  /** The characters `str.strip()` removes: the code points Python's
      `str.isspace` accepts. */
  predicate IsSpace(c: char) {
    var n := c as int;
    (0x09 <= n <= 0x0D) || (0x1C <= n <= 0x1F) || n == 0x20 || n == 0x85 || n == 0xA0 ||
    n == 0x1680 || (0x2000 <= n <= 0x200A) || n == 0x2028 || n == 0x2029 ||
    n == 0x202F || n == 0x205F || n == 0x3000
  }

  predicate AllSpace(s: string) {
    forall k :: 0 <= k < |s| ==> IsSpace(s[k])
  }

  /** `s.lstrip()`: the suffix of `s` left after dropping leading whitespace. */
  function StripLeft(s: string): (r: string)
    ensures |r| <= |s| && r == s[|s| - |r|..]
    ensures AllSpace(s[..|s| - |r|])
    ensures r != [] ==> !IsSpace(r[0])
  {
    if s != [] && IsSpace(s[0]) then
      var r := StripLeft(s[1..]);
      assert s[..|s| - |r|] == [s[0]] + s[1..][..|s| - 1 - |r|];
      r
    else s
  }

  /** `s.rstrip()`: the prefix of `s` left after dropping trailing whitespace. */
  function StripRight(s: string): (r: string)
    ensures |r| <= |s| && r == s[..|r|]
    ensures AllSpace(s[|r|..])
    ensures r != [] ==> !IsSpace(r[|r| - 1])
  {
    if s != [] && IsSpace(s[|s| - 1]) then
      var r := StripRight(s[..|s| - 1]);
      assert s[|r|..] == s[..|s| - 1][|r|..] + [s[|s| - 1]];
      r
    else s
  }

  /** `s.strip()`: whitespace removed at both ends and nowhere else. It is empty
      exactly when `s` is all whitespace. */
  function Strip(s: string): (r: string)
    ensures r == [] <==> AllSpace(s)
    ensures r != [] ==> !IsSpace(r[0]) && !IsSpace(r[|r| - 1])
  {
    StripRight(StripLeft(s))
  }

  /** Stripping text that does not start with whitespace leaves its start alone. */
  lemma StripLeftNoop(s: string)
    requires s == [] || !IsSpace(s[0])
    ensures StripLeft(s) == s
  {
  }

  /** A non-whitespace character stops `lstrip`: everything from it on is kept. */
  lemma {:induction false} StripLeftStops(a: string, c: char, b: string)
    requires !IsSpace(c)
    ensures StripLeft(a + [c] + b) == StripLeft(a) + [c] + b
  {
    if a != [] {
      assert (a + [c] + b)[1..] == a[1..] + [c] + b;
      StripLeftStops(a[1..], c, b);
    }
  }

  /** A non-whitespace character stops `rstrip`: everything up to it is kept. */
  lemma {:induction false} StripRightStops(a: string, c: char, b: string)
    requires !IsSpace(c)
    ensures StripRight(a + [c] + b) == a + [c] + StripRight(b)
  {
    var s := a + [c] + b;
    if b != [] {
      assert s[|s| - 1] == b[|b| - 1];
      assert s[..|s| - 1] == a + [c] + b[..|b| - 1];
      StripRightStops(a, c, b[..|b| - 1]);
    } else {
      assert s[|s| - 1] == c;
      assert s == a + [c];
    }
  }

  /** Stripping around a non-whitespace separator strips each side on its
      outer end only. */
  lemma StripAround(a: string, c: char, b: string)
    requires !IsSpace(c)
    ensures Strip(a + [c] + b) == StripLeft(a) + [c] + StripRight(b)
  {
    StripLeftStops(a, c, b);
    StripRightStops(StripLeft(a), c, b);
  }

  /** Stripping the left first changes nothing about the full strip. */
  lemma StripAfterStripLeft(s: string)
    ensures Strip(StripLeft(s)) == Strip(s)
  {
    StripLeftNoop(StripLeft(s));
  }

  /** Stripping twice is stripping once. */
  lemma StripIdempotent(s: string)
    ensures Strip(Strip(s)) == Strip(s)
  {
    var r := Strip(s);
    StripLeftNoop(r);
  }

  /** `s.split(sep, 1)` for a one-character separator: `[s]` when `sep` does not
      occur, otherwise the text before the first `sep` and the text after it. */
  function SplitOnce(s: string, sep: char): (r: seq<string>)
    ensures |r| == 1 || |r| == 2
    ensures sep !in r[0]
    ensures |r| == 1 <==> sep !in s
    ensures |r| == 1 ==> r[0] == s
    ensures |r| == 2 ==> s == r[0] + [sep] + r[1]
  {
    if s == [] then [[]]
    else if s[0] == sep then [[], s[1..]]
    else
      var rest := SplitOnce(s[1..], sep);
      assert s == [s[0]] + s[1..];
      [[s[0]] + rest[0]] + rest[1..]
  }

  /** The split happens at the first separator, whatever follows it. */
  lemma {:induction false} SplitOnceAtFirst(a: string, sep: char, b: string)
    requires sep !in a
    ensures SplitOnce(a + [sep] + b, sep) == [a, b]
  {
    var s := a + [sep] + b;
    if a == [] {
      assert s[0] == sep && s[1..] == b;
    } else {
      assert s[0] == a[0] && s[1..] == a[1..] + [sep] + b;
      SplitOnceAtFirst(a[1..], sep, b);
      assert [a[0]] + a[1..] == a;
    }
  }

  /** The newline translation of a file read in text mode: each "\r\n" and
      each lone "\r" becomes "\n"; every other character is kept. */
  function Translate(s: string): (r: string)
    ensures |r| <= |s|
  {
    if s == [] then []
    else if s[0] == '\r' then
      if |s| > 1 && s[1] == '\n' then ['\n'] + Translate(s[2..]) else ['\n'] + Translate(s[1..])
    else
      assert s == [s[0]] + s[1..];
      [s[0]] + Translate(s[1..])
  }

  /** The translation touches only line ends: a comma survives it, and none
      appears. */
  lemma {:induction false} TranslateKeepsComma(s: string)
    ensures ',' in Translate(s) <==> ',' in s
  {
    if s == [] {
    } else if s[0] == '\r' && |s| > 1 && s[1] == '\n' {
      TranslateKeepsComma(s[2..]);
      assert s == s[..2] + s[2..];
    } else {
      TranslateKeepsComma(s[1..]);
      assert s == [s[0]] + s[1..];
    }
  }

  /** No carriage return is left after translation. */
  lemma {:induction false} TranslateRemovesCr(s: string)
    ensures '\r' !in Translate(s)
  {
    if s == [] {
    } else if s[0] == '\r' && |s| > 1 && s[1] == '\n' {
      TranslateRemovesCr(s[2..]);
    } else {
      TranslateRemovesCr(s[1..]);
    }
  }

  /** Text without a carriage return reads back exactly as written. */
  lemma {:induction false} TranslateNoCarriageReturn(s: string)
    requires '\r' !in s
    ensures Translate(s) == s
  {
    if s != [] {
      TranslateNoCarriageReturn(s[1..]);
    }
  }

  /** Translation works piecewise when the second part does not start with
      "\n" (so the join cannot split a "\r\n" pair). */
  lemma {:induction false} TranslateAppend(a: string, b: string)
    requires b == [] || b[0] != '\n'
    ensures Translate(a + b) == Translate(a) + Translate(b)
  {
    if a == [] {
      assert a + b == b;
    } else {
      var n := if a[0] == '\r' && |a| > 1 && a[1] == '\n' then 2 else 1;
      var h, t := a[..n], a[n..];
      assert a == h + t && a + b == h + (t + b);
      TranslateAppend(t, b);
      PrefixJoin(h, t, b);
    }
  }

  /** One step of `TranslateAppend`: a leading "\r\n", lone "\r" or other
      character reads the same whatever follows the rest. */
  lemma PrefixJoin(h: string, t: string, b: string)
    requires h == ['\r', '\n'] || (h == ['\r'] && (t == [] || t[0] != '\n')) || (|h| == 1 && h[0] != '\r')
    requires b == [] || b[0] != '\n'
    requires Translate(t + b) == Translate(t) + Translate(b)
    ensures Translate(h + (t + b)) == Translate(h + t) + Translate(b)
  {
  }

  /** Regrouping a concatenation, stated on its own so that callers do not
      prove associativity next to the facts about recursive functions. */
  lemma Regroup(x: string, y: string, z: string)
    ensures x + (y + z) == x + y + z
  {
  }
}
