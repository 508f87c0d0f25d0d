/** The handful of Python `str` operations the modelled code relies on:
    `strip`, `startswith`/`endswith`, `lower`, `split`/`join` on one separator,
    single-character `replace`, decimal rendering of a count and `int()` parsing. */
module Text {
  import opened Wrappers

  /** Python's `str.isspace` for a single character. */
  predicate IsSpace(c: char) {
    c == ' ' || ('\t' <= c <= '\r') || ('\U{001C}' <= c <= '\U{001F}') || c == '\U{0085}' || c == '\U{00A0}'
    || c == '\U{1680}' || ('\U{2000}' <= c <= '\U{200A}') || c == '\U{2028}' || c == '\U{2029}'
    || c == '\U{202F}' || c == '\U{205F}' || c == '\U{3000}'
  }

  /** `s.lstrip()`: drops the leading whitespace and nothing else. */
  function LStrip(s: string): (r: string)
    ensures |r| <= |s| && r == s[|s| - |r|..]
    ensures r == [] || !IsSpace(r[0])
    ensures forall i :: 0 <= i < |s| - |r| ==> IsSpace(s[i])
  {
    if |s| > 0 && IsSpace(s[0]) then LStrip(s[1..]) else s
  }

  /** `s.rstrip()`: drops the trailing whitespace and nothing else. */
  function RStrip(s: string): (r: string)
    ensures |r| <= |s| && r == s[..|r|]
    ensures r == [] || !IsSpace(r[|r| - 1])
    ensures forall i :: |r| <= i < |s| ==> IsSpace(s[i])
  {
    if |s| > 0 && IsSpace(s[|s| - 1]) then RStrip(s[..|s| - 1]) else s
  }

  /** `s.strip()`. */
  function Strip(s: string): string {
    RStrip(LStrip(s))
  }

  /** A string whose first character is not whitespace loses nothing on the left,
      so stripping it only strips its right end. */
  lemma {:induction false} StripKeepsNonSpaceStart(s: string)
    requires |s| > 0 && !IsSpace(s[0])
    ensures Strip(s) == RStrip(s)
    ensures |Strip(s)| > 0 && Strip(s)[0] == s[0]
  {
  }

  /** Right-stripping `p + t` where `t` holds a non-space character keeps `p` whole. */
  lemma {:induction false} RStripAppend(p: string, t: string)
    requires exists i :: 0 <= i < |t| && !IsSpace(t[i])
    ensures RStrip(p + t) == p + RStrip(t)
    decreases |t|
  {
    var i :| 0 <= i < |t| && !IsSpace(t[i]);
    if |t| > 0 && IsSpace(t[|t| - 1]) {
      assert (p + t)[..|p + t| - 1] == p + t[..|t| - 1];
      assert t[..|t| - 1][i] == t[i];
      RStripAppend(p, t[..|t| - 1]);
    }
  }

  /** A string that starts with a non-space word followed by a non-space
      character keeps that word whole when stripped. */
  lemma StripAfterWord(p: string, u: string)
    requires |p| > 0 && !IsSpace(p[0]) && |u| > 0 && !IsSpace(u[0])
    ensures Strip(p + u) == p + RStrip(u)
  {
    StripKeepsNonSpaceStart(p + u);
    RStripAppend(p, u);
  }

  predicate AllSpace(s: string) {
    forall i :: 0 <= i < |s| ==> IsSpace(s[i])
  }

  /** Leading whitespace is dropped by `lstrip` whatever follows it. */
  lemma {:induction false} LStripSpaces(pre: string, s: string)
    requires AllSpace(pre)
    ensures LStrip(pre + s) == LStrip(s)
    decreases |pre|
  {
    if |pre| > 0 {
      assert (pre + s)[0] == pre[0];
      assert (pre + s)[1..] == pre[1..] + s;
      LStripSpaces(pre[1..], s);
    } else {
      assert pre + s == s;
    }
  }

  /** Trailing whitespace is dropped by `rstrip` whatever precedes it. */
  lemma {:induction false} RStripSpaces(s: string, post: string)
    requires AllSpace(post)
    ensures RStrip(s + post) == RStrip(s)
    decreases |post|
  {
    if |post| > 0 {
      assert (s + post)[|s + post| - 1] == post[|post| - 1];
      assert (s + post)[..|s + post| - 1] == s + post[..|post| - 1];
      RStripSpaces(s, post[..|post| - 1]);
    } else {
      assert s + post == s;
    }
  }

  /** `lstrip` stops inside a string holding a non-space character, so what
      follows that string is kept. */
  lemma {:induction false} LStripAppend(s: string, post: string)
    requires exists i :: 0 <= i < |s| && !IsSpace(s[i])
    ensures LStrip(s + post) == LStrip(s) + post
    decreases |s|
  {
    if IsSpace(s[0]) {
      var i :| 0 <= i < |s| && !IsSpace(s[i]);
      assert s[1..][i - 1] == s[i];
      assert (s + post)[1..] == s[1..] + post;
      LStripAppend(s[1..], post);
    }
  }

  /** Whitespace around a string does not change its `strip()`. */
  lemma StripPadding(pre: string, s: string, post: string)
    requires AllSpace(pre) && AllSpace(post)
    ensures Strip(pre + s + post) == Strip(s)
  {
    assert pre + s + post == pre + (s + post);
    LStripSpaces(pre, s + post);
    if exists i :: 0 <= i < |s| && !IsSpace(s[i]) {
      LStripAppend(s, post);
      RStripSpaces(LStrip(s), post);
    } else {
      LStripSpaces(s, post);
      LStripSpaces(post, []);
      assert post + [] == post;
      assert s + [] == s;
      LStripSpaces(s, []);
    }
  }

  predicate StartsWith(s: string, prefix: string) {
    |prefix| <= |s| && s[..|prefix|] == prefix
  }

  predicate EndsWith(s: string, suffix: string) {
    |suffix| <= |s| && s[|s| - |suffix|..] == suffix
  }

  /** `c.lower()` for ASCII letters; every other character is left alone. */
  function LowerChar(c: char): char {
    if 'A' <= c <= 'Z' then (c as int + 32) as char else c
  }

  /** `s.lower()`, ASCII letters only. */
  function ToLower(s: string): (r: string)
    ensures |r| == |s|
  {
    seq(|s|, i requires 0 <= i < |s| => LowerChar(s[i]))
  }

  /** `s.lower() == "y"` holds exactly for the two spellings of the letter. */
  lemma LowerIsY(s: string)
    ensures ToLower(s) == "y" <==> s == "y" || s == "Y"
  {
    if ToLower(s) == "y" {
      assert ToLower(s)[0] == LowerChar(s[0]) == 'y';
      assert s == [s[0]];
    }
  }

  /** `s.replace(a, b)` for single characters a and b: a per-character map. */
  function ReplaceChar(s: string, a: char, b: char): (r: string)
    ensures |r| == |s|
  {
    seq(|s|, i requires 0 <= i < |s| => if s[i] == a then b else s[i])
  }

  /** Index of the first `c` in `s`, or `|s|` when there is none. */
  function IndexOf(s: string, c: char): (i: nat)
    ensures i <= |s|
    ensures i < |s| ==> s[i] == c
    ensures forall k :: 0 <= k < i ==> s[k] != c
  {
    IndexFrom(s, c, 0)
  }

  /** Index of the first `c` at or after position `j`, or `|s|`. */
  function IndexFrom(s: string, c: char, j: nat): (i: nat)
    requires j <= |s|
    ensures j <= i <= |s|
    ensures i < |s| ==> s[i] == c
    ensures forall k :: j <= k < i ==> s[k] != c
    decreases |s| - j
  {
    if j == |s| then j else if s[j] == c then j else IndexFrom(s, c, j + 1)
  }

  /** Index of the last `c` in `s`, or `-1` when there is none (`str.rfind`). */
  function LastIndexOf(s: string, c: char): (i: int)
    ensures -1 <= i < |s|
    ensures i >= 0 ==> s[i] == c
    ensures forall k :: i < k < |s| ==> s[k] != c
  {
    if |s| == 0 then -1
    else if s[|s| - 1] == c then |s| - 1
    else LastIndexOf(s[..|s| - 1], c)
  }

  /** The last `c` is the one with no `c` after it. */
  lemma LastIndexOfIs(s: string, c: char, j: nat)
    requires j < |s| && s[j] == c
    requires forall k :: j < k < |s| ==> s[k] != c
    ensures LastIndexOf(s, c) == j
  {
  }

  lemma LastIndexOfAbsent(s: string, c: char)
    requires c !in s
    ensures LastIndexOf(s, c) == -1
  {
  }

  /** `s.split(c)`: the pieces between occurrences of `c`, empty pieces kept. */
  function Split(s: string, c: char): (parts: seq<string>)
    ensures |parts| >= 1
    ensures forall k :: 0 <= k < |parts| ==> c !in parts[k]
    decreases |s|
  {
    var i := IndexOf(s, c);
    if i == |s| then [s] else [s[..i]] + Split(s[i + 1..], c)
  }

  /** The last piece of a split is the tail of the string after its last separator. */
  lemma {:induction false} SplitLast(s: string, c: char)
    ensures var parts := Split(s, c);
      parts[|parts| - 1] == s[LastIndexOf(s, c) + 1..]
  {
    var parts := Split(s, c);
    var t := parts[|parts| - 1];
    SplitLastPiece(s, c);
    LastPieceShape(s, c);
    assert c !in t;
    if |t| < |s| {
      var j := |s| - |t| - 1;
      forall k | j < k < |s| ensures s[k] != c {
        assert s[k] == t[k - j - 1];
      }
      LastIndexOfIs(s, c, j);
    } else {
      assert s[0..] == s;
      LastIndexOfAbsent(s, c);
    }
  }

  /** What follows the last `c`, found by walking the pieces as `Split` does. */
  function LastPiece(s: string, c: char): string
    decreases |s|
  {
    var i := IndexOf(s, c);
    if i == |s| then s else LastPiece(s[i + 1..], c)
  }

  lemma {:induction false} SplitLastPiece(s: string, c: char)
    ensures var parts := Split(s, c); parts[|parts| - 1] == LastPiece(s, c)
    decreases |s|
  {
    if IndexOf(s, c) < |s| {
      var rest := s[IndexOf(s, c) + 1..];
      SplitLastPiece(rest, c);
      SplitAtFirst(s, c);
      LastOfCons(s[..IndexOf(s, c)], Split(rest, c));
    }
  }

  lemma {:induction false} LastPieceShape(s: string, c: char)
    ensures var t := LastPiece(s, c);
      |t| <= |s| && t == s[|s| - |t|..] && (|t| < |s| ==> s[|s| - |t| - 1] == c)
    decreases |s|
  {
    var i := IndexOf(s, c);
    if i < |s| {
      var rest := s[i + 1..];
      assert LastPiece(s, c) == LastPiece(rest, c);
      LastPieceShape(rest, c);
      TailAfter(s, c, i, rest, LastPiece(rest, c));
    } else {
      assert LastPiece(s, c) == s;
      assert s[0..] == s;
    }
  }

  /** A split with a separator is the piece before it and the split of the rest. */
  lemma SplitAtFirst(s: string, c: char)
    requires IndexOf(s, c) < |s|
    ensures Split(s, c) == [s[..IndexOf(s, c)]] + Split(s[IndexOf(s, c) + 1..], c)
  {
  }

  lemma LastOfCons<T>(x: T, xs: seq<T>)
    requires xs != []
    ensures ([x] + xs)[|[x] + xs| - 1] == xs[|xs| - 1]
  {
  }

  /** A tail of the text after position `i`, itself preceded by `c` or starting
      right after `i`, is a tail of the whole text preceded by `c`. */
  lemma TailAfter(s: string, c: char, i: nat, rest: string, t: string)
    requires i < |s| && s[i] == c && rest == s[i + 1..]
    requires |t| <= |rest| && t == rest[|rest| - |t|..] && (|t| < |rest| ==> rest[|rest| - |t| - 1] == c)
    ensures |t| <= |s| && t == s[|s| - |t|..] && (|t| < |s| ==> s[|s| - |t| - 1] == c)
  {
    assert s[|s| - |t|..] == rest[|rest| - |t|..];
    if |t| < |rest| {
      assert s[|s| - |t| - 1] == rest[|rest| - |t| - 1];
    }
  }

  /** `sep.join(parts)`. */
  function Join(sep: string, parts: seq<string>): string {
    if |parts| == 0 then ""
    else if |parts| == 1 then parts[0]
    else parts[0] + sep + Join(sep, parts[1..])
  }

  /** Joining one more piece appends the separator and that piece. */
  lemma {:induction false} JoinAppend(sep: string, parts: seq<string>, p: string)
    requires |parts| >= 1
    ensures Join(sep, parts + [p]) == Join(sep, parts) + sep + p
    decreases |parts|
  {
    assert (parts + [p])[1..] == parts[1..] + [p];
    if |parts| > 1 {
      JoinAppend(sep, parts[1..], p);
    }
  }

  /** Joining the pieces of a split on the same separator gives the string back. */
  lemma {:induction false} JoinSplit(s: string, c: char)
    ensures Join([c], Split(s, c)) == s
    decreases |s|
  {
    var i := IndexOf(s, c);
    if i < |s| {
      var rest := Split(s[i + 1..], c);
      JoinSplit(s[i + 1..], c);
      assert Split(s, c) == [s[..i]] + rest;
      assert Join([c], Split(s, c)) == s[..i] + [c] + Join([c], rest);
      assert s == s[..i] + [c] + s[i + 1..];
    }
  }

  /** Splitting a join recovers the pieces, provided no piece holds the separator. */
  lemma {:induction false} SplitJoin(parts: seq<string>, c: char)
    requires |parts| >= 1
    requires forall k :: 0 <= k < |parts| ==> c !in parts[k]
    ensures Split(Join([c], parts), c) == parts
    decreases |parts|
  {
    if |parts| > 1 {
      var t := Join([c], parts[1..]);
      var s := parts[0] + [c] + t;
      assert s[..|parts[0]|] == parts[0];
      assert s[|parts[0]|] == c;
      IndexOfFirst(parts[0], t, c);
      assert s[|parts[0]| + 1..] == t;
      SplitJoin(parts[1..], c);
    } else {
      IndexOfFirst(parts[0], [], c);
      assert parts[0] + [c] + [] == parts[0] + [c];
      assert IndexOf(parts[0], c) == |parts[0]| by {
        IndexOfAbsent(parts[0], c);
      }
    }
  }

  lemma IndexOfAbsent(s: string, c: char)
    requires c !in s
    ensures IndexOf(s, c) == |s|
  {
  }

  lemma IndexOfFirst(p: string, t: string, c: char)
    requires c !in p
    ensures IndexOf(p + [c] + t, c) == |p|
  {
    var s := p + [c] + t;
    assert s[|p|] == c;
    assert forall k :: 0 <= k < |p| ==> s[k] == p[k];
  }

  predicate IsDigit(c: char) {
    '0' <= c <= '9'
  }

  function DigitChar(d: nat): (c: char)
    requires d < 10
    ensures IsDigit(c)
  {
    "0123456789"[d]
  }

  function DigitValue(c: char): nat
    requires IsDigit(c)
  {
    c as int - '0' as int
  }

  /** Decimal rendering of a count, as Python's f-string prints an `int`. */
  function NatToString(n: nat): (r: string)
    ensures |r| >= 1
    ensures forall k :: 0 <= k < |r| ==> IsDigit(r[k])
    decreases n
  {
    if n < 10 then [DigitChar(n)] else NatToString(n / 10) + [DigitChar(n % 10)]
  }

  /** The value of a non-empty run of decimal digits. */
  function DigitsValue(s: string): nat
    requires forall k :: 0 <= k < |s| ==> IsDigit(s[k])
  {
    if |s| == 0 then 0 else DigitsValue(s[..|s| - 1]) * 10 + DigitValue(s[|s| - 1])
  }

  /** Rendering a count and reading it back gives the count. */
  lemma {:induction false} DigitsValueOfNat(n: nat)
    ensures DigitsValue(NatToString(n)) == n
    decreases n
  {
    var r := NatToString(n);
    if n >= 10 {
      DigitsValueOfNat(n / 10);
      assert r[..|r| - 1] == NatToString(n / 10);
      assert DigitValue(r[|r| - 1]) == n % 10 by {
        assert r[|r| - 1] == DigitChar(n % 10);
      }
    } else {
      assert DigitValue(r[0]) == n;
      assert r[..0] == [];
    }
  }

  predicate AllDigits(s: string) {
    |s| > 0 && forall k :: 0 <= k < |s| ==> IsDigit(s[k])
  }

  /** Python's `int(s)` for a decimal string: surrounding whitespace is ignored,
      an optional sign is allowed, and at least one digit must follow. */
  function ParseInt(s: string): Option<int> {
    var t := Strip(s);
    if AllDigits(t) then Some(DigitsValue(t) as int)
    else if |t| > 1 && t[0] == '+' && AllDigits(t[1..]) then Some(DigitsValue(t[1..]))
    else if |t| > 1 && t[0] == '-' && AllDigits(t[1..]) then Some(-(DigitsValue(t[1..]) as int))
    else None
  }

  /** `int(str(n))` is `n` for every count. */
  lemma ParseIntOfNat(n: nat)
    ensures ParseInt(NatToString(n)) == Some(n)
  {
    var r := NatToString(n);
    assert !IsSpace(r[0]) && !IsSpace(r[|r| - 1]);
    assert Strip(r) == r;
    DigitsValueOfNat(n);
  }
}
