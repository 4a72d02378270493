/** The two Python built-ins the label parser leans on: `str.strip()` /
    `str.split()` with no arguments, and `int(token)` in base 10. */
module Tokens {
  import opened Wrappers

  /** Python's whitespace for `str.split()` and `str.strip()`: the ASCII
      blanks and separators 0x09-0x0D, 0x1C-0x1F, 0x20, and the Unicode
      space characters that `str.isspace()` accepts. */
  predicate IsSpace(c: char) {
    var n := c as int;
    || n == 0x20 || 0x09 <= n <= 0x0D || 0x1C <= n <= 0x1F
    || n == 0x85 || n == 0xA0 || n == 0x1680 || 0x2000 <= n <= 0x200A
    || n == 0x2028 || n == 0x2029 || n == 0x202F || n == 0x205F || n == 0x3000
  }

  predicate AllSpace(s: string) {
    forall i :: 0 <= i < |s| ==> IsSpace(s[i])
  }

  /** A field as `split()` yields it: non-empty, with no whitespace in it. */
  predicate IsWord(w: string) {
    |w| > 0 && forall i :: 0 <= i < |w| ==> !IsSpace(w[i])
  }

  /** The input with its leading whitespace removed. */
  function SkipSpace(s: string): (r: string)
    ensures |r| <= |s|
  {
    if s != [] && IsSpace(s[0]) then SkipSpace(s[1..]) else s
  }

  /** `SkipSpace` drops exactly the leading run of whitespace. */
  lemma {:induction false} SkipSpaceFacts(s: string)
    ensures var r := SkipSpace(s);
      && r == s[|s| - |r|..]
      && AllSpace(s[..|s| - |r|])
      && (r == [] || !IsSpace(r[0]))
  {
    if s != [] && IsSpace(s[0]) {
      SkipSpaceFacts(s[1..]);
      var r := SkipSpace(s);
      assert s[..|s| - |r|] == [s[0]] + s[1..][..|s[1..]| - |r|];
    }
  }

  /** The number of leading non-whitespace characters. */
  function WordLength(s: string): (n: nat)
    ensures n <= |s|
  {
    if s == [] || IsSpace(s[0]) then 0 else 1 + WordLength(s[1..])
  }

  /** `WordLength` measures exactly the leading run of non-whitespace. */
  lemma {:induction false} WordLengthFacts(s: string)
    ensures var n := WordLength(s);
      && (forall i :: 0 <= i < n ==> !IsSpace(s[i]))
      && (n == |s| || IsSpace(s[n]))
  {
    if s != [] && !IsSpace(s[0]) {
      WordLengthFacts(s[1..]);
    }
  }

  /** `s.split()`: the maximal runs of non-whitespace, left to right. */
  function Split(s: string): seq<string>
    decreases |s|
  {
    var t := SkipSpace(s);
    if t == [] then []
    else
      SkipSpaceFacts(s);
      var n := WordLength(t);
      [t[..n]] + Split(t[n..])
  }

  /** Every field of a split is a word. */
  lemma {:induction false} SplitWords(s: string)
    ensures forall i :: 0 <= i < |Split(s)| ==> IsWord(Split(s)[i])
    decreases |s|
  {
    var t := SkipSpace(s);
    if t != [] {
      SkipSpaceFacts(s);
      var n := WordLength(t);
      WordLengthFacts(t);
      SplitWords(t[n..]);
    }
  }

  /** A split has no fields exactly when the input is all whitespace. */
  lemma SplitBlank(s: string)
    ensures Split(s) == [] <==> AllSpace(s)
  {
    var t := SkipSpace(s);
    SkipSpaceFacts(s);
    if t == [] {
      assert s[..|s|] == s;
    } else {
      assert s[|s| - |t|] == t[0];
    }
  }

  /** `s.strip()`: the input without leading and trailing whitespace. */
  function Strip(s: string): (r: string)
    ensures |r| <= |s|
  {
    DropTrailingSpace(SkipSpace(s))
  }

  function DropTrailingSpace(s: string): (r: string)
    ensures |r| <= |s|
  {
    if s != [] && IsSpace(s[|s| - 1]) then DropTrailingSpace(s[..|s| - 1]) else s
  }

  /** `DropTrailingSpace` drops exactly the trailing run of whitespace. */
  lemma {:induction false} DropTrailingSpaceFacts(s: string)
    ensures var r := DropTrailingSpace(s);
      && r == s[..|r|]
      && AllSpace(s[|r|..])
      && (r == [] || !IsSpace(r[|r| - 1]))
  {
    if s != [] && IsSpace(s[|s| - 1]) {
      DropTrailingSpaceFacts(s[..|s| - 1]);
      var r := DropTrailingSpace(s);
      assert s[|r|..] == s[..|s| - 1][|r|..] + [s[|s| - 1]];
    }
  }

  /** Leading whitespace does not change the split. */
  lemma {:induction false} SplitSkipsSpace(ws: string, s: string)
    requires AllSpace(ws)
    ensures Split(ws + s) == Split(s)
    decreases |ws|
  {
    if ws != [] {
      assert (ws + s)[1..] == ws[1..] + s;
      SplitSkipsSpace(ws[1..], s);
    } else {
      assert ws + s == s;
    }
  }

  lemma {:induction false} WordLengthAppend(t: string, y: string)
    requires WordLength(t) < |t| || y == [] || IsSpace(y[0])
    ensures WordLength(t + y) == WordLength(t)
    decreases |t|
  {
    if t == [] {
      assert t + y == y;
    } else if !IsSpace(t[0]) {
      assert (t + y)[1..] == t[1..] + y;
      WordLengthAppend(t[1..], y);
    }
  }

  lemma {:induction false} SkipSpaceAppend(x: string, y: string)
    requires SkipSpace(x) != []
    ensures SkipSpace(x + y) == SkipSpace(x) + y
    decreases |x|
  {
    if IsSpace(x[0]) {
      assert (x + y)[1..] == x[1..] + y;
      SkipSpaceAppend(x[1..], y);
    }
  }

  lemma SliceOfAppend(t: string, y: string, n: nat)
    requires n <= |t|
    ensures (t + y)[..n] == t[..n]
    ensures (t + y)[n..] == t[n..] + y
  {
  }

  lemma SliceSplit(s: string, k: nat)
    requires k <= |s|
    ensures s == s[..k] + s[k..]
  {
  }

  /** Trailing whitespace does not change the split. */
  lemma {:induction false} SplitIgnoresTrailingSpace(x: string, ws: string)
    requires AllSpace(ws)
    ensures Split(x + ws) == Split(x)
    decreases |x|
  {
    var t := SkipSpace(x);
    if t == [] {
      SplitBlank(x);
      assert AllSpace(x + ws);
      SplitBlank(x + ws);
    } else {
      SkipSpaceAppend(x, ws);
      SkipSpaceFacts(x);
      var n := WordLength(t);
      assert n > 0;
      WordLengthAppend(t, ws);
      SliceOfAppend(t, ws, n);
      assert Split(x) == [t[..n]] + Split(t[n..]);
      assert Split(x + ws) == [t[..n]] + Split(t[n..] + ws);
      SplitIgnoresTrailingSpace(t[n..], ws);
    }
  }

  /** Stripping before splitting, as `line.strip().split()` does, changes nothing. */
  lemma {:induction false} SplitOfStrip(s: string)
    ensures Split(Strip(s)) == Split(s)
  {
    var t := SkipSpace(s);
    var r := DropTrailingSpace(t);
    SkipSpaceFacts(s);
    DropTrailingSpaceFacts(t);
    SliceSplit(t, |r|);
    SplitIgnoresTrailingSpace(r, t[|r|..]);
    SliceSplit(s, |s| - |t|);
    SplitSkipsSpace(s[..|s| - |t|], t);
  }

  /** The words separated by single blanks: how a label line is written. */
  function Unsplit(ws: seq<string>): string {
    if ws == [] then []
    else if |ws| == 1 then ws[0]
    else ws[0] + (" " + Unsplit(ws[1..]))
  }

  /** Splitting undoes writing words separated by blanks. */
  lemma {:induction false} SplitUnsplit(ws: seq<string>)
    requires forall i :: 0 <= i < |ws| ==> IsWord(ws[i])
    ensures Split(Unsplit(ws)) == ws
  {
    if ws == [] {
    } else if |ws| == 1 {
      SplitUnsplitOne(ws);
    } else {
      SplitUnsplit(ws[1..]);
      SplitUnsplitCons(ws);
    }
  }

  lemma SplitUnsplitOne(ws: seq<string>)
    requires |ws| == 1 && IsWord(ws[0])
    ensures Split(Unsplit(ws)) == ws
  {
    assert Unsplit(ws) == ws[0];
    SplitWord(ws[0]);
    assert ws == [ws[0]];
  }

  lemma SplitUnsplitCons(ws: seq<string>)
    requires |ws| >= 2 && IsWord(ws[0])
    requires Split(Unsplit(ws[1..])) == ws[1..]
    ensures Split(Unsplit(ws)) == ws
  {
    assert Unsplit(ws) == ws[0] + (" " + Unsplit(ws[1..]));
    SplitWordBlank(ws[0], Unsplit(ws[1..]));
    assert ws == [ws[0]] + ws[1..];
  }

  lemma SplitWord(w: string)
    requires IsWord(w)
    ensures Split(w) == [w]
  {
    SplitWordThen(w, []);
    assert w + [] == w;
    SplitBlank([]);
  }

  lemma SplitWordBlank(w: string, tail: string)
    requires IsWord(w)
    ensures Split(w + (" " + tail)) == [w] + Split(tail)
  {
    assert (" " + tail)[0] == ' ';
    SplitWordThen(w, " " + tail);
    SplitSkipsSpace(" ", tail);
  }

  /** A word followed by whitespace (or nothing) is the first field. */
  lemma SplitWordThen(w: string, rest: string)
    requires IsWord(w)
    requires rest == [] || IsSpace(rest[0])
    ensures Split(w + rest) == [w] + Split(rest)
  {
    var s := w + rest;
    assert s[0] == w[0];
    assert SkipSpace(s) == s;
    WordIsOneRun(w);
    WordLengthAppend(w, rest);
    SliceOfAppend(w, rest, |w|);
    assert w[..|w|] == w;
    assert w[|w|..] + rest == rest;
  }

  lemma WordIsOneRun(w: string)
    requires IsWord(w)
    ensures WordLength(w) == |w|
  {
  }

  // ---- int(token), base 10 ----

  predicate IsDigit(c: char) {
    '0' <= c <= '9'
  }

  predicate IsDigits(s: string) {
    |s| > 0 && forall i :: 0 <= i < |s| ==> IsDigit(s[i])
  }

  /** The literals `int()` accepts in this model: an optional sign followed
      by one or more decimal digits. */
  predicate IsIntLiteral(s: string) {
    IsDigits(s) || (|s| > 1 && (s[0] == '+' || s[0] == '-') && IsDigits(s[1..]))
  }

  function DigitValue(c: char): (d: nat)
    requires IsDigit(c)
    ensures d < 10
  {
    (c as int) - ('0' as int)
  }

  function DigitChar(d: nat): (c: char)
    requires d < 10
    ensures IsDigit(c) && DigitValue(c) == d
  {
    (('0' as int) + d) as char
  }

  /** The value of a decimal digit string, most significant digit first. */
  function DigitsValue(s: string): nat
    requires forall i :: 0 <= i < |s| ==> IsDigit(s[i])
  {
    if s == [] then 0 else DigitsValue(s[..|s| - 1]) * 10 + DigitValue(s[|s| - 1])
  }

  /** `int(s)`: the value of a literal, or nothing where Python raises ValueError. */
  function ParseInt(s: string): (r: Option<int>)
    ensures r.Some? <==> IsIntLiteral(s)
    ensures r.Some? ==> IsWord(s)
  {
    if IsDigits(s) then Some(DigitsValue(s))
    else if |s| > 1 && s[0] == '-' && IsDigits(s[1..]) then Some(0 - DigitsValue(s[1..]))
    else if |s| > 1 && s[0] == '+' && IsDigits(s[1..]) then Some(DigitsValue(s[1..]))
    else None
  }

  function NatToDigits(n: nat): (s: string)
    ensures IsDigits(s)
  {
    if n < 10 then [DigitChar(n)] else NatToDigits(n / 10) + [DigitChar(n % 10)]
  }

  /** `str(n)`: the decimal text of an integer, with a minus sign when negative. */
  function IntToString(n: int): (s: string)
    ensures IsWord(s)
  {
    if n < 0 then "-" + NatToDigits(-n) else NatToDigits(n)
  }

  lemma {:induction false} NatToDigitsValue(n: nat)
    ensures DigitsValue(NatToDigits(n)) == n
  {
    if n >= 10 {
      var s := NatToDigits(n / 10);
      var t := s + [DigitChar(n % 10)];
      assert t[..|t| - 1] == s;
      NatToDigitsValue(n / 10);
    }
  }

  /** `int(str(n)) == n` for every integer. */
  lemma ParseIntToString(n: int)
    ensures ParseInt(IntToString(n)) == Some(n)
  {
    if n < 0 {
      var s := IntToString(n);
      assert s[1..] == NatToDigits(-n);
      NatToDigitsValue(-n);
    } else {
      NatToDigitsValue(n);
    }
  }
}
