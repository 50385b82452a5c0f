/**
 * The handful of JavaScript string operations the formatters rely on:
 * `String(n)` for integers, `padStart`, `join`, `split` on a single
 * character, `trim().split(/\s+/)`, `includes` and `replace` of the first
 * occurrence of a literal pattern.  Each comes with the facts the other
 * modules need, chiefly that decimal printing can be parsed back.
 */
module Text {
  import opened Wrappers

  // ---------------------------------------------------------------------------
  // Decimal digits

  predicate IsDigit(c: char) {
    '0' <= c <= '9'
  }

  predicate AllDigits(s: string) {
    forall i :: 0 <= i < |s| ==> IsDigit(s[i])
  }

  function DigitValue(c: char): (d: nat)
    requires IsDigit(c)
    ensures d < 10
  {
    c as int - '0' as int
  }

  function DigitChar(d: nat): (c: char)
    requires d < 10
    ensures IsDigit(c) && DigitValue(c) == d
  {
    (('0' as int) + d) as char
  }

  function Pow10(k: nat): (p: nat)
    ensures p >= 1
  {
    if k == 0 then 1 else 10 * Pow10(k - 1)
  }

  /** `String(n)` for a non-negative integer: decimal, no leading zeros. */
  function NatToString(n: nat): (s: string)
    ensures |s| >= 1 && AllDigits(s)
  {
    if n < 10 then [DigitChar(n)] else NatToString(n / 10) + [DigitChar(n % 10)]
  }

  /** `String(i)` for any integer: a minus sign before the magnitude when negative. */
  function IntToString(i: int): (s: string)
    ensures i >= 0 ==> s == NatToString(i)
    ensures i < 0 ==> s == "-" + NatToString(-i)
  {
    if i < 0 then "-" + NatToString(-i) else NatToString(i)
  }

  /** A numeric field of a formatted time: a non-empty run of decimal digits. */
  predicate IsField(f: string) {
    |f| > 0 && AllDigits(f)
  }

  /** The value of a string of decimal digits, leading zeros allowed. */
  function ParseDigits(s: string): nat
    requires AllDigits(s)
  {
    if s == [] then 0 else 10 * ParseDigits(s[..|s| - 1]) + DigitValue(s[|s| - 1])
  }

  /** Parsing the decimal rendering of `n` gives `n` back. */
  lemma {:induction false} ParseNatToString(n: nat)
    ensures ParseDigits(NatToString(n)) == n
  {
    if n >= 10 {
      var s := NatToString(n);
      assert s[..|s| - 1] == NatToString(n / 10);
      ParseNatToString(n / 10);
    }
  }

  /** `String(n)` uses at most `k` characters when `n < 10^k`. */
  lemma {:induction false} NatToStringWidth(n: nat, k: nat)
    requires 1 <= k && n < Pow10(k)
    ensures |NatToString(n)| <= k
  {
    if n >= 10 {
      NatToStringWidth(n / 10, k - 1);
    }
  }

  // ---------------------------------------------------------------------------
  // padStart

  function Repeat(c: char, n: nat): (r: string)
    ensures |r| == n && forall i :: 0 <= i < n ==> r[i] == c
  {
    if n == 0 then "" else [c] + Repeat(c, n - 1)
  }

  /** `s.padStart(width, fill)`: fills on the left, never truncates. */
  function PadStart(s: string, width: nat, fill: char): (r: string)
    ensures |r| == if |s| >= width then |s| else width
    ensures r[|r| - |s|..] == s
    ensures forall i :: 0 <= i < |r| - |s| ==> r[i] == fill
  {
    if |s| >= width then s else Repeat(fill, width - |s|) + s
  }

  lemma {:induction false} ParseZeros(n: nat)
    ensures AllDigits(Repeat('0', n)) && ParseDigits(Repeat('0', n)) == 0
  {
    if n > 0 {
      var z := Repeat('0', n);
      assert z[..n - 1] == Repeat('0', n - 1);
      ParseZeros(n - 1);
    }
  }

  /** Leading zeros do not change the value of a digit string. */
  lemma {:induction false} ParseLeadingZeros(n: nat, s: string)
    requires AllDigits(s)
    ensures AllDigits(Repeat('0', n) + s)
    ensures ParseDigits(Repeat('0', n) + s) == ParseDigits(s)
  {
    var z := Repeat('0', n);
    if s == [] {
      assert z + s == z;
      ParseZeros(n);
    } else {
      var t := z + s;
      assert t[..|t| - 1] == z + s[..|s| - 1];
      ParseLeadingZeros(n, s[..|s| - 1]);
    }
  }

  /** Zero-padding a decimal rendering keeps it parseable to the same number. */
  lemma PadNatRoundTrip(n: nat, width: nat)
    ensures AllDigits(PadStart(NatToString(n), width, '0'))
    ensures ParseDigits(PadStart(NatToString(n), width, '0')) == n
  {
    var s := NatToString(n);
    ParseNatToString(n);
    if |s| < width {
      ParseLeadingZeros(width - |s|, s);
    }
  }

  /** A value below `10^k` is padded to exactly `k` digits. */
  lemma PadNatWidth(n: nat, k: nat)
    requires 1 <= k && n < Pow10(k)
    ensures |PadStart(NatToString(n), k, '0')| == k
  {
    NatToStringWidth(n, k);
  }

  // ---------------------------------------------------------------------------
  // split on one character, join, concatenation

  /** `s.split(sep)` for a one-character separator. */
  function Split(s: string, sep: char): (r: seq<string>)
    ensures |r| >= 1
  {
    if |s| == 0 then [""]
    else if s[0] == sep then [""] + Split(s[1..], sep)
    else
      var rest := Split(s[1..], sep);
      [[s[0]] + rest[0]] + rest[1..]
  }

  lemma {:induction false} SplitNoSep(a: string, sep: char)
    requires sep !in a
    ensures Split(a, sep) == [a]
  {
    if |a| > 0 {
      SplitNoSep(a[1..], sep);
      assert [a[0]] + a[1..] == a;
    }
  }

  /** A field free of the separator is split off intact. */
  lemma {:induction false} SplitField(a: string, sep: char, b: string)
    requires sep !in a
    ensures Split(a + [sep] + b, sep) == [a] + Split(b, sep)
  {
    var s := a + [sep] + b;
    if |a| == 0 {
      assert s[1..] == b;
    } else {
      assert s[1..] == a[1..] + [sep] + b;
      SplitField(a[1..], sep, b);
      assert [a[0]] + a[1..] == a;
    }
  }

  /** Zero-padding a rendering that lacks `c` introduces no `c` (unless `c` is the fill). */
  lemma PadStartWithout(s: string, width: nat, fill: char, c: char)
    requires c !in s && c != fill
    ensures c !in PadStart(s, width, fill)
  {
    var r := PadStart(s, width, fill);
    forall i | 0 <= i < |r| ensures r[i] != c {
      if i >= |r| - |s| {
        assert r[i] == r[|r| - |s|..][i - (|r| - |s|)];
      }
    }
  }

  lemma DigitsHaveNoSeparator(s: string, sep: char)
    requires AllDigits(s) && !IsDigit(sep)
    ensures sep !in s
  {
  }

  /** Every element followed by `sep`: the layout of a text made of terminated lines. */
  function Terminate(xs: seq<string>, sep: char): string {
    if |xs| == 0 then "" else xs[0] + [sep] + Terminate(xs[1..], sep)
  }

  lemma {:induction false} TerminateAppend(xs: seq<string>, ys: seq<string>, sep: char)
    ensures Terminate(xs + ys, sep) == Terminate(xs, sep) + Terminate(ys, sep)
  {
    if |xs| == 0 {
      assert xs + ys == ys;
    } else {
      assert (xs + ys)[1..] == xs[1..] + ys;
      TerminateAppend(xs[1..], ys, sep);
    }
  }

  /** Splitting terminated lines gives the lines back, plus the empty text after the last terminator. */
  lemma {:induction false} SplitTerminate(xs: seq<string>, sep: char)
    requires forall i :: 0 <= i < |xs| ==> sep !in xs[i]
    ensures Split(Terminate(xs, sep), sep) == xs + [""]
  {
    if |xs| > 0 {
      SplitTerminate(xs[1..], sep);
      SplitField(xs[0], sep, Terminate(xs[1..], sep));
    }
  }

  /** `xs.join(sep)`. */
  function Join(xs: seq<string>, sep: string): string {
    if |xs| == 0 then ""
    else if |xs| == 1 then xs[0]
    else xs[0] + sep + Join(xs[1..], sep)
  }

  /** A character absent from every element and from the separator is absent from the join. */
  lemma {:induction false} JoinWithout(xs: seq<string>, sep: string, c: char)
    requires c !in sep && forall i :: 0 <= i < |xs| ==> c !in xs[i]
    ensures c !in Join(xs, sep)
  {
    if |xs| > 1 {
      JoinWithout(xs[1..], sep, c);
    }
  }

  /** Splitting a join on its one-character separator gives the elements back. */
  lemma {:induction false} SplitJoin(xs: seq<string>, sep: char)
    requires |xs| >= 1 && forall i :: 0 <= i < |xs| ==> sep !in xs[i]
    ensures Split(Join(xs, [sep]), sep) == xs
  {
    if |xs| == 1 {
      SplitNoSep(xs[0], sep);
    } else {
      SplitField(xs[0], sep, Join(xs[1..], [sep]));
      SplitJoin(xs[1..], sep);
    }
  }

  function Flatten<T>(xss: seq<seq<T>>): seq<T> {
    if |xss| == 0 then [] else xss[0] + Flatten(xss[1..])
  }

  /** Flattening groups of four puts element `t` of group `j` at `4 * j + t`. */
  lemma {:induction false} FlattenFours<T>(xss: seq<seq<T>>)
    requires forall j :: 0 <= j < |xss| ==> |xss[j]| == 4
    ensures |Flatten(xss)| == 4 * |xss|
    ensures forall j, t :: 0 <= j < |xss| && 0 <= t < 4 ==> Flatten(xss)[4 * j + t] == xss[j][t]
  {
    if |xss| > 0 {
      FlattenFours(xss[1..]);
      var f, g := Flatten(xss), Flatten(xss[1..]);
      assert f == xss[0] + g;
      forall j, t | 0 <= j < |xss| && 0 <= t < 4 ensures f[4 * j + t] == xss[j][t] {
        if j > 0 {
          assert f[4 * j + t] == g[4 * (j - 1) + t];
        }
      }
    }
  }

  function Concat(xs: seq<string>): string {
    if |xs| == 0 then "" else xs[0] + Concat(xs[1..])
  }

  lemma {:induction false} ConcatAppend(xs: seq<string>, ys: seq<string>)
    ensures Concat(xs + ys) == Concat(xs) + Concat(ys)
  {
    if |xs| == 0 {
      assert xs + ys == ys;
    } else {
      assert (xs + ys)[1..] == xs[1..] + ys;
      ConcatAppend(xs[1..], ys);
    }
  }

  /** Appending one more piece to a prefix of `xs`. */
  lemma ConcatPrefix(xs: seq<string>, i: nat)
    requires i < |xs|
    ensures Concat(xs[..i + 1]) == Concat(xs[..i]) + xs[i]
  {
    assert xs[..i + 1] == xs[..i] + [xs[i]];
    ConcatAppend(xs[..i], [xs[i]]);
    assert [xs[i]][1..] == [];
  }

  // ---------------------------------------------------------------------------
  // trim().split(/\s+/)

  /** The characters JavaScript's `\s` and `trim` treat as white space. */
  predicate IsSpace(c: char) {
    c == ' ' || c == '\t' || c == '\n' || c == '\U{000B}' || c == '\U{000C}' || c == '\r'
    || c == '\U{00A0}' || c == '\U{1680}' || ('\U{2000}' <= c <= '\U{200A}')
    || c == '\U{2028}' || c == '\U{2029}' || c == '\U{202F}' || c == '\U{205F}'
    || c == '\U{3000}' || c == '\U{FEFF}'
  }

  predicate NoSpace(s: string) {
    forall i :: 0 <= i < |s| ==> !IsSpace(s[i])
  }

  /** Length of the longest prefix of `s` without white space. */
  function WordLength(s: string): (n: nat)
    ensures n <= |s| && NoSpace(s[..n])
    ensures n < |s| ==> IsSpace(s[n])
  {
    if |s| == 0 || IsSpace(s[0]) then 0
    else
      var k := WordLength(s[1..]);
      assert s[..k + 1] == [s[0]] + s[1..][..k];
      k + 1
  }

  /** The maximal runs of non-white-space characters of `s`, in order. */
  function Runs(s: string): seq<string>
  {
    if |s| == 0 then []
    else if IsSpace(s[0]) then Runs(s[1..])
    else
      var n := WordLength(s);
      [s[..n]] + Runs(s[n..])
  }

  /**
   * `s.trim().split(/\s+/)`: the runs, except that a string with no
   * non-space character yields one empty token, as `"".split(/\s+/)` does.
   */
  function Words(s: string): seq<string> {
    var r := Runs(s);
    if r == [] then [""] else r
  }

  /** `s` with every white-space character removed. */
  function Squeeze(s: string): string {
    if |s| == 0 then "" else if IsSpace(s[0]) then Squeeze(s[1..]) else [s[0]] + Squeeze(s[1..])
  }

  lemma {:induction false} SqueezeNoSpace(s: string)
    requires NoSpace(s)
    ensures Squeeze(s) == s
  {
    if |s| > 0 {
      SqueezeNoSpace(s[1..]);
      assert [s[0]] + s[1..] == s;
    }
  }

  lemma {:induction false} SqueezeAppend(a: string, b: string)
    ensures Squeeze(a + b) == Squeeze(a) + Squeeze(b)
  {
    if |a| == 0 {
      assert a + b == b;
    } else {
      assert (a + b)[1..] == a[1..] + b;
      SqueezeAppend(a[1..], b);
    }
  }

  /**
   * The runs are non-empty words free of white space, and gluing them back
   * together gives `s` without its white space: nothing is lost or invented.
   */
  lemma {:induction false} RunsSpec(s: string)
    ensures forall i :: 0 <= i < |Runs(s)| ==> |Runs(s)[i]| > 0 && NoSpace(Runs(s)[i])
    ensures Concat(Runs(s)) == Squeeze(s)
    ensures Runs(s) == [] <==> Squeeze(s) == ""
  {
    if |s| == 0 {
    } else if IsSpace(s[0]) {
      RunsSpec(s[1..]);
    } else {
      var n := WordLength(s);
      RunsSpec(s[n..]);
      assert s == s[..n] + s[n..];
      SqueezeAppend(s[..n], s[n..]);
      SqueezeNoSpace(s[..n]);
      assert Squeeze(s) == [s[0]] + Squeeze(s[1..]);
    }
  }

  /** A word without white space is a single run: no word is ever broken. */
  lemma RunsOfWord(w: string)
    requires |w| > 0 && NoSpace(w)
    ensures Runs(w) == [w]
  {
    WordLengthOfWord(w);
    assert w[..|w|] == w && w[|w|..] == [];
  }

  lemma {:induction false} WordLengthOfWord(w: string)
    requires NoSpace(w)
    ensures WordLength(w) == |w|
  {
    if |w| > 0 {
      WordLengthOfWord(w[1..]);
    }
  }

  /** A white-space character separates runs: the runs on each side of it are kept apart and in order. */
  lemma {:induction false} RunsAroundSpace(a: string, c: char, b: string)
    requires IsSpace(c)
    ensures Runs(a + [c] + b) == Runs(a) + Runs(b)
    decreases |a|
  {
    var s := a + [c] + b;
    if |a| == 0 {
      assert s[1..] == b;
    } else if IsSpace(a[0]) {
      assert s[1..] == a[1..] + [c] + b;
      RunsAroundSpace(a[1..], c, b);
    } else {
      var n := WordLength(a);
      WordLengthBeforeSpace(a, [c] + b);
      assert s == a + ([c] + b);
      assert s[..n] == a[..n];
      assert s[n..] == a[n..] + [c] + b;
      RunsAroundSpace(a[n..], c, b);
    }
  }

  /** A word that ends inside `s`, or where `t` starts with white space, ends at the same place in `s + t`. */
  lemma {:induction false} WordLengthBeforeSpace(s: string, t: string)
    requires WordLength(s) < |s| || (|t| > 0 && IsSpace(t[0]))
    ensures WordLength(s + t) == WordLength(s)
  {
    if |s| == 0 {
    } else if IsSpace(s[0]) {
    } else {
      assert (s + t)[1..] == s[1..] + t;
      WordLengthBeforeSpace(s[1..], t);
    }
  }

  // ---------------------------------------------------------------------------
  // includes / replace

  predicate OccursAt(s: string, pat: string, i: nat) {
    i + |pat| <= |s| && s[i..i + |pat|] == pat
  }

  function IndexOfFrom(s: string, pat: string, from: nat): (r: Option<nat>)
    requires from <= |s|
    ensures r.Some? ==>
      && from <= r.value && OccursAt(s, pat, r.value)
      && forall j :: from <= j < r.value ==> !OccursAt(s, pat, j)
    ensures r.None? ==> forall j :: from <= j <= |s| ==> !OccursAt(s, pat, j)
    decreases |s| - from
  {
    if OccursAt(s, pat, from) then Some(from)
    else if from == |s| then None
    else IndexOfFrom(s, pat, from + 1)
  }

  /** `s.indexOf(pat)`, as an option: the first position where `pat` occurs. */
  function IndexOf(s: string, pat: string): (r: Option<nat>)
    ensures r.Some? ==> OccursAt(s, pat, r.value) && forall j :: 0 <= j < r.value ==> !OccursAt(s, pat, j)
    ensures r.None? ==> forall j :: 0 <= j <= |s| ==> !OccursAt(s, pat, j)
  {
    IndexOfFrom(s, pat, 0)
  }

  /** `s.includes(pat)`. */
  predicate Includes(s: string, pat: string) {
    IndexOf(s, pat).Some?
  }

  /** `s.replace(pat, repl)` with a literal pattern: only the first occurrence is replaced. */
  function ReplaceFirst(s: string, pat: string, repl: string): string {
    match IndexOf(s, pat)
    case None => s
    case Some(i) => s[..i] + repl + s[i + |pat|..]
  }
}
