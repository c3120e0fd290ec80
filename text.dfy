/** The text the pages render from numbers: `n.toString()` for a non-negative
    integer, `padStart(width, '0')`, and the small parsers that read a
    rendered label back, so that what a label means can be stated as a
    round trip. */
module Text {

  datatype Option<T> = None | Some(value: T)

  predicate IsDigit(c: char) {
    '0' <= c <= '9'
  }

  predicate AllDigits(s: string) {
    forall i :: 0 <= i < |s| ==> IsDigit(s[i])
  }

  function DigitChar(d: nat): (c: char)
    requires d < 10
    ensures IsDigit(c) && c as int - '0' as int == d
  {
    ('0' as int + d) as char
  }

  function DigitValue(c: char): (d: nat)
    requires IsDigit(c)
    ensures d < 10 && DigitChar(d) == c
  {
    c as int - '0' as int
  }

  /** `n.toString()` for an integer `n >= 0`: its decimal digits. */
  function Dec(n: nat): (s: string)
    ensures |s| >= 1 && AllDigits(s)
    ensures n < 10 <==> |s| == 1
  {
    if n < 10 then [DigitChar(n)] else Dec(n / 10) + [DigitChar(n % 10)]
  }

  /** The number a string of decimal digits denotes (leading zeros allowed). */
  function Value(s: string): nat
    requires AllDigits(s)
  {
    if s == [] then 0 else Value(s[..|s| - 1]) * 10 + DigitValue(s[|s| - 1])
  }

  /** Reading back what `Dec` wrote gives the number. */
  lemma {:induction false} DecValue(n: nat)
    ensures Value(Dec(n)) == n
  {
    if n >= 10 {
      var s := Dec(n);
      assert s[..|s| - 1] == Dec(n / 10);
      DecValue(n / 10);
    }
  }

  /** `Dec` writes no leading zero: its output is the canonical numeral. */
  lemma {:induction false} DecCanonical(n: nat)
    ensures Dec(n)[0] == '0' <==> n == 0
  {
    if n >= 10 {
      DecCanonical(n / 10);
      assert Dec(n)[0] == Dec(n / 10)[0];
    }
  }

  /** Leading zeros do not change the value of a numeral. */
  lemma {:induction false} ValueZeroPrefix(s: string)
    requires AllDigits(s)
    ensures AllDigits(['0'] + s) && Value(['0'] + s) == Value(s)
  {
    var z := ['0'] + s;
    if s != [] {
      assert z[..|z| - 1] == ['0'] + s[..|s| - 1];
      ValueZeroPrefix(s[..|s| - 1]);
    }
  }

  /** `s.padStart(width, fill)`: `s` preceded by as many `fill` characters
      as it takes to reach `width`; a longer `s` is left alone. */
  function PadStart(s: string, width: nat, fill: char): (r: string)
    ensures |r| == if |s| >= width then |s| else width
    decreases width - |s|
  {
    if |s| >= width then s else PadStart([fill] + s, width, fill)
  }

  /** The padded string ends with `s` and everything before it is `fill`. */
  lemma {:induction false} PadStartShape(s: string, width: nat, fill: char)
    ensures var r := PadStart(s, width, fill);
      r[|r| - |s|..] == s && forall i :: 0 <= i < |r| - |s| ==> r[i] == fill
    decreases width - |s|
  {
    if |s| < width {
      var t := [fill] + s;
      PadStartShape(t, width, fill);
      var r := PadStart(s, width, fill);
      assert r == PadStart(t, width, fill);
      assert r[|r| - |s|..] == r[|r| - |t|..][1..];
    }
  }

  /** Zero padding keeps a numeral a numeral of the same value. */
  lemma {:induction false} PadZerosValue(s: string, width: nat)
    requires AllDigits(s)
    ensures AllDigits(PadStart(s, width, '0'))
    ensures Value(PadStart(s, width, '0')) == Value(s)
    decreases width - |s|
  {
    if |s| < width {
      ValueZeroPrefix(s);
      PadZerosValue(['0'] + s, width);
    }
  }

  /** The first position of `c` in `s`, or -1: where the label parsers split
      a label at its separator. */
  function IndexOf(s: string, c: char): (i: int)
    ensures -1 <= i < |s|
    ensures i == -1 ==> c !in s
    ensures 0 <= i ==> s[i] == c && c !in s[..i]
  {
    if s == [] then -1
    else if s[0] == c then 0
    else
      var j := IndexOf(s[1..], c);
      if j < 0 then -1
      else
        assert s[..j + 1] == [s[0]] + s[1..][..j];
        j + 1
  }

  /** The first `c` of `p + [c] + q` is the one after `p` when `p` has
      none, and cutting there gives `p` and `q` back. */
  lemma SplitAtFirst(p: string, c: char, q: string)
    requires c !in p
    ensures var s := p + [c] + q;
      IndexOf(s, c) == |p| && s[..|p|] == p && s[|p| + 1..] == q
  {
    var s := p + [c] + q;
    assert s[|p|] == c;
    assert forall k :: 0 <= k < |p| ==> s[k] == p[k];
  }

  /** Reads a clock label `<digits>:<digits>` back as (minutes, seconds). */
  function ParseClock(s: string): Option<(nat, nat)> {
    var i := IndexOf(s, ':');
    if i < 0 then None
    else
      var mm, ss := s[..i], s[i + 1..];
      if |mm| > 0 && |ss| > 0 && AllDigits(mm) && AllDigits(ss)
      then Some((Value(mm), Value(ss)))
      else None
  }

  /** A clock label built from two numerals parses back to their values. */
  lemma ParseClockOf(mm: string, ss: string)
    requires |mm| > 0 && |ss| > 0 && AllDigits(mm) && AllDigits(ss)
    ensures ParseClock(mm + ":" + ss) == Some((Value(mm), Value(ss)))
  {
    assert forall k :: 0 <= k < |mm| ==> mm[k] != ':';
    SplitAtFirst(mm, ':', ss);
  }
}
