/**
 * The few Python string operations the core relies on, written out: `str.strip()`,
 * `str.split(sep)`, `int(str)` in base 10, `str(int)` and the `{n:0Wd}` zero-padded format.
 */
module PyText {
  import opened Base

  /**
   * The whitespace Python's `str.strip()`, `int()` and `Decimal()` skip, as far as the ASCII
   * and Latin-1 range (`str.isspace` also holds for a few wider Unicode spaces).
   */
  predicate IsSpace(c: char)
  {
    c == ' ' || c == '\t' || c == '\n' || c == '\r' || c == '\U{0B}' || c == '\U{0C}'
    || ('\U{1C}' <= c <= '\U{1F}') || c == '\U{85}' || c == '\U{A0}'
  }

  predicate IsDigit(c: char) { '0' <= c <= '9' }

  predicate AllDigits(s: string) { forall i :: 0 <= i < |s| ==> IsDigit(s[i]) }

  function DigitValue(c: char): (d: nat)
    requires IsDigit(c)
    ensures d < 10
  {
    (c as int) - ('0' as int)
  }

  function DigitChar(d: nat): (c: char)
    requires d < 10
    ensures IsDigit(c) && DigitValue(c) == d
  {
    (('0' as int) + d) as char
  }

  function StripLeft(s: string): string
  {
    if s != [] && IsSpace(s[0]) then StripLeft(s[1..]) else s
  }

  function StripRight(s: string): string
  {
    if s != [] && IsSpace(s[|s| - 1]) then StripRight(s[..|s| - 1]) else s
  }

  /** `s.strip()`: `s` without its leading and trailing whitespace. */
  function Strip(s: string): string
  {
    StripRight(StripLeft(s))
  }

  lemma {:induction false} StripLeftShape(s: string)
    ensures var r := StripLeft(s);
      |r| <= |s| && r == s[|s| - |r|..]
      && (forall k :: 0 <= k < |s| - |r| ==> IsSpace(s[k]))
      && (r != [] ==> !IsSpace(r[0]))
  {
    if s != [] && IsSpace(s[0]) {
      var t := s[1..];
      StripLeftShape(t);
      var r := StripLeft(t);
      assert StripLeft(s) == r;
      assert t[|t| - |r|..] == s[|s| - |r|..];
      forall k | 0 <= k < |s| - |r| ensures IsSpace(s[k]) {
        if k > 0 {
          assert s[k] == t[k - 1];
        }
      }
    }
  }

  lemma {:induction false} StripRightShape(s: string)
    ensures var r := StripRight(s);
      |r| <= |s| && r == s[..|r|]
      && (forall k :: |r| <= k < |s| ==> IsSpace(s[k]))
      && (r != [] ==> !IsSpace(r[|r| - 1]))
  {
    if s != [] && IsSpace(s[|s| - 1]) {
      var t := s[..|s| - 1];
      StripRightShape(t);
      var r := StripRight(t);
      assert StripRight(s) == r;
      assert t[..|r|] == s[..|r|];
      forall k | |r| <= k < |s| ensures IsSpace(s[k]) {
        if k < |s| - 1 {
          assert s[k] == t[k];
        }
      }
    }
  }

  /** What `strip()` promises: only surrounding whitespace goes, and none is left at either end. */
  lemma StripShape(s: string)
    ensures var r, i := Strip(s), |s| - |StripLeft(s)|;
      0 <= i <= |s| - |r| && r == s[i..i + |r|]
      && (r != [] ==> !IsSpace(r[0]) && !IsSpace(r[|r| - 1]))
  {
    var l := StripLeft(s);
    StripLeftShape(s);
    StripRightShape(l);
    var r := StripRight(l);
    var i := |s| - |l|;
    assert l == s[i..];
    assert r == l[..|r|];
    assert r == s[i..i + |r|];
    if r != [] {
      assert r[0] == l[0];
    }
  }

  /** `strip()` is the identity on a string that neither starts nor ends with whitespace. */
  lemma StripNoSpace(s: string)
    requires s != [] ==> !IsSpace(s[0]) && !IsSpace(s[|s| - 1])
    ensures Strip(s) == s
  {
  }

  // ---------------------------------------------------------------------------------------
  // Decimal digits

  /** The value of a string of decimal digits (0 for the empty string). */
  function DigitsValue(s: string): nat
    requires AllDigits(s)
  {
    if s == [] then 0 else DigitsValue(s[..|s| - 1]) * 10 + DigitValue(s[|s| - 1])
  }

  /** The end of the run of digits of `s` starting at `j`. */
  function DigitRunEnd(s: string, j: nat): (r: nat)
    requires j <= |s|
    ensures j <= r <= |s|
    ensures forall t :: j <= t < r ==> IsDigit(s[t])
    ensures r < |s| ==> !IsDigit(s[r])
    decreases |s| - j
  {
    if j < |s| && IsDigit(s[j]) then DigitRunEnd(s, j + 1) else j
  }

  /** The run of digits ends where the first non-digit is. */
  lemma DigitRunEndAt(s: string, j: nat, n: nat)
    requires j <= n < |s| && !IsDigit(s[n]) && forall t :: j <= t < n ==> IsDigit(s[t])
    ensures DigitRunEnd(s, j) == n
  {
  }

  /** `str(n)` for a non-negative integer: its decimal digits, without leading zeros. */
  function NatToString(n: nat): (r: string)
    ensures |r| >= 1 && AllDigits(r)
    ensures r[0] == '0' ==> n == 0
  {
    if n < 10 then [DigitChar(n)] else NatToString(n / 10) + [DigitChar(n % 10)]
  }

  lemma {:induction false} NatToStringValue(n: nat)
    ensures DigitsValue(NatToString(n)) == n
  {
    if n >= 10 {
      var s := NatToString(n);
      assert s[..|s| - 1] == NatToString(n / 10);
      NatToStringValue(n / 10);
    }
  }

  /** Different numbers print differently. */
  lemma NatToStringInjective(m: nat, n: nat)
    requires NatToString(m) == NatToString(n)
    ensures m == n
  {
    NatToStringValue(m);
    NatToStringValue(n);
  }

  lemma {:induction false} NatToStringShort(n: nat)
    ensures n < 1000 <==> |NatToString(n)| <= 3
  {
    if n >= 10 {
      NatToStringShort(n / 10);
    }
  }

  /** `str(i)` for any integer: a leading '-' for negatives. */
  function IntToString(i: int): (r: string)
    ensures |r| >= 1 && (r[0] == '-' <==> i < 0)
  {
    if i < 0 then "-" + NatToString(-i) else NatToString(i)
  }

  function Repeat(c: char, k: nat): (r: string)
    ensures |r| == k && forall i :: 0 <= i < k ==> r[i] == c
  {
    if k == 0 then [] else [c] + Repeat(c, k - 1)
  }

  lemma {:induction false} LeadingZerosValue(z: nat, s: string)
    requires AllDigits(s)
    ensures AllDigits(Repeat('0', z) + s)
    ensures DigitsValue(Repeat('0', z) + s) == DigitsValue(s)
  {
    var t := Repeat('0', z) + s;
    if s == [] {
      assert t == Repeat('0', z);
      ZerosValue(z);
    } else {
      var s' := s[..|s| - 1];
      assert t[..|t| - 1] == Repeat('0', z) + s';
      LeadingZerosValue(z, s');
    }
  }

  lemma {:induction false} ZerosValue(z: nat)
    ensures AllDigits(Repeat('0', z)) && DigitsValue(Repeat('0', z)) == 0
  {
    if z > 0 {
      var r := Repeat('0', z);
      assert r[..|r| - 1] == Repeat('0', z - 1);
      ZerosValue(z - 1);
    }
  }

  /** Python's `f"{n:0{w}d}"` for a non-negative `n`: its digits, left-padded with '0' to width `w`. */
  function ZeroPad(n: nat, w: nat): (r: string)
  {
    var d := NatToString(n);
    if |d| < w then Repeat('0', w - |d|) + d else d
  }

  /** The padded form is exactly wide enough, all digits, and still denotes `n`. */
  lemma ZeroPadShape(n: nat, w: nat)
    ensures var r := ZeroPad(n, w);
      |r| == (if |NatToString(n)| < w then w else |NatToString(n)|)
      && AllDigits(r) && DigitsValue(r) == n
  {
    var d := NatToString(n);
    NatToStringValue(n);
    if |d| < w {
      var z := Repeat('0', w - |d|);
      assert ZeroPad(n, w) == z + d;
      LeadingZerosValue(w - |d|, d);
    } else {
      assert ZeroPad(n, w) == d;
    }
  }

  /** Padding to a fixed width keeps distinct numbers distinct. */
  lemma ZeroPadInjective(m: nat, n: nat, w: nat)
    requires ZeroPad(m, w) == ZeroPad(n, w)
    ensures m == n
  {
    ZeroPadShape(m, w);
    ZeroPadShape(n, w);
  }

  // ---------------------------------------------------------------------------------------
  // int(str)

  /**
   * The digits of a Python integer literal body: a digit, then digits each optionally preceded
   * by a single '_'.
   */
  predicate IsIntBody(s: string)
    decreases |s|
  {
    s != [] && IsDigit(s[0])
    && (|s| == 1 || if s[1] == '_' then IsIntBody(s[2..]) else IsIntBody(s[1..]))
  }

  function DropUnderscores(s: string): (r: string)
  {
    if s == [] then [] else (if s[0] == '_' then [] else [s[0]]) + DropUnderscores(s[1..])
  }

  /** Removing the separators from an integer body leaves only digits. */
  lemma {:induction false} IntBodyDigits(s: string)
    requires IsIntBody(s)
    ensures AllDigits(DropUnderscores(s))
    decreases |s|
  {
    if |s| > 1 {
      if s[1] == '_' {
        IntBodyDigits(s[2..]);
        assert s[1..][1..] == s[2..];
      } else {
        IntBodyDigits(s[1..]);
      }
    }
  }

  /** A non-empty run of digits is an integer body. */
  lemma {:induction false} DigitsIntBody(s: string)
    requires s != [] && AllDigits(s)
    ensures IsIntBody(s)
    decreases |s|
  {
    if |s| > 1 {
      DigitsIntBody(s[1..]);
    }
  }

  /** `int(s)` in base 10: None where Python raises ValueError. */
  function ParseInt(s: string): (r: Option<int>)
  {
    var t := Strip(s);
    var neg := t != [] && t[0] == '-';
    var body := if t != [] && (t[0] == '-' || t[0] == '+') then t[1..] else t;
    if IsIntBody(body) then
      IntBodyDigits(body);
      var v: int := DigitsValue(DropUnderscores(body));
      Some(if neg then -v else v)
    else None
  }

  lemma {:induction false} DropUnderscoresOfDigits(s: string)
    requires AllDigits(s)
    ensures DropUnderscores(s) == s
  {
    if s != [] {
      DropUnderscoresOfDigits(s[1..]);
    }
  }

  /** A stripped, optionally negated run of digits reads as the number it spells. */
  lemma ParseIntDigits(s: string, d: string, neg: bool)
    requires d != [] && AllDigits(d) && s == (if neg then "-" else "") + d && Strip(s) == s
    ensures ParseInt(s) == Some(if neg then -(DigitsValue(d) as int) else DigitsValue(d))
  {
    DigitsIntBody(d);
    DropUnderscoresOfDigits(d);
    assert IsDigit(d[0]);
    var body := if s[0] == '-' || s[0] == '+' then s[1..] else s;
    assert body == d by {
      if neg { assert s[1..] == d; }
    }
    assert (s[0] == '-') == neg;
  }

  /** `str(i)` is the digits of the magnitude, after a '-' when negative, with no blanks around. */
  lemma IntToStringShape(i: int)
    ensures var m: nat := if i < 0 then -i else i;
      IntToString(i) == (if i < 0 then "-" else "") + NatToString(m)
    ensures Strip(IntToString(i)) == IntToString(i)
  {
    var m: nat := if i < 0 then -i else i;
    var d := NatToString(m);
    var s := IntToString(i);
    assert s == (if i < 0 then "-" else "") + d;
    assert IsDigit(d[0]) && IsDigit(d[|d| - 1]);
    assert s[|s| - 1] == d[|d| - 1];
    StripNoSpace(s);
  }

  /** `int(str(i)) == i`. */
  lemma ParseIntOfIntToString(i: int)
    ensures ParseInt(IntToString(i)) == Some(i)
  {
    var m: nat := if i < 0 then -i else i;
    IntToStringShape(i);
    NatToStringValue(m);
    ParseIntDigits(IntToString(i), NatToString(m), i < 0);
  }

  /** Text that is not a number, such as the empty string, makes `int()` raise. */
  lemma ParseIntEmpty()
    ensures ParseInt("") == None && ParseInt("abc") == None
  {
    assert Strip("") == "";
    var t := "abc";
    assert !IsSpace(t[0]) && !IsSpace(t[|t| - 1]);
    StripNoSpace(t);
    assert !IsDigit(t[0]);
  }

  // ---------------------------------------------------------------------------------------
  // str.split(sep)

  function IndexOf(s: string, c: char): (i: nat)
    ensures i <= |s| && (i < |s| ==> s[i] == c) && forall k :: 0 <= k < i ==> s[k] != c
  {
    if s == [] then 0 else if s[0] == c then 0 else 1 + IndexOf(s[1..], c)
  }

  /** `s.split(c)`: the pieces between the occurrences of `c`; `""` splits into `[""]`. */
  function Split(s: string, c: char): (r: seq<string>)
    ensures |r| >= 1
    decreases |s|
  {
    var i := IndexOf(s, c);
    if i == |s| then [s] else [s[..i]] + Split(s[i + 1..], c)
  }

  /** `c.join(parts)`. */
  function Join(parts: seq<string>, c: char): string
  {
    if |parts| <= 1 then (if parts == [] then "" else parts[0])
    else parts[0] + [c] + Join(parts[1..], c)
  }

  /** Splitting loses nothing: the pieces hold no separator and joining them gives `s` back. */
  lemma {:induction false} SplitJoin(s: string, c: char)
    ensures forall k :: 0 <= k < |Split(s, c)| ==> c !in Split(s, c)[k]
    ensures Join(Split(s, c), c) == s
    decreases |s|
  {
    var i := IndexOf(s, c);
    if i < |s| {
      SplitJoin(s[i + 1..], c);
      var rest := Split(s[i + 1..], c);
      assert Split(s, c)[1..] == rest;
      assert s == s[..i] + [c] + s[i + 1..];
    }
  }
}
