/** The decimal notation of Go's `fmt` and `strconv` packages, as far as the program uses it. */
module Decimal {
  import opened GoInts
  import opened Wrappers

  predicate IsDigit(c: char) {
    '0' <= c <= '9'
  }

  predicate AllDigits(s: string) {
    forall i | 0 <= i < |s| :: IsDigit(s[i])
  }

  function DigitChar(d: nat): (c: char)
    requires d < 10
    ensures IsDigit(c) && c as int - '0' as int == d
  {
    '0' + d as char
  }

  /** `%d` of a natural number. */
  function Digits(n: nat): (s: string)
    ensures s != "" && AllDigits(s)
  {
    if n < 10 then [DigitChar(n)] else Digits(n / 10) + [DigitChar(n % 10)]
  }

  function PadLeft(s: string, width: nat): (r: string)
    ensures AllDigits(s) ==> AllDigits(r)
    decreases width - |s|
  {
    if |s| < width then PadLeft("0" + s, width) else s
  }

  /** `%03d`: the sign counts towards the width of three. */
  function Format03(n: int): string {
    if n < 0 then "-" + PadLeft(Digits(-n), 2) else PadLeft(Digits(n), 3)
  }

  function Value(s: string): nat
    requires AllDigits(s)
  {
    if s == "" then 0 else 10 * Value(s[..|s| - 1]) + (s[|s| - 1] as int - '0' as int)
  }

  /** `strconv.ParseInt(s, 10, 64)`: an optional sign, at least one digit, and a 64-bit range. */
  function ParseInt64(s: string): Option<int64> {
    var signed := s != "" && (s[0] == '-' || s[0] == '+');
    var body := if signed then s[1..] else s;
    if body == "" || !AllDigits(body) then None
    else
      var magnitude: int := Value(body);
      var n := if signed && s[0] == '-' then -magnitude else magnitude;
      if INT64_MIN <= n <= INT64_MAX then Some(n) else None
  }

  lemma {:induction false} DigitsValue(n: nat)
    ensures Value(Digits(n)) == n
  {
    if n >= 10 {
      DigitsValue(n / 10);
      var s := Digits(n);
      assert s[..|s| - 1] == Digits(n / 10);
    } else {
      assert Digits(n)[..0] == "";
    }
  }

  lemma {:induction false} LeadingZero(s: string)
    requires AllDigits(s)
    ensures Value("0" + s) == Value(s)
  {
    var z := "0" + s;
    if s != "" {
      LeadingZero(s[..|s| - 1]);
      assert z[..|z| - 1] == "0" + s[..|s| - 1];
    } else {
      assert z == "0" && z[..0] == "";
    }
  }

  lemma {:induction false} PadLeftValue(s: string, width: nat)
    requires AllDigits(s)
    ensures Value(PadLeft(s, width)) == Value(s)
    ensures |PadLeft(s, width)| >= |s|
    decreases width - |s|
  {
    if |s| < width {
      LeadingZero(s);
      PadLeftValue("0" + s, width);
    }
  }

  lemma {:induction false} ParseNegative(n: int64)
    requires n < 0
    ensures ParseInt64(Format03(n)) == Some(n)
  {
    var magnitude: int := n;
    magnitude := -magnitude;
    DigitsValue(magnitude);
    PadLeftValue(Digits(magnitude), 2);
    assert Format03(n)[1..] == PadLeft(Digits(magnitude), 2);
  }

  /** Printing with `%03d` and parsing again is the identity on every 64-bit integer. */
  lemma {:induction false} ParseFormat03(n: int64)
    ensures ParseInt64(Format03(n)) == Some(n)
  {
    if n < 0 {
      ParseNegative(n);
    } else {
      DigitsValue(n);
      PadLeftValue(Digits(n), 3);
      assert IsDigit(Format03(n)[0]);
    }
  }

  /** What the parser reads: an optional sign and any number of leading zeros, within 64 bits. */
  lemma {:induction false} ParseReads(n: int, width: nat)
    requires n >= 0
    ensures var s := PadLeft(Digits(n), width);
      && ParseInt64(s) == ParseInt64("+" + s) == (if n <= INT64_MAX then Some(n) else None)
      && ParseInt64("-" + s) == (if -n >= INT64_MIN then Some(-n) else None)
  {
    var s := PadLeft(Digits(n), width);
    DigitsValue(n);
    PadLeftValue(Digits(n), width);
    assert ("+" + s)[1..] == s && ("-" + s)[1..] == s;
  }

  // ---- the printed form ----

  /** As few digits as the width allows: at least `width`, and no leading zero in more than that. */
  predicate Padded(s: string, width: nat) {
    AllDigits(s) && |s| >= width && (|s| > width ==> s[0] != '0')
  }

  lemma {:induction false} DigitsStart(n: nat)
    ensures n > 0 ==> Digits(n)[0] != '0'
    ensures n < 10 ==> |Digits(n)| == 1
  {
    if n >= 10 {
      DigitsStart(n / 10);
    }
  }

  lemma {:induction false} PadLeftIsPadded(s: string, width: nat)
    requires AllDigits(s) && s != "" && (|s| > width ==> s[0] != '0')
    ensures Padded(PadLeft(s, width), width)
    decreases width - |s|
  {
    if |s| < width {
      PadLeftIsPadded("0" + s, width);
    }
  }

  lemma {:induction false} SameValue(s: string, t: string)
    requires AllDigits(s) && AllDigits(t) && |s| == |t| && Value(s) == Value(t)
    ensures s == t
  {
    if s != "" {
      var n := |s| - 1;
      assert s[n] as int - '0' as int < 10 && t[n] as int - '0' as int < 10;
      assert s[n] == t[n] && Value(s[..n]) == Value(t[..n]);
      SameValue(s[..n], t[..n]);
      assert s == s[..n] + [s[n]] && t == t[..n] + [t[n]];
    }
  }

  /** A shorter number of the same value would need a leading zero to be as long. */
  lemma {:induction false} NotLonger(s: string, t: string)
    requires AllDigits(s) && AllDigits(t) && Value(s) == Value(t) && s != "" && s[0] != '0'
    ensures |s| <= |t|
    decreases |s| - |t|
  {
    if |t| < |s| {
      LeadingZero(t);
      if |t| + 1 == |s| {
        SameValue(s, "0" + t);
      } else {
        NotLonger(s, "0" + t);
      }
    }
  }

  lemma {:induction false} PaddedIsUnique(s: string, t: string, width: nat)
    requires Padded(s, width) && Padded(t, width) && Value(s) == Value(t)
    ensures s == t
  {
    if |s| > |t| {
      NotLonger(s, t);
    }
    if |t| > |s| {
      NotLonger(t, s);
    }
    SameValue(s, t);
  }

  /** `%03d`: three places, the sign among them, filled up with zeros and exceeded only as far as needed. */
  predicate ThreePlaces(s: string, n: int) {
    if n < 0 then s != "" && s[0] == '-' && Padded(s[1..], 2) && Value(s[1..]) == -n
    else Padded(s, 3) && Value(s) == n
  }

  lemma {:induction false} PaddedIff(s: string, m: nat, width: nat)
    requires width > 0
    ensures s == PadLeft(Digits(m), width) <==> Padded(s, width) && Value(s) == m
  {
    DigitsValue(m);
    DigitsStart(m);
    PadLeftValue(Digits(m), width);
    PadLeftIsPadded(Digits(m), width);
    if Padded(s, width) && Value(s) == m {
      PaddedIsUnique(s, PadLeft(Digits(m), width), width);
    }
  }

  /** There is one such text for each number, and it is the one printed. */
  lemma {:induction false} Format03Iff(s: string, n: int)
    ensures s == Format03(n) <==> ThreePlaces(s, n)
  {
    if n < 0 {
      var digits := PadLeft(Digits(-n), 2);
      assert ("-" + digits)[1..] == digits;
      if s != "" && s[0] == '-' {
        assert s == "-" + s[1..];
        PaddedIff(s[1..], -n, 2);
      }
    } else {
      PaddedIff(s, n, 3);
    }
  }
}
