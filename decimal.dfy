/** Decimal text as the C++ standard library reads and writes it:
    std::stoi / std::stol (strtol in base 10 plus a range check) and the
    stream insertion of an integer. */
module Decimal {
  import opened Common

  /** The characters isspace accepts in the "C" locale. */
  predicate IsSpace(c: char)
  {
    c == ' ' || c == '\t' || c == '\n' || c == '\U{B}' || c == '\U{C}' || c == '\r'
  }

  predicate IsDigit(c: char)
  {
    '0' <= c <= '9'
  }

  predicate AllDigits(s: string)
  {
    forall i :: 0 <= i < |s| ==> IsDigit(s[i])
  }

  /** Value of a string of decimal digits, most significant first. */
  function DigitsValue(ds: string): nat
    requires AllDigits(ds)
  {
    if ds == [] then 0 else DigitsValue(ds[..|ds| - 1]) * 10 + (ds[|ds| - 1] as int - '0' as int)
  }

  /** Length of the longest prefix of s made of digits. */
  function DigitRun(s: string): (n: nat)
    ensures n <= |s| && AllDigits(s[..n])
    ensures n < |s| ==> !IsDigit(s[n])
  {
    if s == [] || !IsDigit(s[0]) then 0
    else
      var n := 1 + DigitRun(s[1..]);
      assert s[..n] == [s[0]] + s[1..][..n - 1];
      n
  }

  /** Length of the longest prefix of s made of white space. */
  function SpaceRun(s: string): (n: nat)
    ensures n <= |s|
    ensures forall i :: 0 <= i < n ==> IsSpace(s[i])
    ensures n < |s| ==> !IsSpace(s[n])
  {
    if s == [] || !IsSpace(s[0]) then 0
    else
      var n := 1 + SpaceRun(s[1..]);
      assert forall i :: 1 <= i < n ==> s[i] == s[1..][i - 1];
      n
  }

  /** strtol(s, &end, 10) on unbounded integers: white space, an optional
      sign and the longest run of digits; None when no digit is found
      (end == s). */
  function Strtol(s: string): (r: Option<int>)
    ensures r.None? <==> var t := s[SpaceRun(s)..];
      DigitRun(if |t| > 0 && (t[0] == '-' || t[0] == '+') then t[1..] else t) == 0
  {
    var t := s[SpaceRun(s)..];
    var u := if |t| > 0 && (t[0] == '-' || t[0] == '+') then t[1..] else t;
    var n := DigitRun(u);
    if n == 0 then None
    else
      var v: int := DigitsValue(u[..n]);
      if |t| > 0 && t[0] == '-' then Some(-v) else Some(v)
  }

  const IntMin: int := -0x8000_0000
  const IntMax: int := 0x7FFF_FFFF
  const LongMin: int := -0x8000_0000_0000_0000
  const LongMax: int := 0x7FFF_FFFF_FFFF_FFFF

  /** std::stoi: invalid_argument without digits, out_of_range outside int. */
  function Stoi(s: string): (r: Result<int>)
    ensures r.Ok? ==> Strtol(s) == Some(r.value) && IntMin <= r.value <= IntMax
    ensures r == Err(InvalidArgument) <==> Strtol(s).None?
    ensures r == Err(OutOfRange) <==> Strtol(s).Some? && !(IntMin <= Strtol(s).value <= IntMax)
  {
    match Strtol(s)
    case None => Err(InvalidArgument)
    case Some(v) => if IntMin <= v <= IntMax then Ok(v) else Err(OutOfRange)
  }

  /** std::stol with a 64-bit long. */
  function Stol(s: string): (r: Result<int>)
    ensures r.Ok? ==> Strtol(s) == Some(r.value) && LongMin <= r.value <= LongMax
    ensures r == Err(InvalidArgument) <==> Strtol(s).None?
    ensures r == Err(OutOfRange) <==> Strtol(s).Some? && !(LongMin <= Strtol(s).value <= LongMax)
  {
    match Strtol(s)
    case None => Err(InvalidArgument)
    case Some(v) => if LongMin <= v <= LongMax then Ok(v) else Err(OutOfRange)
  }

  /** The digits of n, as operator<< writes a non-negative integer. */
  function NatToString(n: nat): (s: string)
    ensures |s| >= 1 && AllDigits(s)
  {
    if n < 10 then [('0' as int + n) as char]
    else NatToString(n / 10) + [('0' as int + n % 10) as char]
  }

  /** operator<< on an int: a minus sign before the digits of a negative. */
  function IntToString(i: int): (s: string)
    ensures |s| >= 1 && (s[0] == '-' || IsDigit(s[0]))
    ensures forall k :: 0 <= k < |s| ==> s[k] == '-' || IsDigit(s[k])
  {
    if i < 0 then "-" + NatToString(-i) else NatToString(i)
  }

  /** Reading back the digits of n gives n. */
  lemma {:induction false} NatToStringValue(n: nat)
    ensures DigitsValue(NatToString(n)) == n
  {
    if n >= 10 {
      NatToStringValue(n / 10);
      var s := NatToString(n);
      assert s[..|s| - 1] == NatToString(n / 10);
    }
  }

  /** A run of digits followed by a non-digit (or nothing) is exactly the
      digit run. */
  lemma {:induction false} DigitRunOfPrefix(ds: string, rest: string)
    requires AllDigits(ds) && (rest == [] || !IsDigit(rest[0]))
    ensures DigitRun(ds + rest) == |ds|
  {
    if ds != [] {
      assert (ds + rest)[1..] == ds[1..] + rest;
      DigitRunOfPrefix(ds[1..], rest);
    }
  }

  /** strtol reads a printed integer back, whatever non-digit text follows
      it. */
  lemma StrtolOfIntToString(i: int, rest: string)
    requires rest == [] || !IsDigit(rest[0])
    ensures Strtol(IntToString(i) + rest) == Some(i)
  {
    var s := IntToString(i) + rest;
    assert !IsSpace(s[0]);
    assert s[SpaceRun(s)..] == s;
    var ds := NatToString(if i < 0 then -i else i);
    if i < 0 {
      assert s[1..] == ds + rest;
    } else {
      assert s == ds + rest;
    }
    DigitRunOfPrefix(ds, rest);
    assert (ds + rest)[..|ds|] == ds;
    NatToStringValue(if i < 0 then -i else i);
  }

  /** strtol reads back the printing of any integer. */
  lemma StrtolOfPrinted(i: int)
    ensures Strtol(IntToString(i)) == Some(i)
  {
    StrtolOfIntToString(i, []);
    assert IntToString(i) + [] == IntToString(i);
  }

  /** std::stoi inverts the printing of any int. */
  lemma StoiOfIntToString(i: int)
    requires IntMin <= i <= IntMax
    ensures Stoi(IntToString(i)) == Ok(i)
  {
    StrtolOfPrinted(i);
  }

  /** std::stol inverts the printing of any long. */
  lemma StolOfIntToString(i: int)
    requires LongMin <= i <= LongMax
    ensures Stol(IntToString(i)) == Ok(i)
  {
    StrtolOfPrinted(i);
  }

  /** Leading white space is skipped. */
  lemma StrtolSkipsSpace(c: char, s: string)
    requires IsSpace(c)
    ensures Strtol([c] + s) == Strtol(s)
  {
    var t := [c] + s;
    assert t[1..] == s;
    assert t[SpaceRun(t)..] == s[SpaceRun(s)..];
  }
}
