/**
  The dotted IPv4 addresses that network.py takes: four bytes, each in decimal, hexadecimal or
  binary notation, as Python reads integer literals.
 */
module NetworkLaws {
  import opened Network
  import opened Strings
  import opened Wrappers

  predicate Zeros(s: string) { forall i :: 0 <= i < |s| ==> s[i] == '0' }

  predicate Binary(c: char) { c == '0' || c == '1' }

  /** Zeros, a decimal byte without leading zero, or "0x" or "0b", zeros, and the digits. */
  ghost predicate ByteLiteral(s: string) {
    || (s != "" && Zeros(s))
    || (DecOctet(s) && s[0] != '0')
    || (exists z, d :: Prefixed(s, "xX", z, d) && |d| <= 2 && AllOf(d, HexDigit))
    || (exists z, d :: Prefixed(s, "bB", z, d) && |d| <= 8 && AllOf(d, Binary))
  }

  ghost predicate Prefixed(s: string, letters: string, z: string, d: string) {
    |s| > 2 && s[0] == '0' && s[1] in letters && s[2..] == z + d && Zeros(z) && d != ""
  }

  /** h16 = 1*4HEXDIG */
  lemma H16Iff(s: string)
    ensures ValidH16(s) <==>
      |s| in {1, 2, 3, 4} && forall i :: 0 <= i < |s| ==> s[i] in "0123456789" || s[i] in "abcdef" || s[i] in "ABCDEF"
  {
    forall i | 0 <= i < |s|
      ensures HexDigit(s[i]) <==> s[i] in "0123456789" || s[i] in "abcdef" || s[i] in "ABCDEF"
    {
      HexLetters(s[i]);
    }
    hide HexDigit;
  }

  lemma HexLetters(c: char)
    ensures HexDigit(c) <==> c in "0123456789" || c in "abcdef" || c in "ABCDEF"
  {
    if '0' <= c <= '9' { assert "0123456789"[c as nat - 48] == c; }
    if 'a' <= c <= 'f' { assert "abcdef"[c as nat - 97] == c; }
    if 'A' <= c <= 'F' { assert "ABCDEF"[c as nat - 65] == c; }
  }

  // ---- The value of digits ----

  function Power(base: nat, n: nat): nat { if n == 0 then 1 else base * Power(base, n - 1) }

  function DigitValue(c: char): nat
    requires HexDigit(c)
  {
    NumberValue([c], 1)
  }

  lemma LastDigit(s: string, base: nat)
    requires s != "" && AllOf(s, HexDigit)
    ensures AllOf(s[..|s| - 1], HexDigit)
    ensures NumberValue(s, base) == base * NumberValue(s[..|s| - 1], base) + DigitValue(s[|s| - 1])
  {
    assert [s[|s| - 1]][..0] == "";
    assert NumberValue("", 1) == 0;
  }

  lemma {:induction false} ZerosCountNothing(z: string, d: string, base: nat)
    requires Zeros(z) && AllOf(d, HexDigit)
    ensures AllOf(z + d, HexDigit) && NumberValue(z + d, base) == NumberValue(d, base)
    decreases |z| + |d|
  {
    if d != "" {
      assert (z + d)[..|z + d| - 1] == z + d[..|d| - 1];
      ZerosCountNothing(z, d[..|d| - 1], base);
      LastDigit(d, base);
      assert AllOf(z + d, HexDigit);
      LastDigit(z + d, base);
    } else {
      assert z + d == z && d == "";
      if z != "" {
        ZerosCountNothing(z[..|z| - 1], "", base);
        assert z[..|z| - 1] + "" == z[..|z| - 1];
        LastDigit(z, base);
      }
    }
  }

  lemma {:induction false} AtMost(d: string, base: nat)
    requires AllOf(d, HexDigit) && forall i :: 0 <= i < |d| ==> DigitValue(d[i]) < base
    ensures NumberValue(d, base) < Power(base, |d|)
  {
    if d != "" {
      var rest := d[..|d| - 1];
      LastDigit(d, base);
      AtMost(rest, base);
      TimesLess(base, NumberValue(rest, base), Power(base, |rest|), DigitValue(d[|d| - 1]));
    }
  }

  lemma TimesLess(base: nat, a: nat, b: nat, c: nat)
    requires a < b && c < base
    ensures base * a + c < base * b
  {
    assert base * (a + 1) <= base * b;
  }

  lemma {:induction false} AtLeast(d: string, base: nat)
    requires AllOf(d, HexDigit) && d != "" && DigitValue(d[0]) >= 1
    ensures NumberValue(d, base) >= Power(base, |d| - 1)
  {
    LastDigit(d, base);
    var rest := d[..|d| - 1];
    if rest == "" {
      assert NumberValue(rest, base) == 0;
    } else {
      AtLeast(rest, base);
      TimesMonotone(base, Power(base, |rest| - 1), NumberValue(rest, base));
    }
  }

  lemma TimesMonotone(base: nat, a: nat, b: nat)
    requires a <= b
    ensures base * a <= base * b
  {
  }

  lemma DigitValues(c: char)
    ensures HexDigit(c) ==> DigitValue(c) < 16 && (DigitValue(c) == 0 <==> c == '0')
    ensures Digit(c) ==> DigitValue(c) == c as nat - '0' as nat
    ensures Binary(c) ==> DigitValue(c) < 2
  {
    assert [c][..0] == "" && NumberValue("", 1) == 0;
  }

  lemma Powers()
    ensures Power(16, 2) == 256 && Power(2, 8) == 256 && Power(10, 3) == 1000
    ensures Power(16, 1) == 16
  {
    assert Power(16, 1) == 16 * Power(16, 0);
    assert Power(2, 4) == 16;
    assert Power(2, 8) == 2 * (2 * (2 * (2 * Power(2, 4))));
    assert Power(10, 3) == 10 * (10 * (10 * Power(10, 0)));
  }

  lemma {:induction false} PowerGrows(base: nat, m: nat, n: nat)
    requires base >= 1 && m <= n
    ensures Power(base, m) <= Power(base, n)
    decreases n
  {
    if m < n {
      PowerGrows(base, m, n - 1);
      assert Power(base, n - 1) <= base * Power(base, n - 1);
    }
  }

  // ---- One byte ----

  /** Digits are worth less than 256 exactly if no more than k of them follow the zeros. */
  lemma SmallIff(s: string, base: nat, k: nat)
    requires s != "" && AllOf(s, HexDigit) && base >= 2 && k >= 1 && Power(base, k) == 256
    requires forall i :: 0 <= i < |s| ==> DigitValue(s[i]) < base
    ensures NumberValue(s, base) <= 255 <==> exists z, d :: s == z + d && Zeros(z) && 1 <= |d| <= k
  {
    if NumberValue(s, base) <= 255 { SmallHasFew(s, base, k); }
    if z, d :| s == z + d && Zeros(z) && 1 <= |d| <= k { FewIsSmall(z, d, base, k); }
  }

  lemma FewIsSmall(z: string, d: string, base: nat, k: nat)
    requires AllOf(z + d, HexDigit) && base >= 2 && Power(base, k) == 256 && Zeros(z) && |d| <= k
    requires forall i :: 0 <= i < |z + d| ==> DigitValue((z + d)[i]) < base
    ensures NumberValue(z + d, base) <= 255
  {
    forall i | 0 <= i < |d| ensures HexDigit(d[i]) && DigitValue(d[i]) < base { assert d[i] == (z + d)[|z| + i]; }
    hide NumberValue;
    hide Power;
    ZerosCountNothing(z, d, base);
    AtMost(d, base);
    PowerGrows(base, |d|, k);
  }

  lemma SmallHasFew(s: string, base: nat, k: nat)
    requires s != "" && AllOf(s, HexDigit) && base >= 2 && k >= 1 && Power(base, k) == 256
    requires NumberValue(s, base) <= 255
    ensures exists z, d :: s == z + d && Zeros(z) && 1 <= |d| <= k
  {
    hide NumberValue;
    hide Power;
    var (z, d) := Span(s, c => c == '0');
    assert AllOf(d, HexDigit) by { forall i | 0 <= i < |d| ensures HexDigit(d[i]) { assert d[i] == s[|z| + i]; } }
    if d == "" {
      var last := |s| - 1;
      assert s == s[..last] + s[last..] && Zeros(s[..last]) && |s[last..]| == 1;
    } else {
      ZerosCountNothing(z, d, base);
      DigitValues(d[0]);
      AtLeast(d, base);
      if |d| > k { PowerGrows(base, k, |d| - 1); }
      assert s == z + d && Zeros(z) && 1 <= |d| <= k;
    }
  }

  lemma PrefixedSmall(s: string, letters: string, base: nat, k: nat, digit: char -> bool)
    requires |s| > 2 && s[0] == '0' && s[1] in letters && AllOf(s[2..], digit)
    requires forall c :: digit(c) ==> HexDigit(c) && DigitValue(c) < base
    requires base >= 2 && k >= 1 && Power(base, k) == 256
    ensures AllOf(s[2..], HexDigit)
    ensures NumberValue(s[2..], base) <= 255
      <==> exists z, d :: Prefixed(s, letters, z, d) && |d| <= k && AllOf(d, digit)
  {
    var t := s[2..];
    SmallIff(t, base, k);
    if z, d :| t == z + d && Zeros(z) && 1 <= |d| <= k {
      assert forall i :: 0 <= i < |d| ==> d[i] == t[|z| + i];
      assert Prefixed(s, letters, z, d) && |d| <= k && AllOf(d, digit);
    }
    if z, d :| Prefixed(s, letters, z, d) && |d| <= k && AllOf(d, digit) {
      assert t == z + d && Zeros(z) && 1 <= |d| <= k;
    }
  }

  lemma {:induction false} DecimalValue(s: string)
    requires AllOf(s, Digit)
    ensures AllOf(s, HexDigit) && NumberValue(s, 10) == DecValue(s)
  {
    if s != "" {
      DecimalValue(s[..|s| - 1]);
      LastDigit(s, 10);
      DigitValues(s[|s| - 1]);
    }
  }

  lemma DecimalSmall(s: string)
    requires s != "" && AllOf(s, Digit) && s[0] != '0'
    ensures AllOf(s, HexDigit) && (NumberValue(s, 10) <= 255 <==> DecOctet(s))
  {
    DecimalValue(s);
    DecOctetValue(s);
    DigitValues(s[0]);
    Powers();
    if |s| > 3 {
      AtLeast(s, 10);
      PowerGrows(10, 3, |s| - 1);
    }
  }

  ghost predicate IsByte(s: string) { IntLiteral(s).Some? && IntLiteral(s).value <= 255 }

  lemma HexLiteral(s: string)
    requires |s| > 2 && s[0] == '0' && s[1] in "xX"
    ensures IsByte(s) <==> exists z, d :: Prefixed(s, "xX", z, d) && |d| <= 2 && AllOf(d, HexDigit)
    ensures IsByte(s) <==> ByteLiteral(s)
  {
    Powers();
    forall c ensures HexDigit(c) ==> DigitValue(c) < 16 { DigitValues(c); }
    if AllOf(s[2..], HexDigit) { PrefixedSmall(s, "xX", 16, 2, HexDigit); }
    hide DecOctet;
    hide NumberValue;
    NotOther(s);
    if z, d :| Prefixed(s, "xX", z, d) && |d| <= 2 && AllOf(d, HexDigit) { assert AllOf(z + d, HexDigit); }
  }

  lemma BinaryLiteral(s: string)
    requires |s| > 2 && s[0] == '0' && s[1] in "bB"
    ensures IsByte(s) <==> exists z, d :: Prefixed(s, "bB", z, d) && |d| <= 8 && AllOf(d, Binary)
    ensures IsByte(s) <==> ByteLiteral(s)
  {
    Powers();
    forall c ensures Binary(c) ==> HexDigit(c) && DigitValue(c) < 2 { DigitValues(c); }
    if AllOf(s[2..], Binary) { PrefixedSmall(s, "bB", 2, 8, Binary); }
    assert AllOf(s[2..], Binary) <==> AllOf(s[2..], c => c == '0' || c == '1');
    hide DecOctet;
    hide NumberValue;
    NotOther(s);
    if z, d :| Prefixed(s, "bB", z, d) && |d| <= 8 && AllOf(d, Binary) { assert AllOf(z + d, Binary); }
  }

  /** A letter in second place excludes the other notations. */
  lemma NotOther(s: string)
    requires |s| > 2 && s[0] == '0' && s[1] in "xXbB"
    ensures !Zeros(s) && !AllOf(s, Digit) && !(DecOctet(s) && s[0] != '0')
    ensures s[1] in "xX" ==> forall z, d :: !Prefixed(s, "bB", z, d)
    ensures s[1] in "bB" ==> forall z, d :: !Prefixed(s, "xX", z, d)
  {
    assert !Digit(s[1]);
  }

  lemma PlainLiteral(s: string)
    requires !(|s| > 2 && s[0] == '0' && s[1] in "xXbB")
    ensures IsByte(s) <==> ByteLiteral(s)
  {
    forall letters, z, d | letters == "xX" || letters == "bB" ensures !Prefixed(s, letters, z, d) {}
    if s != "" && Zeros(s) {
      ZerosCountNothing(s, "", 10);
      assert s + "" == s && NumberValue("", 10) == 0;
      assert AllOf(s, Digit) && AllOf(s, c => c == '0');
    } else if s != "" && AllOf(s, Digit) && s[0] != '0' {
      DecimalSmall(s);
    } else {
      assert DecOctet(s) ==> AllOf(s, Digit);
    }
  }

  /** int(s, 0) is a byte exactly for these notations. */
  lemma ByteLiteralIff(s: string)
    ensures IsByte(s) <==> ByteLiteral(s)
  {
    if |s| > 2 && s[0] == '0' && s[1] in "xX" {
      HexLiteral(s);
    } else if |s| > 2 && s[0] == '0' && s[1] in "bB" {
      BinaryLiteral(s);
    } else {
      PlainLiteral(s);
    }
  }

  // ---- Four of them ----

  ghost predicate FourBytes(s: string, a: string, b: string, c: string, d: string) {
    ByteLiteral(a) && ByteLiteral(b) && ByteLiteral(c) && ByteLiteral(d) && s == a + "." + b + "." + c + "." + d
  }

  predicate LiteralChar(c: char) { HexDigit(c) || c in "xX" }

  lemma LiteralChars(s: string)
    requires ByteLiteral(s)
    ensures s != "" && AllOf(s, LiteralChar) && '.' !in s && HexDigit(s[0])
  {
    if s != "" && Zeros(s) {
    } else if DecOctet(s) && s[0] != '0' {
    } else if z, d :| Prefixed(s, "xX", z, d) && |d| <= 2 && AllOf(d, HexDigit) {
      PrefixedChars(s, "xX", z, d);
    } else {
      var z, d :| Prefixed(s, "bB", z, d) && |d| <= 8 && AllOf(d, Binary);
      PrefixedChars(s, "bB", z, d);
    }
  }

  lemma PrefixedChars(s: string, letters: string, z: string, d: string)
    requires Prefixed(s, letters, z, d) && AllOf(d, HexDigit) && (letters == "xX" || letters == "bB")
    ensures AllOf(s, LiteralChar) && '.' !in s
  {
    forall i | 0 <= i < |s| ensures LiteralChar(s[i]) {
      if i >= 2 { assert s[i] == (z + d)[i - 2]; }
    }
  }

  /** valid_ipv4_dotdec takes exactly four such bytes. */
  lemma DotDecIff(s: string)
    ensures ValidIPv4DotDec(s) <==> exists a, b, c, d :: FourBytes(s, a, b, c, d)
  {
    if ValidIPv4DotDec(s) { DotDecParts(s); }
    if a, b, c, d :| FourBytes(s, a, b, c, d) { PartsDotDec(s, a, b, c, d); }
  }

  lemma DotDecParts(s: string)
    requires ValidIPv4DotDec(s)
    ensures exists a, b, c, d :: FourBytes(s, a, b, c, d)
  {
    hide ByteLiteral;
    hide IntLiteral;
    var parts := SplitMax(s, '.', 4);
    SplitThenJoin(s, '.', 4);
    forall i | 0 <= i < 4 ensures ByteLiteral(parts[i]) { ByteLiteralIff(parts[i]); }
    assert parts == [parts[0], parts[1], parts[2], parts[3]];
    JoinFour(parts[0], parts[1], parts[2], parts[3]);
    assert FourBytes(s, parts[0], parts[1], parts[2], parts[3]);
  }

  lemma PartsDotDec(s: string, a: string, b: string, c: string, d: string)
    requires FourBytes(s, a, b, c, d)
    ensures ValidIPv4DotDec(s)
  {
    hide ByteLiteral;
    hide IntLiteral;
    JoinFour(a, b, c, d);
    var parts := [a, b, c, d];
    forall i | 0 <= i < 4
      ensures parts[i] != "" && AllOf(parts[i], LiteralChar) && '.' !in parts[i]
      ensures HexDigit(parts[i][0]) && IsByte(parts[i])
    {
      assert parts[i] in [a, b, c, d];
      LiteralChars(parts[i]);
      ByteLiteralIff(parts[i]);
    }
    JoinThenSplit(parts, '.', 4);
    assert AllOf(a, LiteralChar) && AllOf(b, LiteralChar) && AllOf(c, LiteralChar) && AllOf(d, LiteralChar) by {
      assert parts[0] == a && parts[1] == b && parts[2] == c && parts[3] == d;
    }
    forall i | 0 <= i < |s| ensures LiteralChar(s[i]) || s[i] == '.' { CharOfFour(a, b, c, d, i); }
    assert s[0] == parts[0][0];
    assert forall i :: 0 <= i < |s[1..]| ==> s[1..][i] == s[i + 1];
  }

  lemma CharOfFour(a: string, b: string, c: string, d: string, i: nat)
    requires i < |a + "." + b + "." + c + "." + d|
    ensures var x := (a + "." + b + "." + c + "." + d)[i]; x == '.' || x in a || x in b || x in c || x in d
  {
  }

  /** A decimal byte with a zero in front is refused, although the documentation has it taken. */
  lemma LeadingZeroRefused(a: string, b: string, c: string, d: string)
    requires '.' !in a && '.' !in b && '.' !in c && AllOf(d, Digit) && d != "" && d[0] == '0' && !Zeros(d)
    ensures !ValidIPv4DotDec(a + "." + b + "." + c + "." + d)
  {
    JoinFour(a, b, c, d);
    var parts := [a, b, c, d];
    assert '.' !in d;
    JoinThenSplit(parts, '.', 4);
    assert IntLiteral(parts[3]) == None;
  }

  lemma DocumentedAddress()
    ensures !ValidIPv4DotDec("127.0.0" + "." + "01")
  {
    assert "01"[1] == '1';
    LeadingZeroRefused("127", "0", "0", "01");
    assert "127" + "." + "0" + "." + "0" == "127.0.0";
  }
}
