/** File names of the capture: raw files, final files and the index a handler reads back from a name. */
module CaptureNames {
  import opened Basics

  // ---------------------------------------------------------------- decimal numbers

  function Digit(n: nat): char
    requires n < 10
  {
    '0' + n as char
  }

  predicate IsDigit(c: char) { '0' <= c <= '9' }

  function DigitValue(c: char): nat
    requires IsDigit(c)
  {
    (c - '0') as nat
  }

  /** A number as the shell prints it. */
  function Decimal(n: nat): (s: string)
    ensures s != "" && forall c | c in s :: IsDigit(c)
  {
    if n < 10 then [Digit(n)] else Decimal(n / 10) + [Digit(n % 10)]
  }

  predicate AllDigits(s: string) {
    s != "" && forall c | c in s :: IsDigit(c)
  }

  /** Base-ten value of a digit string, leading zeros allowed. */
  function ValueOf(s: string): nat
    requires forall c | c in s :: IsDigit(c)
  {
    if s == "" then 0 else 10 * ValueOf(s[..|s| - 1]) + DigitValue(s[|s| - 1])
  }

  lemma {:induction false} ValueOfDecimal(n: nat)
    ensures ValueOf(Decimal(n)) == n
  {
    var s := Decimal(n);
    if n < 10 {
      assert s[..0] == "" && ValueOf("") == 0;
    } else {
      assert s[..|s| - 1] == Decimal(n / 10);
      ValueOfDecimal(n / 10);
    }
  }

  /** printf "%02d" */
  function Padded(n: nat): string {
    if n < 10 then "0" + Decimal(n) else Decimal(n)
  }

  lemma ValueOfPadded(n: nat)
    ensures AllDigits(Padded(n)) && ValueOf(Padded(n)) == n
  {
    ValueOfDecimal(n);
    if n < 10 {
      var s := Padded(n);
      assert Decimal(n) == [Digit(n)];
      assert s == ['0', Digit(n)] && s[..1] == "0" && "0"[..0] == "";
      assert ValueOf("0") == 10 * ValueOf("") + 0;
    }
  }

  // ---------------------------------------------------------------- names

  /** The file tcpdump writes as number `i`, and the name the recovery loop looks for. */
  function RawName(mask: string, i: nat): string {
    if i == 0 then mask else mask + Decimal(i)
  }

  function PartName(file: string): string { file + ".xz.part" }

  /** The published file: output mask, "_%02d", and the extension. */
  function FinalName(mask: string, i: nat): string { mask + "_" + Padded(i) + ".xz" }

  // ---------------------------------------------------------------- what the names look like

  function Zeros(k: nat): string {
    if k == 0 then "" else Zeros(k - 1) + "0"
  }

  lemma DigitOfValue(c: char)
    requires IsDigit(c)
    ensures DigitValue(c) < 10 && Digit(DigitValue(c)) == c
  {}

  /** Every digit string is a number as the shell prints it behind zeros, and its value is that number, in base ten. */
  lemma {:induction false} DigitsAreZerosAndANumber(s: string) returns (k: nat)
    requires AllDigits(s)
    ensures s == Zeros(k) + Decimal(ValueOf(s))
    decreases |s|
  {
    var head, last := s[..|s| - 1], s[|s| - 1];
    var n := DigitValue(last);
    assert s == head + [last];
    DigitOfValue(last);
    hide Digit, DigitValue;
    if head == "" {
      return 0;
    }
    k := DigitsAreZerosAndANumber(head);
    var v := ValueOf(head);
    assert ValueOf(s) == 10 * v + n;
    if v == 0 {
      assert Decimal(0) == [Digit(0)] == "0" by { assert Digit(0) == '0' by { ZeroDigit(); } }
      assert Zeros(k + 1) == Zeros(k) + "0";
      k := k + 1;
    } else {
      assert (10 * v + n) / 10 == v && (10 * v + n) % 10 == n;
      assert Decimal(ValueOf(s)) == Decimal(v) + [last];
      assert s == Zeros(k) + (Decimal(v) + [last]);
    }
  }

  lemma ZeroDigit()
    ensures Digit(0) == '0'
  {}

  /** Without leading zeros: the first digit is 0 for 0 only. */
  lemma {:induction false} NoLeadingZero(n: nat)
    ensures Decimal(n)[0] == '0' <==> n == 0
    ensures n == 10 ==> Decimal(n) == "10"
  {
    if n >= 10 { NoLeadingZero(n / 10); }
  }

  /** The names of file `i`: the mask alone for 0, else the mask and the number; at least two digits in the final name. */
  lemma NamesOfAFile(mask: string, i: nat)
    ensures mask <= RawName(mask, i) && mask + "_" <= FinalName(mask, i)
    ensures var suffix := RawName(mask, i)[|mask|..];
            if i == 0 then suffix == "" else AllDigits(suffix) && suffix[0] != '0' && ValueOf(suffix) == i
    ensures exists digits :: FinalName(mask, i) == mask + "_" + digits + ".xz" && AllDigits(digits) && ValueOf(digits) == i
                             && |digits| >= 2 && (|digits| > 2 ==> digits[0] != '0')
    ensures PartName(RawName(mask, i)) == RawName(mask, i) + ".xz.part"
  {
    ValueOfDecimal(i);
    ValueOfPadded(i);
    NoLeadingZero(i);
    if i > 0 { assert RawName(mask, i)[|mask|..] == Decimal(i); }
    LengthOfPadded(i);
    assert FinalName(mask, i) == mask + "_" + Padded(i) + ".xz";
  }

  lemma LengthOfPadded(n: nat)
    ensures |Padded(n)| >= 2 && (|Padded(n)| > 2 ==> Padded(n) == Decimal(n) && n > 0)
  {
    if n < 10 {
      assert Decimal(n) == [Digit(n)];
    } else {
      assert |Decimal(n)| == |Decimal(n / 10)| + 1;
    }
  }

  /** The index a handler decodes from its argument. */
  function GetIndex(mask: string, file: string): Option<nat> {
    if file == mask then Some(0)
    else if !(mask <= file) then None
    else
      var suffix := file[|mask|..];
      if AllDigits(suffix) then Some(ValueOf(suffix)) else None
  }

  /** Every name tcpdump uses decodes to its number: "Cannot get dump index" cannot happen. */
  lemma IndexOfRawName(mask: string, i: nat)
    ensures GetIndex(mask, RawName(mask, i)) == Some(i)
  {
    if i > 0 {
      ValueOfDecimal(i);
      assert RawName(mask, i)[|mask|..] == Decimal(i);
    }
  }

  /** Exactly the mask itself and the mask followed by digits decode; several names may share an index. */
  lemma NamesThatDecode(mask: string, file: string, i: nat)
    ensures GetIndex(mask, file) == Some(i) <==>
            (file == mask && i == 0) || (exists s :: AllDigits(s) && file == mask + s && i == ValueOf(s))
  {}

  lemma NamesAreInjective(mask: string, i: nat, j: nat)
    ensures RawName(mask, i) == RawName(mask, j) ==> i == j
    ensures FinalName(mask, i) == FinalName(mask, j) ==> i == j
    ensures PartName(RawName(mask, i)) == PartName(RawName(mask, j)) ==> i == j
  {
    IndexOfRawName(mask, i);
    IndexOfRawName(mask, j);
    ValueOfPadded(i);
    ValueOfPadded(j);
    if FinalName(mask, i) == FinalName(mask, j) {
      var n := |mask + "_"|;
      assert |Padded(i)| == |FinalName(mask, i)| - n - 3;
      assert FinalName(mask, i)[n..n + |Padded(i)|] == Padded(i);
      assert FinalName(mask, j)[n..n + |Padded(j)|] == Padded(j);
    }
    if PartName(RawName(mask, i)) == PartName(RawName(mask, j)) {
      var s, t := PartName(RawName(mask, i)), PartName(RawName(mask, j));
      assert s[..|s| - 8] == RawName(mask, i) && t[..|t| - 8] == RawName(mask, j);
    }
  }

  /** A partial file is never taken for a raw file, whatever raw file it belongs to. */
  lemma PartNamesDoNotDecode(mask: string, i: nat)
    ensures GetIndex(mask, PartName(RawName(mask, i))) == None
  {
    var file := PartName(RawName(mask, i));
    assert file[|file| - 1] == 't';
    assert 't' in file[|mask|..] && !IsDigit('t') by {
      assert file[|mask|..][|file| - |mask| - 1] == 't';
    }
    assert mask <= file && !AllDigits(file[|mask|..]);
  }
}
