/** The string helpers of the library module: the `#0025` id label and
    first-letter capitalisation. */
module Utils {
  import opened Common

  /** Width that `formatId` pads the decimal digits of an id to. */
  const IdWidth: nat := 4

  predicate IsDigit(c: char) { '0' <= c <= '9' }

  function DigitChar(d: nat): (c: char)
    requires d < 10
    ensures IsDigit(c) && c as int - '0' as int == d
  {
    ('0' as int + d) as char
  }

  /** `n.toString()` for a natural number: its decimal digits, most significant first. */
  function Decimal(n: nat): (s: string)
    ensures 1 <= |s|
    ensures forall i :: 0 <= i < |s| ==> IsDigit(s[i])
    ensures |s| > 1 ==> s[0] != '0'
  {
    if n < 10 then [DigitChar(n)] else Decimal(n / 10) + [DigitChar(n % 10)]
  }

  /** The value of a string of decimal digits (the reading back of `Decimal`). */
  function ParseDecimal(s: string): (n: nat)
    requires forall i :: 0 <= i < |s| ==> IsDigit(s[i])
  {
    if s == [] then 0
    else ParseDecimal(s[..|s| - 1]) * 10 + DigitValue(s[|s| - 1])
  }

  function DigitValue(c: char): (d: nat)
    requires IsDigit(c)
    ensures d < 10 && DigitChar(d) == c
  {
    c as int - '0' as int
  }

  /** `s.padStart(width, pad)`: `pad` repeated in front of `s` up to `width` characters. */
  function PadStart(s: string, width: nat, pad: char): (r: string)
    ensures |r| == if |s| >= width then |s| else width
    ensures r[|r| - |s|..] == s
    ensures forall i :: 0 <= i < |r| - |s| ==> r[i] == pad
  {
    if |s| >= width then s else seq(width - |s|, _ => pad) + s
  }

  /** `formatId(id)`: `'#'` followed by the decimal digits of `id` left-padded with
      `'0'` to four characters. */
  function FormatId(id: nat): (r: string)
    ensures |r| >= 1 && r[0] == '#'
    ensures |r| - 1 == if |Decimal(id)| >= IdWidth then |Decimal(id)| else IdWidth
    ensures r[|r| - |Decimal(id)|..] == Decimal(id)
    ensures forall i :: 1 <= i < |r| - |Decimal(id)| ==> r[i] == '0'
  {
    "#" + PadStart(Decimal(id), IdWidth, '0')
  }

  /** Ids from 1000 on already have four digits: no padding is added. */
  lemma {:induction false} FormatIdUnpadded(id: nat)
    requires id >= 1000
    ensures FormatId(id) == "#" + Decimal(id)
  {
    DecimalLength(id);
  }

  /** Below 1000 an id has at most three digits, so the label is always five characters. */
  lemma {:induction false} FormatIdPadded(id: nat)
    requires id < 1000
    ensures |FormatId(id)| == 1 + IdWidth
    ensures FormatId(id)[1] == '0'
  {
    DecimalLength(id);
  }

  /** The number of decimal digits is at least four exactly from 1000 on. */
  lemma {:induction false} DecimalLength(n: nat)
    ensures |Decimal(n)| >= 4 <==> n >= 1000
    ensures n < 10 <==> |Decimal(n)| == 1
    decreases n
  {
    if n >= 10 {
      DecimalLength(n / 10);
    }
  }

  /** Reading the digits of `formatId(id)` after `'#'` gives back `id`. */
  lemma {:induction false} FormatIdRoundTrip(id: nat)
    ensures forall i :: 1 <= i < |FormatId(id)| ==> IsDigit(FormatId(id)[i])
    ensures ParseDecimal(FormatId(id)[1..]) == id
  {
    var digits := Decimal(id);
    var body := FormatId(id)[1..];
    var k := |body| - |digits|;
    assert body == body[..k] + digits;
    assert forall i :: 0 <= i < k ==> body[i] == '0';
    ParseZeros(body[..k]);
    ParseConcat(body[..k], digits);
    ParseDecimalOfDecimal(id);
  }

  lemma {:induction false} ParseDecimalOfDecimal(n: nat)
    ensures ParseDecimal(Decimal(n)) == n
    decreases n
  {
    if n >= 10 {
      var s := Decimal(n);
      assert s[..|s| - 1] == Decimal(n / 10);
      ParseDecimalOfDecimal(n / 10);
    }
  }

  lemma {:induction false} ParseZeros(z: string)
    requires forall i :: 0 <= i < |z| ==> z[i] == '0'
    ensures ParseDecimal(z) == 0
    decreases |z|
  {
    if z != [] {
      ParseZeros(z[..|z| - 1]);
    }
  }

  /** Leading digits that read as zero do not change the value. */
  lemma {:induction false} ParseConcat(z: string, s: string)
    requires forall i :: 0 <= i < |z| ==> IsDigit(z[i])
    requires forall i :: 0 <= i < |s| ==> IsDigit(s[i])
    requires ParseDecimal(z) == 0
    ensures ParseDecimal(z + s) == ParseDecimal(s)
    decreases |s|
  {
    if s == [] {
      assert z + s == z;
    } else {
      var t := z + s;
      assert t[..|t| - 1] == z + s[..|s| - 1];
      ParseConcat(z, s[..|s| - 1]);
    }
  }

  /** `capitalize(str)`: `''` for the empty string, otherwise the first character
      upper-cased and the rest kept. */
  function Capitalize(s: string): (r: string)
    ensures |r| == |s|
    ensures s != [] ==> r[0] == UpperChar(s[0]) && r[1..] == s[1..]
  {
    if s == "" then "" else [UpperChar(s[0])] + s[1..]
  }

  lemma CapitalizeEmpty()
    ensures Capitalize("") == ""
  {
  }

  lemma CapitalizeIdempotent(s: string)
    ensures Capitalize(Capitalize(s)) == Capitalize(s)
  {
  }
}
