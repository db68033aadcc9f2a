/** The two input masks of the contract wizard: the resident registration
    number `######-#######` and the phone number `###-####-####`. Both first
    keep only the digits of what was typed. */
module Formatters {
  import opened Text

  function Min(a: int, b: int): int {
    if a <= b then a else b
  }

  /** Joining two digit strings with a hyphen keeps exactly their digits. */
  lemma {:induction false} DigitsOfHyphenated(a: string, b: string)
    requires AllDigits(a) && AllDigits(b)
    ensures Digits(a + "-" + b) == a + b
  {
    var ah := a + "-";
    DigitsAppend(ah, b);
    DigitsAppend(a, "-");
    DigitsOfDigits(a);
    DigitsOfDigits(b);
    DigitsOfHyphen();
    calc {
      Digits(a + "-" + b);
      Digits(ah) + Digits(b);
      (Digits(a) + Digits("-")) + b;
      a + b;
    }
  }

  /** Joining three digit strings with hyphens keeps exactly their digits. */
  lemma {:induction false} DigitsOfHyphenated3(a: string, b: string, c: string)
    requires AllDigits(a) && AllDigits(b) && AllDigits(c)
    ensures Digits(a + "-" + b + "-" + c) == a + b + c
  {
    var x := a + "-" + b;
    DigitsOfHyphenated(a, b);
    DigitsAppend(x + "-", c);
    DigitsAppend(x, "-");
    DigitsOfDigits(c);
    DigitsOfHyphen();
    calc {
      Digits(a + "-" + b + "-" + c);
      Digits(x + "-") + Digits(c);
      (Digits(x) + Digits("-")) + c;
      a + b + c;
    }
  }

  /** `formatResidentNumber`: up to six digits as typed, then a hyphen and at
      most seven more digits. */
  function FormatResidentNumber(value: string): (r: string)
    ensures |r| <= 14
    ensures forall i :: 0 <= i < |r| && i != 6 ==> IsDigit(r[i])
    ensures |r| > 6 ==> r[6] == '-'
    ensures Digits(r) == Digits(value)[..Min(|Digits(value)|, 13)]
    ensures |Digits(value)| <= 6 ==> r == Digits(value)
  {
    var d := Digits(value);
    if |d| <= 6 then
      DigitsOfDigits(d);
      d
    else
      var head, tail := d[..6], d[6..Min(13, |d|)];
      DigitsOfHyphenated(head, tail);
      assert head + tail == d[..Min(|d|, 13)];
      head + "-" + tail
  }

  /** The mask is idempotent: re-formatting a formatted number changes nothing. */
  lemma ResidentNumberIdempotent(value: string)
    ensures FormatResidentNumber(FormatResidentNumber(value)) == FormatResidentNumber(value)
  {
    var d := Digits(value);
    var r := FormatResidentNumber(value);
    var d' := Digits(r);
    if |d| > 6 {
      assert d'[..6] == d[..6];
      assert d'[6..Min(13, |d'|)] == d[6..Min(13, |d|)];
    }
  }

  /** The length check of the first wizard step passes exactly for a full
      thirteen-digit number. */
  lemma ResidentNumberComplete(value: string)
    ensures |FormatResidentNumber(value)| >= 14 <==> |Digits(value)| >= 13
    ensures |FormatResidentNumber(value)| >= 14 ==> |Digits(FormatResidentNumber(value))| == 13
  {
  }

  /** Up to three digits, as typed. */
  predicate ShortPhoneShape(r: string) {
    |r| <= 3 && AllDigits(r)
  }

  /** `ddd-d`, `ddd-dd`, `ddd-ddd` or `ddd-dddd`. */
  predicate TwoPartPhoneShape(r: string) {
    5 <= |r| <= 8 && AllDigits(r[..3]) && r[3] == '-' && AllDigits(r[4..])
  }

  /** `ddd-dddd-d` up to `ddd-dddd-dddd`. */
  predicate ThreePartPhoneShape(r: string) {
    10 <= |r| <= 13 && AllDigits(r[..3]) && r[3] == '-' && AllDigits(r[4..8])
    && r[8] == '-' && AllDigits(r[9..])
  }

  /** `formatPhoneNumber`. Its output has exactly one of the three shapes
      (their lengths do not overlap), chosen by the number of digits typed,
      and carries the first eleven of those digits at most. */
  function FormatPhoneNumber(value: string): (r: string)
    ensures |r| <= 13
    ensures ShortPhoneShape(r) <==> |Digits(value)| <= 3
    ensures TwoPartPhoneShape(r) <==> 4 <= |Digits(value)| <= 7
    ensures ThreePartPhoneShape(r) <==> 8 <= |Digits(value)|
    ensures Digits(r) == Digits(value)[..Min(|Digits(value)|, 11)]
  {
    var d := Digits(value);
    if |d| <= 3 then
      DigitsOfDigits(d);
      d
    else if |d| <= 7 then
      var area, rest := d[..3], d[3..];
      DigitsOfHyphenated(area, rest);
      assert area + rest == d;
      var r := area + "-" + rest;
      assert r[..3] == area && r[4..] == rest;
      r
    else
      var area, mid, last := d[..3], d[3..7], d[7..Min(11, |d|)];
      DigitsOfHyphenated3(area, mid, last);
      assert area + mid + last == d[..Min(|d|, 11)];
      var r := area + "-" + mid + "-" + last;
      assert r[..3] == area && r[4..8] == mid && r[9..] == last;
      r
  }

  /** The mask is idempotent: re-formatting a formatted number changes nothing. */
  lemma PhoneNumberIdempotent(value: string)
    ensures FormatPhoneNumber(FormatPhoneNumber(value)) == FormatPhoneNumber(value)
  {
    var d := Digits(value);
    var r := FormatPhoneNumber(value);
    var d' := Digits(r);
    if 3 < |d| <= 7 {
      assert d'[..3] == d[..3] && d'[3..] == d[3..];
    } else if |d| > 7 {
      assert d'[..3] == d[..3] && d'[3..7] == d[3..7];
      assert d'[7..Min(11, |d'|)] == d[7..Min(11, |d|)];
    }
  }

  /** The length check of the first wizard step passes exactly when ten or
      eleven digits were typed. */
  lemma PhoneNumberComplete(value: string)
    ensures |FormatPhoneNumber(value)| >= 12 <==> |Digits(value)| >= 10
  {
  }
}
