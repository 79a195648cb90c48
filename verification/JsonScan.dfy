/**
  What the recognizer accepts, as functions from the text ahead to the text left over, and its agreement with the
  grammar.
 */
module JsonScan {
  import opened Wrappers
  import opened JsonGrammar

  const MAX_DEPTH := 16

  type Scan = Option<Text>

  function SkipSpace(s: Text): (rest: Text)
    ensures |rest| <= |s| && (rest == [] || !IsSpace(rest[0]))
  {
    if s != [] && IsSpace(s[0]) then SkipSpace(s[1..]) else s
  }

  function SkipDigits(s: Text): (rest: Text)
    ensures |rest| <= |s| && (rest == [] || !IsDigit(rest[0]))
  {
    if s != [] && IsDigit(s[0]) then SkipDigits(s[1..]) else s
  }

  predicate Starts(s: Text, u: Unit) { s != [] && s[0] == u }

  // ----- strings -----

  /** The decoded string and the text behind its closing quote; s begins behind the opening quote. */
  function ScanItems(s: Text): (r: Option<(Text, Text)>)
    ensures r.Some? ==> |r.value.1| < |s|
  {
    if s == [] || s[0] < 0x20 then None
    else if s[0] == QUOTE then Some(([], s[1..]))
    else if s[0] != BACKSLASH then Decode(Plain(s[0]), ScanItems(s[1..]))
    else if |s| >= 6 && s[1] == LOWER_U && IsHex(s[2]) && IsHex(s[3]) && IsHex(s[4]) && IsHex(s[5]) then
      Decode(Hex(s[2], s[3], s[4], s[5]), ScanItems(s[6..]))
    else if |s| >= 2 && IsEscapeLetter(s[1]) then Decode(Escape(s[1]), ScanItems(s[2..]))
    else None
  }

  function Decode(i: Item, r: Option<(Text, Text)>): Option<(Text, Text)>
    requires ValidItem(i)
  {
    if r.Some? then Some(([Decoded(i)] + r.value.0, r.value.1)) else None
  }

  function ScanString(s: Text): (r: Option<(Text, Text)>)
    ensures r.Some? ==> |r.value.1| < |s|
  {
    if Starts(s, QUOTE) then ScanItems(s[1..]) else None
  }

  lemma Regroup<T>(a: seq<T>, b: seq<T>, c: seq<T>)
    ensures (a + b) + c == a + (b + c)
  {
  }

  lemma NextDecoded(first: Item, more: Name, all: Name)
    requires ValidItem(first) && all == [first] + more
    ensures DecodedName(all) == [Decoded(first)] + DecodedName(more)
  {
  }

  lemma ItemScan(i: Item, tail: Text)
    requires ValidItem(i)
    ensures ScanItems(ItemText(i) + tail) == Decode(i, ScanItems(tail))
  {
    var s := ItemText(i) + tail;
    assert s[|ItemText(i)|..] == tail;
    match i
    case Plain(u) =>
    case Escape(letter) => assert s[0] == BACKSLASH && s[1] == letter;
    case Hex(a, b, c, d) =>
        assert s[0] == BACKSLASH && s[1] == LOWER_U && s[2] == a && s[3] == b && s[4] == c && s[5] == d;
  }

  lemma {:induction false} ItemsScan(items: Name, rest: Text)
    ensures ScanItems(ItemsText(items) + ([QUOTE] + rest)) == Some((DecodedName(items), rest))
  {
    if items == [] {
      assert ItemsText(items) + ([QUOTE] + rest) == [QUOTE] + rest && ([QUOTE] + rest)[1..] == rest &&
          DecodedName(items) == [];
    } else {
      hide ScanItems, ItemText, Decoded, ValidItem, DecodedName;
      var more: Name := items[1..];
      ItemsScan(more, rest);
      ItemScan(items[0], ItemsText(more) + ([QUOTE] + rest));
      Regroup(ItemText(items[0]), ItemsText(more), [QUOTE] + rest);
      NextDecoded(items[0], more, items);
    }
  }

  lemma StringScan(name: Name, rest: Text)
    ensures ScanString(StringText(name) + rest) == Some((DecodedName(name), rest))
  {
    ItemsScan(name, rest);
    assert (StringText(name) + rest)[1..] == ItemsText(name) + ([QUOTE] + rest);
  }

  lemma FirstItem(s: Text) returns (i: Item)
    requires ScanItems(s).Some? && s[0] != QUOTE
    ensures ValidItem(i) && |ItemText(i)| <= |s| && s == ItemText(i) + s[|ItemText(i)|..]
    ensures ScanItems(s) == Decode(i, ScanItems(s[|ItemText(i)|..]))
  {
    i := if s[0] != BACKSLASH then Plain(s[0]) else if s[1] == LOWER_U then Hex(s[2], s[3], s[4], s[5])
        else Escape(s[1]);
  }

  lemma {:induction false} ItemsSound(s: Text) returns (items: Name)
    requires ScanItems(s).Some?
    ensures s == ItemsText(items) + ([QUOTE] + ScanItems(s).value.1) && ScanItems(s).value.0 == DecodedName(items)
    decreases |s|
  {
    if s[0] == QUOTE {
      items := [];
      assert s == [s[0]] + s[1..] && ItemsText(items) + s == s;
    } else {
      var first := FirstItem(s);
      hide ScanItems, ItemText, Decoded, ValidItem, DecodedName;
      var more := ItemsSound(s[|ItemText(first)|..]);
      items := [first] + more;
      assert items[1..] == more;
      NextDecoded(first, more, items);
      Regroup(ItemText(first), ItemsText(more), [QUOTE] + ScanItems(s).value.1);
    }
  }

  lemma StringSound(s: Text) returns (name: Name)
    requires ScanString(s).Some?
    ensures s == StringText(name) + ScanString(s).value.1 && ScanString(s).value.0 == DecodedName(name)
  {
    name := ItemsSound(s[1..]);
    hide ScanItems, ItemsText, DecodedName;
    assert s == [QUOTE] + s[1..];
    Regroup([QUOTE], ItemsText(name), [QUOTE] + ScanString(s).value.1);
    Regroup([QUOTE] + ItemsText(name), [QUOTE], ScanString(s).value.1);
  }

  // ----- numbers -----

  function ScanWhole(s: Text): (r: Scan)
    ensures r.Some? ==> |r.value| < |s|
  {
    if s == [] || !IsDigit(s[0]) then None else if s[0] == ZERO then Some(s[1..]) else Some(SkipDigits(s[1..]))
  }

  /** An optional part that does not match is no part. */
  function ScanFraction(s: Text): (rest: Text)
    ensures |rest| <= |s|
  {
    if |s| >= 2 && s[0] == POINT && IsDigit(s[1]) then SkipDigits(s[2..]) else s
  }

  function ScanExponent(s: Text): (rest: Text)
    ensures |rest| <= |s|
  {
    if s == [] || !IsExponentMark(s[0]) then s
    else
      var digits := if |s| >= 2 && IsSign(s[1]) then s[2..] else s[1..];
      if digits != [] && IsDigit(digits[0]) then SkipDigits(digits[1..]) else s
  }

  function ScanNumber(s: Text): (r: Scan)
    ensures r.Some? ==> |r.value| < |s|
  {
    var whole := ScanWhole(if Starts(s, MINUS) then s[1..] else s);
    if whole.Some? then Some(ScanExponent(ScanFraction(whole.value))) else None
  }

  /** Text behind a value: nothing, or something that cannot belong to it. */
  predicate Follows(rest: Text) { rest == [] || IsSpace(rest[0]) || rest[0] in {COMMA, CLOSE_BRACE, CLOSE_BRACKET} }

  lemma {:induction false} DigitsScan(digits: Text, rest: Text)
    requires AllDigits(digits) && (rest == [] || !IsDigit(rest[0]))
    ensures SkipDigits(digits + rest) == rest
  {
    if digits == [] {
      assert digits + rest == rest;
    } else {
      DigitsScan(digits[1..], rest);
      assert (digits + rest)[1..] == digits[1..] + rest;
    }
  }

  lemma WholeScan(whole: Text, rest: Text)
    requires ValidWhole(whole) && (rest == [] || !IsDigit(rest[0]))
    ensures ScanWhole(whole + rest) == Some(rest)
  {
    DigitsScan(whole[1..], rest);
    assert (whole + rest)[1..] == whole[1..] + rest;
    if whole[0] == ZERO { assert whole[1..] + rest == rest; }
  }

  lemma FractionScan(fraction: Option<Text>, rest: Text)
    requires fraction.Some? ==> fraction.value != [] && AllDigits(fraction.value)
    requires rest == [] || (!IsDigit(rest[0]) && rest[0] != POINT)
    ensures ScanFraction(FractionText(fraction) + rest) == rest
  {
    if fraction.Some? {
      var digits := fraction.value;
      DigitsScan(digits[1..], rest);
      assert (FractionText(fraction) + rest)[2..] == digits[1..] + rest;
    } else {
      assert [] + rest == rest;
    }
  }

  lemma SignedExponentScan(mark: Unit, sign: Unit, digits: Text, rest: Text)
    requires IsExponentMark(mark) && IsSign(sign) && digits != [] && AllDigits(digits) && Follows(rest)
    ensures ScanExponent([mark] + [sign] + digits + rest) == rest
  {
    var s := [mark] + [sign] + digits + rest;
    assert s[2..] == digits + rest && s[2..][1..] == digits[1..] + rest;
    DigitsScan(digits[1..], rest);
  }

  lemma BareExponentScan(mark: Unit, digits: Text, rest: Text)
    requires IsExponentMark(mark) && digits != [] && AllDigits(digits) && Follows(rest)
    ensures ScanExponent([mark] + [] + digits + rest) == rest
  {
    var s := [mark] + [] + digits + rest;
    assert s[1..] == digits + rest && s[1..][1..] == digits[1..] + rest;
    DigitsScan(digits[1..], rest);
  }

  lemma ExponentScan(exponent: Option<Exponent>, rest: Text)
    requires ValidNumeral(Numeral(false, [ZERO], None, exponent)) && Follows(rest)
    ensures ScanExponent(ExponentText(exponent) + rest) == rest
  {
    if exponent.None? {
      assert ExponentText(exponent) + rest == rest;
    } else {
      hide ScanExponent;
      var e := exponent.value;
      if e.sign.Some? {
        SignedExponentScan(e.mark, e.sign.value, e.digits, rest);
      } else {
        BareExponentScan(e.mark, e.digits, rest);
      }
    }
  }

  lemma ExponentStart(exponent: Option<Exponent>, rest: Text)
    requires ValidNumeral(Numeral(false, [ZERO], None, exponent)) && Follows(rest)
    ensures var s := ExponentText(exponent) + rest; s == [] || (!IsDigit(s[0]) && s[0] != POINT)
  {
  }

  lemma FractionStart(fraction: Option<Text>, rest: Text)
    requires rest == [] || !IsDigit(rest[0])
    ensures var s := FractionText(fraction) + rest; s == [] || !IsDigit(s[0])
  {
  }

  lemma NumeralParts(n: Numeral, rest: Text)
    ensures NumeralText(n) + rest ==
            (if n.minus then [MINUS] else [])
                + (n.whole + (FractionText(n.fraction) + (ExponentText(n.exponent) + rest)))
  {
    hide FractionText, ExponentText;
    var sign := if n.minus then [MINUS] else [];
    Regroup(FractionText(n.fraction), ExponentText(n.exponent), rest);
    Regroup(n.whole, FractionText(n.fraction) + ExponentText(n.exponent), rest);
    Regroup(sign, n.whole + (FractionText(n.fraction) + ExponentText(n.exponent)), rest);
  }

  lemma NumberScan(n: Numeral, rest: Text)
    requires ValidNumeral(n) && Follows(rest)
    ensures ScanNumber(NumeralText(n) + rest) == Some(rest)
  {
    hide ScanWhole, ScanFraction, ScanExponent, ExponentText, FractionText;
    var exponent := ExponentText(n.exponent) + rest;
    var fraction := FractionText(n.fraction) + exponent;
    var unsigned := n.whole + fraction;
    NumeralParts(n, rest);
    assert if n.minus then (NumeralText(n) + rest)[1..] == unsigned
        else NumeralText(n) + rest == unsigned && unsigned[0] == n.whole[0];
    ExponentStart(n.exponent, rest);
    FractionStart(n.fraction, exponent);
    WholeScan(n.whole, fraction);
    FractionScan(n.fraction, exponent);
    ExponentScan(n.exponent, rest);
  }

  lemma {:induction false} DigitsSound(s: Text) returns (digits: Text)
    ensures AllDigits(digits) && s == digits + SkipDigits(s)
    decreases |s|
  {
    digits := [];
    if s != [] && IsDigit(s[0]) {
      var more := DigitsSound(s[1..]);
      digits := [s[0]] + more;
      assert s == [s[0]] + s[1..];
    } else {
      assert s == [] + s;
    }
  }

  lemma FractionSound(s: Text) returns (fraction: Option<Text>)
    ensures fraction.Some? ==> fraction.value != [] && AllDigits(fraction.value)
    ensures s == FractionText(fraction) + ScanFraction(s)
  {
    fraction := None;
    if |s| >= 2 && s[0] == POINT && IsDigit(s[1]) {
      var digits := DigitsSound(s[2..]);
      fraction := Some([s[1]] + digits);
      assert s == [s[0]] + ([s[1]] + s[2..]);
    } else {
      assert s == [] + s;
    }
  }

  lemma SignedExponentSound(s: Text) returns (e: Exponent)
    requires |s| >= 3 && IsExponentMark(s[0]) && IsSign(s[1]) && IsDigit(s[2])
    ensures ValidNumeral(Numeral(false, [ZERO], None, Some(e))) && s == ExponentText(Some(e)) + SkipDigits(s[2..][1..])
  {
    var digits := DigitsSound(s[2..][1..]);
    e := Exponent(s[0], Some(s[1]), [s[2]] + digits);
    hide SkipDigits;
    assert s == [s[0]] + [s[1]] + ([s[2]] + s[2..][1..]);
    Regroup([s[2]], digits, SkipDigits(s[2..][1..]));
    Regroup([s[0]] + [s[1]], [s[2]] + digits, SkipDigits(s[2..][1..]));
  }

  lemma BareExponentSound(s: Text) returns (e: Exponent)
    requires |s| >= 2 && IsExponentMark(s[0]) && IsDigit(s[1])
    ensures ValidNumeral(Numeral(false, [ZERO], None, Some(e))) && s == ExponentText(Some(e)) + SkipDigits(s[1..][1..])
  {
    var digits := DigitsSound(s[1..][1..]);
    e := Exponent(s[0], None, [s[1]] + digits);
    hide SkipDigits;
    assert s == [s[0]] + [] + ([s[1]] + s[1..][1..]);
    Regroup([s[1]], digits, SkipDigits(s[1..][1..]));
    Regroup([s[0]] + [], [s[1]] + digits, SkipDigits(s[1..][1..]));
  }

  lemma ExponentSound(s: Text) returns (exponent: Option<Exponent>)
    ensures ValidNumeral(Numeral(false, [ZERO], None, exponent))
    ensures s == ExponentText(exponent) + ScanExponent(s)
  {
    hide SkipDigits, ExponentText;
    exponent := None;
    if ScanExponent(s) == s {
      NoExponent(s);
    } else if |s| >= 2 && IsSign(s[1]) {
      var e := SignedExponentSound(s);
      exponent := Some(e);
    } else {
      var e := BareExponentSound(s);
      exponent := Some(e);
    }
  }

  lemma NoExponent(s: Text)
    ensures s == ExponentText(None) + s
  {
  }

  lemma WholeSound(s: Text) returns (whole: Text)
    requires ScanWhole(s).Some?
    ensures ValidWhole(whole) && s == whole + ScanWhole(s).value
  {
    whole := [s[0]];
    HeadAndRest(s);
    hide SkipDigits;
    if s[0] != ZERO {
      var more := DigitsSound(s[1..]);
      Regroup(whole, more, SkipDigits(s[1..]));
      whole := whole + more;
    }
  }

  lemma HeadAndRest(s: Text)
    requires s != []
    ensures s == [s[0]] + s[1..]
  {
  }

  lemma NumberSound(s: Text) returns (n: Numeral)
    requires ScanNumber(s).Some?
    ensures ValidNumeral(n) && s == NumeralText(n) + ScanNumber(s).value
  {
    hide ScanWhole, ScanFraction, ScanExponent, ExponentText, FractionText;
    var minus := Starts(s, MINUS);
    var unsigned := if minus then s[1..] else s;
    var whole := WholeSound(unsigned);
    var fractionAt := ScanWhole(unsigned).value;
    var fraction := FractionSound(fractionAt);
    var exponent := ExponentSound(ScanFraction(fractionAt));
    n := Numeral(minus, whole, fraction, exponent);
    NumeralParts(n, ScanNumber(s).value);
    assert s == (if minus then [MINUS] else []) + unsigned;
  }
}
