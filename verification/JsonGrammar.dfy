/**
  The JSON texts of sections 2 to 7 of RFC 8259 as concrete syntax trees over UTF-16 code units, except that
  whitespace is anything a JavaScript regular expression calls whitespace.
 */
module JsonGrammar {
  import opened Wrappers

  newtype Unit = x: int | 0 <= x < 0x1_0000
  type Text = seq<Unit>

  const QUOTE: Unit := 0x22
  const BACKSLASH: Unit := 0x5c
  const COMMA: Unit := 0x2c
  const COLON: Unit := 0x3a
  const OPEN_BRACE: Unit := 0x7b
  const CLOSE_BRACE: Unit := 0x7d
  const OPEN_BRACKET: Unit := 0x5b
  const CLOSE_BRACKET: Unit := 0x5d
  const MINUS: Unit := 0x2d
  const PLUS: Unit := 0x2b
  const POINT: Unit := 0x2e
  const ZERO: Unit := 0x30
  const LOWER_U: Unit := 0x75

  const TRUE_TEXT: Text := [0x74, 0x72, 0x75, 0x65]
  const FALSE_TEXT: Text := [0x66, 0x61, 0x6c, 0x73, 0x65]
  const NULL_TEXT: Text := [0x6e, 0x75, 0x6c, 0x6c]

  predicate IsSpace(u: Unit) {
    0x09 <= u <= 0x0d || u == 0x20 || u == 0xa0 || u == 0x1680 || 0x2000 <= u <= 0x200a
    || u == 0x2028 || u == 0x2029 || u == 0x202f || u == 0x205f || u == 0x3000 || u == 0xfeff
  }

  predicate IsDigit(u: Unit) { 0x30 <= u <= 0x39 }

  predicate IsHex(u: Unit) { IsDigit(u) || 0x41 <= u <= 0x46 || 0x61 <= u <= 0x66 }

  predicate IsExponentMark(u: Unit) { u == 0x65 || u == 0x45 }

  predicate IsSign(u: Unit) { u == PLUS || u == MINUS }

  predicate AllSpace(s: Text) { forall i :: 0 <= i < |s| ==> IsSpace(s[i]) }

  predicate AllDigits(s: Text) { forall i :: 0 <= i < |s| ==> IsDigit(s[i]) }

  // ----- strings -----

  datatype Item = Plain(unit: Unit) | Escape(letter: Unit) | Hex(a: Unit, b: Unit, c: Unit, d: Unit)

  predicate IsEscapeLetter(u: Unit) { u in {QUOTE, BACKSLASH, 0x2f, 0x62, 0x66, 0x6e, 0x72, 0x74} }

  /** Section 7 of RFC 8259. */
  predicate ValidItem(i: Item) {
    match i
    case Plain(u) => u >= 0x20 && u != QUOTE && u != BACKSLASH
    case Escape(letter) => IsEscapeLetter(letter)
    case Hex(a, b, c, d) => IsHex(a) && IsHex(b) && IsHex(c) && IsHex(d)
  }

  function ItemText(i: Item): Text {
    match i
    case Plain(u) => [u]
    case Escape(letter) => [BACKSLASH, letter]
    case Hex(a, b, c, d) => [BACKSLASH, LOWER_U, a, b, c, d]
  }

  function HexValue(u: Unit): Unit
    requires IsHex(u)
    ensures HexValue(u) < 16
  {
    if IsDigit(u) then u - 0x30 else if u <= 0x46 then u - 0x37 else u - 0x57
  }

  function Unescaped(letter: Unit): Unit {
    if letter == 0x62 then 0x08 else if letter == 0x66 then 0x0c else if letter == 0x6e then 0x0a
    else if letter == 0x72 then 0x0d else if letter == 0x74 then 0x09 else letter
  }

  function Decoded(i: Item): Unit
    requires ValidItem(i)
  {
    match i
    case Plain(u) => u
    case Escape(letter) => Unescaped(letter)
    case Hex(a, b, c, d) => HexValue(a) * 0x1000 + HexValue(b) * 0x100 + HexValue(c) * 0x10 + HexValue(d)
  }

  type Name = items: seq<Item> | forall i :: 0 <= i < |items| ==> ValidItem(items[i])

  function ItemsText(items: seq<Item>): Text { if items == [] then [] else ItemText(items[0]) + ItemsText(items[1..]) }

  function StringText(name: Name): Text { [QUOTE] + ItemsText(name) + [QUOTE] }

  /** The string a name stands for: names are compared after unescaping. */
  function DecodedName(name: Name): Text { seq(|name|, i requires 0 <= i < |name| => Decoded(name[i])) }

  // ----- numbers -----

  datatype Exponent = Exponent(mark: Unit, sign: Option<Unit>, digits: Text)
  datatype Numeral = Numeral(minus: bool, whole: Text, fraction: Option<Text>, exponent: Option<Exponent>)

  predicate ValidWhole(s: Text) { s != [] && AllDigits(s) && (s[0] == ZERO ==> |s| == 1) }

  /** Section 6 of RFC 8259. */
  predicate ValidNumeral(n: Numeral) {
    && ValidWhole(n.whole)
    && (n.fraction.Some? ==> n.fraction.value != [] && AllDigits(n.fraction.value))
    && (n.exponent.Some? ==>
          var e := n.exponent.value;
          IsExponentMark(e.mark) && (e.sign.Some? ==> IsSign(e.sign.value)) && e.digits != [] && AllDigits(e.digits))
  }

  function FractionText(f: Option<Text>): Text { if f.Some? then [POINT] + f.value else [] }

  function ExponentText(e: Option<Exponent>): Text {
    if e.Some? then [e.value.mark] + (if e.value.sign.Some? then [e.value.sign.value] else []) + e.value.digits else []
  }

  function NumeralText(n: Numeral): Text {
    (if n.minus then [MINUS] else []) + (n.whole + (FractionText(n.fraction) + ExponentText(n.exponent)))
  }

  // ----- values -----

  datatype Value =
    | Literal(name: Text)
    | Number(numeral: Numeral)
    | Str(text: Name)
    | EmptyObject(gap: Text)
    | Object(members: Members)
    | EmptyArray(gap: Text)
    | Array(elements: Elements)

  /** One member and those after it: space, name, space, colon, space, value, space. */
  datatype Members = Member(
    before: Text, name: Name, between: Text, inner: Text, value: Value, after: Text, rest: Option<Members>)

  datatype Elements = Element(before: Text, value: Value, after: Text, rest: Option<Elements>)

  function ValueText(v: Value): Text {
    match v
    case Literal(name) => name
    case Number(numeral) => NumeralText(numeral)
    case Str(text) => StringText(text)
    case EmptyObject(gap) => [OPEN_BRACE] + (gap + [CLOSE_BRACE])
    case Object(members) => [OPEN_BRACE] + MembersText(members)
    case EmptyArray(gap) => [OPEN_BRACKET] + (gap + [CLOSE_BRACKET])
    case Array(elements) => [OPEN_BRACKET] + ElementsText(elements)
  }

  /** Up to and including the closing brace. */
  function MembersText(ms: Members): Text {
    ms.before + (StringText(ms.name) + (ms.between + ([COLON] + (ms.inner + (ValueText(ms.value) + (ms.after +
      match ms.rest
      case None => [CLOSE_BRACE]
      case Some(rest) => [COMMA] + MembersText(rest)))))))
  }

  function ElementsText(es: Elements): Text {
    es.before + (ValueText(es.value) + (es.after +
      match es.rest
      case None => [CLOSE_BRACKET]
      case Some(rest) => [COMMA] + ElementsText(rest)))
  }

  predicate ValidValue(v: Value) {
    match v
    case Literal(name) => name in {TRUE_TEXT, FALSE_TEXT, NULL_TEXT}
    case Number(numeral) => ValidNumeral(numeral)
    case Str(_) => true
    case EmptyObject(gap) => AllSpace(gap)
    case Object(members) => ValidMembers(members)
    case EmptyArray(gap) => AllSpace(gap)
    case Array(elements) => ValidElements(elements)
  }

  predicate ValidMembers(ms: Members) {
    && AllSpace(ms.before) && AllSpace(ms.between) && AllSpace(ms.inner) && AllSpace(ms.after) && ValidValue(ms.value)
    && match ms.rest
       case None => true
       case Some(rest) => ValidMembers(rest)
  }

  predicate ValidElements(es: Elements) {
    && AllSpace(es.before) && AllSpace(es.after) && ValidValue(es.value)
    && match es.rest
       case None => true
       case Some(rest) => ValidElements(rest)
  }

  // ----- what the recognizer asks of a value besides -----

  function Max(a: nat, b: nat): nat { if a < b then b else a }

  /** How many levels lie below the value. */
  function Height(v: Value): nat {
    match v
    case Object(members) => 1 + MembersHeight(members)
    case Array(elements) => 1 + ElementsHeight(elements)
    case _ => 0
  }

  function MembersHeight(ms: Members): nat {
    match ms.rest
    case None => Height(ms.value)
    case Some(rest) => Max(Height(ms.value), MembersHeight(rest))
  }

  function ElementsHeight(es: Elements): nat {
    match es.rest
    case None => Height(es.value)
    case Some(rest) => Max(Height(es.value), ElementsHeight(rest))
  }

  function Names(ms: Members): seq<Text> {
    [DecodedName(ms.name)] +
      match ms.rest
      case None => []
      case Some(rest) => Names(rest)
  }

  ghost predicate Distinct(names: seq<Text>) { forall i, j :: 0 <= i < j < |names| ==> names[i] != names[j] }

  /** Every object in the value has distinct names. */
  ghost predicate DuplicateFree(v: Value) {
    match v
    case Object(members) => Distinct(Names(members)) && MembersDuplicateFree(members)
    case Array(elements) => ElementsDuplicateFree(elements)
    case _ => true
  }

  ghost predicate MembersDuplicateFree(ms: Members) {
    && DuplicateFree(ms.value)
    && match ms.rest
       case None => true
       case Some(rest) => MembersDuplicateFree(rest)
  }

  ghost predicate ElementsDuplicateFree(es: Elements) {
    && DuplicateFree(es.value)
    && match es.rest
       case None => true
       case Some(rest) => ElementsDuplicateFree(rest)
  }
}
