/** The recognizer of duplicate-free JSON: a recursive descent with one shared cursor and a depth limit. */
module JsonRecognizer {
  import opened Wrappers
  import opened JsonGrammar
  import opened JsonScan

  // ----- accepted values, as functions from the text ahead to the text left over -----

  function ScanValue(s: Text, depth: nat): (r: Scan)
    ensures r.Some? ==> |r.value| < |s|
    decreases |s|, 1
  {
    var t := SkipSpace(s);
    if depth > MAX_DEPTH || t == [] then None
    else if t[0] == OPEN_BRACE then
      var u := SkipSpace(t[1..]);
      if Starts(u, CLOSE_BRACE) then Some(u[1..]) else ScanMembers(t[1..], depth, {})
    else if t[0] == OPEN_BRACKET then
      var u := SkipSpace(t[1..]);
      if Starts(u, CLOSE_BRACKET) then Some(u[1..]) else ScanElements(t[1..], depth)
    else ScanScalar(t)
  }

  function ScanScalar(t: Text): (r: Scan)
    ensures r.Some? ==> |r.value| < |t|
  {
    if Starts(t, QUOTE) then
      var quoted := ScanString(t);
      if quoted.Some? then Some(quoted.value.1) else None
    else if TRUE_TEXT <= t then Some(t[4..])
    else if FALSE_TEXT <= t then Some(t[5..])
    else if NULL_TEXT <= t then Some(t[4..])
    else ScanNumber(t)
  }

  /** A name that is new, and its colon. */
  function ScanName(s: Text, keys: set<Text>): (r: Option<(Text, Text)>)
    ensures r.Some? ==> |r.value.1| < |s|
  {
    var quoted := ScanString(SkipSpace(s));
    if quoted == None || quoted.value.0 in keys then None
    else
      var t := SkipSpace(quoted.value.1);
      if Starts(t, COLON) then Some((quoted.value.0, t[1..])) else None
  }

  function ScanMembers(s: Text, depth: nat, keys: set<Text>): (r: Scan)
    ensures r.Some? ==> |r.value| < |s|
    decreases |s|, 0
  {
    var name := ScanName(s, keys);
    if name == None then None
    else
      var value := ScanValue(name.value.1, depth + 1);
      if value == None then None
      else
        var t := SkipSpace(value.value);
        if Starts(t, CLOSE_BRACE) then Some(t[1..])
        else if Starts(t, COMMA) then ScanMembers(t[1..], depth, keys + {name.value.0})
        else None
  }

  function ScanElements(s: Text, depth: nat): (r: Scan)
    ensures r.Some? ==> |r.value| < |s|
    decreases |s|, 2
  {
    var value := ScanValue(s, depth + 1);
    if value == None then None
    else
      var t := SkipSpace(value.value);
      if Starts(t, CLOSE_BRACKET) then Some(t[1..])
      else if Starts(t, COMMA) then ScanElements(t[1..], depth)
      else None
  }

  function Accepts(text: Text): bool {
    var r := ScanValue(text, 0);
    r.Some? && SkipSpace(r.value) == []
  }

  // ----- every text of the grammar is judged by its value -----

  ghost predicate ValueFits(v: Value, depth: nat) { depth + Height(v) <= MAX_DEPTH && DuplicateFree(v) }

  ghost predicate MembersFit(ms: Members, depth: nat, keys: set<Text>) {
    && depth + 1 + MembersHeight(ms) <= MAX_DEPTH && MembersDuplicateFree(ms)
    && Distinct(Names(ms)) && forall i :: 0 <= i < |Names(ms)| ==> Names(ms)[i] !in keys
  }

  ghost predicate ElementsFit(es: Elements, depth: nat) {
    depth + 1 + ElementsHeight(es) <= MAX_DEPTH && ElementsDuplicateFree(es)
  }

  lemma {:induction false} SpaceScan(space: Text, rest: Text)
    requires AllSpace(space)
    ensures SkipSpace(space + rest) == SkipSpace(rest)
  {
    if space == [] {
      assert space + rest == rest;
    } else {
      assert (space + rest)[1..] == space[1..] + rest;
      SpaceScan(space[1..], rest);
    }
  }

  /** A value text begins with what its kind begins with. */
  lemma ValueStarts(v: Value, rest: Text)
    requires ValidValue(v)
    ensures var t := ValueText(v) + rest;
            && t != [] && !IsSpace(t[0])
            && (t[0] == OPEN_BRACE <==> v.EmptyObject? || v.Object?)
            && (t[0] == OPEN_BRACKET <==> v.EmptyArray? || v.Array?)
            && (t[0] == QUOTE <==> v.Str?)
            && t[0] !in {CLOSE_BRACE, CLOSE_BRACKET}
  {
  }

  lemma ScalarScan(v: Value, rest: Text)
    requires ValidValue(v) && (v.Literal? || v.Number? || v.Str?) && Follows(rest)
    ensures ScanScalar(ValueText(v) + rest) == Some(rest)
  {
    var t := ValueText(v) + rest;
    match v
    case Str(text) => StringScan(text, rest);
    case Number(numeral) =>
      NumberScan(numeral, rest);
      ValueStarts(v, rest);
      assert t[0] == MINUS || IsDigit(t[0]);
    case Literal(name) =>
      assert t[..|name|] == name && t[|name|..] == rest;
      assert t[0] == name[0];
  }

  /** What follows a member's value and space. */
  function MembersEnd(ms: Members): Text {
    match ms.rest
    case None => [CLOSE_BRACE]
    case Some(more) => [COMMA] + MembersText(more)
  }

  function ElementsEnd(es: Elements): Text {
    match es.rest
    case None => [CLOSE_BRACKET]
    case Some(more) => [COMMA] + ElementsText(more)
  }

  lemma MembersParts(ms: Members, rest: Text)
    ensures MembersText(ms) + rest ==
            ms.before
                + (StringText(ms.name)
                    + (ms.between
                        + ([COLON] + (ms.inner + (ValueText(ms.value) + (ms.after + (MembersEnd(ms) + rest)))))))
  {
    var value := ms.after + MembersEnd(ms);
    var inner := ValueText(ms.value) + value;
    var colon := ms.inner + inner;
    var between := [COLON] + colon;
    assert MembersText(ms) == ms.before + (StringText(ms.name) + (ms.between + between)) by {
      if ms.rest.None? { } else { }
    }
    hide ValueText, StringText, MembersEnd, MembersText;
    Regroup(ms.before, StringText(ms.name) + (ms.between + between), rest);
    Regroup(StringText(ms.name), ms.between + between, rest);
    Regroup(ms.between, between, rest);
    Regroup([COLON], colon, rest);
    Regroup(ms.inner, inner, rest);
    Regroup(ValueText(ms.value), value, rest);
    Regroup(ms.after, MembersEnd(ms), rest);
  }

  lemma ElementsParts(es: Elements, rest: Text)
    ensures ElementsText(es) + rest == es.before + (ValueText(es.value) + (es.after + (ElementsEnd(es) + rest)))
  {
    var value := es.after + ElementsEnd(es);
    assert ElementsText(es) == es.before + (ValueText(es.value) + value) by {
      if es.rest.None? { } else { }
    }
    hide ValueText, ElementsEnd, ElementsText;
    Regroup(es.before, ValueText(es.value) + value, rest);
    Regroup(ValueText(es.value), value, rest);
    Regroup(es.after, ElementsEnd(es), rest);
  }

  lemma NameScan(before: Text, name: Name, between: Text, rest: Text, keys: set<Text>)
    requires AllSpace(before) && AllSpace(between)
    ensures ScanName(before + (StringText(name) + (between + ([COLON] + rest))), keys) ==
            if DecodedName(name) in keys then None else Some((DecodedName(name), rest))
  {
    var behind := between + ([COLON] + rest);
    SpaceScan(before, StringText(name) + behind);
    assert SkipSpace(StringText(name) + behind) == StringText(name) + behind;
    StringScan(name, behind);
    SpaceScan(between, [COLON] + rest);
    assert ([COLON] + rest)[1..] == rest;
  }

  lemma SpaceFollows(space: Text, end: Text)
    requires AllSpace(space) && end != [] && end[0] in {COMMA, CLOSE_BRACE, CLOSE_BRACKET}
    ensures Follows(space + end) && SkipSpace(space + end) == end
  {
    SpaceScan(space, end);
  }

  lemma MembersFitStep(ms: Members, depth: nat, keys: set<Text>)
    ensures MembersFit(ms, depth, keys) <==>
            && ValueFits(ms.value, depth + 1) && DecodedName(ms.name) !in keys
            && (ms.rest.Some? ==> MembersFit(ms.rest.value, depth, keys + {DecodedName(ms.name)}))
  {
    var all, first := Names(ms), DecodedName(ms.name);
    assert all[0] == first;
    if ms.rest.Some? {
      var more := Names(ms.rest.value);
      assert forall i :: 0 <= i < |more| ==> more[i] == all[i + 1];
      assert forall i :: 1 <= i < |all| ==> all[i] == more[i - 1];
    }
  }

  lemma ElementsFitStep(es: Elements, depth: nat)
    ensures ElementsFit(es, depth) <==>
              ValueFits(es.value, depth + 1) && (es.rest.Some? ==> ElementsFit(es.rest.value, depth))
  {
  }

  /** Behind an opening brace with a member, the next thing that is not space is a quote. */
  lemma MembersStart(ms: Members, rest: Text)
    requires ValidMembers(ms)
    ensures !Starts(SkipSpace(MembersText(ms) + rest), CLOSE_BRACE)
  {
    MembersParts(ms, rest);
    var value := ms.inner + (ValueText(ms.value) + (ms.after + (MembersEnd(ms) + rest)));
    var quoted := StringText(ms.name) + (ms.between + ([COLON] + value));
    SpaceScan(ms.before, quoted);
  }

  lemma ElementsStart(es: Elements, rest: Text)
    requires ValidElements(es)
    ensures !Starts(SkipSpace(ElementsText(es) + rest), CLOSE_BRACKET)
  {
    ElementsParts(es, rest);
    var value := ValueText(es.value) + (es.after + (ElementsEnd(es) + rest));
    SpaceScan(es.before, value);
    ValueStarts(es.value, es.after + (ElementsEnd(es) + rest));
  }

  lemma ScanOpens(s: Text, open: Unit, inside: Text, depth: nat)
    requires SkipSpace(s) == [open] + inside && depth <= MAX_DEPTH
    ensures open == OPEN_BRACE ==>
              ScanValue(s, depth) ==
              if Starts(SkipSpace(inside), CLOSE_BRACE) then Some(SkipSpace(inside)[1..])
                  else ScanMembers(inside, depth, {})
    ensures open == OPEN_BRACKET ==>
              ScanValue(s, depth) ==
              if Starts(SkipSpace(inside), CLOSE_BRACKET) then Some(SkipSpace(inside)[1..])
                  else ScanElements(inside, depth)
  {
    assert SkipSpace(s)[1..] == inside;
  }

  /** A value of the grammar is accepted exactly if it fits, and then the cursor stands right behind it. */
  lemma {:induction false} ValueScan(before: Text, v: Value, rest: Text, depth: nat)
    requires AllSpace(before) && ValidValue(v) && Follows(rest)
    ensures ScanValue(before + (ValueText(v) + rest), depth) == if ValueFits(v, depth) then Some(rest) else None
    decreases v
  {
    var t := ValueText(v) + rest;
    SpaceScan(before, t);
    ValueStarts(v, rest);
    assert SkipSpace(before + t) == t;
    hide SkipSpace, ScanScalar, ScanElements, ScanMembers, StringText, NumeralText, MembersText, ElementsText;
    hide ScanValue;
    if depth > MAX_DEPTH {
      TooDeep(before + t, v, depth);
    } else {
      match v
      case Object(members) => ObjectScan(before + t, members, rest, depth);
      case Array(elements) => ArrayScan(before + t, elements, rest, depth);
      case EmptyObject(gap) =>
        Regroup([OPEN_BRACE], gap + [CLOSE_BRACE], rest);
        Regroup(gap, [CLOSE_BRACE], rest);
        ScanOpens(before + t, OPEN_BRACE, gap + ([CLOSE_BRACE] + rest), depth);
        SpaceFollows(gap, [CLOSE_BRACE] + rest);
      case EmptyArray(gap) =>
        Regroup([OPEN_BRACKET], gap + [CLOSE_BRACKET], rest);
        Regroup(gap, [CLOSE_BRACKET], rest);
        ScanOpens(before + t, OPEN_BRACKET, gap + ([CLOSE_BRACKET] + rest), depth);
        SpaceFollows(gap, [CLOSE_BRACKET] + rest);
      case _ =>
        ScalarScan(v, rest);
        ScansScalar(before + t, depth);
    }
  }

  lemma TooDeep(s: Text, v: Value, depth: nat)
    requires depth > MAX_DEPTH
    ensures ScanValue(s, depth) == None && !ValueFits(v, depth)
  {
    hide SkipSpace;
  }

  lemma ScansScalar(s: Text, depth: nat)
    requires depth <= MAX_DEPTH
    ensures var t := SkipSpace(s);
      t != [] && t[0] != OPEN_BRACE && t[0] != OPEN_BRACKET ==> ScanValue(s, depth) == ScanScalar(t)
  {
    hide SkipSpace, ScanScalar, ScanElements, ScanMembers;
  }

  lemma {:induction false} ObjectScan(s: Text, ms: Members, rest: Text, depth: nat)
    requires ValidMembers(ms) && depth <= MAX_DEPTH && SkipSpace(s) == ValueText(Object(ms)) + rest
    ensures ScanValue(s, depth) == if ValueFits(Object(ms), depth) then Some(rest) else None
    decreases ms, 1
  {
    hide SkipSpace, ScanValue, ScanMembers, MembersText;
    Regroup([OPEN_BRACE], MembersText(ms), rest);
    MembersStart(ms, rest);
    ScanOpens(s, OPEN_BRACE, MembersText(ms) + rest, depth);
    MembersScan(ms, rest, depth, {});
  }

  lemma {:induction false} ArrayScan(s: Text, es: Elements, rest: Text, depth: nat)
    requires ValidElements(es) && depth <= MAX_DEPTH && SkipSpace(s) == ValueText(Array(es)) + rest
    ensures ScanValue(s, depth) == if ValueFits(Array(es), depth) then Some(rest) else None
    decreases es, 1
  {
    hide SkipSpace, ScanValue, ScanElements, ElementsText;
    Regroup([OPEN_BRACKET], ElementsText(es), rest);
    ElementsStart(es, rest);
    ScanOpens(s, OPEN_BRACKET, ElementsText(es) + rest, depth);
    ElementsScan(es, rest, depth);
  }

  /** One member: its name, its value, then the end or the next member. */
  lemma MembersStep(s: Text, depth: nat, keys: set<Text>, name: Text, value: Text, behind: Text, end: Text)
    requires ScanName(s, keys) == if name in keys then None else Some((name, value))
    requires SkipSpace(behind) == end && end != []
    ensures name in keys || ScanValue(value, depth + 1) == None ==> ScanMembers(s, depth, keys) == None
    ensures name !in keys && ScanValue(value, depth + 1) == Some(behind) && end[0] == CLOSE_BRACE ==>
              ScanMembers(s, depth, keys) == Some(end[1..])
    ensures name !in keys && ScanValue(value, depth + 1) == Some(behind) && end[0] == COMMA ==>
              ScanMembers(s, depth, keys) == ScanMembers(end[1..], depth, keys + {name})
  {
    hide SkipSpace, ScanName, ScanValue;
  }

  lemma {:induction false} MembersScan(ms: Members, rest: Text, depth: nat, keys: set<Text>)
    requires ValidMembers(ms)
    ensures ScanMembers(MembersText(ms) + rest, depth, keys) == if MembersFit(ms, depth, keys) then Some(rest) else None
    decreases ms, 0
  {
    hide SkipSpace, ScanName, ScanValue, ScanMembers, MembersText, ValueText, StringText, MembersFit, ValueFits;
    hide DecodedName;
    var end := MembersEnd(ms) + rest;
    var behind, name := ms.after + end, DecodedName(ms.name);
    var value := ms.inner + (ValueText(ms.value) + behind);
    MembersParts(ms, rest);
    NameScan(ms.before, ms.name, ms.between, value, keys);
    SpaceFollows(ms.after, end);
    ValueScan(ms.inner, ms.value, behind, depth + 1);
    MembersFitStep(ms, depth, keys);
    MembersStep(MembersText(ms) + rest, depth, keys, name, value, behind, end);
    match ms.rest
    case None => assert end[1..] == rest;
    case Some(more) =>
      assert end[1..] == MembersText(more) + rest;
      MembersScan(more, rest, depth, keys + {name});
  }

  /** One element: its value, then the end or the next element. */
  lemma ElementsStep(s: Text, depth: nat, behind: Text, end: Text)
    requires SkipSpace(behind) == end && end != []
    ensures ScanValue(s, depth + 1) == None ==> ScanElements(s, depth) == None
    ensures ScanValue(s, depth + 1) == Some(behind) && end[0] == CLOSE_BRACKET ==>
              ScanElements(s, depth) == Some(end[1..])
    ensures ScanValue(s, depth + 1) == Some(behind) && end[0] == COMMA ==>
              ScanElements(s, depth) == ScanElements(end[1..], depth)
  {
    hide SkipSpace, ScanValue;
  }

  lemma {:induction false} ElementsScan(es: Elements, rest: Text, depth: nat)
    requires ValidElements(es)
    ensures ScanElements(ElementsText(es) + rest, depth) == if ElementsFit(es, depth) then Some(rest) else None
    decreases es, 0
  {
    hide SkipSpace, ScanValue, ScanElements, ElementsText, ValueText, ElementsFit, ValueFits;
    var end := ElementsEnd(es) + rest;
    var behind := es.after + end;
    ElementsParts(es, rest);
    SpaceFollows(es.after, end);
    ValueScan(es.before, es.value, behind, depth + 1);
    ElementsFitStep(es, depth);
    ElementsStep(ElementsText(es) + rest, depth, behind, end);
    match es.rest
    case None => assert end[1..] == rest;
    case Some(more) =>
      assert end[1..] == ElementsText(more) + rest;
      ElementsScan(more, rest, depth);
  }

  // ----- every accepted text belongs to the grammar -----

  lemma {:induction false} SpaceSound(s: Text) returns (space: Text)
    ensures AllSpace(space) && s == space + SkipSpace(s)
    decreases |s|
  {
    space := [];
    if s != [] && IsSpace(s[0]) {
      var more := SpaceSound(s[1..]);
      space := [s[0]] + more;
      assert s == [s[0]] + s[1..];
    } else {
      assert s == [] + s;
    }
  }

  lemma ScalarSound(t: Text) returns (v: Value)
    requires ScanScalar(t).Some?
    ensures ValidValue(v) && t == ValueText(v) + ScanScalar(t).value && Height(v) == 0 && DuplicateFree(v)
  {
    if Starts(t, QUOTE) {
      var name := StringSound(t);
      v := Str(name);
    } else if TRUE_TEXT <= t || FALSE_TEXT <= t || NULL_TEXT <= t {
      var name := if TRUE_TEXT <= t then TRUE_TEXT else if FALSE_TEXT <= t then FALSE_TEXT else NULL_TEXT;
      v := Literal(name);
      assert t == t[..|name|] + t[|name|..];
    } else {
      var n := NumberSound(t);
      v := Number(n);
    }
  }

  lemma NameSound(s: Text, keys: set<Text>) returns (before: Text, name: Name, between: Text)
    requires ScanName(s, keys).Some?
    ensures AllSpace(before) && AllSpace(between)
    ensures var r := ScanName(s, keys).value;
            && r.0 == DecodedName(name) && r.0 !in keys
            && s == before + (StringText(name) + (between + ([COLON] + r.1)))
  {
    before := SpaceSound(s);
    name := StringSound(SkipSpace(s));
    var behind := ScanString(SkipSpace(s)).value.1;
    between := SpaceSound(behind);
    assert SkipSpace(behind) == [COLON] + SkipSpace(behind)[1..];
  }

  lemma EmptySound(inside: Text, close: Unit) returns (gap: Text)
    requires Starts(SkipSpace(inside), close)
    ensures AllSpace(gap) && inside == (gap + [close]) + SkipSpace(inside)[1..]
  {
    gap := SpaceSound(inside);
    var u := SkipSpace(inside);
    assert u == [close] + u[1..];
    Regroup(gap, [close], u[1..]);
  }

  lemma NotTooDeep(s: Text, depth: nat)
    ensures ScanValue(s, depth).Some? ==> depth <= MAX_DEPTH
  {
  }

  lemma {:induction false} BraceSound(s: Text, inside: Text, depth: nat) returns (v: Value)
    requires SkipSpace(s) == [OPEN_BRACE] + inside && ScanValue(s, depth).Some? && |inside| < |s|
    ensures ValidValue(v) && ValueFits(v, depth) && [OPEN_BRACE] + inside == ValueText(v) + ScanValue(s, depth).value
    decreases |inside|, 2
  {
    hide SkipSpace, ScanValue, MembersText, ScanMembers;
    NotTooDeep(s, depth);
    ScanOpens(s, OPEN_BRACE, inside, depth);
    if Starts(SkipSpace(inside), CLOSE_BRACE) {
      var gap := EmptySound(inside, CLOSE_BRACE);
      v := EmptyObject(gap);
      Regroup([OPEN_BRACE], gap + [CLOSE_BRACE], ScanValue(s, depth).value);
    } else {
      var ms := MembersSound(inside, depth, {});
      v := Object(ms);
      Regroup([OPEN_BRACE], MembersText(ms), ScanValue(s, depth).value);
    }
  }

  lemma {:induction false} BracketSound(s: Text, inside: Text, depth: nat) returns (v: Value)
    requires SkipSpace(s) == [OPEN_BRACKET] + inside && ScanValue(s, depth).Some? && |inside| < |s|
    ensures ValidValue(v) && ValueFits(v, depth) && [OPEN_BRACKET] + inside == ValueText(v) + ScanValue(s, depth).value
    decreases |inside|, 3
  {
    hide SkipSpace, ScanValue, ElementsText, ScanElements;
    NotTooDeep(s, depth);
    ScanOpens(s, OPEN_BRACKET, inside, depth);
    if Starts(SkipSpace(inside), CLOSE_BRACKET) {
      var gap := EmptySound(inside, CLOSE_BRACKET);
      v := EmptyArray(gap);
      Regroup([OPEN_BRACKET], gap + [CLOSE_BRACKET], ScanValue(s, depth).value);
    } else {
      var es := ElementsSound(inside, depth);
      v := Array(es);
      Regroup([OPEN_BRACKET], ElementsText(es), ScanValue(s, depth).value);
    }
  }

  lemma {:induction false} ValueSound(s: Text, depth: nat) returns (before: Text, v: Value)
    requires ScanValue(s, depth).Some?
    ensures AllSpace(before) && ValidValue(v) && ValueFits(v, depth)
    ensures s == before + (ValueText(v) + ScanValue(s, depth).value)
    decreases |s|, 1
  {
    before := SpaceSound(s);
    var t := SkipSpace(s);
    assert t == [t[0]] + t[1..];
    if t[0] == OPEN_BRACE {
      v := BraceSound(s, t[1..], depth);
    } else if t[0] == OPEN_BRACKET {
      v := BracketSound(s, t[1..], depth);
    } else {
      v := ScalarSound(t);
    }
  }

  lemma {:induction false} MembersSound(s: Text, depth: nat, keys: set<Text>) returns (ms: Members)
    requires ScanMembers(s, depth, keys).Some?
    ensures ValidMembers(ms) && MembersFit(ms, depth, keys)
    ensures s == MembersText(ms) + ScanMembers(s, depth, keys).value
    decreases |s|, 0
  {
    var name := ScanName(s, keys).value;
    var behind := ScanValue(name.1, depth + 1).value;
    var end, rest := SkipSpace(behind), ScanMembers(s, depth, keys).value;
    assert rest == if end[0] == CLOSE_BRACE then end[1..] else ScanMembers(end[1..], depth, keys + {name.0}).value;
    assert end == [end[0]] + end[1..];
    hide SkipSpace, ScanName, ScanValue, ScanMembers, MembersText, ValueText, StringText, MembersFit, ValueFits;
    hide DecodedName;
    var before, key, between := NameSound(s, keys);
    var inner, value := ValueSound(name.1, depth + 1);
    var after := SpaceSound(behind);
    if end[0] == CLOSE_BRACE {
      ms := Member(before, key, between, inner, value, after, None);
    } else {
      var more := MembersSound(end[1..], depth, keys + {name.0});
      ms := Member(before, key, between, inner, value, after, Some(more));
      Regroup([COMMA], MembersText(more), rest);
    }
    MembersFitStep(ms, depth, keys);
    MembersParts(ms, rest);
  }

  lemma {:induction false} ElementsSound(s: Text, depth: nat) returns (es: Elements)
    requires ScanElements(s, depth).Some?
    ensures ValidElements(es) && ElementsFit(es, depth)
    ensures s == ElementsText(es) + ScanElements(s, depth).value
    decreases |s|, 2
  {
    var behind := ScanValue(s, depth + 1).value;
    var end, rest := SkipSpace(behind), ScanElements(s, depth).value;
    assert rest == if end[0] == CLOSE_BRACKET then end[1..] else ScanElements(end[1..], depth).value;
    assert end == [end[0]] + end[1..];
    hide SkipSpace, ScanValue, ScanElements, ElementsText, ValueText, ElementsFit, ValueFits;
    var before, value := ValueSound(s, depth + 1);
    var after := SpaceSound(behind);
    if end[0] == CLOSE_BRACKET {
      es := Element(before, value, after, None);
    } else {
      var more := ElementsSound(end[1..], depth);
      es := Element(before, value, after, Some(more));
      Regroup([COMMA], ElementsText(more), rest);
    }
    ElementsFitStep(es, depth);
    ElementsParts(es, rest);
  }

  // ----- the recognizer is correct -----

  /** A JSON text: one value, with space around it. */
  ghost predicate IsTextOf(text: Text, v: Value) {
    && ValidValue(v)
    && exists before: Text, after: Text ::
         AllSpace(before) && AllSpace(after) && text == before + (ValueText(v) + after)
  }

  /** The verdict on a JSON text depends on its value alone. */
  lemma VerdictOfValue(text: Text, v: Value)
    requires IsTextOf(text, v)
    ensures Accepts(text) == ValueFits(v, 0)
  {
    var before: Text, after: Text :| AllSpace(before) && AllSpace(after) && text == before + (ValueText(v) + after);
    ValueScan(before, v, after, 0);
    SpaceScan(after, []);
    assert after + [] == after;
  }

  /** Accepted are exactly the JSON texts of values at most 16 levels deep whose objects have distinct names. */
  lemma AcceptsExactly(text: Text)
    ensures Accepts(text) <==> exists v :: IsTextOf(text, v) && ValueFits(v, 0)
  {
    if Accepts(text) {
      var before, v := ValueSound(text, 0);
      var after := SpaceSound(ScanValue(text, 0).value);
      assert after + [] == after;
      assert IsTextOf(text, v);
    }
    if v :| IsTextOf(text, v) && ValueFits(v, 0) {
      VerdictOfValue(text, v);
    }
  }

  // ----- the recognizer itself -----

  /** Where the string loop stops: it looks at escapes only as far as it must to find the closing quote. */
  function SkipString(s: Text): (r: Scan)
    ensures r.Some? ==> |r.value| < |s|
  {
    if s == [] then None
    else if s[0] == QUOTE then Some(s[1..])
    else if s[0] == BACKSLASH then
      if |s| >= 2 && s[1] != LOWER_U then SkipString(s[2..])
      else if |s| >= 6 && IsHex(s[2]) && IsHex(s[3]) && IsHex(s[4]) && IsHex(s[5]) then SkipString(s[6..])
      else None
    else if s[0] < 0x20 then None
    else SkipString(s[1..])
  }

  /** JSON.parse of one quoted string. */
  function ParseString(slice: Text): Option<Text> {
    var r := ScanString(slice);
    if r.Some? && r.value.1 == [] then Some(r.value.0) else None
  }

  /** The length of the item that s begins with, as the loop steps over it. */
  function Step(s: Text): nat
    requires s != []
  {
    if s[0] != BACKSLASH then 1 else if |s| >= 2 && s[1] == LOWER_U then 6 else 2
  }

  lemma StepSize(s: Text)
    requires s != []
    ensures 1 <= Step(s)
  {
  }

  /** Whether one strict step is possible, it shows in the item alone. */
  lemma StepIsLocal(s: Text, k: nat, n: nat) returns (i: Option<Item>)
    requires s != [] && s[0] != QUOTE && k == Step(s) && k <= n <= |s|
    ensures SkipString(s) == None || SkipString(s) == SkipString(s[k..])
    ensures i == None ==> ScanItems(s) == None && ScanItems(s[..n]) == None
    ensures i.Some? ==>
              && ValidItem(i.value) && SkipString(s) == SkipString(s[k..])
              && ScanItems(s) == Decode(i.value, ScanItems(s[k..]))
              && ScanItems(s[..n]) == Decode(i.value, ScanItems(s[..n][k..]))
  {
    var p := s[..n];
    assert forall i :: 0 <= i < k ==> p[i] == s[i];
    i := None;
    if s[0] >= 0x20 && s[0] != BACKSLASH {
      i := Some(Plain(s[0]));
    } else if s[0] == BACKSLASH && s[1] == LOWER_U {
      assert !IsEscapeLetter(LOWER_U);
      if IsHex(s[2]) && IsHex(s[3]) && IsHex(s[4]) && IsHex(s[5]) { i := Some(Hex(s[2], s[3], s[4], s[5])); }
    } else if s[0] == BACKSLASH {
      if IsEscapeLetter(s[1]) { i := Some(Escape(s[1])); }
    }
  }

  lemma NoStep(s: Text)
    requires s != [] && s[0] != QUOTE && Step(s) > |s|
    ensures Local(s)
  {
  }

  /** What the strict scan makes of s depends on the part up to the closing quote alone. */
  ghost predicate Local(s: Text) {
    match SkipString(s)
    case None => ScanItems(s) == None
    case Some(rest) =>
      var inner := ScanItems(s[..|s| - |rest|]);
      && rest == s[|s| - |rest|..]
      && (inner.Some? ==> inner.value.1 == [])
      && ScanItems(s) == if inner.Some? then Some((inner.value.0, rest)) else None
  }

  lemma LocalStep(s: Text, k: nat)
    requires s != [] && s[0] != QUOTE && k == Step(s) && 1 <= k <= |s| && Local(s[k..])
    ensures Local(s)
  {
    hide SkipString, ScanItems, Step;
    var t := s[k..];
    var whole := StepIsLocal(s, k, |s|);
    if SkipString(s).Some? {
      var m := |t| - |SkipString(t).value|;
      var i := StepIsLocal(s, k, k + m);
      assert s[..k + m][k..] == t[..m] && t[m..] == s[k + m..];
    }
  }

  lemma LocalEnd(s: Text)
    requires s == [] || s[0] == QUOTE
    ensures Local(s)
  {
  }

  lemma {:induction false} StringIsLocal(s: Text)
    ensures Local(s)
    decreases |s|
  {
    if s == [] || s[0] == QUOTE {
      LocalEnd(s);
    } else {
      hide Local, Step;
      var k := Step(s);
      StepSize(s);
      if k > |s| {
        NoStep(s);
      } else {
        StringIsLocal(s[k..]);
        LocalStep(s, k);
      }
    }
  }

  class Recognizer {
    const text: Text
    var index: nat

    constructor (t: Text)
      ensures text == t && index == 0
    {
      text, index := t, 0;
    }

    function Ahead(): Text
      requires index <= |text|
      reads this
    {
      text[index..]
    }

    method Whitespace()
      requires index <= |text|
      modifies this
      ensures index <= |text| && Ahead() == SkipSpace(old(Ahead()))
    {
      while index < |text| && IsSpace(text[index])
        invariant index <= |text| && SkipSpace(Ahead()) == SkipSpace(old(Ahead()))
      {
        assert Ahead()[1..] == text[index + 1..];
        index := index + 1;
      }
    }

    /** The next unit, stepped over: text[index++]. */
    method Next() returns (u: Option<Unit>)
      requires index <= |text|
      modifies this
      ensures old(index) < |text| ==> u == Some(text[old(index)]) && index == old(index) + 1
      ensures old(index) == |text| ==> u == None && index == old(index)
    {
      if index == |text| { return None; }
      u := Some(text[index]);
      index := index + 1;
    }

    /** One step of the string loop; false if it throws. */
    method SkipItem(first: Unit) returns (ok: bool)
      requires 0 < index <= |text| && text[index - 1] == first && first != QUOTE
      modifies this
      ensures !ok ==> SkipString(text[old(index) - 1..]) == None
      ensures ok ==> old(index) <= index <= |text| && SkipString(text[old(index) - 1..]) == SkipString(Ahead())
    {
      ghost var s := text[index - 1..];
      if first == BACKSLASH {
        var escape := Next();
        if escape == None { return false; }
        assert s[1] == escape.value;
        if escape.value == LOWER_U {
          if index + 4 > |text| ||
              !(IsHex(text[index]) && IsHex(text[index + 1]) && IsHex(text[index + 2]) && IsHex(text[index + 3]))
          {
            return false;
          }
          index := index + 4;
          assert s[6..] == Ahead();
        } else {
          assert s[2..] == Ahead();
        }
      } else {
        assert s[1..] == Ahead();
        if first < 0x20 { return false; }
      }
      return true;
    }

    method String() returns (r: Flow<Text>)
      requires index <= |text|
      modifies this
      ensures !r.Die? && r.Return? == ScanString(old(Ahead())).Some?
      ensures r.Return? ==> index <= |text| && ScanString(old(Ahead())) == Some((r.value, Ahead()))
    {
      var start := index;
      ghost var ahead := Ahead();
      if index == |text| || text[index] != QUOTE { return Throw; }
      hide SkipString, ScanString, ParseString;
      index := index + 1;
      assert Ahead() == ahead[1..];
      StringThrows(ahead);
      while index < |text|
        invariant start < index <= |text|
        invariant SkipString(Ahead()) == SkipString(ahead[1..])
        decreases |text| - index
      {
        var unit := text[index];
        ghost var here := Ahead();
        index := index + 1;
        assert Ahead() == here[1..] && text[index - 1..] == here;
        if unit == QUOTE {
          SkipsAtQuote(here);
          StringEnds(ahead, Ahead());
          assert text[start..index] == ahead[..|ahead| - |Ahead()|];
          var parsed := ParseString(text[start..index]);
          if parsed == None { return Throw; }
          return Return(parsed.value);
        }
        var ok := SkipItem(unit);
        if !ok { return Throw; }
      }
      assert Ahead() == [];
      SkipsAtQuote([]);
      return Throw;
    }

    /** One of the three literals, else a number; the number pattern is the library's match at the cursor. */
    method Scalar() returns (r: Flow<()>)
      requires index <= |text|
      modifies this
      ensures !r.Die? && r.Return? == ScanScalar(old(Ahead())).Some?
      ensures r.Return? ==> index <= |text| && ScanScalar(old(Ahead())) == Some(Ahead())
    {
      ghost var ahead := Ahead();
      if index < |text| && text[index] == QUOTE {
        var _ :- String();
        return Return(());
      }
      var literals := [TRUE_TEXT, FALSE_TEXT, NULL_TEXT];
      for i := 0 to 3
        invariant index == old(index)
        invariant forall k :: 0 <= k < i ==> !(literals[k] <= ahead)
      {
        var literal := literals[i];
        if literal <= text[index..] {
          index := index + |literal|;
          assert ahead[|literal|..] == Ahead();
          return Return(());
        }
      }
      assert !(literals[0] <= ahead) && !(literals[1] <= ahead) && !(literals[2] <= ahead);
      var number := ScanNumber(text[index..]);
      if number == None { return Throw; }
      NumberIsLocal(ahead);
      index := |text| - |number.value|;
      assert Ahead() == number.value;
      return Return(());
    }

    /** A name the object does not have yet, and the colon. */
    method MemberName(keys: set<Text>) returns (r: Flow<Text>)
      requires index <= |text|
      modifies this
      ensures !r.Die? && r.Return? == ScanName(old(Ahead()), keys).Some?
      ensures r.Return? ==> index <= |text| && ScanName(old(Ahead()), keys) == Some((r.value, Ahead()))
    {
      Whitespace();
      var key :- String();
      if key in keys { return Throw; }
      Whitespace();
      ghost var t := Ahead();
      var colon := Next();
      if colon != Some(COLON) { return Throw; }
      assert t[1..] == Ahead();
      return Return(key);
    }

    /** The members of an object, behind its opening brace. */
    method ObjectMembers(depth: nat) returns (r: Flow<()>)
      requires index <= |text|
      modifies this
      ensures !r.Die? && r.Return? == ScanMembers(old(Ahead()), depth, {}).Some?
      ensures r.Return? ==> index <= |text| && ScanMembers(old(Ahead()), depth, {}) == Some(Ahead())
      decreases |text| - index, 0
    {
      hide SkipSpace, ScanName, ScanValue;
      var keys: set<Text> := {};
      while true
        invariant old(index) <= index <= |text|
        invariant ScanMembers(Ahead(), depth, keys) == ScanMembers(old(Ahead()), depth, {})
        decreases |text| - index
      {
        var key :- MemberName(keys);
        keys := keys + {key};
        var _ :- Value(depth + 1);
        Whitespace();
        ghost var end := Ahead();
        var separator := Next();
        assert separator.Some? ==> end[1..] == Ahead();
        if separator == Some(CLOSE_BRACE) { return Return(()); }
        if separator != Some(COMMA) { return Throw; }
      }
    }

    /** The elements of an array, behind its opening bracket. */
    method ArrayElements(depth: nat) returns (r: Flow<()>)
      requires index <= |text|
      modifies this
      ensures !r.Die? && r.Return? == ScanElements(old(Ahead()), depth).Some?
      ensures r.Return? ==> index <= |text| && ScanElements(old(Ahead()), depth) == Some(Ahead())
      decreases |text| - index, 2
    {
      hide SkipSpace, ScanValue;
      while true
        invariant old(index) <= index <= |text|
        invariant ScanElements(Ahead(), depth) == ScanElements(old(Ahead()), depth)
        decreases |text| - index
      {
        var _ :- Value(depth + 1);
        Whitespace();
        ghost var end := Ahead();
        var separator := Next();
        assert separator.Some? ==> end[1..] == Ahead();
        if separator == Some(CLOSE_BRACKET) { return Return(()); }
        if separator != Some(COMMA) { return Throw; }
      }
    }

    method Value(depth: nat) returns (r: Flow<()>)
      requires index <= |text|
      modifies this
      ensures !r.Die? && r.Return? == ScanValue(old(Ahead()), depth).Some?
      ensures r.Return? ==> index <= |text| && ScanValue(old(Ahead()), depth) == Some(Ahead())
      decreases |text| - index, 1
    {
      hide SkipSpace, ScanScalar, ScanMembers, ScanElements;
      if depth > MAX_DEPTH { return Throw; }
      Whitespace();
      ghost var t := Ahead();
      if index < |text| && text[index] == OPEN_BRACE {
        index := index + 1;
        assert t[1..] == Ahead();
        ghost var inside := Ahead();
        Whitespace();
        if index < |text| && text[index] == CLOSE_BRACE {
          index := index + 1;
          assert SkipSpace(inside)[1..] == Ahead();
          return Return(());
        }
        MembersSkipSpace(inside, depth);
        r := ObjectMembers(depth);
        return;
      }
      if index < |text| && text[index] == OPEN_BRACKET {
        index := index + 1;
        assert t[1..] == Ahead();
        ghost var inside := Ahead();
        Whitespace();
        if index < |text| && text[index] == CLOSE_BRACKET {
          index := index + 1;
          assert SkipSpace(inside)[1..] == Ahead();
          return Return(());
        }
        ElementsSkipSpace(inside, depth);
        r := ArrayElements(depth);
        return;
      }
      if index == |text| { return Throw; }
      r := Scalar();
    }
  }

  lemma StringThrows(ahead: Text)
    requires Starts(ahead, QUOTE)
    ensures SkipString(ahead[1..]) == None ==> ScanString(ahead) == None
  {
    StringIsLocal(ahead[1..]);
  }

  lemma SkipsAtQuote(s: Text)
    ensures s == [] ==> SkipString(s) == None
    ensures Starts(s, QUOTE) ==> SkipString(s) == Some(s[1..])
  {
  }

  /** Cut at the closing quote, the string can be parsed on its own. */
  lemma StringEnds(ahead: Text, rest: Text)
    requires Starts(ahead, QUOTE) && SkipString(ahead[1..]) == Some(rest)
    ensures |rest| < |ahead|
    ensures var parsed := ParseString(ahead[..|ahead| - |rest|]);
            ScanString(ahead) == if parsed.Some? then Some((parsed.value, rest)) else None
  {
    var n := |ahead| - |rest|;
    StringIsLocal(ahead[1..]);
    assert ahead[..n][1..] == ahead[1..][..n - 1];
  }

  /** The number pattern matches a prefix. */
  lemma NumberIsLocal(s: Text)
    requires ScanNumber(s).Some?
    ensures ScanNumber(s).value == s[|s| - |ScanNumber(s).value|..]
  {
    var n := NumberSound(s);
  }

  /** Space before the first member has no effect: it would be skipped anyway. */
  lemma MembersSkipSpace(s: Text, depth: nat)
    ensures ScanMembers(SkipSpace(s), depth, {}) == ScanMembers(s, depth, {})
  {
  }

  lemma ElementsSkipSpace(s: Text, depth: nat)
    ensures ScanElements(SkipSpace(s), depth) == ScanElements(s, depth)
  {
  }

  /** isDuplicateFreeJson: what throws is not accepted. */
  method IsDuplicateFreeJson(text: Text) returns (ok: bool)
    ensures ok == exists v :: IsTextOf(text, v) && ValueFits(v, 0)
    ensures forall v :: IsTextOf(text, v) ==> ok == ValueFits(v, 0)
  {
    var recognizer := new Recognizer(text);
    assert recognizer.Ahead() == text;
    AcceptsExactly(text);
    forall v | IsTextOf(text, v) ensures Accepts(text) == ValueFits(v, 0) {
      VerdictOfValue(text, v);
    }
    var r := recognizer.Value(0);
    if !r.Return? { return false; }
    recognizer.Whitespace();
    ok := recognizer.index == |text|;
    assert ok == (recognizer.Ahead() == []);
  }
}
