/**
 * canonicalJson on the data itself: its text, and a reader that takes the text apart again. The reader
 * is what makes the encoding uniquely decodable.
 */
module CanonicalText {
  import opened Options
  import opened Utf16

  /** A number is the text JavaScript writes for it; -0, which JSON writes as 0, stands apart. */
  type NumberText = t: Text | IsNumberText(t) witness [48]

  datatype Json =
    | Null
    | Bool(value: bool)
    | Str(text: Text)
    | Num(shown: NumberText)
    | NegZero
    | Arr(items: seq<Slot>)
    | Obj(fields: seq<Field>)

  /** An array position may be empty: `map` and `join` skip it without an error. */
  datatype Slot = Hole | Item(item: Json)

  /** The fields of an object come in the order of their keys. */
  datatype Field = Field(key: Text, value: Json)

  const COMMA: Unit := 44
  const COLON: Unit := 58
  const OPEN_ARRAY: Unit := 91
  const CLOSE_ARRAY: Unit := 93
  const OPEN_OBJECT: Unit := 123
  const CLOSE_OBJECT: Unit := 125

  /** Digits, sign, point and exponent. */
  predicate IsNumberUnit(u: Unit) {
    48 <= u <= 57 || u == 45 || u == 46 || u == 43 || u == 101
  }

  predicate IsNumberText(t: Text) {
    && t != [] && (t[0] == 45 || 48 <= t[0] <= 57)
    && forall i | 0 <= i < |t| :: IsNumberUnit(t[i])
  }

  const NULL: Text := [110, 117, 108, 108]
  const TRUE: Text := [116, 114, 117, 101]
  const FALSE: Text := [102, 97, 108, 115, 101]
  const ZERO: NumberText := [48]

  // Writing: each function puts its text in front of what follows.

  function Put(v: Json, rest: Text): Text {
    match v
    case Null => NULL + rest
    case Bool(value) => (if value then TRUE else FALSE) + rest
    case Str(text) => PutString(text, rest)
    case Num(shown) => shown + rest
    case NegZero => ZERO + rest
    case Arr(items) => [OPEN_ARRAY] + PutItems(items, [CLOSE_ARRAY] + rest)
    case Obj(fields) => [OPEN_OBJECT] + PutFields(fields, [CLOSE_OBJECT] + rest)
  }

  function PutItem(slot: Slot, rest: Text): Text {
    match slot
    case Hole => rest
    case Item(item) => Put(item, rest)
  }

  function PutItems(items: seq<Slot>, rest: Text): Text {
    if items == [] then rest
    else if |items| == 1 then PutItem(items[0], rest)
    else PutItem(items[0], [COMMA] + PutItems(items[1..], rest))
  }

  function PutField(field: Field, rest: Text): Text {
    PutString(field.key, [COLON] + Put(field.value, rest))
  }

  function PutFields(fields: seq<Field>, rest: Text): Text {
    if fields == [] then rest
    else if |fields| == 1 then PutField(fields[0], rest)
    else PutField(fields[0], [COMMA] + PutFields(fields[1..], rest))
  }

  /** canonicalJson of plain data. */
  function Canonical(v: Json): Text {
    Put(v, [])
  }

  // Reading.

  function NumberRun(t: Text): (n: nat)
    ensures n <= |t|
  {
    if t == [] || !IsNumberUnit(t[0]) then 0 else 1 + NumberRun(t[1..])
  }

  function Read(t: Text): (r: Option<(Json, Text)>)
    ensures r.Some? ==> |r.value.1| < |t|
    decreases |t|, 0
  {
    if t == [] then None
    else if t[0] == 110 then if |t| < 4 then None else Some((Null, t[4..]))
    else if t[0] == 116 then if |t| < 4 then None else Some((Bool(true), t[4..]))
    else if t[0] == 102 then if |t| < 5 then None else Some((Bool(false), t[5..]))
    else if t[0] == QUOTE then
      match ReadUnits(t[1..])
      case None => None
      case Some((text, rest)) => Some((Str(text), rest))
    else if t[0] == OPEN_ARRAY then
      match ReadItems(t[1..])
      case None => None
      case Some((items, rest)) => Some((Arr(if items == [Hole] then [] else items), rest))
    else if t[0] == OPEN_OBJECT then
      match ReadFields(t[1..])
      case None => None
      case Some((fields, rest)) => Some((Obj(fields), rest))
    else
      var n := NumberRun(t);
      if n == 0 || !IsNumberText(t[..n]) then None else Some((Num(t[..n]), t[n..]))
  }

  function ReadItem(t: Text): (r: Option<(Slot, Text)>)
    ensures r.Some? ==> |r.value.1| <= |t|
    decreases |t|, 1
  {
    if t == [] then None
    else if t[0] == COMMA || t[0] == CLOSE_ARRAY then Some((Hole, t))
    else match Read(t)
      case None => None
      case Some((item, rest)) => Some((Item(item), rest))
  }

  function ReadItems(t: Text): (r: Option<(seq<Slot>, Text)>)
    ensures r.Some? ==> |r.value.1| < |t|
    decreases |t|, 2
  {
    match ReadItem(t)
    case None => None
    case Some((slot, after)) =>
      if after == [] then None
      else if after[0] == CLOSE_ARRAY then Some(([slot], after[1..]))
      else if after[0] != COMMA then None
      else match ReadItems(after[1..])
        case None => None
        case Some((slots, rest)) => Some(([slot] + slots, rest))
  }

  function ReadField(t: Text): (r: Option<(Field, Text)>)
    ensures r.Some? ==> |r.value.1| < |t|
    decreases |t|, 1
  {
    if t == [] || t[0] != QUOTE then None
    else match ReadUnits(t[1..])
      case None => None
      case Some((key, after)) =>
        if after == [] || after[0] != COLON then None
        else match Read(after[1..])
          case None => None
          case Some((value, rest)) => Some((Field(key, value), rest))
  }

  function ReadFields(t: Text): (r: Option<(seq<Field>, Text)>)
    ensures r.Some? ==> |r.value.1| < |t|
    decreases |t|, 2
  {
    if t != [] && t[0] == CLOSE_OBJECT then Some(([], t[1..]))
    else match ReadField(t)
      case None => None
      case Some((field, after)) =>
        if after == [] then None
        else if after[0] == CLOSE_OBJECT then Some(([field], after[1..]))
        else if after[0] != COMMA then None
        else match ReadFields(after[1..])
          case None => None
          case Some((fields, rest)) => Some(([field] + fields, rest))
  }

  // What the text does not tell apart.

  /** -0 reads back as 0, and an array with one empty position as an empty array. */
  function Settled(v: Json): Json {
    match v
    case NegZero => Num(ZERO)
    case Arr(items) => Arr(if items == [Hole] then [] else SettledItems(items))
    case Obj(fields) => Obj(SettledFields(fields))
    case _ => v
  }

  function SettledItem(slot: Slot): Slot {
    match slot
    case Hole => Hole
    case Item(item) => Item(Settled(item))
  }

  function SettledItems(items: seq<Slot>): seq<Slot> {
    if items == [] then [] else [SettledItem(items[0])] + SettledItems(items[1..])
  }

  function SettledFields(fields: seq<Field>): seq<Field> {
    if fields == [] then [] else [Field(fields[0].key, Settled(fields[0].value))] + SettledFields(fields[1..])
  }

  predicate Ends(rest: Text) {
    rest == [] || !IsNumberUnit(rest[0])
  }

  lemma {:induction false} NumberRunStops(shown: Text, rest: Text)
    requires (forall i | 0 <= i < |shown| :: IsNumberUnit(shown[i])) && Ends(rest)
    ensures NumberRun(shown + rest) == |shown|
  {
    if shown == [] {
      assert shown + rest == rest;
    } else {
      assert (shown + rest)[1..] == shown[1..] + rest;
      NumberRunStops(shown[1..], rest);
    }
  }

  lemma NumberRoundTrip(shown: NumberText, rest: Text)
    requires Ends(rest)
    ensures Read(shown + rest) == Some((Num(shown), rest))
  {
    var t := shown + rest;
    NumberRunStops(shown, rest);
    assert t[..|shown|] == shown && t[|shown|..] == rest && t[0] == shown[0];
  }

  /** What a value's text starts with: never a comma or a bracket that closes. */
  lemma PutStarts(v: Json, rest: Text)
    ensures var t := Put(v, rest); t != [] && t[0] != COMMA && t[0] != CLOSE_ARRAY && t[0] != CLOSE_OBJECT
  {
  }

  /** A value whose text says itself where it is over: every one but a number. */
  predicate Delimited(v: Json) {
    !v.Num? && !v.NegZero?
  }

  /** The reader takes a value's text off the front, unless a number's text runs on into what follows. */
  lemma ReadsBack(v: Json, rest: Text)
    ensures Read(Put(v, rest)) == Some((Settled(v), rest)) <==> Delimited(v) || Ends(rest)
  {
    if Delimited(v) || Ends(rest) {
      TakesOff(v, rest);
    } else {
      var shown := if v.Num? then v.shown else ZERO;
      RunGoesOn(shown, rest);
    }
  }

  lemma {:induction false} RunGoesOn(shown: Text, rest: Text)
    requires (forall i | 0 <= i < |shown| :: IsNumberUnit(shown[i])) && !Ends(rest)
    ensures NumberRun(shown + rest) > |shown|
  {
    if shown == [] {
      assert shown + rest == rest;
    } else {
      assert (shown + rest)[1..] == shown[1..] + rest;
      RunGoesOn(shown[1..], rest);
    }
  }

  lemma {:induction false} TakesOff(v: Json, rest: Text)
    requires Delimited(v) || Ends(rest)
    ensures Read(Put(v, rest)) == Some((Settled(v), rest))
    decreases v, 0
  {
    var t := Put(v, rest);
    match v {
      case Null => assert t[4..] == rest;
      case Bool(value) => assert t[if value then 4 else 5..] == rest;
      case Str(text) => StringRoundTrip(text, rest);
      case Num(shown) => NumberRoundTrip(shown, rest);
      case NegZero => NumberRoundTrip(ZERO, rest);
      case Arr(items) =>
        assert t[1..] == PutItems(items, [CLOSE_ARRAY] + rest);
        ItemsReadBack(items, rest);
      case Obj(fields) =>
        assert t[1..] == PutFields(fields, [CLOSE_OBJECT] + rest);
        FieldsReadBack(fields, rest);
    }
  }

  lemma {:induction false} ItemReadsBack(slot: Slot, rest: Text)
    requires rest != [] && (rest[0] == COMMA || rest[0] == CLOSE_ARRAY)
    ensures ReadItem(PutItem(slot, rest)) == Some((SettledItem(slot), rest))
    decreases slot, 1
  {
    if slot.Item? {
      TakesOff(slot.item, rest);
      PutStarts(slot.item, rest);
    }
  }

  lemma {:induction false} ItemsReadBack(items: seq<Slot>, rest: Text)
    ensures ReadItems(PutItems(items, [CLOSE_ARRAY] + rest))
         == Some((if items == [] then [Hole] else SettledItems(items), rest))
    decreases items, 0
  {
    var end := [CLOSE_ARRAY] + rest;
    assert end[1..] == rest;
    if |items| == 1 {
      ItemReadsBack(items[0], end);
      assert SettledItems(items) == [SettledItem(items[0])];
    } else if items != [] {
      var after := [COMMA] + PutItems(items[1..], end);
      assert after[1..] == PutItems(items[1..], end);
      ItemReadsBack(items[0], after);
      ItemsReadBack(items[1..], rest);
    }
  }

  lemma {:induction false} FieldReadsBack(field: Field, rest: Text)
    requires rest != [] && (rest[0] == COMMA || rest[0] == CLOSE_OBJECT)
    ensures ReadField(PutField(field, rest)) == Some((Field(field.key, Settled(field.value)), rest))
    ensures PutField(field, rest)[0] == QUOTE
    decreases field, 1
  {
    var after := [COLON] + Put(field.value, rest);
    StringRoundTrip(field.key, after);
    assert after[1..] == Put(field.value, rest);
    TakesOff(field.value, rest);
  }

  lemma {:induction false} FieldsReadBack(fields: seq<Field>, rest: Text)
    ensures ReadFields(PutFields(fields, [CLOSE_OBJECT] + rest)) == Some((SettledFields(fields), rest))
    decreases fields, 0
  {
    var end := [CLOSE_OBJECT] + rest;
    assert end[1..] == rest;
    if |fields| == 1 {
      FieldReadsBack(fields[0], end);
      assert SettledFields(fields) == [Field(fields[0].key, Settled(fields[0].value))];
    } else if fields != [] {
      var after := [COMMA] + PutFields(fields[1..], end);
      assert after[1..] == PutFields(fields[1..], end);
      FieldReadsBack(fields[0], after);
      FieldsReadBack(fields[1..], rest);
    }
  }

  // Unique decodability.

  lemma {:induction false} SettlingKeepsText(v: Json, rest: Text)
    ensures Put(Settled(v), rest) == Put(v, rest)
    decreases v, 0
  {
    match v {
      case Arr(items) =>
        if items == [Hole] {
          assert PutItems(items, [CLOSE_ARRAY] + rest) == PutItem(Hole, [CLOSE_ARRAY] + rest);
        } else {
          SettlingKeepsItems(items, [CLOSE_ARRAY] + rest);
        }
      case Obj(fields) => SettlingKeepsFields(fields, [CLOSE_OBJECT] + rest);
      case _ =>
    }
  }

  lemma {:induction false} SettlingKeepsItem(slot: Slot, rest: Text)
    ensures PutItem(SettledItem(slot), rest) == PutItem(slot, rest)
    decreases slot, 1
  {
    if slot.Item? {
      SettlingKeepsText(slot.item, rest);
    }
  }

  lemma {:induction false} SettlingKeepsItems(items: seq<Slot>, rest: Text)
    ensures |SettledItems(items)| == |items| && PutItems(SettledItems(items), rest) == PutItems(items, rest)
    decreases items, 0
  {
    if items != [] {
      var settled := SettledItems(items);
      SettlingKeepsItems(items[1..], rest);
      assert settled[1..] == SettledItems(items[1..]);
      SettlingKeepsItem(items[0], if |items| == 1 then rest else [COMMA] + PutItems(items[1..], rest));
    }
  }

  lemma {:induction false} SettlingKeepsFields(fields: seq<Field>, rest: Text)
    ensures |SettledFields(fields)| == |fields| && PutFields(SettledFields(fields), rest) == PutFields(fields, rest)
    decreases fields, 0
  {
    if fields != [] {
      var settled := SettledFields(fields);
      SettlingKeepsFields(fields[1..], rest);
      assert settled[1..] == SettledFields(fields[1..]);
      var after := if |fields| == 1 then rest else [COMMA] + PutFields(fields[1..], rest);
      SettlingKeepsText(fields[0].value, after);
    }
  }

  /** The text decides the value, up to the sign of zero and the array with one empty position. */
  lemma SameTextSameValue(v: Json, w: Json)
    ensures Canonical(v) == Canonical(w) <==> Settled(v) == Settled(w)
  {
    ReadsBack(v, []);
    ReadsBack(w, []);
    SettlingKeepsText(v, []);
    SettlingKeepsText(w, []);
  }

  /** Where one text begins another and stops short of it, both are numbers' texts. */
  lemma OnlyNumbersContinue(v: Json, w: Json, rest: Text)
    requires Put(v, rest) == Canonical(w) && rest != []
    ensures !Delimited(v) && !Delimited(w) && !Ends(rest)
  {
    ReadsBack(v, rest);
    ReadsBack(w, []);
    if !Delimited(v) {
      assert Put(v, rest)[0] == (if v.Num? then v.shown else ZERO)[0];
    }
  }

  /** And numbers do: the text of 1 begins the text of 12. */
  lemma OneBeginsTwelve()
    ensures IsNumberText([49]) && IsNumberText([49, 50])
    ensures Put(Num([49]), [50]) == Canonical(Num([49, 50]))
  {
  }

  // The text as it is built: parts joined by commas between brackets.

  function Join(parts: seq<Text>): Text {
    if parts == [] then []
    else if |parts| == 1 then parts[0]
    else parts[0] + [COMMA] + Join(parts[1..])
  }

  function ItemText(slot: Slot): Text {
    PutItem(slot, [])
  }

  function ItemTexts(items: seq<Slot>): seq<Text> {
    if items == [] then [] else [ItemText(items[0])] + ItemTexts(items[1..])
  }

  function FieldText(field: Field): Text {
    PutString(field.key, []) + [COLON] + Canonical(field.value)
  }

  function FieldTexts(fields: seq<Field>): seq<Text> {
    if fields == [] then [] else [FieldText(fields[0])] + FieldTexts(fields[1..])
  }

  lemma {:induction false} UnitsInFront(s: Text, i: nat, front: Text, rest: Text)
    requires i <= |s|
    ensures PutUnits(s, i, front + rest) == PutUnits(s, i, front) + rest
    decreases |s| - i
  {
    if i < |s| {
      UnitsInFront(s, i + 1, front, rest);
      UnitInFront(s, i, PutUnits(s, i + 1, front), rest);
    }
  }

  lemma UnitInFront(s: Text, i: nat, front: Text, rest: Text)
    requires i < |s|
    ensures PutUnit(s, i, front + rest) == PutUnit(s, i, front) + rest
  {
  }

  lemma StringInFront(s: Text, front: Text, rest: Text)
    ensures PutString(s, front + rest) == PutString(s, front) + rest
  {
    UnitsInFront(s, 0, [QUOTE] + front, rest);
    assert [QUOTE] + (front + rest) == [QUOTE] + front + rest;
  }

  lemma Regroup(a: Text, b: Text, c: Text)
    ensures a + (b + c) == a + b + c
  {
  }

  lemma {:induction false} InFront(v: Json, front: Text, rest: Text)
    ensures Put(v, front + rest) == Put(v, front) + rest
    decreases v, 0
  {
    match v {
      case Str(text) => StringInFront(text, front, rest);
      case Arr(items) =>
        ItemsInFront(items, [CLOSE_ARRAY] + front, rest);
        Regroup([CLOSE_ARRAY], front, rest);
        Regroup([OPEN_ARRAY], PutItems(items, [CLOSE_ARRAY] + front), rest);
      case Obj(fields) =>
        FieldsInFront(fields, [CLOSE_OBJECT] + front, rest);
        Regroup([CLOSE_OBJECT], front, rest);
        Regroup([OPEN_OBJECT], PutFields(fields, [CLOSE_OBJECT] + front), rest);
      case Null => Regroup(NULL, front, rest);
      case Bool(value) => Regroup(if value then TRUE else FALSE, front, rest);
      case Num(shown) => Regroup(shown, front, rest);
      case NegZero => Regroup(ZERO, front, rest);
    }
  }

  lemma {:induction false} ItemInFront(slot: Slot, front: Text, rest: Text)
    ensures PutItem(slot, front + rest) == PutItem(slot, front) + rest
    decreases slot, 1
  {
    if slot.Item? {
      InFront(slot.item, front, rest);
    }
  }

  lemma {:induction false} ItemsInFront(items: seq<Slot>, front: Text, rest: Text)
    ensures PutItems(items, front + rest) == PutItems(items, front) + rest
    decreases items, 0
  {
    if |items| == 1 {
      ItemInFront(items[0], front, rest);
    } else if items != [] {
      ItemsInFront(items[1..], front, rest);
      assert [COMMA] + (PutItems(items[1..], front) + rest) == [COMMA] + PutItems(items[1..], front) + rest;
      ItemInFront(items[0], [COMMA] + PutItems(items[1..], front), rest);
    }
  }

  lemma {:induction false} FieldInFront(field: Field, front: Text, rest: Text)
    ensures PutField(field, front + rest) == PutField(field, front) + rest
    decreases field, 1
  {
    InFront(field.value, front, rest);
    assert [COLON] + (Put(field.value, front) + rest) == [COLON] + Put(field.value, front) + rest;
    StringInFront(field.key, [COLON] + Put(field.value, front), rest);
  }

  lemma {:induction false} FieldsInFront(fields: seq<Field>, front: Text, rest: Text)
    ensures PutFields(fields, front + rest) == PutFields(fields, front) + rest
    decreases fields, 0
  {
    if |fields| == 1 {
      FieldInFront(fields[0], front, rest);
    } else if fields != [] {
      FieldsInFront(fields[1..], front, rest);
      assert [COMMA] + (PutFields(fields[1..], front) + rest) == [COMMA] + PutFields(fields[1..], front) + rest;
      FieldInFront(fields[0], [COMMA] + PutFields(fields[1..], front), rest);
    }
  }

  lemma {:induction false} ItemsJoin(items: seq<Slot>, rest: Text)
    ensures |ItemTexts(items)| == |items| && PutItems(items, rest) == Join(ItemTexts(items)) + rest
  {
    if items != [] {
      var texts, first := ItemTexts(items), ItemText(items[0]);
      ItemsJoin(items[1..], rest);
      assert texts[1..] == ItemTexts(items[1..]) && texts[0] == first;
      var after := if |items| == 1 then rest else [COMMA] + PutItems(items[1..], rest);
      assert [] + after == after;
      ItemInFront(items[0], [], after);
      hide ItemText, ItemTexts, PutItem;
      if |items| > 1 {
        Regroup([COMMA], Join(texts[1..]), rest);
        Regroup(first, [COMMA] + Join(texts[1..]), rest);
        Regroup(first, [COMMA], Join(texts[1..]));
      }
    }
  }

  lemma FieldIsText(field: Field, rest: Text)
    ensures PutField(field, rest) == FieldText(field) + rest
  {
    var value := Canonical(field.value);
    assert [] + rest == rest;
    InFront(field.value, [], rest);
    assert [] + ([COLON] + (value + rest)) == [COLON] + (value + rest);
    StringInFront(field.key, [], [COLON] + (value + rest));
    assert PutString(field.key, []) + ([COLON] + (value + rest)) == PutString(field.key, []) + [COLON] + value + rest;
  }

  lemma {:induction false} FieldsJoin(fields: seq<Field>, rest: Text)
    ensures |FieldTexts(fields)| == |fields| && PutFields(fields, rest) == Join(FieldTexts(fields)) + rest
  {
    if fields != [] {
      var texts, first := FieldTexts(fields), FieldText(fields[0]);
      FieldsJoin(fields[1..], rest);
      assert texts[1..] == FieldTexts(fields[1..]) && texts[0] == first;
      FieldIsText(fields[0], if |fields| == 1 then rest else [COMMA] + PutFields(fields[1..], rest));
      hide FieldText, FieldTexts, PutField;
      if |fields| > 1 {
        Regroup([COMMA], Join(texts[1..]), rest);
        Regroup(first, [COMMA] + Join(texts[1..]), rest);
        Regroup(first, [COMMA], Join(texts[1..]));
      }
    }
  }

  lemma ArrayIsJoined(items: seq<Slot>)
    ensures Canonical(Arr(items)) == [OPEN_ARRAY] + Join(ItemTexts(items)) + [CLOSE_ARRAY]
  {
    ItemsJoin(items, [CLOSE_ARRAY]);
    assert [CLOSE_ARRAY] + [] == [CLOSE_ARRAY];
  }

  lemma ObjectIsJoined(fields: seq<Field>)
    ensures Canonical(Obj(fields)) == [OPEN_OBJECT] + Join(FieldTexts(fields)) + [CLOSE_OBJECT]
  {
    FieldsJoin(fields, [CLOSE_OBJECT]);
    assert [CLOSE_OBJECT] + [] == [CLOSE_OBJECT];
  }
}
