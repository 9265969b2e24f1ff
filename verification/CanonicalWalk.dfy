/**
 * canonicalJson on a graph of JavaScript objects: the traversal with its shared node counter and its
 * set of ancestors, and which graphs it accepts.
 */
module CanonicalWalk {
  import opened CanonicalText
  import opened KeyOrder
  import opened Options
  import opened Utf16

  const MAX_DEPTH := 32
  const MAX_NODES := 10_000
  const MAX_COLLECTION_SIZE := 512

  type Loc = nat

  /** Unsupported stands for undefined, functions, symbols and bigints. */
  datatype Value =
    | JsNull
    | JsBool(value: bool)
    | JsString(text: Text)
    | JsNumber(shown: NumberText)
    | JsNegZero
    | JsNonFinite
    | JsUnsupported
    | Ref(at: Loc)

  /** An accessor property has no value. */
  type Property = Keyed<Option<Value>>

  datatype Object = ArrayOf(slots: seq<Option<Value>>) | Plain(props: seq<Property>) | Exotic

  type Heap = map<Loc, Object>

  predicate RefOk(heap: Heap, v: Value) {
    v.Ref? ==> v.at in heap
  }

  /** No dangling references, and no key twice. */
  predicate Closed(heap: Heap) {
    forall at | at in heap ::
      match heap[at]
      case ArrayOf(slots) => forall i | 0 <= i < |slots| && slots[i].Some? :: RefOk(heap, slots[i].value)
      case Plain(props) =>
        Distinct(props) && forall i | 0 <= i < |props| && props[i].content.Some? :: RefOk(heap, props[i].content.value)
      case Exotic => true
  }

  // The data a graph stands for, if it stands for any.

  predicate Unfolds(heap: Heap, v: Value, t: Json)
    decreases t, 0
  {
    match v
    case JsNull => t.Null?
    case JsBool(value) => t == Bool(value)
    case JsString(text) => t == Str(text)
    case JsNumber(shown) => t == Num(shown)
    case JsNegZero => t.NegZero?
    case Ref(at) =>
      if at !in heap then false
      else (
        match heap[at]
        case ArrayOf(slots) => t.Arr? && |t.items| == |slots| && SlotsUnfold(heap, slots, t.items)
        case Plain(props) => t.Obj? && |t.fields| == |Sorted(props)| && FieldsUnfold(heap, Sorted(props), t.fields)
        case Exotic => false
      )
    case _ => false
  }

  predicate SlotsUnfold(heap: Heap, slots: seq<Option<Value>>, items: seq<Slot>)
    requires |slots| == |items|
    decreases items, 0
  {
    forall i | 0 <= i < |items| :: SlotUnfolds(heap, slots[i], items[i])
  }

  predicate SlotUnfolds(heap: Heap, slot: Option<Value>, item: Slot)
    decreases item, 1
  {
    match slot
    case None => item.Hole?
    case Some(v) => item.Item? && Unfolds(heap, v, item.item)
  }

  predicate FieldsUnfold(heap: Heap, props: seq<Property>, fields: seq<Field>)
    requires |props| == |fields|
    decreases fields, 0
  {
    forall i | 0 <= i < |fields| :: FieldUnfolds(heap, props[i], fields[i])
  }

  predicate FieldUnfolds(heap: Heap, prop: Property, field: Field)
    decreases field, 1
  {
    prop.key == field.key && prop.content.Some? && Unfolds(heap, prop.content.value, field.value)
  }

  // Limits.

  function Size(t: Json): nat {
    match t
    case Arr(items) => 1 + ItemsSize(items)
    case Obj(fields) => 1 + FieldsSize(fields)
    case _ => 1
  }

  function SlotSize(slot: Slot): nat {
    match slot
    case Hole => 0
    case Item(item) => Size(item)
  }

  function ItemsSize(items: seq<Slot>): nat {
    if items == [] then 0 else SlotSize(items[0]) + ItemsSize(items[1..])
  }

  function FieldsSize(fields: seq<Field>): nat {
    if fields == [] then 0 else Size(fields[0].value) + FieldsSize(fields[1..])
  }

  predicate Fits(t: Json, depth: nat) {
    && depth <= MAX_DEPTH
    && match t
       case Arr(items) =>
         |items| <= MAX_COLLECTION_SIZE && forall i | 0 <= i < |items| && items[i].Item? :: Fits(items[i].item, depth + 1)
       case Obj(fields) =>
         |fields| <= MAX_COLLECTION_SIZE && forall i | 0 <= i < |fields| :: Fits(fields[i].value, depth + 1)
       case _ => true
  }

  /** The data of a graph is unique. */
  lemma {:induction false} UnfoldsOnce(heap: Heap, v: Value, t: Json, u: Json)
    requires Unfolds(heap, v, t) && Unfolds(heap, v, u)
    ensures t == u
    decreases t, 0
  {
    if v.Ref? {
      match heap[v.at] {
        case ArrayOf(slots) =>
          forall i | 0 <= i < |slots|
            ensures t.items[i] == u.items[i]
          {
            SlotUnfoldsOnce(heap, slots[i], t.items[i], u.items[i]);
          }
          assert t.items == u.items;
        case Plain(props) =>
          var sorted := Sorted(props);
          forall i | 0 <= i < |sorted|
            ensures t.fields[i] == u.fields[i]
          {
            FieldUnfoldsOnce(heap, sorted[i], t.fields[i], u.fields[i]);
          }
          assert t.fields == u.fields;
        case Exotic =>
      }
    }
  }

  lemma {:induction false} SlotUnfoldsOnce(heap: Heap, slot: Option<Value>, a: Slot, b: Slot)
    requires SlotUnfolds(heap, slot, a) && SlotUnfolds(heap, slot, b)
    ensures a == b
    decreases a, 1
  {
    if slot.Some? {
      UnfoldsOnce(heap, slot.value, a.item, b.item);
    }
  }

  lemma {:induction false} FieldUnfoldsOnce(heap: Heap, prop: Property, a: Field, b: Field)
    requires FieldUnfolds(heap, prop, a) && FieldUnfolds(heap, prop, b)
    ensures a == b
    decreases a, 1
  {
    UnfoldsOnce(heap, prop.content.value, a.value, b.value);
  }

  lemma {:induction false} ItemsSizeAt(items: seq<Slot>, i: nat)
    requires i < |items|
    ensures ItemsSize(items) >= ItemsSize(items[..i]) + SlotSize(items[i])
  {
    if i > 0 {
      ItemsSizeAt(items[1..], i - 1);
      assert items[..i][1..] == items[1..][..i - 1];
    }
  }

  lemma {:induction false} FieldsSizeAt(fields: seq<Field>, i: nat)
    requires i < |fields|
    ensures FieldsSize(fields) >= FieldsSize(fields[..i]) + Size(fields[i].value)
  {
    if i > 0 {
      FieldsSizeAt(fields[1..], i - 1);
      assert fields[..i][1..] == fields[1..][..i - 1];
    }
  }

  lemma {:induction false} ItemsGrow(items: seq<Slot>, slot: Slot)
    ensures ItemsSize(items + [slot]) == ItemsSize(items) + SlotSize(slot)
    ensures ItemTexts(items + [slot]) == ItemTexts(items) + [ItemText(slot)]
  {
    if items == [] {
      assert items + [slot] == [slot];
    } else {
      assert (items + [slot])[1..] == items[1..] + [slot];
      ItemsGrow(items[1..], slot);
    }
  }

  lemma {:induction false} FieldsGrow(fields: seq<Field>, field: Field)
    ensures FieldsSize(fields + [field]) == FieldsSize(fields) + Size(field.value)
    ensures FieldTexts(fields + [field]) == FieldTexts(fields) + [FieldText(field)]
  {
    if fields == [] {
      assert fields + [field] == [field];
    } else {
      assert (fields + [field])[1..] == fields[1..] + [field];
      FieldsGrow(fields[1..], field);
    }
  }

  // Cycles.

  /** Every ancestor's own data, if it has any, is bigger than this: this lies inside it. */
  ghost predicate Inside(heap: Heap, ancestors: set<Loc>, t: Json) {
    forall a | a in ancestors :: exists big :: Unfolds(heap, Ref(a), big) && Size(big) > Size(t)
  }

  lemma NotInsideItself(heap: Heap, ancestors: set<Loc>, at: Loc, t: Json)
    requires at in ancestors && Unfolds(heap, Ref(at), t)
    ensures !Inside(heap, ancestors, t)
  {
    if Inside(heap, ancestors, t) {
      var big :| Unfolds(heap, Ref(at), big) && Size(big) > Size(t);
      UnfoldsOnce(heap, Ref(at), t, big);
    }
  }

  lemma ChildIsInside(heap: Heap, ancestors: set<Loc>, at: Loc, t: Json, child: Json)
    requires Unfolds(heap, Ref(at), t) && Inside(heap, ancestors, t) && Size(child) < Size(t)
    ensures Inside(heap, ancestors + {at}, child)
  {
    forall a | a in ancestors + {at}
      ensures exists big :: Unfolds(heap, Ref(a), big) && Size(big) > Size(child)
    {
      if a in ancestors {
        var big :| Unfolds(heap, Ref(a), big) && Size(big) > Size(t);
      }
    }
  }

  // The traversal.

  ghost predicate Accepts(heap: Heap, v: Value, depth: nat, text: Text, t: Json) {
    Unfolds(heap, v, t) && Fits(t, depth) && text == Canonical(t)
  }

  /** Nothing this graph could stand for fits into what is left of the limits. */
  ghost predicate Rejects(heap: Heap, v: Value, depth: nat, ancestors: set<Loc>, before: nat) {
    forall t | Unfolds(heap, v, t) && Fits(t, depth) && Inside(heap, ancestors, t) :: before + Size(t) > MAX_NODES
  }

  ghost predicate SlotsDone(heap: Heap, slots: seq<Option<Value>>, depth: nat, items: seq<Slot>) {
    && |items| <= |slots|
    && forall j | 0 <= j < |items| ::
         SlotUnfolds(heap, slots[j], items[j]) && (items[j].Item? ==> Fits(items[j].item, depth))
  }

  ghost predicate FieldsDone(heap: Heap, props: seq<Property>, depth: nat, fields: seq<Field>) {
    && |fields| <= |props|
    && forall j | 0 <= j < |fields| :: FieldUnfolds(heap, props[j], fields[j]) && Fits(fields[j].value, depth)
  }

  lemma ArrayParts(heap: Heap, at: Loc, slots: seq<Option<Value>>, t: Json, j: nat)
    requires at in heap && heap[at] == ArrayOf(slots) && Unfolds(heap, Ref(at), t) && j < |slots|
    ensures t.Arr? && |t.items| == |slots| && SlotUnfolds(heap, slots[j], t.items[j])
  {
    assert SlotsUnfold(heap, slots, t.items);
  }

  lemma ObjectParts(heap: Heap, at: Loc, props: seq<Property>, t: Json, j: nat)
    requires at in heap && heap[at] == Plain(props) && Unfolds(heap, Ref(at), t) && j < |Sorted(props)|
    ensures t.Obj? && |t.fields| == |Sorted(props)| && FieldUnfolds(heap, Sorted(props)[j], t.fields[j])
  {
    assert FieldsUnfold(heap, Sorted(props), t.fields);
  }

  lemma RejectedItem(heap: Heap, at: Loc, slots: seq<Option<Value>>, depth: nat, ancestors: set<Loc>, before: nat,
                     items: seq<Slot>)
    requires at in heap && heap[at] == ArrayOf(slots) && |items| < |slots| && SlotsDone(heap, slots, depth + 1, items)
    requires slots[|items|].Some?
    requires Rejects(heap, slots[|items|].value, depth + 1, ancestors + {at}, before + 1 + ItemsSize(items))
    ensures Rejects(heap, Ref(at), depth, ancestors, before)
  {
    forall t | Unfolds(heap, Ref(at), t) && Fits(t, depth) && Inside(heap, ancestors, t)
      ensures before + Size(t) > MAX_NODES
    {
      var i := |items|;
      forall j | 0 <= j < i
        ensures |t.items| == |slots| && t.items[j] == items[j]
      {
        ArrayParts(heap, at, slots, t, j);
        SlotUnfoldsOnce(heap, slots[j], t.items[j], items[j]);
      }
      ArrayParts(heap, at, slots, t, i);
      assert t.items[..i] == items;
      ItemsSizeAt(t.items, i);
      ChildIsInside(heap, ancestors, at, t, t.items[i].item);
    }
  }

  lemma RejectedField(heap: Heap, at: Loc, props: seq<Property>, depth: nat, ancestors: set<Loc>, before: nat,
                      fields: seq<Field>)
    requires at in heap && heap[at] == Plain(props) && |fields| < |Sorted(props)|
    requires FieldsDone(heap, Sorted(props), depth + 1, fields)
    requires var prop := Sorted(props)[|fields|];
             prop.content.Some? ==>
               Rejects(heap, prop.content.value, depth + 1, ancestors + {at}, before + 1 + FieldsSize(fields))
    ensures Rejects(heap, Ref(at), depth, ancestors, before)
  {
    var sorted := Sorted(props);
    forall t | Unfolds(heap, Ref(at), t) && Fits(t, depth) && Inside(heap, ancestors, t)
      ensures before + Size(t) > MAX_NODES
    {
      var i := |fields|;
      forall j | 0 <= j < i
        ensures |t.fields| == |sorted| && t.fields[j] == fields[j]
      {
        ObjectParts(heap, at, props, t, j);
        FieldUnfoldsOnce(heap, sorted[j], t.fields[j], fields[j]);
      }
      ObjectParts(heap, at, props, t, i);
      assert t.fields[..i] == fields;
      FieldsSizeAt(t.fields, i);
      ChildIsInside(heap, ancestors, at, t, t.fields[i].value);
    }
  }

  lemma TooManyItems(heap: Heap, at: Loc, slots: seq<Option<Value>>, depth: nat, ancestors: set<Loc>, before: nat)
    requires at in heap && heap[at] == ArrayOf(slots) && |slots| > MAX_COLLECTION_SIZE
    ensures Rejects(heap, Ref(at), depth, ancestors, before)
  {
  }

  lemma TooManyFields(heap: Heap, at: Loc, props: seq<Property>, depth: nat, ancestors: set<Loc>, before: nat)
    requires at in heap && heap[at] == Plain(props) && |Sorted(props)| > MAX_COLLECTION_SIZE
    ensures Rejects(heap, Ref(at), depth, ancestors, before)
  {
  }

  lemma NoItemsYet(heap: Heap, slots: seq<Option<Value>>, depth: nat)
    ensures SlotsDone(heap, slots, depth, []) && ItemTexts([]) == [] && ItemsSize([]) == 0
  {
  }

  lemma NoFieldsYet(heap: Heap, props: seq<Property>, depth: nat)
    ensures FieldsDone(heap, props, depth, []) && FieldTexts([]) == [] && FieldsSize([]) == 0
  {
  }

  lemma HoleDone(heap: Heap, slots: seq<Option<Value>>, depth: nat, items: seq<Slot>)
    requires SlotsDone(heap, slots, depth, items) && |items| < |slots| && slots[|items|].None?
    ensures SlotsDone(heap, slots, depth, items + [Hole]) && ItemsSize(items + [Hole]) == ItemsSize(items)
    ensures ItemTexts(items + [Hole]) == ItemTexts(items) + [[]]
  {
    hide SlotsDone, ItemsSize, ItemTexts;
    ItemsGrow(items, Hole);
    SlotsDoneGrow(heap, slots, depth, items, Hole);
  }

  lemma SlotsDoneGrow(heap: Heap, slots: seq<Option<Value>>, depth: nat, items: seq<Slot>, slot: Slot)
    requires SlotsDone(heap, slots, depth, items) && |items| < |slots|
    requires SlotUnfolds(heap, slots[|items|], slot) && (slot.Item? ==> Fits(slot.item, depth))
    ensures SlotsDone(heap, slots, depth, items + [slot])
  {
    hide SlotUnfolds, Fits;
  }

  lemma FieldsDoneGrow(heap: Heap, props: seq<Property>, depth: nat, fields: seq<Field>, field: Field)
    requires FieldsDone(heap, props, depth, fields) && |fields| < |props|
    requires FieldUnfolds(heap, props[|fields|], field) && Fits(field.value, depth)
    ensures FieldsDone(heap, props, depth, fields + [field])
  {
    hide FieldUnfolds, Fits;
  }

  lemma ItemDone(heap: Heap, slots: seq<Option<Value>>, depth: nat, items: seq<Slot>, text: Text, child: Json)
    requires SlotsDone(heap, slots, depth, items) && |items| < |slots| && slots[|items|].Some?
    requires Accepts(heap, slots[|items|].value, depth, text, child)
    ensures SlotsDone(heap, slots, depth, items + [Item(child)])
    ensures ItemsSize(items + [Item(child)]) == ItemsSize(items) + Size(child)
    ensures ItemTexts(items + [Item(child)]) == ItemTexts(items) + [text]
  {
    hide SlotsDone, ItemsSize, ItemTexts, Unfolds, Fits, Size, Put;
    ItemsGrow(items, Item(child));
    SlotsDoneGrow(heap, slots, depth, items, Item(child));
  }

  lemma FieldDone(heap: Heap, props: seq<Property>, depth: nat, fields: seq<Field>, text: Text, child: Json)
    requires FieldsDone(heap, props, depth, fields) && |fields| < |props| && props[|fields|].content.Some?
    requires Accepts(heap, props[|fields|].content.value, depth, text, child)
    ensures var key := props[|fields|].key;
            && FieldsDone(heap, props, depth, fields + [Field(key, child)])
            && FieldsSize(fields + [Field(key, child)]) == FieldsSize(fields) + Size(child)
            && FieldTexts(fields + [Field(key, child)]) == FieldTexts(fields) + [PutString(key, []) + [COLON] + text]
  {
    hide FieldsDone, FieldsSize, FieldTexts, Unfolds, Fits, Size, Canonical, PutString;
    FieldsGrow(fields, Field(props[|fields|].key, child));
    FieldsDoneGrow(heap, props, depth, fields, Field(props[|fields|].key, child));
  }

  lemma ArrayDone(heap: Heap, at: Loc, slots: seq<Option<Value>>, depth: nat, items: seq<Slot>)
    requires at in heap && heap[at] == ArrayOf(slots) && SlotsDone(heap, slots, depth + 1, items)
    requires |items| == |slots| <= MAX_COLLECTION_SIZE && depth <= MAX_DEPTH
    ensures Accepts(heap, Ref(at), depth, [OPEN_ARRAY] + Join(ItemTexts(items)) + [CLOSE_ARRAY], Arr(items))
    ensures Size(Arr(items)) == 1 + ItemsSize(items)
  {
    hide Canonical, Join, ItemTexts, SlotUnfolds;
    ArrayIsJoined(items);
    assert SlotsUnfold(heap, slots, items);
  }

  lemma ObjectDone(heap: Heap, at: Loc, props: seq<Property>, depth: nat, fields: seq<Field>)
    requires at in heap && heap[at] == Plain(props) && FieldsDone(heap, Sorted(props), depth + 1, fields)
    requires |fields| == |Sorted(props)| <= MAX_COLLECTION_SIZE && depth <= MAX_DEPTH
    ensures Accepts(heap, Ref(at), depth, [OPEN_OBJECT] + Join(FieldTexts(fields)) + [CLOSE_OBJECT], Obj(fields))
    ensures Size(Obj(fields)) == 1 + FieldsSize(fields)
  {
    hide Canonical, Join, FieldTexts, Sorted, FieldUnfolds;
    ObjectIsJoined(fields);
    assert FieldsUnfold(heap, Sorted(props), fields);
  }

  lemma SortedPropsOk(heap: Heap, at: Loc, i: nat)
    requires Closed(heap) && at in heap && heap[at].Plain? && i < |Sorted(heap[at].props)|
    ensures var prop := Sorted(heap[at].props)[i]; prop.content.Some? ==> RefOk(heap, prop.content.value)
  {
    var props := heap[at].props;
    SortedKeeps(props);
    SameEntries(props, Sorted(props), Sorted(props)[i]);
    var j :| 0 <= j < |props| && props[j] == Sorted(props)[i];
  }

  class Canonicalizer {
    const heap: Heap
    var nodes: nat
    var ancestors: set<Loc>

    constructor (heap: Heap)
      ensures this.heap == heap && nodes == 0 && ancestors == {}
    {
      this.heap, nodes, ancestors := heap, 0, {};
    }

    /** None is one of the thrown errors. The tree is what the accepted graph stands for. */
    method Visit(current: Value, depth: nat) returns (text: Option<Text>, ghost tree: Json)
      requires Closed(heap) && RefOk(heap, current)
      modifies this
      ensures ancestors == old(ancestors)
      ensures text.Some? ==>
                Accepts(heap, current, depth, text.value, tree) && nodes == old(nodes) + Size(tree) <= MAX_NODES
      ensures text.None? ==> Rejects(heap, current, depth, ancestors, old(nodes))
      decreases if depth <= MAX_DEPTH then MAX_DEPTH + 1 - depth else 0, 1
    {
      tree := Null;
      nodes := nodes + 1;
      if nodes > MAX_NODES || depth > MAX_DEPTH {
        return None, tree;
      }
      match current {
        case JsNull => return Some(Canonical(Null)), Null;
        case JsBool(value) => return Some(Canonical(Bool(value))), Bool(value);
        case JsString(s) => return Some(Canonical(Str(s))), Str(s);
        case JsNumber(shown) => return Some(Canonical(Num(shown))), Num(shown);
        case JsNegZero => return Some(Canonical(NegZero)), NegZero;
        case JsNonFinite => return None, tree;
        case JsUnsupported => return None, tree;
        case Ref(at) =>
          if at in ancestors {
            NothingBelow(old(nodes), at, depth);
            return None, tree;
          }
          match heap[at] {
            case Exotic => return None, tree;
            case ArrayOf(slots) =>
              ancestors := ancestors + {at};
              text, tree := VisitArray(at, slots, depth);
              ancestors := ancestors - {at};
            case Plain(props) =>
              ancestors := ancestors + {at};
              text, tree := VisitObject(at, props, depth);
              ancestors := ancestors - {at};
          }
      }
    }

    lemma NothingBelow(before: nat, at: Loc, depth: nat)
      requires at in ancestors
      ensures Rejects(heap, Ref(at), depth, ancestors, before)
    {
      forall t | Unfolds(heap, Ref(at), t)
        ensures !Inside(heap, ancestors, t)
      {
        NotInsideItself(heap, ancestors, at, t);
      }
    }

    method VisitArray(at: Loc, slots: seq<Option<Value>>, depth: nat) returns (text: Option<Text>, ghost tree: Json)
      requires Closed(heap) && at in heap && heap[at] == ArrayOf(slots) && at in ancestors && 0 < nodes <= MAX_NODES
      requires depth <= MAX_DEPTH
      modifies this
      ensures ancestors == old(ancestors)
      ensures text.Some? ==>
                Accepts(heap, Ref(at), depth, text.value, tree) && nodes + 1 == old(nodes) + Size(tree) <= MAX_NODES + 1
      ensures text.None? ==> Rejects(heap, Ref(at), depth, ancestors - {at}, old(nodes) - 1)
      decreases MAX_DEPTH + 1 - depth, 0
    {
      hide Accepts, Rejects, SlotsDone, ItemsSize, ItemTexts, ItemText, Join, Size, Canonical, Unfolds, Fits;
      tree := Null;
      if |slots| > MAX_COLLECTION_SIZE {
        TooManyItems(heap, at, slots, depth, ancestors - {at}, nodes - 1);
        return None, tree;
      }
      var parts: seq<Text> := [];
      ghost var items: seq<Slot> := [];
      NoItemsYet(heap, slots, depth + 1);
      for i := 0 to |slots|
        invariant ancestors == old(ancestors) && |items| == i
        invariant SlotsDone(heap, slots, depth + 1, items) && parts == ItemTexts(items)
        invariant nodes == old(nodes) + ItemsSize(items) <= MAX_NODES
      {
        if slots[i].None? {
          HoleDone(heap, slots, depth + 1, items);
          parts, items := parts + [[]], items + [Hole];
        } else {
          var part: Option<Text>;
          ghost var child: Json;
          part, child := Visit(slots[i].value, depth + 1);
          if part.None? {
            assert ancestors - {at} + {at} == ancestors;
            RejectedItem(heap, at, slots, depth, ancestors - {at}, old(nodes) - 1, items);
            return None, tree;
          }
          ItemDone(heap, slots, depth + 1, items, part.value, child);
          parts, items := parts + [part.value], items + [Item(child)];
        }
      }
      tree := Arr(items);
      ArrayDone(heap, at, slots, depth, items);
      return Some([OPEN_ARRAY] + Join(parts) + [CLOSE_ARRAY]), tree;
    }

    method VisitObject(at: Loc, props: seq<Property>, depth: nat) returns (text: Option<Text>, ghost tree: Json)
      requires Closed(heap) && at in heap && heap[at] == Plain(props) && at in ancestors && 0 < nodes <= MAX_NODES
      requires depth <= MAX_DEPTH
      modifies this
      ensures ancestors == old(ancestors)
      ensures text.Some? ==>
                Accepts(heap, Ref(at), depth, text.value, tree) && nodes + 1 == old(nodes) + Size(tree) <= MAX_NODES + 1
      ensures text.None? ==> Rejects(heap, Ref(at), depth, ancestors - {at}, old(nodes) - 1)
      decreases MAX_DEPTH + 1 - depth, 0
    {
      hide Accepts, Rejects, FieldsDone, FieldsSize, FieldTexts, FieldText, Join, Size, Canonical, Unfolds, Fits, Sorted;
      tree := Null;
      var keys := Sorted(props);
      if |keys| > MAX_COLLECTION_SIZE {
        TooManyFields(heap, at, props, depth, ancestors - {at}, nodes - 1);
        return None, tree;
      }
      var parts: seq<Text> := [];
      ghost var fields: seq<Field> := [];
      NoFieldsYet(heap, keys, depth + 1);
      for i := 0 to |keys|
        invariant ancestors == old(ancestors) && |fields| == i
        invariant FieldsDone(heap, keys, depth + 1, fields) && parts == FieldTexts(fields)
        invariant nodes == old(nodes) + FieldsSize(fields) <= MAX_NODES
      {
        assert ancestors - {at} + {at} == ancestors;
        if keys[i].content.None? {
          RejectedField(heap, at, props, depth, ancestors - {at}, old(nodes) - 1, fields);
          return None, tree;
        }
        SortedPropsOk(heap, at, i);
        var part: Option<Text>;
        ghost var child: Json;
        part, child := Visit(keys[i].content.value, depth + 1);
        if part.None? {
          RejectedField(heap, at, props, depth, ancestors - {at}, old(nodes) - 1, fields);
          return None, tree;
        }
        FieldDone(heap, keys, depth + 1, fields, part.value, child);
        parts := parts + [PutString(keys[i].key, []) + [COLON] + part.value];
        fields := fields + [Field(keys[i].key, child)];
      }
      tree := Obj(fields);
      ObjectDone(heap, at, props, depth, fields);
      return Some([OPEN_OBJECT] + Join(parts) + [CLOSE_OBJECT]), tree;
    }
  }

  /** Whether a graph has data at all, and within the limits: finite (so without a cycle), plain, not too big. */
  ghost predicate Acceptable(heap: Heap, v: Value) {
    exists t :: Unfolds(heap, v, t) && Fits(t, 0) && Size(t) <= MAX_NODES
  }

  /** canonicalJson ends on every graph, accepts exactly the acceptable ones, and writes what they stand for. */
  method CanonicalJson(heap: Heap, v: Value) returns (text: Option<Text>)
    requires Closed(heap) && RefOk(heap, v)
    ensures text.Some? <==> Acceptable(heap, v)
    ensures text.Some? ==> forall t | Unfolds(heap, v, t) :: text.value == Canonical(t)
  {
    var canonicalizer := new Canonicalizer(heap);
    ghost var tree: Json;
    text, tree := canonicalizer.Visit(v, 0);
    if text.Some? {
      forall t | Unfolds(heap, v, t)
        ensures t == tree
      {
        UnfoldsOnce(heap, v, t, tree);
      }
    }
  }

  // What the order of keys and a cycle mean for the data.

  /** The same objects, their properties perhaps added in another order. */
  ghost predicate Reordered(g: Heap, h: Heap) {
    && g.Keys == h.Keys
    && forall at | at in g ::
         match (g[at], h[at])
         case (Plain(a), Plain(b)) => multiset(a) == multiset(b)
         case (a, b) => a == b
  }

  /** The data does not depend on the order properties were added in, so neither does the text. */
  lemma {:induction false} OrderDoesNotMatter(g: Heap, h: Heap, v: Value, t: Json)
    requires Closed(g) && Closed(h) && Reordered(g, h) && Unfolds(g, v, t)
    ensures Unfolds(h, v, t)
    decreases t, 0
  {
    if v.Ref? {
      match g[v.at] {
        case ArrayOf(slots) =>
          forall i | 0 <= i < |slots|
            ensures SlotUnfolds(h, slots[i], t.items[i])
          {
            ArrayParts(g, v.at, slots, t, i);
            SlotOrderDoesNotMatter(g, h, slots[i], t.items[i]);
          }
        case Plain(props) =>
          SortedIsOrderBlind(props, h[v.at].props);
          forall i | 0 <= i < |Sorted(props)|
            ensures FieldUnfolds(h, Sorted(props)[i], t.fields[i])
          {
            ObjectParts(g, v.at, props, t, i);
            OrderDoesNotMatter(g, h, Sorted(props)[i].content.value, t.fields[i].value);
          }
        case Exotic =>
      }
    }
  }

  lemma {:induction false} SlotOrderDoesNotMatter(g: Heap, h: Heap, slot: Option<Value>, item: Slot)
    requires Closed(g) && Closed(h) && Reordered(g, h) && SlotUnfolds(g, slot, item)
    ensures SlotUnfolds(h, slot, item)
    decreases item, 1
  {
    if slot.Some? {
      OrderDoesNotMatter(g, h, slot.value, item.item);
    }
  }

  /** `b` is an element or a property value of `a`. */
  ghost predicate Holds(heap: Heap, a: Loc, b: Loc) {
    a in heap
    && match heap[a]
       case ArrayOf(slots) => exists i :: 0 <= i < |slots| && slots[i] == Some(Ref(b))
       case Plain(props) => exists i :: 0 <= i < |Sorted(props)| && Sorted(props)[i].content == Some(Ref(b))
       case Exotic => false
  }

  lemma HeldIsSmaller(heap: Heap, a: Loc, b: Loc, t: Json) returns (part: Json)
    requires Holds(heap, a, b) && Unfolds(heap, Ref(a), t)
    ensures Unfolds(heap, Ref(b), part) && Size(part) < Size(t)
  {
    match heap[a] {
      case ArrayOf(slots) =>
        var i :| 0 <= i < |slots| && slots[i] == Some(Ref(b));
        ArrayParts(heap, a, slots, t, i);
        ItemsSizeAt(t.items, i);
        part := t.items[i].item;
      case Plain(props) =>
        var i :| 0 <= i < |Sorted(props)| && Sorted(props)[i].content == Some(Ref(b));
        ObjectParts(heap, a, props, t, i);
        FieldsSizeAt(t.fields, i);
        part := t.fields[i].value;
    }
  }

  lemma {:induction false} PathShrinks(heap: Heap, path: seq<Loc>, t: Json) returns (part: Json)
    requires path != [] && (forall i | 0 <= i < |path| - 1 :: Holds(heap, path[i], path[i + 1]))
    requires Unfolds(heap, Ref(path[0]), t)
    ensures Unfolds(heap, Ref(path[|path| - 1]), part) && Size(part) + |path| - 1 <= Size(t)
    decreases |path|
  {
    part := t;
    if |path| > 1 {
      var next := HeldIsSmaller(heap, path[0], path[1], t);
      part := PathShrinks(heap, path[1..], next);
    }
  }

  /** A graph on a cycle stands for no data, so canonicalJson rejects it wherever the cycle is entered. */
  lemma CyclesAreNeverAcceptable(heap: Heap, path: seq<Loc>)
    requires |path| > 1 && path[0] == path[|path| - 1]
    requires forall i | 0 <= i < |path| - 1 :: Holds(heap, path[i], path[i + 1])
    ensures !Acceptable(heap, Ref(path[0]))
  {
    if Acceptable(heap, Ref(path[0])) {
      var t :| Unfolds(heap, Ref(path[0]), t) && Fits(t, 0) && Size(t) <= MAX_NODES;
      var part := PathShrinks(heap, path, t);
      UnfoldsOnce(heap, Ref(path[0]), t, part);
    }
  }
}
