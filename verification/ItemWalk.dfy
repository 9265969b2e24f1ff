/**
 * normalizeItemData on a graph of JavaScript objects, and itemFingerprint around it: what is accepted,
 * and the text that is hashed.
 */
module ItemWalk {
  import opened Base64
  import opened CanonicalText
  import opened Fingerprint
  import opened KeyOrder
  import opened Options
  import opened Utf16
  import CanonicalWalk

  const MAX_DEPTH := 32
  const MAX_NODES := 10_000
  const MAX_COLLECTION_SIZE := 512
  const MAX_BYTES := 65_536

  type Loc = nat

  datatype Value =
    | VNull
    | VString(text: Text)
    | VBool(value: bool)
    | VNumber(shown: FiniteText)
    | VMinusZero
    | VNonFinite
    | VBigInt(digits: Text)
    | VUnsupported
    | VRef(at: Loc)

  /** An accessor property has no value. */
  type Property = Keyed<Option<Value>>

  /** `hidden` is a symbol key or a property that is not enumerable. */
  datatype Thing =
    | BufferOf(bytes: seq<Byte>)
    | ArrayBufferOf(bytes: seq<Byte>)
    | DataViewOf(bytes: seq<Byte>)
    | TypedArrayOf(constructorName: Text, entries: seq<Entry>, byteLength: nat)
    | ListOf(slots: seq<Option<Value>>)
    | RecordOf(props: seq<Property>, hidden: bool)
    | Foreign

  type Heap = map<Loc, Thing>

  predicate RefOk(heap: Heap, v: Value) {
    v.VRef? ==> v.at in heap
  }

  predicate Closed(heap: Heap) {
    forall at | at in heap ::
      match heap[at]
      case ListOf(slots) => forall i | 0 <= i < |slots| && slots[i].Some? :: RefOk(heap, slots[i].value)
      case RecordOf(props, _) =>
        forall i | 0 <= i < |props| && props[i].content.Some? :: RefOk(heap, props[i].content.value)
      case _ => true
  }

  /** Bytes a text takes in UTF-8, a lone surrogate counting as the replacement character it becomes. */
  function Utf8Length(t: Text): nat {
    if t == [] then 0
    else if t[0] < 0x80 then 1 + Utf8Length(t[1..])
    else if t[0] < 0x800 then 2 + Utf8Length(t[1..])
    else if IsHigh(t[0]) && |t| > 1 && IsLow(t[1]) then 4 + Utf8Length(t[2..])
    else 3 + Utf8Length(t[1..])
  }

  // The data a graph stands for.

  predicate Unfolds(heap: Heap, v: Value, d: Data)
    decreases d, 0
  {
    match v
    case VNull => d.Nothing?
    case VString(text) => d == Words(text)
    case VBool(value) => d == Flag(value)
    case VNumber(shown) => d == Number(shown)
    case VMinusZero => d.MinusZero?
    case VBigInt(digits) => d == BigInt(digits)
    case VRef(at) =>
      if at !in heap then false
      else (
        match heap[at]
        case BufferOf(bytes) => d == Buffer(bytes)
        case ArrayBufferOf(bytes) => d == ArrayBuffer(bytes)
        case DataViewOf(bytes) => d == DataView(bytes)
        case TypedArrayOf(name, entries, byteLength) => d == TypedArray(name, entries) && byteLength <= MAX_BYTES
        case ListOf(slots) => d.List? && |d.items| == |slots| && SlotsUnfold(heap, slots, d.items)
        case RecordOf(props, hidden) =>
          d.Record? && !hidden && |d.members| == |Sorted(props)| && MembersUnfold(heap, Sorted(props), d.members)
        case Foreign => false
      )
    case _ => false
  }

  predicate SlotsUnfold(heap: Heap, slots: seq<Option<Value>>, items: seq<Place>)
    requires |slots| == |items|
    decreases items, 0
  {
    forall i | 0 <= i < |items| :: SlotUnfolds(heap, slots[i], items[i])
  }

  predicate SlotUnfolds(heap: Heap, slot: Option<Value>, place: Place)
    decreases place, 1
  {
    match slot
    case None => place.Gap?
    case Some(v) => place.Filled? && Unfolds(heap, v, place.data)
  }

  predicate MembersUnfold(heap: Heap, props: seq<Property>, members: seq<Member>)
    requires |props| == |members|
    decreases members, 0
  {
    forall i | 0 <= i < |members| :: MemberUnfolds(heap, props[i], members[i])
  }

  predicate MemberUnfolds(heap: Heap, prop: Property, member: Member)
    decreases member, 1
  {
    prop.key == member.key && prop.content.Some? && Unfolds(heap, prop.content.value, member.data)
  }

  // Limits.

  function DataSize(d: Data): nat {
    match d
    case List(items) => 1 + PlacesSize(items)
    case Record(members) => 1 + MembersSize(members)
    case _ => 1
  }

  function PlaceSize(place: Place): nat {
    match place
    case Gap => 0
    case Filled(data) => DataSize(data)
  }

  function PlacesSize(items: seq<Place>): nat {
    if items == [] then 0 else PlaceSize(items[0]) + PlacesSize(items[1..])
  }

  function MembersSize(members: seq<Member>): nat {
    if members == [] then 0 else DataSize(members[0].data) + MembersSize(members[1..])
  }

  predicate Within(d: Data, depth: nat) {
    && depth <= MAX_DEPTH
    && match d
       case Words(text) => Utf8Length(text) <= MAX_BYTES
       case Buffer(bytes) => |bytes| <= MAX_BYTES
       case ArrayBuffer(bytes) => |bytes| <= MAX_BYTES
       case DataView(bytes) => |bytes| <= MAX_BYTES
       case TypedArray(_, entries) => |entries| <= MAX_COLLECTION_SIZE
       case List(items) =>
         && |items| <= MAX_COLLECTION_SIZE
         && forall i | 0 <= i < |items| && items[i].Filled? :: Within(items[i].data, depth + 1)
       case Record(members) =>
         && |members| <= MAX_COLLECTION_SIZE
         && forall i | 0 <= i < |members| :: MemberWithin(members[i], depth + 1)
       case _ => true
  }

  predicate MemberWithin(member: Member, depth: nat) {
    Utf8Length(member.key) <= MAX_BYTES && Within(member.data, depth)
  }

  /** The data of a graph is unique. */
  lemma {:induction false} UnfoldsOnce(heap: Heap, v: Value, d: Data, e: Data)
    requires Unfolds(heap, v, d) && Unfolds(heap, v, e)
    ensures d == e
    decreases d, 0
  {
    if v.VRef? {
      match heap[v.at] {
        case ListOf(slots) =>
          forall i | 0 <= i < |slots|
            ensures d.items[i] == e.items[i]
          {
            ListParts(heap, v.at, slots, d, i);
            ListParts(heap, v.at, slots, e, i);
            SlotUnfoldsOnce(heap, slots[i], d.items[i], e.items[i]);
          }
          assert d.items == e.items;
        case RecordOf(props, hidden) =>
          var sorted := Sorted(props);
          forall i | 0 <= i < |sorted|
            ensures d.members[i] == e.members[i]
          {
            RecordParts(heap, v.at, props, hidden, d, i);
            RecordParts(heap, v.at, props, hidden, e, i);
            MemberUnfoldsOnce(heap, sorted[i], d.members[i], e.members[i]);
          }
          assert d.members == e.members;
        case _ =>
      }
    }
  }

  lemma ListParts(heap: Heap, at: Loc, slots: seq<Option<Value>>, d: Data, j: nat)
    requires at in heap && heap[at] == ListOf(slots) && Unfolds(heap, VRef(at), d) && j < |slots|
    ensures d.List? && |d.items| == |slots| && SlotUnfolds(heap, slots[j], d.items[j])
  {
    assert SlotsUnfold(heap, slots, d.items);
  }

  lemma RecordParts(heap: Heap, at: Loc, props: seq<Property>, hidden: bool, d: Data, j: nat)
    requires at in heap && heap[at] == RecordOf(props, hidden) && Unfolds(heap, VRef(at), d) && j < |Sorted(props)|
    ensures !hidden && d.Record? && |d.members| == |Sorted(props)| && MemberUnfolds(heap, Sorted(props)[j], d.members[j])
  {
    assert MembersUnfold(heap, Sorted(props), d.members);
  }

  lemma {:induction false} SlotUnfoldsOnce(heap: Heap, slot: Option<Value>, a: Place, b: Place)
    requires SlotUnfolds(heap, slot, a) && SlotUnfolds(heap, slot, b)
    ensures a == b
    decreases a, 1
  {
    if slot.Some? {
      UnfoldsOnce(heap, slot.value, a.data, b.data);
    }
  }

  lemma {:induction false} MemberUnfoldsOnce(heap: Heap, prop: Property, a: Member, b: Member)
    requires MemberUnfolds(heap, prop, a) && MemberUnfolds(heap, prop, b)
    ensures a == b
    decreases a, 1
  {
    UnfoldsOnce(heap, prop.content.value, a.data, b.data);
  }

  lemma {:induction false} PlacesSizeAt(items: seq<Place>, i: nat)
    requires i < |items|
    ensures PlacesSize(items) >= PlacesSize(items[..i]) + PlaceSize(items[i])
  {
    if i > 0 {
      PlacesSizeAt(items[1..], i - 1);
      assert items[..i][1..] == items[1..][..i - 1];
    }
  }

  lemma {:induction false} MembersSizeAt(members: seq<Member>, i: nat)
    requires i < |members|
    ensures MembersSize(members) >= MembersSize(members[..i]) + DataSize(members[i].data)
  {
    if i > 0 {
      MembersSizeAt(members[1..], i - 1);
      assert members[..i][1..] == members[1..][..i - 1];
    }
  }

  lemma {:induction false} PlacesGrow(items: seq<Place>, place: Place)
    ensures PlacesSize(items + [place]) == PlacesSize(items) + PlaceSize(place)
    ensures TaggedPlaces(items + [place]) == TaggedPlaces(items) + [TaggedPlace(place)]
  {
    if items == [] {
      assert items + [place] == [place];
    } else {
      assert (items + [place])[1..] == items[1..] + [place];
      PlacesGrow(items[1..], place);
    }
  }

  lemma {:induction false} MembersGrow(members: seq<Member>, member: Member)
    ensures MembersSize(members + [member]) == MembersSize(members) + DataSize(member.data)
    ensures TaggedMembers(members + [member]) == TaggedMembers(members) + [TaggedMember(member)]
  {
    if members == [] {
      assert members + [member] == [member];
    } else {
      assert (members + [member])[1..] == members[1..] + [member];
      MembersGrow(members[1..], member);
    }
  }

  // Cycles.

  /** Every ancestor's own data, if it has any, is bigger than this: this lies inside it. */
  ghost predicate Inside(heap: Heap, ancestors: set<Loc>, d: Data) {
    forall a | a in ancestors :: exists big :: Unfolds(heap, VRef(a), big) && DataSize(big) > DataSize(d)
  }

  lemma ChildIsInside(heap: Heap, ancestors: set<Loc>, at: Loc, d: Data, child: Data)
    requires Unfolds(heap, VRef(at), d) && Inside(heap, ancestors, d) && DataSize(child) < DataSize(d)
    ensures Inside(heap, ancestors + {at}, child)
  {
    forall a | a in ancestors + {at}
      ensures exists big :: Unfolds(heap, VRef(a), big) && DataSize(big) > DataSize(child)
    {
      if a in ancestors {
        var big :| Unfolds(heap, VRef(a), big) && DataSize(big) > DataSize(d);
      }
    }
  }

  /** Nothing this graph could stand for fits into what is left of the limits. */
  ghost predicate Rejects(heap: Heap, v: Value, depth: nat, ancestors: set<Loc>, before: nat) {
    forall d | Unfolds(heap, v, d) && Within(d, depth) && Inside(heap, ancestors, d) :: before + DataSize(d) > MAX_NODES
  }

  lemma CyclesAreRejected(heap: Heap, at: Loc, depth: nat, ancestors: set<Loc>, before: nat)
    requires at in ancestors
    ensures Rejects(heap, VRef(at), depth, ancestors, before)
  {
    forall d | Unfolds(heap, VRef(at), d)
      ensures !Inside(heap, ancestors, d)
    {
      if Inside(heap, ancestors, d) {
        var big :| Unfolds(heap, VRef(at), big) && DataSize(big) > DataSize(d);
        UnfoldsOnce(heap, VRef(at), d, big);
      }
    }
  }

  ghost predicate SlotsDone(heap: Heap, slots: seq<Option<Value>>, depth: nat, items: seq<Place>) {
    && |items| <= |slots|
    && forall j | 0 <= j < |items| ::
         SlotUnfolds(heap, slots[j], items[j]) && (items[j].Filled? ==> Within(items[j].data, depth))
  }

  ghost predicate MembersDone(heap: Heap, props: seq<Property>, depth: nat, members: seq<Member>) {
    && |members| <= |props|
    && forall j | 0 <= j < |members| :: MemberUnfolds(heap, props[j], members[j]) && MemberWithin(members[j], depth)
  }

  lemma RejectedItem(heap: Heap, at: Loc, slots: seq<Option<Value>>, depth: nat, ancestors: set<Loc>, before: nat,
                     items: seq<Place>)
    requires at in heap && heap[at] == ListOf(slots) && |items| < |slots| && SlotsDone(heap, slots, depth + 1, items)
    requires slots[|items|].Some?
    requires Rejects(heap, slots[|items|].value, depth + 1, ancestors + {at}, before + 1 + PlacesSize(items))
    ensures Rejects(heap, VRef(at), depth, ancestors, before)
  {
    forall d | Unfolds(heap, VRef(at), d) && Within(d, depth) && Inside(heap, ancestors, d)
      ensures before + DataSize(d) > MAX_NODES
    {
      var i := |items|;
      forall j | 0 <= j < i
        ensures |d.items| == |slots| && d.items[j] == items[j]
      {
        ListParts(heap, at, slots, d, j);
        SlotUnfoldsOnce(heap, slots[j], d.items[j], items[j]);
      }
      ListParts(heap, at, slots, d, i);
      assert d.items[..i] == items;
      PlacesSizeAt(d.items, i);
      ChildIsInside(heap, ancestors, at, d, d.items[i].data);
    }
  }

  lemma RejectedMember(heap: Heap, at: Loc, props: seq<Property>, hidden: bool, depth: nat, ancestors: set<Loc>,
                       before: nat, members: seq<Member>)
    requires at in heap && heap[at] == RecordOf(props, hidden) && |members| < |Sorted(props)|
    requires MembersDone(heap, Sorted(props), depth + 1, members)
    requires var prop := Sorted(props)[|members|];
             prop.content.Some? && Utf8Length(prop.key) <= MAX_BYTES ==>
               Rejects(heap, prop.content.value, depth + 1, ancestors + {at}, before + 1 + MembersSize(members))
    ensures Rejects(heap, VRef(at), depth, ancestors, before)
  {
    var sorted := Sorted(props);
    forall d | Unfolds(heap, VRef(at), d) && Within(d, depth) && Inside(heap, ancestors, d)
      ensures before + DataSize(d) > MAX_NODES
    {
      var i := |members|;
      forall j | 0 <= j < i
        ensures |d.members| == |sorted| && d.members[j] == members[j]
      {
        RecordParts(heap, at, props, hidden, d, j);
        MemberUnfoldsOnce(heap, sorted[j], d.members[j], members[j]);
      }
      RecordParts(heap, at, props, hidden, d, i);
      assert d.members[..i] == members;
      assert MemberWithin(d.members[i], depth + 1);
      MembersSizeAt(d.members, i);
      ChildIsInside(heap, ancestors, at, d, d.members[i].data);
    }
  }

  lemma SortedPropsOk(heap: Heap, at: Loc, i: nat)
    requires Closed(heap) && at in heap && heap[at].RecordOf? && i < |Sorted(heap[at].props)|
    ensures var prop := Sorted(heap[at].props)[i]; prop.content.Some? ==> RefOk(heap, prop.content.value)
  {
    var props := heap[at].props;
    SortedKeeps(props);
    SameEntries(props, Sorted(props), Sorted(props)[i]);
    var j :| 0 <= j < |props| && props[j] == Sorted(props)[i];
  }

  ghost predicate Accepts(heap: Heap, v: Value, depth: nat, tagged: Json, d: Data) {
    Unfolds(heap, v, d) && Within(d, depth) && tagged == Tagged(d)
  }

  /** A value that needs no visit of its own. */
  function Flat(heap: Heap, v: Value): Option<Data>
    requires RefOk(heap, v)
  {
    match v
    case VNull => Some(Nothing)
    case VString(text) => if Utf8Length(text) > MAX_BYTES then None else Some(Words(text))
    case VBool(value) => Some(Flag(value))
    case VNumber(shown) => Some(Number(shown))
    case VMinusZero => Some(MinusZero)
    case VBigInt(digits) => Some(BigInt(digits))
    case VRef(at) => (
      match heap[at]
      case BufferOf(bytes) => if |bytes| > MAX_BYTES then None else Some(Buffer(bytes))
      case ArrayBufferOf(bytes) => if |bytes| > MAX_BYTES then None else Some(ArrayBuffer(bytes))
      case DataViewOf(bytes) => if |bytes| > MAX_BYTES then None else Some(DataView(bytes))
      case TypedArrayOf(name, entries, byteLength) =>
        if byteLength > MAX_BYTES || |entries| > MAX_COLLECTION_SIZE then None else Some(TypedArray(name, entries))
      case _ => None
    )
    case _ => None
  }

  predicate IsCollection(heap: Heap, v: Value)
    requires RefOk(heap, v)
  {
    v.VRef? && (heap[v.at].ListOf? || heap[v.at].RecordOf?)
  }

  lemma FlatIsExact(heap: Heap, v: Value, depth: nat)
    requires RefOk(heap, v) && !IsCollection(heap, v) && depth <= MAX_DEPTH
    ensures Flat(heap, v).Some? ==>
              var d := Flat(heap, v).value; Accepts(heap, v, depth, Tagged(d), d) && DataSize(d) == 1
    ensures Flat(heap, v).None? ==> forall d | Unfolds(heap, v, d) :: !Within(d, depth)
  {
    hide Tagged, Utf8Length;
  }

  function TaggedList(parts: seq<Slot>): Json {
    Arr([StrItem(Ascii("array")), Item(Arr(parts))])
  }

  function TaggedRecord(parts: seq<Slot>): Json {
    Arr([StrItem(Ascii("object")), Item(Arr(parts))])
  }

  lemma ListIsAccepted(heap: Heap, at: Loc, slots: seq<Option<Value>>, depth: nat, items: seq<Place>)
    requires at in heap && heap[at] == ListOf(slots) && |items| == |slots| <= MAX_COLLECTION_SIZE && depth <= MAX_DEPTH
    requires SlotsDone(heap, slots, depth + 1, items)
    ensures Accepts(heap, VRef(at), depth, TaggedList(TaggedPlaces(items)), List(items))
    ensures DataSize(List(items)) == 1 + PlacesSize(items)
  {
    var d, inner := List(items), Item(Arr(TaggedPlaces(items)));
    assert TagName(KindOf(d)) == "array" && Parts(d) == [inner];
    assert [StrItem(Ascii("array"))] + [inner] == [StrItem(Ascii("array")), inner];
    assert Tagged(d) == TaggedList(TaggedPlaces(items));
    assert Unfolds(heap, VRef(at), d) && Within(d, depth);
  }

  lemma LongListIsRejected(heap: Heap, at: Loc, slots: seq<Option<Value>>, depth: nat, ancestors: set<Loc>, before: nat)
    requires at in heap && heap[at] == ListOf(slots) && |slots| > MAX_COLLECTION_SIZE
    ensures Rejects(heap, VRef(at), depth, ancestors, before)
  {
  }

  lemma RecordIsAccepted(heap: Heap, at: Loc, props: seq<Property>, depth: nat, members: seq<Member>)
    requires at in heap && heap[at] == RecordOf(props, false) && depth <= MAX_DEPTH
    requires |members| == |Sorted(props)| <= MAX_COLLECTION_SIZE && MembersDone(heap, Sorted(props), depth + 1, members)
    ensures Accepts(heap, VRef(at), depth, TaggedRecord(TaggedMembers(members)), Record(members))
    ensures DataSize(Record(members)) == 1 + MembersSize(members)
  {
    var d, inner := Record(members), Item(Arr(TaggedMembers(members)));
    assert TagName(KindOf(d)) == "object" && Parts(d) == [inner];
    assert [StrItem(Ascii("object"))] + [inner] == [StrItem(Ascii("object")), inner];
    assert Tagged(d) == TaggedRecord(TaggedMembers(members));
    assert Unfolds(heap, VRef(at), d) && Within(d, depth);
  }

  lemma BadRecordIsRejected(heap: Heap, at: Loc, props: seq<Property>, hidden: bool, depth: nat, ancestors: set<Loc>,
                            before: nat)
    requires at in heap && heap[at] == RecordOf(props, hidden) && (|Sorted(props)| > MAX_COLLECTION_SIZE || hidden)
    ensures Rejects(heap, VRef(at), depth, ancestors, before)
  {
  }

  lemma NothingDone(heap: Heap, slots: seq<Option<Value>>, props: seq<Property>, depth: nat)
    ensures SlotsDone(heap, slots, depth, []) && MembersDone(heap, props, depth, [])
    ensures TaggedPlaces([]) == [] && TaggedMembers([]) == []
  {
  }

  lemma OneMoreSlot(heap: Heap, slots: seq<Option<Value>>, depth: nat, items: seq<Place>, place: Place)
    requires SlotsDone(heap, slots, depth, items) && |items| < |slots| && SlotUnfolds(heap, slots[|items|], place)
    requires place.Filled? ==> Within(place.data, depth)
    ensures SlotsDone(heap, slots, depth, items + [place])
  {
  }

  lemma OneMoreMember(heap: Heap, props: seq<Property>, depth: nat, members: seq<Member>, member: Member)
    requires MembersDone(heap, props, depth, members) && |members| < |props|
    requires MemberUnfolds(heap, props[|members|], member) && MemberWithin(member, depth)
    ensures MembersDone(heap, props, depth, members + [member])
  {
  }

  class Normalizer {
    const heap: Heap
    var nodes: nat
    var ancestors: set<Loc>

    constructor (heap: Heap)
      ensures this.heap == heap && nodes == 0 && ancestors == {}
    {
      this.heap, nodes, ancestors := heap, 0, {};
    }

    /** None is one of the thrown errors. The data is what the accepted graph stands for. */
    method Visit(current: Value, depth: nat) returns (tagged: Option<Json>, ghost data: Data)
      requires Closed(heap) && RefOk(heap, current)
      modifies this
      ensures ancestors == old(ancestors)
      ensures tagged.Some? ==>
                Accepts(heap, current, depth, tagged.value, data) && nodes == old(nodes) + DataSize(data) <= MAX_NODES
      ensures tagged.None? ==> Rejects(heap, current, depth, ancestors, old(nodes))
      decreases if depth <= MAX_DEPTH then MAX_DEPTH + 1 - depth else 0, 1
    {
      hide Tagged, Utf8Length;
      data := Nothing;
      nodes := nodes + 1;
      if nodes > MAX_NODES || depth > MAX_DEPTH {
        return None, data;
      }
      if current.VRef? && current.at in ancestors {
        CyclesAreRejected(heap, current.at, depth, ancestors, old(nodes));
        return None, data;
      }
      if !IsCollection(heap, current) {
        FlatIsExact(heap, current, depth);
        var flat := Flat(heap, current);
        hide Flat;
        if flat.None? {
          return None, data;
        }
        return Some(Tagged(flat.value)), flat.value;
      }
      var at := current.at;
      match heap[at] {
        case ListOf(slots) =>
          ancestors := ancestors + {at};
          tagged, data := VisitList(at, slots, depth);
          ancestors := ancestors - {at};
        case RecordOf(props, hidden) =>
          ancestors := ancestors + {at};
          tagged, data := VisitRecord(at, props, hidden, depth);
          ancestors := ancestors - {at};
      }
    }

    method VisitList(at: Loc, slots: seq<Option<Value>>, depth: nat) returns (tagged: Option<Json>, ghost data: Data)
      requires Closed(heap) && at in heap && heap[at] == ListOf(slots) && at in ancestors && 0 < nodes <= MAX_NODES
      requires depth <= MAX_DEPTH
      modifies this
      ensures ancestors == old(ancestors)
      ensures tagged.Some? ==>
                && Accepts(heap, VRef(at), depth, tagged.value, data)
                && nodes + 1 == old(nodes) + DataSize(data) <= MAX_NODES + 1
      ensures tagged.None? ==> Rejects(heap, VRef(at), depth, ancestors - {at}, old(nodes) - 1)
      decreases MAX_DEPTH + 1 - depth, 0
    {
      hide Tagged, Unfolds, Within, Rejects, TaggedPlaces, SlotsDone;
      data := Nothing;
      if |slots| > MAX_COLLECTION_SIZE {
        LongListIsRejected(heap, at, slots, depth, ancestors - {at}, old(nodes) - 1);
        return None, data;
      }
      var parts: seq<Slot> := [];
      ghost var items: seq<Place> := [];
      NothingDone(heap, slots, [], depth + 1);
      for i := 0 to |slots|
        invariant ancestors == old(ancestors) && |items| == i
        invariant SlotsDone(heap, slots, depth + 1, items) && parts == TaggedPlaces(items)
        invariant nodes == old(nodes) + PlacesSize(items) <= MAX_NODES
      {
        ghost var place := Gap;
        if slots[i].None? {
          parts := parts + [Hole];
        } else {
          var part: Option<Json>;
          ghost var child: Data;
          part, child := Visit(slots[i].value, depth + 1);
          if part.None? {
            assert ancestors - {at} + {at} == ancestors;
            RejectedItem(heap, at, slots, depth, ancestors - {at}, old(nodes) - 1, items);
            return None, data;
          }
          place := Filled(child);
          parts := parts + [Item(part.value)];
        }
        PlacesGrow(items, place);
        OneMoreSlot(heap, slots, depth + 1, items, place);
        items := items + [place];
      }
      data := List(items);
      ListIsAccepted(heap, at, slots, depth, items);
      return Some(TaggedList(parts)), data;
    }

    method VisitRecord(at: Loc, props: seq<Property>, hidden: bool, depth: nat)
      returns (tagged: Option<Json>, ghost data: Data)
      requires Closed(heap) && at in heap && heap[at] == RecordOf(props, hidden) && at in ancestors
      requires 0 < nodes <= MAX_NODES && depth <= MAX_DEPTH
      modifies this
      ensures ancestors == old(ancestors)
      ensures tagged.Some? ==>
                && Accepts(heap, VRef(at), depth, tagged.value, data)
                && nodes + 1 == old(nodes) + DataSize(data) <= MAX_NODES + 1
      ensures tagged.None? ==> Rejects(heap, VRef(at), depth, ancestors - {at}, old(nodes) - 1)
      decreases MAX_DEPTH + 1 - depth, 0
    {
      hide Tagged, Unfolds, Within, Rejects, TaggedMembers, MembersDone, Sorted, Utf8Length;
      data := Nothing;
      var keys := Sorted(props);
      if |keys| > MAX_COLLECTION_SIZE || hidden {
        BadRecordIsRejected(heap, at, props, hidden, depth, ancestors - {at}, old(nodes) - 1);
        return None, data;
      }
      var parts: seq<Slot> := [];
      ghost var members: seq<Member> := [];
      NothingDone(heap, [], keys, depth + 1);
      for i := 0 to |keys|
        invariant ancestors == old(ancestors) && |members| == i
        invariant MembersDone(heap, keys, depth + 1, members) && parts == TaggedMembers(members)
        invariant nodes == old(nodes) + MembersSize(members) <= MAX_NODES
      {
        assert ancestors - {at} + {at} == ancestors;
        if Utf8Length(keys[i].key) > MAX_BYTES || keys[i].content.None? {
          RejectedMember(heap, at, props, hidden, depth, ancestors - {at}, old(nodes) - 1, members);
          return None, data;
        }
        SortedPropsOk(heap, at, i);
        var part: Option<Json>;
        ghost var child: Data;
        part, child := Visit(keys[i].content.value, depth + 1);
        if part.None? {
          RejectedMember(heap, at, props, hidden, depth, ancestors - {at}, old(nodes) - 1, members);
          return None, data;
        }
        ghost var member := Member(keys[i].key, child);
        MembersGrow(members, member);
        OneMoreMember(heap, keys, depth + 1, members, member);
        parts := parts + [Pair(StrItem(keys[i].key), Item(part.value))];
        members := members + [member];
      }
      data := Record(members);
      RecordIsAccepted(heap, at, props, depth, members);
      return Some(TaggedRecord(parts)), data;
    }
  }

  ghost predicate Normal(heap: Heap, v: Value, d: Data) {
    Unfolds(heap, v, d) && Within(d, 0) && DataSize(d) <= MAX_NODES
  }

  /** normalizeItemData ends on every graph, accepts exactly those within its limits, and tags what they stand for. */
  method NormalizeItemData(heap: Heap, v: Value) returns (tagged: Option<Json>, ghost data: Data)
    requires Closed(heap) && RefOk(heap, v)
    ensures tagged.Some? ==> Normal(heap, v, data) && tagged.value == Tagged(data)
    ensures tagged.None? ==> forall d :: !Normal(heap, v, d)
  {
    var normalizer := new Normalizer(heap);
    tagged, data := normalizer.Visit(v, 0);
  }

  // The fingerprint's text.

  datatype Metadata = Whole(shown: NumberText) | WholeMinusZero | NotWhole

  datatype MineflayerItem = MineflayerItem(
    name: Text, metadata: Metadata, nbt: Value, components: Value, removedComponents: Value)

  function MetadataJson(metadata: Metadata): Json
    requires !metadata.NotWhole?
  {
    match metadata
    case Whole(shown) => Num(shown)
    case WholeMinusZero => NegZero
  }

  /** canonicalJson of data built a moment ago, which shares nothing and has no cycle. */
  function Encoded(t: Json): Option<Text> {
    if CanonicalWalk.Fits(t, 0) && CanonicalWalk.Size(t) <= CanonicalWalk.MAX_NODES then Some(Canonical(t)) else None
  }

  /** The item a mineflayer object describes, if every part of it is normal. */
  ghost predicate Describes(heap: Heap, given: MineflayerItem, item: ItemLike) {
    && given.name != [] && !given.metadata.NotWhole?
    && item.name == given.name && item.metadata == MetadataJson(given.metadata)
    && Normal(heap, given.nbt, item.nbt) && Normal(heap, given.components, item.components)
    && Normal(heap, given.removedComponents, item.removedComponents)
  }

  lemma DescribesOnce(heap: Heap, given: MineflayerItem, a: ItemLike, b: ItemLike)
    requires Describes(heap, given, a) && Describes(heap, given, b)
    ensures a == b
  {
    hide Unfolds, Within, DataSize;
    UnfoldsOnce(heap, given.nbt, a.nbt, b.nbt);
    UnfoldsOnce(heap, given.components, a.components, b.components);
    UnfoldsOnce(heap, given.removedComponents, a.removedComponents, b.removedComponents);
  }

  /** itemFingerprint before it hashes: the text of the item described, or an error if none is or it is too big. */
  method FingerprintText(heap: Heap, given: MineflayerItem) returns (text: Option<Text>)
    requires Closed(heap)
    requires RefOk(heap, given.nbt) && RefOk(heap, given.components) && RefOk(heap, given.removedComponents)
    ensures text.Some? ==> exists item :: Describes(heap, given, item) && text == Encoded(PreImage(item))
    ensures forall item | Describes(heap, given, item) :: text == Encoded(PreImage(item))
  {
    hide Encoded, PreImage, Normal;
    if given.name == [] || given.metadata.NotWhole? {
      return None;
    }
    var nbt, components, removed;
    ghost var n, c, r;
    nbt, n := NormalizeItemData(heap, given.nbt);
    components, c := NormalizeItemData(heap, given.components);
    removed, r := NormalizeItemData(heap, given.removedComponents);
    if nbt.None? || components.None? || removed.None? {
      return None;
    }
    ghost var item := ItemLike(given.name, MetadataJson(given.metadata), n, c, r);
    text := Encoded(Assembled(given.name, MetadataJson(given.metadata), nbt.value, components.value, removed.value));
    AssembledIsPreImage(item);
    forall other | Describes(heap, given, other)
      ensures other == item
    {
      DescribesOnce(heap, given, item, other);
    }
  }

  function Assembled(name: Text, metadata: Json, nbt: Json, components: Json, removed: Json): Json {
    Obj([Field(Ascii("components"), components), Field(Ascii("metadata"), metadata), Field(Ascii("name"), Str(name)),
         Field(Ascii("nbt"), nbt), Field(Ascii("removedComponents"), removed), Field(Ascii("version"), Num([51]))])
  }

  lemma AssembledIsPreImage(item: ItemLike)
    ensures Assembled(item.name, item.metadata, Tagged(item.nbt), Tagged(item.components), Tagged(item.removedComponents))
         == PreImage(item)
  {
    hide Tagged;
  }

  /** Two items that both get a fingerprint have the same text exactly when what they describe agrees. */
  lemma SameTextSameItem(heap: Heap, x: MineflayerItem, y: MineflayerItem, a: ItemLike, b: ItemLike)
    requires Describes(heap, x, a) && Describes(heap, y, b)
    requires Encoded(PreImage(a)).Some? && Encoded(PreImage(b)).Some?
    ensures Encoded(PreImage(a)) == Encoded(PreImage(b)) <==>
            && x.name == y.name && Settled(MetadataJson(x.metadata)) == Settled(MetadataJson(y.metadata))
            && Settle(a.nbt) == Settle(b.nbt) && Settle(a.components) == Settle(b.components)
            && Settle(a.removedComponents) == Settle(b.removedComponents)
  {
    FingerprintTextFixesTheItem(a, b);
    hide PreImage, Normal, CanonicalWalk.Fits, CanonicalWalk.Size;
  }
}
