/** How deep tagging makes item data, and which data still passes the encoder's depth limit. */
module FingerprintDepth {
  import opened CanonicalText
  import opened CanonicalWalk
  import opened Fingerprint
  import opened Utf16

  function Max(a: nat, b: nat): nat {
    if a > b then a else b
  }

  // The encoder's limits, as a height and a width.

  function Height(t: Json): nat {
    match t
    case Arr(items) => ItemsHeight(items)
    case Obj(fields) => FieldsHeight(fields)
    case _ => 0
  }

  function SlotHeight(slot: Slot): nat {
    match slot
    case Hole => 0
    case Item(item) => 1 + Height(item)
  }

  function ItemsHeight(items: seq<Slot>): nat {
    if items == [] then 0 else Max(SlotHeight(items[0]), ItemsHeight(items[1..]))
  }

  function FieldsHeight(fields: seq<Field>): nat {
    if fields == [] then 0 else Max(1 + Height(fields[0].value), FieldsHeight(fields[1..]))
  }

  predicate Small(t: Json) {
    match t
    case Arr(items) =>
      |items| <= MAX_COLLECTION_SIZE && forall i | 0 <= i < |items| && items[i].Item? :: Small(items[i].item)
    case Obj(fields) =>
      |fields| <= MAX_COLLECTION_SIZE && forall i | 0 <= i < |fields| :: Small(fields[i].value)
    case _ => true
  }

  lemma {:induction false} ItemsHeightBounds(items: seq<Slot>, limit: nat)
    ensures ItemsHeight(items) <= limit <==> forall i | 0 <= i < |items| :: SlotHeight(items[i]) <= limit
  {
    if items != [] {
      ItemsHeightBounds(items[1..], limit);
      assert forall i | 0 < i < |items| :: items[i] == items[1..][i - 1];
      assert items == [items[0]] + items[1..];
    }
  }

  lemma {:induction false} FieldsHeightBounds(fields: seq<Field>, limit: nat)
    ensures FieldsHeight(fields) <= limit <==> forall i | 0 <= i < |fields| :: 1 + Height(fields[i].value) <= limit
  {
    if fields != [] {
      FieldsHeightBounds(fields[1..], limit);
      assert forall i | 0 < i < |fields| :: fields[i] == fields[1..][i - 1];
      assert fields == [fields[0]] + fields[1..];
    }
  }

  /** The depth check at every node is a bound on the height of the whole. */
  lemma {:induction false} FitsByHeight(t: Json, depth: nat)
    ensures Fits(t, depth) <==> depth + Height(t) <= MAX_DEPTH && Small(t)
    decreases t
  {
    if depth <= MAX_DEPTH {
      match t {
        case Arr(items) =>
          forall i | 0 <= i < |items| && items[i].Item?
            ensures Fits(items[i].item, depth + 1) <==> depth + SlotHeight(items[i]) <= MAX_DEPTH && Small(items[i].item)
          {
            FitsByHeight(items[i].item, depth + 1);
          }
          ItemsHeightBounds(items, MAX_DEPTH - depth);
        case Obj(fields) =>
          forall i | 0 <= i < |fields|
            ensures Fits(fields[i].value, depth + 1)
               <==> depth + 1 + Height(fields[i].value) <= MAX_DEPTH && Small(fields[i].value)
          {
            FitsByHeight(fields[i].value, depth + 1);
          }
          FieldsHeightBounds(fields, MAX_DEPTH - depth);
        case _ =>
      }
    }
  }

  // What tagging adds.

  /** How many levels a piece of data takes once tagged. */
  function Levels(v: Data): nat {
    match v
    case TypedArray(_, entries) => if entries == [] then 1 else 3
    case List(items) => 1 + PlacesLevels(items)
    case Record(members) => 1 + MembersLevels(members)
    case _ => 1
  }

  function PlacesLevels(items: seq<Place>): nat {
    if items == [] then 0 else Max(PlaceLevels(items[0]), PlacesLevels(items[1..]))
  }

  function PlaceLevels(place: Place): nat {
    match place
    case Gap => 0
    case Filled(data) => 1 + Levels(data)
  }

  function MembersLevels(members: seq<Member>): nat {
    if members == [] then 0 else Max(2 + Levels(members[0].data), MembersLevels(members[1..]))
  }

  lemma HeightOfOne(a: Slot)
    ensures ItemsHeight([a]) == SlotHeight(a)
  {
    assert [a][1..] == [];
  }

  lemma HeightOfTwo(a: Slot, b: Slot)
    ensures ItemsHeight([a, b]) == Max(SlotHeight(a), SlotHeight(b))
  {
    assert [a, b][1..] == [b];
    HeightOfOne(b);
  }

  lemma HeightOfThree(a: Slot, b: Slot, c: Slot)
    ensures ItemsHeight([a, b, c]) == Max(SlotHeight(a), Max(SlotHeight(b), SlotHeight(c)))
  {
    assert [a, b, c][1..] == [b, c];
    HeightOfTwo(b, c);
  }

  lemma {:induction false} EntriesHeight(entries: seq<Entry>)
    ensures ItemsHeight(TaggedEntries(entries)) == if entries == [] then 0 else 2
  {
    if entries != [] {
      EntriesHeight(entries[1..]);
      var t := TaggedEntries(entries);
      assert t[0] == TaggedEntry(entries[0]) && t[1..] == TaggedEntries(entries[1..]);
      EntryHeight(entries[0]);
    }
  }

  lemma EntryHeight(entry: Entry)
    ensures SlotHeight(TaggedEntry(entry)) == 2
  {
    hide Ascii;
    var pair := TaggedEntry(entry).item.items;
    HeightOfTwo(pair[0], pair[1]);
  }

  /** Tagged data is exactly as high as its levels say. */
  lemma {:induction false} TaggedHeight(v: Data)
    ensures Height(Tagged(v)) == Levels(v)
    decreases v, 1
  {
    hide Tagged, Tag, TaggedPlaces, TaggedMembers, TaggedEntries;
    match v {
      case TypedArray(_, entries) =>
        EntriesHeight(entries);
        TwoPartHeight(v);
      case List(items) =>
        PlacesHeight(items);
        OnePartHeight(v);
      case Record(members) =>
        MembersHeight(members);
        OnePartHeight(v);
      case _ => ScalarHeight(v);
    }
  }

  function Tag(v: Data): Slot {
    StrItem(Ascii(TagName(KindOf(v))))
  }

  lemma TwoPartHeight(v: Data)
    requires v.TypedArray?
    ensures |Parts(v)| == 2 && Height(Tagged(v)) == Max(1, Max(SlotHeight(Parts(v)[0]), SlotHeight(Parts(v)[1])))
  {
    hide Ascii, TagName, Base64.Encode, TaggedEntries;
    assert Tagged(v) == Arr([Tag(v), Parts(v)[0], Parts(v)[1]]);
    HeightOfThree(Tag(v), Parts(v)[0], Parts(v)[1]);
  }

  lemma OnePartHeight(v: Data)
    requires |Parts(v)| == 1
    ensures Height(Tagged(v)) == Max(1, SlotHeight(Parts(v)[0]))
  {
    hide Ascii, TagName, Base64.Encode;
    assert Parts(v) == [Parts(v)[0]];
    assert Tagged(v) == Arr([Tag(v), Parts(v)[0]]);
    HeightOfTwo(Tag(v), Parts(v)[0]);
  }

  lemma ScalarHeight(v: Data)
    requires Scalar(v)
    ensures Height(Tagged(v)) == 1
  {
    hide Ascii, TagName, Base64.Encode;
    var tag := StrItem(Ascii(TagName(KindOf(v))));
    if v.Nothing? {
      assert Tagged(v) == Arr([tag]);
      HeightOfOne(tag);
    } else {
      assert Tagged(v) == Arr([tag, Parts(v)[0]]);
      HeightOfTwo(tag, Parts(v)[0]);
    }
  }

  lemma {:induction false} PlacesHeight(items: seq<Place>)
    ensures ItemsHeight(TaggedPlaces(items)) == PlacesLevels(items)
    decreases items, 0
  {
    hide Tagged, Height;
    if items != [] {
      PlacesHeight(items[1..]);
      var t := TaggedPlaces(items);
      assert t[0] == TaggedPlace(items[0]) && t[1..] == TaggedPlaces(items[1..]);
      PlaceHeight(items[0]);
    }
  }

  lemma {:induction false} PlaceHeight(place: Place)
    ensures SlotHeight(TaggedPlace(place)) == PlaceLevels(place)
    decreases place, 2
  {
    hide Tagged, Height;
    if place.Filled? {
      TaggedHeight(place.data);
    }
  }

  lemma {:induction false} MembersHeight(members: seq<Member>)
    ensures ItemsHeight(TaggedMembers(members)) == MembersLevels(members)
    decreases members, 0
  {
    hide TaggedMember, SlotHeight;
    if members != [] {
      MembersHeight(members[1..]);
      var t := TaggedMembers(members);
      assert t[0] == TaggedMember(members[0]) && t[1..] == TaggedMembers(members[1..]);
      MemberHeight(members[0]);
    }
  }

  lemma {:induction false} MemberHeight(member: Member)
    ensures SlotHeight(TaggedMember(member)) == 2 + Levels(member.data)
    decreases member, 2
  {
    hide Tagged;
    TaggedHeight(member.data);
    HeightOfTwo(StrItem(member.key), Item(Tagged(member.data)));
  }

  // Objects and arrays on a path.

  /** The heaviest path: three for every object on it, two for every array. */
  function PathWeight(v: Data): nat {
    match v
    case List(items) => 2 + PlacesWeight(items)
    case Record(members) => 3 + MembersWeight(members)
    case _ => 0
  }

  function PlacesWeight(items: seq<Place>): nat {
    if items == [] then 0 else Max(PlaceWeight(items[0]), PlacesWeight(items[1..]))
  }

  function PlaceWeight(place: Place): nat {
    match place
    case Gap => 0
    case Filled(data) => PathWeight(data)
  }

  function MembersWeight(members: seq<Member>): nat {
    if members == [] then 0 else Max(PathWeight(members[0].data), MembersWeight(members[1..]))
  }

  predicate HasEntries(v: Data) {
    match v
    case TypedArray(_, entries) => entries != []
    case List(items) => exists i :: 0 <= i < |items| && items[i].Filled? && HasEntries(items[i].data)
    case Record(members) => exists i :: 0 <= i < |members| && HasEntries(members[i].data)
    case _ => false
  }

  /** The one level of a leaf, or the three of a typed array that has entries. */
  function LeafLevels(entries: bool): nat {
    if entries then 3 else 1
  }

  lemma {:induction false} LevelsByPath(v: Data, entries: bool)
    requires HasEntries(v) ==> entries
    ensures Levels(v) <= PathWeight(v) + LeafLevels(entries)
    decreases v, 1
  {
    match v {
      case List(items) =>
        forall i | 0 <= i < |items| && items[i].Filled?
          ensures HasEntries(items[i].data) ==> entries
        {
        }
        PlacesByPath(items, entries);
      case Record(members) => MembersByPath(members, entries);
      case _ =>
    }
  }

  lemma {:induction false} PlacesByPath(items: seq<Place>, entries: bool)
    requires forall i | 0 <= i < |items| && items[i].Filled? :: HasEntries(items[i].data) ==> entries
    ensures PlacesLevels(items) <= PlacesWeight(items) + 1 + LeafLevels(entries)
    decreases items, 0
  {
    if items != [] {
      PlaceByPath(items[0], entries);
      PlacesByPath(items[1..], entries);
    }
  }

  lemma {:induction false} PlaceByPath(place: Place, entries: bool)
    requires place.Filled? && HasEntries(place.data) ==> entries
    ensures place.Filled? ==> Levels(place.data) <= PathWeight(place.data) + LeafLevels(entries)
    decreases place, 2
  {
    if place.Filled? {
      LevelsByPath(place.data, entries);
    }
  }

  lemma {:induction false} MembersByPath(members: seq<Member>, entries: bool)
    requires forall i | 0 <= i < |members| :: HasEntries(members[i].data) ==> entries
    ensures MembersLevels(members) <= MembersWeight(members) + 2 + LeafLevels(entries)
    decreases members, 0
  {
    if members != [] {
      LevelsByPath(members[0].data, entries);
      MembersByPath(members[1..], entries);
    }
  }

  // The limits of the whole text.

  /** Collections no larger than normalizeItemData lets through. */
  predicate Narrow(v: Data) {
    match v
    case TypedArray(_, entries) => |entries| <= MAX_COLLECTION_SIZE
    case List(items) =>
      |items| <= MAX_COLLECTION_SIZE && forall i | 0 <= i < |items| && items[i].Filled? :: Narrow(items[i].data)
    case Record(members) =>
      |members| <= MAX_COLLECTION_SIZE && forall i | 0 <= i < |members| :: Narrow(members[i].data)
    case _ => true
  }

  predicate SmallSlot(slot: Slot) {
    slot.Item? ==> Small(slot.item)
  }

  lemma PairIsSmall(a: Slot, b: Slot)
    requires SmallSlot(a) && SmallSlot(b)
    ensures SmallSlot(Pair(a, b))
  {
    var pair := [a, b];
    assert Pair(a, b).item == Arr(pair);
    assert forall i | 0 <= i < 2 && pair[i].Item? :: Small(pair[i].item);
    assert Small(Arr(pair));
  }

  lemma EntryIsSmall(entry: Entry)
    ensures SmallSlot(TaggedEntry(entry))
  {
    hide Ascii;
    assert forall t :: SmallSlot(StrItem(t));
    match entry {
      case BigEntry(digits) => PairIsSmall(StrItem(Ascii("bigint")), StrItem(digits));
      case NumberEntry(shown) => PairIsSmall(StrItem(Ascii("number")), StrItem(shown));
    }
  }

  lemma {:induction false} EntriesAreSmall(entries: seq<Entry>)
    ensures |TaggedEntries(entries)| == |entries|
    ensures forall i | 0 <= i < |entries| :: SmallSlot(TaggedEntries(entries)[i])
  {
    if entries != [] {
      EntriesAreSmall(entries[1..]);
      EntryIsSmall(entries[0]);
      hide TaggedEntry, SmallSlot;
    }
  }

  lemma {:induction false} TaggedIsSmall(v: Data)
    requires Narrow(v)
    ensures Small(Tagged(v))
    decreases v, 1
  {
    hide Ascii, TagName, Base64.Encode;
    match v {
      case TypedArray(name, entries) =>
        EntriesAreSmall(entries);
        assert Small(Arr(TaggedEntries(entries))) by {
          assert forall i | 0 <= i < |entries| :: SmallSlot(TaggedEntries(entries)[i]);
        }
      case List(items) => PlacesAreSmall(items);
      case Record(members) => MembersAreSmall(members);
      case _ =>
    }
  }

  lemma {:induction false} PlacesAreSmall(items: seq<Place>)
    requires forall i | 0 <= i < |items| && items[i].Filled? :: Narrow(items[i].data)
    ensures |TaggedPlaces(items)| == |items|
    ensures forall i | 0 <= i < |items| :: SmallSlot(TaggedPlaces(items)[i])
    decreases items, 0
  {
    hide Tagged;
    if items != [] {
      PlaceIsSmall(items[0]);
      PlacesAreSmall(items[1..]);
    }
  }

  lemma {:induction false} PlaceIsSmall(place: Place)
    requires place.Filled? ==> Narrow(place.data)
    ensures SmallSlot(TaggedPlace(place))
    decreases place, 2
  {
    if place.Filled? {
      TaggedIsSmall(place.data);
    }
  }

  lemma {:induction false} MembersAreSmall(members: seq<Member>)
    requires forall i | 0 <= i < |members| :: Narrow(members[i].data)
    ensures |TaggedMembers(members)| == |members|
    ensures forall i | 0 <= i < |members| :: SmallSlot(TaggedMembers(members)[i])
    decreases members, 0
  {
    if members != [] {
      TaggedIsSmall(members[0].data);
      MembersAreSmall(members[1..]);
      PairIsSmall(StrItem(members[0].key), Item(Tagged(members[0].data)));
      assert SmallSlot(TaggedMember(members[0]));
      hide TaggedMember, SmallSlot;
    }
  }

  /**
   * An item passes the encoder's depth and collection limits exactly when its collections are small and
   * each part takes at most 31 levels once tagged.
   */
  lemma PassesTheEncoder(item: ItemLike)
    requires item.metadata.Num? || item.metadata.NegZero?
    requires Narrow(item.nbt) && Narrow(item.components) && Narrow(item.removedComponents)
    ensures Fits(PreImage(item), 0) <==>
            Levels(item.nbt) <= 31 && Levels(item.components) <= 31 && Levels(item.removedComponents) <= 31
  {
    PreImageValues(item);
    var fields := PreImage(item).fields;
    assert PreImage(item) == Obj(fields);
    hide PreImage, Tagged, Levels, Narrow, Fits;
    PartHeight(item.nbt);
    PartHeight(item.components);
    PartHeight(item.removedComponents);
    SixFields(fields);
    FitsByHeight(Obj(fields), 0);
  }

  lemma PartHeight(v: Data)
    requires Narrow(v)
    ensures Small(Tagged(v)) && Height(Tagged(v)) == Levels(v)
  {
    TaggedIsSmall(v);
    TaggedHeight(v);
  }

  lemma SixFields(fields: seq<Field>)
    requires |fields| == 6
    requires forall i | 0 <= i < 6 && i != 1 && i != 2 && i != 5 :: Small(fields[i].value)
    requires (fields[1].value.Num? || fields[1].value.NegZero?) && fields[2].value.Str? && fields[5].value.Num?
    ensures Small(Obj(fields))
    ensures Height(Obj(fields)) <= MAX_DEPTH <==>
            1 + Height(fields[0].value) <= MAX_DEPTH && 1 + Height(fields[3].value) <= MAX_DEPTH
            && 1 + Height(fields[4].value) <= MAX_DEPTH
  {
    FieldsHeightBounds(fields, MAX_DEPTH);
  }

  /** Data whose every path has 3 * objects + 2 * arrays at most 30 passes, if it has no typed array with entries. */
  lemma PassesByPath(item: ItemLike)
    requires item.metadata.Num? || item.metadata.NegZero?
    requires forall v | v in {item.nbt, item.components, item.removedComponents} ::
               Narrow(v) && PathWeight(v) <= if HasEntries(v) then 28 else 30
    ensures Fits(PreImage(item), 0)
  {
    LevelsByPath(item.nbt, HasEntries(item.nbt));
    LevelsByPath(item.components, HasEntries(item.components));
    LevelsByPath(item.removedComponents, HasEntries(item.removedComponents));
    PassesTheEncoder(item);
    hide PreImage, Fits, Levels, PathWeight;
  }

  function Nested(depth: nat, leaf: Data): Data {
    if depth == 0 then leaf else List([Filled(Nested(depth - 1, leaf))])
  }

  lemma {:induction false} NestedLists(depth: nat, leaf: Data)
    requires Narrow(leaf)
    ensures Narrow(Nested(depth, leaf)) && Levels(Nested(depth, leaf)) == 2 * depth + Levels(leaf)
    ensures PathWeight(Nested(depth, leaf)) == 2 * depth + PathWeight(leaf)
  {
    if depth > 0 {
      NestedLists(depth - 1, leaf);
      var items := [Filled(Nested(depth - 1, leaf))];
      assert items[1..] == [];
      assert PlacesLevels(items) == Max(PlaceLevels(items[0]), PlacesLevels(items[1..]));
      assert PlacesWeight(items) == Max(PlaceWeight(items[0]), PlacesWeight(items[1..]));
    }
  }

  /** With a typed array at the end of the path the bound is 28: fifteen lists around one go too deep. */
  lemma TypedArraysNeedMore(item: ItemLike, name: Text)
    requires item.metadata.Num? || item.metadata.NegZero?
    requires item.components == Nothing && item.removedComponents == Nothing
    requires item.nbt == Nested(15, TypedArray(name, [NumberEntry([48])]))
    ensures PathWeight(item.nbt) == 30 && !Fits(PreImage(item), 0)
  {
    NestedLists(15, TypedArray(name, [NumberEntry([48])]));
    PassesTheEncoder(item);
    hide PreImage, Fits, Nested;
  }
}
