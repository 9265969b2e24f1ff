/**
 * itemFingerprint up to its hash: item data is tagged by type, the tagged data goes through
 * canonicalJson, and the text that is hashed tells apart any two items that differ.
 */
module Fingerprint {
  import opened Base64
  import opened CanonicalText
  import opened Signatures
  import opened Utf16

  /** What JavaScript writes for a finite number other than -0. */
  type FiniteText = t: Text | IsNumberText(t) && t != [45, 48] witness [48]

  /** Item data, with hidden properties, accessors and foreign objects already refused. */
  datatype Data =
    | Nothing
    | Words(text: Text)
    | Flag(value: bool)
    | Number(shown: FiniteText)
    | MinusZero
    | BigInt(digits: Text)
    | Buffer(bytes: seq<Byte>)
    | ArrayBuffer(bytes: seq<Byte>)
    | DataView(bytes: seq<Byte>)
    | TypedArray(constructorName: Text, entries: seq<Entry>)
    | List(items: seq<Place>)
    | Record(members: seq<Member>)

  datatype Place = Gap | Filled(data: Data)

  datatype Member = Member(key: Text, data: Data)

  /** A typed array's entry by its text; floats may also be NaN or infinite. */
  datatype Entry = BigEntry(digits: Text) | NumberEntry(shown: Text)

  datatype Kind =
    | KNull | KString | KBoolean | KNumber | KBigint | KBuffer | KArrayBuffer | KDataView | KTypedArray | KArray | KObject

  function TagName(kind: Kind): string {
    match kind
    case KNull => "null"
    case KString => "string"
    case KBoolean => "boolean"
    case KNumber => "number"
    case KBigint => "bigint"
    case KBuffer => "buffer"
    case KArrayBuffer => "array-buffer"
    case KDataView => "data-view"
    case KTypedArray => "typed-array"
    case KArray => "array"
    case KObject => "object"
  }

  function KindOf(v: Data): Kind {
    match v
    case Nothing => KNull
    case Words(_) => KString
    case Flag(_) => KBoolean
    case Number(_) => KNumber
    case MinusZero => KNumber
    case BigInt(_) => KBigint
    case Buffer(_) => KBuffer
    case ArrayBuffer(_) => KArrayBuffer
    case DataView(_) => KDataView
    case TypedArray(_, _) => KTypedArray
    case List(_) => KArray
    case Record(_) => KObject
  }

  function StrItem(t: Text): Slot {
    Item(Str(t))
  }

  function Pair(a: Slot, b: Slot): Slot {
    Item(Arr([a, b]))
  }

  /** normalizeItemData. */
  function Tagged(v: Data): Json
    decreases v, 1
  {
    Arr([StrItem(Ascii(TagName(KindOf(v))))] + Parts(v))
  }

  function Parts(v: Data): seq<Slot>
    decreases v, 0
  {
    match v
    case Nothing => []
    case Words(text) => [StrItem(text)]
    case Flag(value) => [Item(Bool(value))]
    case Number(shown) => [StrItem(shown)]
    case MinusZero => [StrItem([45, 48])]
    case BigInt(digits) => [StrItem(digits)]
    case Buffer(bytes) => [StrItem(Encode(bytes))]
    case ArrayBuffer(bytes) => [StrItem(Encode(bytes))]
    case DataView(bytes) => [StrItem(Encode(bytes))]
    case TypedArray(name, entries) => [StrItem(name), Item(Arr(TaggedEntries(entries)))]
    case List(items) => [Item(Arr(TaggedPlaces(items)))]
    case Record(members) => [Item(Arr(TaggedMembers(members)))]
  }

  function TaggedEntry(entry: Entry): Slot {
    match entry
    case BigEntry(digits) => Pair(StrItem(Ascii("bigint")), StrItem(digits))
    case NumberEntry(shown) => Pair(StrItem(Ascii("number")), StrItem(shown))
  }

  function TaggedEntries(entries: seq<Entry>): seq<Slot> {
    if entries == [] then [] else [TaggedEntry(entries[0])] + TaggedEntries(entries[1..])
  }

  function TaggedPlace(place: Place): Slot
    decreases place, 2
  {
    match place
    case Gap => Hole
    case Filled(data) => Item(Tagged(data))
  }

  function TaggedPlaces(items: seq<Place>): seq<Slot> {
    if items == [] then [] else [TaggedPlace(items[0])] + TaggedPlaces(items[1..])
  }

  function TaggedMember(member: Member): Slot
    decreases member, 2
  {
    Pair(StrItem(member.key), Item(Tagged(member.data)))
  }

  function TaggedMembers(members: seq<Member>): seq<Slot> {
    if members == [] then [] else [TaggedMember(members[0])] + TaggedMembers(members[1..])
  }

  // What the tagged text does not tell apart: a list of one gap, and an empty list.

  function Settle(v: Data): Data {
    match v
    case List(items) => List(if items == [Gap] then [] else SettlePlaces(items))
    case Record(members) => Record(SettleMembers(members))
    case _ => v
  }

  function SettlePlace(place: Place): Place {
    match place
    case Gap => Gap
    case Filled(data) => Filled(Settle(data))
  }

  function SettlePlaces(items: seq<Place>): seq<Place> {
    if items == [] then [] else [SettlePlace(items[0])] + SettlePlaces(items[1..])
  }

  function SettleMembers(members: seq<Member>): seq<Member> {
    if members == [] then [] else [Member(members[0].key, Settle(members[0].data))] + SettleMembers(members[1..])
  }

  /** No two types carry the same tag. */
  lemma TagsDiffer(j: Kind, k: Kind)
    requires TagName(j) == TagName(k)
    ensures j == k
  {
    TagFixesKind(j);
    TagFixesKind(k);
  }

  function KindNamed(name: string): Kind {
    if |name| == 4 then KNull
    else if |name| == 5 then KArray
    else if |name| == 7 then KBoolean
    else if |name| == 9 then KDataView
    else if |name| == 11 then KTypedArray
    else if |name| == 12 then KArrayBuffer
    else if |name| != 6 then KNull
    else if name[0] == 's' then KString
    else if name[0] == 'n' then KNumber
    else if name[0] == 'o' then KObject
    else if name[1] == 'i' then KBigint
    else KBuffer
  }

  lemma TagFixesKind(k: Kind)
    ensures KindNamed(TagName(k)) == k
  {
  }

  predicate IsAscii(s: string) {
    forall i | 0 <= i < |s| :: s[i] as int < 128
  }

  lemma AsciiIsInjective(s: string, t: string)
    requires IsAscii(s) && IsAscii(t) && Ascii(s) == Ascii(t)
    ensures s == t
  {
    assert |Ascii(s)| == |s| && |Ascii(t)| == |t|;
    forall i | 0 <= i < |s|
      ensures s[i] == t[i]
    {
      assert Ascii(s)[i] == AsciiUnit(s[i]) && Ascii(t)[i] == AsciiUnit(t[i]);
      assert s[i] as int == t[i] as int;
    }
  }

  lemma TagsAreAscii(k: Kind)
    ensures IsAscii(TagName(k))
  {
  }

  // Tagging is injective.

  lemma SettledOne(slot: Slot)
    ensures SettledItems([slot]) == [SettledItem(slot)]
  {
    assert [slot][1..] == [];
  }

  lemma SettledTwo(a: Slot, b: Slot)
    ensures SettledItems([a, b]) == [SettledItem(a), SettledItem(b)]
  {
    assert [a, b][1..] == [b];
    SettledOne(b);
  }

  lemma SettledTagged(v: Data)
    ensures Settled(Tagged(v)) == Arr([StrItem(Ascii(TagName(KindOf(v))))] + SettledItems(Parts(v)))
  {
    hide Ascii, Parts;
    var tag := StrItem(Ascii(TagName(KindOf(v))));
    assert ([tag] + Parts(v))[1..] == Parts(v);
    assert ([tag] + Parts(v))[0] == tag;
    assert SettledItems([tag] + Parts(v)) == [SettledItem(tag)] + SettledItems(Parts(v));
    assert Tagged(v) == Arr([tag] + Parts(v)) && SettledItem(tag) == tag;
  }

  /** Equal texts have equal tags and equal parts. */
  lemma SamePartsOfSame(v: Data, w: Data)
    requires Settled(Tagged(v)) == Settled(Tagged(w))
    ensures KindOf(v) == KindOf(w) && SettledItems(Parts(v)) == SettledItems(Parts(w))
  {
    SettledTagged(v);
    SettledTagged(w);
    hide Parts, Settled, SettledItems, Tagged, Ascii;
    var p, q := StrItem(Ascii(TagName(KindOf(v)))), StrItem(Ascii(TagName(KindOf(w))));
    var a, b := [p] + SettledItems(Parts(v)), [q] + SettledItems(Parts(w));
    assert a == b && a[0] == p && b[0] == q && a[1..] == SettledItems(Parts(v)) && b[1..] == SettledItems(Parts(w));
    TagsAreAscii(KindOf(v));
    TagsAreAscii(KindOf(w));
    AsciiIsInjective(TagName(KindOf(v)), TagName(KindOf(w)));
    TagsDiffer(KindOf(v), KindOf(w));
  }

  function Scalar(v: Data): bool {
    !v.TypedArray? && !v.List? && !v.Record?
  }

  lemma ScalarIsInjective(v: Data, w: Data)
    requires Scalar(v) && KindOf(v) == KindOf(w) && SettledItems(Parts(v)) == SettledItems(Parts(w))
    ensures v == w
  {
    hide Encode, Ascii, IsNumberText;
    if Parts(v) != [] {
      assert Parts(v) == [Parts(v)[0]] && Parts(w) == [Parts(w)[0]];
      SettledOne(Parts(v)[0]);
      SettledOne(Parts(w)[0]);
      assert SettledItem(Parts(v)[0]) == SettledItem(Parts(w)[0]);
    }
    if v.Buffer? || v.ArrayBuffer? || v.DataView? {
      EncodeIsInjective(v.bytes, w.bytes);
    }
  }

  lemma TaggedEntryIsInjective(a: Entry, b: Entry)
    requires SettledItem(TaggedEntry(a)) == SettledItem(TaggedEntry(b))
    ensures a == b
  {
    EntrySettles(a);
    EntrySettles(b);
    hide Ascii, Settled;
    EntryTagsDiffer();
  }

  lemma EntryTagsDiffer()
    ensures Ascii("bigint") != Ascii("number")
  {
    assert Ascii("bigint")[0] == AsciiUnit('b') && Ascii("number")[0] == AsciiUnit('n');
  }

  lemma EntrySettles(a: Entry)
    ensures SettledItem(TaggedEntry(a)) == TaggedEntry(a)
  {
    hide Ascii;
    SettledTwo(TaggedEntry(a).item.items[0], TaggedEntry(a).item.items[1]);
  }

  lemma {:induction false} EntriesAreInjective(a: seq<Entry>, b: seq<Entry>)
    requires SettledItems(TaggedEntries(a)) == SettledItems(TaggedEntries(b))
    ensures a == b
  {
    hide TaggedEntry, SettledItem;
    if a != [] && b != [] {
      var s, t := TaggedEntries(a), TaggedEntries(b);
      assert s[1..] == TaggedEntries(a[1..]) && t[1..] == TaggedEntries(b[1..]);
      var x, y := SettledItems(s), SettledItems(t);
      assert x[0] == SettledItem(s[0]) && x[1..] == SettledItems(s[1..]);
      assert y[0] == SettledItem(t[0]) && y[1..] == SettledItems(t[1..]);
      TaggedEntryIsInjective(a[0], b[0]);
      EntriesAreInjective(a[1..], b[1..]);
      assert a == [a[0]] + a[1..] && b == [b[0]] + b[1..];
    } else {
      assert (a == [] <==> SettledItems(TaggedEntries(a)) == []) && (b == [] <==> SettledItems(TaggedEntries(b)) == []);
    }
  }

  lemma {:induction false} EntriesSettle(entries: seq<Entry>)
    ensures SettledItems(TaggedEntries(entries)) == TaggedEntries(entries)
    ensures TaggedEntries(entries) != [Hole]
  {
    if entries != [] {
      EntrySettles(entries[0]);
      EntriesSettle(entries[1..]);
      assert TaggedEntries(entries)[1..] == TaggedEntries(entries[1..]);
    }
  }

  lemma TypedArrayIsInjective(v: Data, w: Data)
    requires v.TypedArray? && w.TypedArray? && SettledItems(Parts(v)) == SettledItems(Parts(w))
    ensures v == w
  {
    EntriesSettle(v.entries);
    EntriesSettle(w.entries);
    SettledTwo(StrItem(v.constructorName), Item(Arr(TaggedEntries(v.entries))));
    SettledTwo(StrItem(w.constructorName), Item(Arr(TaggedEntries(w.entries))));
    hide SettledItems, TaggedEntries;
    var a, b := SettledItems(Parts(v)), SettledItems(Parts(w));
    assert a[0] == b[0] && a[1] == b[1];
    EntriesAreInjective(v.entries, w.entries);
  }

  lemma PlacesKeepHoles(items: seq<Place>)
    ensures TaggedPlaces(items) == [Hole] <==> items == [Gap]
    ensures TaggedPlaces(items) == [] <==> items == []
  {
    if |items| == 1 {
      assert TaggedPlaces(items) == [TaggedPlace(items[0])] && items == [items[0]];
    } else if |items| > 1 {
      assert |TaggedPlaces(items)| >= 2 by {
        assert TaggedPlaces(items[1..]) != [];
      }
    }
  }

  /** The one part of a list or record, settled. */
  lemma OnePart(slots: seq<Slot>)
    ensures SettledItems([Item(Arr(slots))]) == [Item(Arr(if slots == [Hole] then [] else SettledItems(slots)))]
  {
    SettledOne(Item(Arr(slots)));
  }

  /** Tagging and canonicalization tell any two pieces of data apart, except a list of one gap and an empty one. */
  lemma {:induction false} TaggedIsInjective(v: Data, w: Data)
    requires Settled(Tagged(v)) == Settled(Tagged(w))
    ensures Settle(v) == Settle(w)
    decreases v, 1
  {
    SamePartsOfSame(v, w);
    hide Tagged, Settled;
    if Scalar(v) {
      ScalarIsInjective(v, w);
    } else if v.TypedArray? {
      TypedArrayIsInjective(v, w);
    } else if v.List? {
      ListIsInjective(v, w);
    } else {
      RecordIsInjective(v, w);
    }
  }

  lemma {:induction false} ListIsInjective(v: Data, w: Data)
    requires v.List? && w.List? && SettledItems(Parts(v)) == SettledItems(Parts(w))
    ensures Settle(v) == Settle(w)
    decreases v, 0
  {
    OnePart(TaggedPlaces(v.items));
    OnePart(TaggedPlaces(w.items));
    PlacesKeepHoles(v.items);
    PlacesKeepHoles(w.items);
    hide TaggedPlaces;
    var a, b := SettledItems(Parts(v)), SettledItems(Parts(w));
    assert a[0].item.items == b[0].item.items;
    if v.items != [Gap] && w.items != [Gap] {
      PlacesAreInjective(v.items, w.items);
    }
  }

  lemma {:induction false} PlacesAreInjective(a: seq<Place>, b: seq<Place>)
    requires SettledItems(TaggedPlaces(a)) == SettledItems(TaggedPlaces(b))
    ensures SettlePlaces(a) == SettlePlaces(b)
    decreases a, 0
  {
    hide Settled, Tagged;
    if a != [] && b != [] {
      var s, t := TaggedPlaces(a), TaggedPlaces(b);
      assert s[1..] == TaggedPlaces(a[1..]) && t[1..] == TaggedPlaces(b[1..]);
      var x, y := SettledItems(s), SettledItems(t);
      assert x[0] == SettledItem(s[0]) && x[1..] == SettledItems(s[1..]);
      assert y[0] == SettledItem(t[0]) && y[1..] == SettledItems(t[1..]);
      PlaceIsInjective(a[0], b[0]);
      PlacesAreInjective(a[1..], b[1..]);
    }
  }

  lemma {:induction false} PlaceIsInjective(a: Place, b: Place)
    requires SettledItem(TaggedPlace(a)) == SettledItem(TaggedPlace(b))
    ensures SettlePlace(a) == SettlePlace(b)
    decreases a, 2
  {
    hide Settled, Tagged;
    if a.Filled? && b.Filled? {
      TaggedIsInjective(a.data, b.data);
    }
  }

  lemma {:induction false} RecordIsInjective(v: Data, w: Data)
    requires v.Record? && w.Record? && SettledItems(Parts(v)) == SettledItems(Parts(w))
    ensures Settle(v) == Settle(w)
    decreases v, 0
  {
    OnePart(TaggedMembers(v.members));
    OnePart(TaggedMembers(w.members));
    MembersAreNotHoles(v.members);
    MembersAreNotHoles(w.members);
    hide TaggedMembers;
    var a, b := SettledItems(Parts(v)), SettledItems(Parts(w));
    assert a[0].item.items == b[0].item.items;
    MembersAreInjective(v.members, w.members);
  }

  lemma MembersAreNotHoles(members: seq<Member>)
    ensures TaggedMembers(members) != [Hole]
  {
    if members != [] {
      assert TaggedMembers(members)[0] == TaggedMember(members[0]);
    }
  }

  lemma {:induction false} MembersAreInjective(a: seq<Member>, b: seq<Member>)
    requires SettledItems(TaggedMembers(a)) == SettledItems(TaggedMembers(b))
    ensures SettleMembers(a) == SettleMembers(b)
    decreases a, 0
  {
    hide Tagged;
    if a != [] && b != [] {
      var s, t := TaggedMembers(a), TaggedMembers(b);
      assert s[1..] == TaggedMembers(a[1..]) && t[1..] == TaggedMembers(b[1..]);
      var x, y := SettledItems(s), SettledItems(t);
      assert x[0] == SettledItem(s[0]) && x[1..] == SettledItems(s[1..]);
      assert y[0] == SettledItem(t[0]) && y[1..] == SettledItems(t[1..]);
      MemberSettles(a[0]);
      MemberSettles(b[0]);
      TaggedIsInjective(a[0].data, b[0].data);
      MembersAreInjective(a[1..], b[1..]);
    }
  }

  lemma MemberSettles(member: Member)
    ensures SettledItem(TaggedMember(member)) == Pair(StrItem(member.key), Item(Settled(Tagged(member.data))))
  {
    SettledTwo(StrItem(member.key), Item(Tagged(member.data)));
  }

  // And nothing else is told apart.

  lemma {:induction false} SettleKeepsText(v: Data)
    ensures Settled(Tagged(Settle(v))) == Settled(Tagged(v))
    decreases v, 1
  {
    SettledTagged(v);
    SettledTagged(Settle(v));
    assert KindOf(Settle(v)) == KindOf(v);
    hide Tagged, Settled, Ascii;
    if v.List? {
      OnePart(TaggedPlaces(v.items));
      OnePart(TaggedPlaces(Settle(v).items));
      PlacesKeepHoles(v.items);
      PlacesKeepHoles(Settle(v).items);
      if v.items != [Gap] {
        SettleKeepsPlaces(v.items);
      }
    } else if v.Record? {
      OnePart(TaggedMembers(v.members));
      OnePart(TaggedMembers(Settle(v).members));
      MembersAreNotHoles(v.members);
      MembersAreNotHoles(Settle(v).members);
      SettleKeepsMembers(v.members);
    }
  }

  lemma {:induction false} SettleKeepsPlace(place: Place)
    ensures SettledItem(TaggedPlace(SettlePlace(place))) == SettledItem(TaggedPlace(place))
    decreases place, 2
  {
    hide Tagged, Settled;
    if place.Filled? {
      SettleKeepsText(place.data);
    }
  }

  lemma {:induction false} SettleKeepsPlaces(items: seq<Place>)
    ensures SettlePlaces(items) == [Gap] <==> items == [Gap]
    ensures SettledItems(TaggedPlaces(SettlePlaces(items))) == SettledItems(TaggedPlaces(items))
    decreases items, 0
  {
    if items != [] {
      SettleKeepsPlace(items[0]);
      SettleKeepsPlaces(items[1..]);
      var settled := SettlePlaces(items);
      assert settled[0] == SettlePlace(items[0]) && settled[1..] == SettlePlaces(items[1..]);
      hide SettledItem, TaggedPlace, SettlePlace;
      FirstPlace(items);
      FirstPlace(settled);
      assert items == [items[0]] + items[1..] && settled == [settled[0]] + settled[1..];
      GapStaysGap(items[0]);
      assert SettlePlaces(items[1..]) == [] <==> items[1..] == [];
    }
  }

  lemma GapStaysGap(place: Place)
    ensures SettlePlace(place) == Gap <==> place == Gap
  {
  }

  lemma FirstPlace(items: seq<Place>)
    requires items != []
    ensures SettledItems(TaggedPlaces(items))
         == [SettledItem(TaggedPlace(items[0]))] + SettledItems(TaggedPlaces(items[1..]))
  {
    hide SettledItem, TaggedPlace;
    var t := TaggedPlaces(items);
    assert t[0] == TaggedPlace(items[0]) && t[1..] == TaggedPlaces(items[1..]);
  }

  lemma {:induction false} SettleKeepsMembers(members: seq<Member>)
    ensures SettledItems(TaggedMembers(SettleMembers(members))) == SettledItems(TaggedMembers(members))
    decreases members, 0
  {
    if members != [] {
      SettleKeepsText(members[0].data);
      SettleKeepsMembers(members[1..]);
      var settled := SettleMembers(members);
      assert settled[0] == Member(members[0].key, Settle(members[0].data)) && settled[1..] == SettleMembers(members[1..]);
      MemberSettles(members[0]);
      MemberSettles(settled[0]);
      hide SettledItem, TaggedMember, Settle;
      FirstMember(members);
      FirstMember(settled);
    }
  }

  lemma FirstMember(members: seq<Member>)
    requires members != []
    ensures SettledItems(TaggedMembers(members))
         == [SettledItem(TaggedMember(members[0]))] + SettledItems(TaggedMembers(members[1..]))
  {
    hide SettledItem, TaggedMember;
    var t := TaggedMembers(members);
    assert t[0] == TaggedMember(members[0]) && t[1..] == TaggedMembers(members[1..]);
  }

  lemma TaggedFixesData(v: Data, w: Data)
    ensures Settled(Tagged(v)) == Settled(Tagged(w)) <==> Settle(v) == Settle(w)
  {
    hide Settled, Tagged, Settle;
    if Settled(Tagged(v)) == Settled(Tagged(w)) {
      TaggedIsInjective(v, w);
    }
    SettleKeepsText(v);
    SettleKeepsText(w);
  }

  // The text that is hashed.

  /** An item as mineflayer describes it; its metadata is an integer, written without a fraction. */
  datatype ItemLike = ItemLike(name: Text, metadata: Json, nbt: Data, components: Data, removedComponents: Data)

  function PreImage(item: ItemLike): Json {
    Obj([Named("components", Tagged(item.components)), Named("metadata", item.metadata), Named("name", Str(item.name)),
         Named("nbt", Tagged(item.nbt)), Named("removedComponents", Tagged(item.removedComponents)),
         Named("version", Num([51]))])
  }

  lemma PreImageValues(item: ItemLike)
    ensures var fields := PreImage(item).fields;
            && |fields| == 6
            && (forall i | 0 <= i < 6 ::
                  fields[i].key == PreImage(ItemLike([], Null, Nothing, Nothing, Nothing)).fields[i].key)
            && fields[0].value == Tagged(item.components) && fields[1].value == item.metadata
            && fields[2].value == Str(item.name) && fields[3].value == Tagged(item.nbt)
            && fields[4].value == Tagged(item.removedComponents) && fields[5].value == Num([51])
  {
    hide Ascii, Tagged;
  }

  lemma SameSix(f: seq<Field>, g: seq<Field>)
    requires |f| == |g| == 6 && f[5].value == g[5].value
    ensures SameValues(f, g) <==>
            && Settled(f[0].value) == Settled(g[0].value) && Settled(f[1].value) == Settled(g[1].value)
            && Settled(f[2].value) == Settled(g[2].value) && Settled(f[3].value) == Settled(g[3].value)
            && Settled(f[4].value) == Settled(g[4].value)
  {
    hide Settled;
  }

  /**
   * Two items have the same text to hash exactly when name, metadata, nbt and components are the same.
   * Nothing of a string, number, bigint, buffer, typed array, list or record is lost on the way; what is:
   * metadata of -0 counts as 0, and a list of one gap as an empty list.
   */
  lemma FingerprintTextFixesTheItem(x: ItemLike, y: ItemLike)
    ensures Canonical(PreImage(x)) == Canonical(PreImage(y)) <==>
            && x.name == y.name && Settled(x.metadata) == Settled(y.metadata) && Settle(x.nbt) == Settle(y.nbt)
            && Settle(x.components) == Settle(y.components) && Settle(x.removedComponents) == Settle(y.removedComponents)
  {
    var q, r := PreImage(x), PreImage(y);
    PreImageValues(x);
    PreImageValues(y);
    assert q == Obj(q.fields) && r == Obj(r.fields);
    hide Ascii, Canonical, PreImage, Tagged;
    SameKeysSameText(q.fields, r.fields);
    SameSix(q.fields, r.fields);
    SettledTexts(x.name, y.name);
    TaggedFixesData(x.nbt, y.nbt);
    TaggedFixesData(x.components, y.components);
    TaggedFixesData(x.removedComponents, y.removedComponents);
    hide Settled, SameValues;
  }

  /** The two losses, on concrete items. */
  lemma WhatIsLost(name: Text)
    ensures Canonical(PreImage(ItemLike(name, NegZero, Nothing, Nothing, Nothing)))
         == Canonical(PreImage(ItemLike(name, Num([48]), Nothing, Nothing, Nothing)))
    ensures Canonical(PreImage(ItemLike(name, Num([48]), List([Gap]), Nothing, Nothing)))
         == Canonical(PreImage(ItemLike(name, Num([48]), List([]), Nothing, Nothing)))
  {
    FingerprintTextFixesTheItem(ItemLike(name, NegZero, Nothing, Nothing, Nothing),
                                ItemLike(name, Num([48]), Nothing, Nothing, Nothing));
    FingerprintTextFixesTheItem(ItemLike(name, Num([48]), List([Gap]), Nothing, Nothing),
                                ItemLike(name, Num([48]), List([]), Nothing, Nothing));
    hide Canonical, PreImage;
  }
}
