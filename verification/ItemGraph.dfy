/** Which graphs of item data can be normalized at all: those with nothing unsupported and no cycle within reach. */
module ItemGraph {
  import opened Fingerprint
  import opened ItemWalk
  import opened KeyOrder
  import opened Options
  import opened Places
  import opened Utf16

  predicate Supported(heap: Heap, v: Value) {
    !v.VNonFinite? && !v.VUnsupported? && RefOk(heap, v)
  }

  /** Bytes of whatever kind, a list of supported elements and gaps, or a record without accessors or hidden keys. */
  predicate SupportedAt(heap: Heap, at: Loc) {
    at in heap
    && match heap[at]
       case TypedArrayOf(_, _, byteLength) => byteLength <= MAX_BYTES
       case ListOf(slots) => forall i | 0 <= i < |slots| && slots[i].Some? :: Supported(heap, slots[i].value)
       case RecordOf(props, hidden) =>
         var sorted := Sorted(props);
         !hidden && forall i | 0 <= i < |sorted| :: sorted[i].content.Some? && Supported(heap, sorted[i].content.value)
       case Foreign => false
       case _ => true
  }

  /** `b` is an element or a property value of `a`. */
  ghost predicate Holds(heap: Heap, a: Loc, b: Loc) {
    a in heap
    && match heap[a]
       case ListOf(slots) => exists i :: 0 <= i < |slots| && slots[i] == Some(VRef(b))
       case RecordOf(props, _) => exists i :: 0 <= i < |Sorted(props)| && Sorted(props)[i].content == Some(VRef(b))
       case _ => false
  }

  lemma HeldIsSmaller(heap: Heap, a: Loc, b: Loc, d: Data) returns (part: Data)
    requires Holds(heap, a, b) && Unfolds(heap, VRef(a), d)
    ensures Unfolds(heap, VRef(b), part) && DataSize(part) < DataSize(d)
  {
    match heap[a] {
      case ListOf(slots) =>
        var i :| 0 <= i < |slots| && slots[i] == Some(VRef(b));
        ListParts(heap, a, slots, d, i);
        PlacesSizeAt(d.items, i);
        part := d.items[i].data;
      case RecordOf(props, hidden) =>
        var i :| 0 <= i < |Sorted(props)| && Sorted(props)[i].content == Some(VRef(b));
        RecordParts(heap, a, props, hidden, d, i);
        MembersSizeAt(d.members, i);
        part := d.members[i].data;
    }
  }

  lemma {:induction false} PathShrinks(heap: Heap, path: seq<Loc>, d: Data) returns (part: Data)
    requires IsPath(heap, path) && Unfolds(heap, VRef(path[0]), d)
    ensures Unfolds(heap, VRef(path[|path| - 1]), part) && DataSize(part) + |path| - 1 <= DataSize(d)
    decreases |path|
  {
    part := d;
    if |path| > 1 {
      var next := HeldIsSmaller(heap, path[0], path[1], d);
      part := PathShrinks(heap, path[1..], next);
    }
  }

  ghost predicate IsPath(heap: Heap, path: seq<Loc>) {
    path != [] && forall i | 0 <= i < |path| - 1 :: Holds(heap, path[i], path[i + 1])
  }

  /** Everything within reach is supported, and no way through the graph comes by the same place twice. */
  ghost predicate Clean(heap: Heap, v: Value) {
    && Supported(heap, v)
    && (v.VRef? ==> forall path | IsPath(heap, path) && path[0] == v.at ::
          Simple(path) && SupportedAt(heap, path[|path| - 1]))
  }

  // No data without that.

  lemma UnfoldingIsSupported(heap: Heap, v: Value, d: Data)
    requires Unfolds(heap, v, d)
    ensures Supported(heap, v) && (v.VRef? ==> SupportedAt(heap, v.at))
  {
    if v.VRef? {
      match heap[v.at] {
        case ListOf(slots) =>
          forall i | 0 <= i < |slots| && slots[i].Some?
            ensures Supported(heap, slots[i].value)
          {
            ListParts(heap, v.at, slots, d, i);
          }
        case RecordOf(props, hidden) =>
          forall i | 0 <= i < |Sorted(props)|
            ensures Sorted(props)[i].content.Some? && Supported(heap, Sorted(props)[i].content.value)
          {
            RecordParts(heap, v.at, props, hidden, d, i);
          }
        case _ =>
      }
    }
  }

  lemma PathsAreSimple(heap: Heap, path: seq<Loc>, t: Data)
    requires IsPath(heap, path) && Unfolds(heap, VRef(path[0]), t)
    ensures Simple(path)
  {
    hide Unfolds, IsPath;
    forall i, j | 0 <= i < j < |path|
      ensures path[i] != path[j]
    {
      NotTwice(heap, path, t, i, j);
    }
  }

  lemma NotTwice(heap: Heap, path: seq<Loc>, t: Data, i: nat, j: nat)
    requires IsPath(heap, path) && Unfolds(heap, VRef(path[0]), t) && i < j < |path|
    ensures path[i] != path[j]
  {
    hide Unfolds, Holds, IsPath;
    PartIsPath(heap, path, 0, i);
    PartIsPath(heap, path, i, j);
    var part := PathShrinks(heap, path[0..i + 1], t);
    var later := PathShrinks(heap, path[i..j + 1], part);
    if path[i] == path[j] {
      UnfoldsOnce(heap, VRef(path[i]), part, later);
    }
  }

  lemma PartIsPath(heap: Heap, path: seq<Loc>, i: nat, j: nat)
    requires IsPath(heap, path) && i <= j < |path|
    ensures IsPath(heap, path[i..j + 1])
  {
    hide Holds;
    var part := path[i..j + 1];
    forall k | 0 <= k < |part| - 1
      ensures Holds(heap, part[k], part[k + 1])
    {
      assert part[k] == path[i + k] && part[k + 1] == path[i + k + 1];
    }
  }

  lemma DataIsClean(heap: Heap, v: Value, t: Data)
    requires Unfolds(heap, v, t)
    ensures Clean(heap, v)
  {
    UnfoldingIsSupported(heap, v, t);
    if v.VRef? {
      forall path | IsPath(heap, path) && path[0] == v.at
        ensures Simple(path) && SupportedAt(heap, path[|path| - 1])
      {
        PathsAreSimple(heap, path, t);
        var part := PathShrinks(heap, path, t);
        UnfoldingIsSupported(heap, VRef(path[|path| - 1]), part);
      }
    }
    hide Unfolds, Holds, SupportedAt;
  }

  // And data with it: the graph is unfolded along its paths, which cannot be longer than it has places.

  /** All paths from the root that go on from `path` are simple and end in a supported place. */
  ghost predicate CleanFrom(heap: Heap, root: Loc) {
    forall path | IsPath(heap, path) && path[0] == root :: Simple(path) && SupportedAt(heap, path[|path| - 1])
  }

  lemma PathGrows(heap: Heap, path: seq<Loc>, next: Loc)
    requires IsPath(heap, path) && Holds(heap, path[|path| - 1], next)
    ensures IsPath(heap, path + [next])
  {
    hide Holds;
    var longer := path + [next];
    forall i | 0 <= i < |longer| - 1
      ensures Holds(heap, longer[i], longer[i + 1])
    {
      if i < |path| - 1 {
        assert longer[i] == path[i] && longer[i + 1] == path[i + 1];
      }
    }
  }

  lemma {:induction false} PlacesAreInside(heap: Heap, root: Loc, path: seq<Loc>)
    requires CleanFrom(heap, root) && IsPath(heap, path) && path[0] == root
    ensures forall i | 0 <= i < |path| :: path[i] in heap
  {
    forall i | 0 <= i < |path|
      ensures path[i] in heap
    {
      assert IsPath(heap, path[..i + 1]);
    }
  }

  lemma Leaf(heap: Heap, v: Value) returns (d: Data)
    requires Supported(heap, v) && !v.VRef?
    ensures Unfolds(heap, v, d)
  {
    match v {
      case VNull => d := Nothing;
      case VString(text) => d := Words(text);
      case VBool(value) => d := Flag(value);
      case VNumber(shown) => d := Number(shown);
      case VMinusZero => d := MinusZero;
      case VBigInt(digits) => d := Data.BigInt(digits);
    }
  }

  /** The data at the end of a path from the root. */
  lemma {:induction false} DataAt(heap: Heap, root: Loc, path: seq<Loc>) returns (d: Data)
    requires CleanFrom(heap, root) && IsPath(heap, path) && path[0] == root
    ensures Unfolds(heap, VRef(path[|path| - 1]), d)
    decreases |heap.Keys| - |path|, 2
  {
    var at := path[|path| - 1];
    assert Simple(path) && SupportedAt(heap, at);
    PlacesAreInside(heap, root, path);
    SimpleIsShort(heap.Keys, path);
    hide CleanFrom, IsPath, Holds;
    match heap[at] {
      case BufferOf(bytes) => d := Buffer(bytes);
      case ArrayBufferOf(bytes) => d := ArrayBuffer(bytes);
      case DataViewOf(bytes) => d := DataView(bytes);
      case TypedArrayOf(name, entries, _) => d := TypedArray(name, entries);
      case ListOf(slots) =>
        var items := ItemsData(heap, root, path, slots);
        d := List(items);
      case RecordOf(props, hidden) =>
        var members := MembersData(heap, root, path, props, hidden);
        d := Record(members);
    }
  }

  lemma {:induction false} ItemsData(heap: Heap, root: Loc, path: seq<Loc>, slots: seq<Option<Value>>)
    returns (items: seq<Place>)
    requires CleanFrom(heap, root) && IsPath(heap, path) && path[0] == root && |path| <= |heap.Keys|
    requires SupportedAt(heap, path[|path| - 1]) && heap[path[|path| - 1]] == ListOf(slots)
    ensures |items| == |slots| && SlotsUnfold(heap, slots, items)
    decreases |heap.Keys| - |path|, 1
  {
    items := [];
    hide CleanFrom, IsPath, Unfolds;
    while |items| < |slots|
      invariant |items| <= |slots| && forall i | 0 <= i < |items| :: SlotUnfolds(heap, slots[i], items[i])
    {
      var k := |items|;
      if slots[k].None? {
        items := items + [Gap];
      } else {
        assert slots[k].value.VRef? ==> slots[k] == Some(VRef(slots[k].value.at));
        var part := ValueData(heap, root, path, slots[k].value);
        items := items + [Filled(part)];
      }
    }
  }

  lemma {:induction false} MembersData(heap: Heap, root: Loc, path: seq<Loc>, props: seq<Property>, hidden: bool)
    returns (members: seq<Member>)
    requires CleanFrom(heap, root) && IsPath(heap, path) && path[0] == root && |path| <= |heap.Keys|
    requires SupportedAt(heap, path[|path| - 1]) && heap[path[|path| - 1]] == RecordOf(props, hidden)
    ensures |members| == |Sorted(props)| && MembersUnfold(heap, Sorted(props), members)
    decreases |heap.Keys| - |path|, 1
  {
    var sorted := Sorted(props);
    members := [];
    hide CleanFrom, IsPath, Unfolds, Sorted;
    while |members| < |sorted|
      invariant |members| <= |sorted| && forall i | 0 <= i < |members| :: MemberUnfolds(heap, sorted[i], members[i])
    {
      var k := |members|;
      var v := sorted[k].content.value;
      assert v.VRef? ==> sorted[k].content == Some(VRef(v.at));
      var part := ValueData(heap, root, path, v);
      members := members + [Member(sorted[k].key, part)];
    }
  }

  lemma {:induction false} ValueData(heap: Heap, root: Loc, path: seq<Loc>, v: Value) returns (t: Data)
    requires CleanFrom(heap, root) && IsPath(heap, path) && path[0] == root && Supported(heap, v)
    requires v.VRef? ==> Holds(heap, path[|path| - 1], v.at)
    requires |path| <= |heap.Keys|
    ensures Unfolds(heap, v, t)
    decreases |heap.Keys| - |path|, 0
  {
    if v.VRef? {
      var longer := path + [v.at];
      PathGrows(heap, path, v.at);
      assert longer[0] == root;
      PlacesAreInside(heap, root, longer);
      assert Simple(longer);
      SimpleIsShort(heap.Keys, longer);
      t := DataAt(heap, root, longer);
    } else {
      t := Leaf(heap, v);
    }
  }

  lemma DataOf(heap: Heap, v: Value) returns (t: Data)
    requires Clean(heap, v)
    ensures Unfolds(heap, v, t)
  {
    hide Holds, SupportedAt;
    if v.VRef? {
      assert CleanFrom(heap, v.at) && IsPath(heap, [v.at]);
      t := DataAt(heap, v.at, [v.at]);
    } else {
      t := Leaf(heap, v);
    }
  }

  /** A graph stands for data exactly when nothing unsupported is within reach of it and no cycle is. */
  lemma HasDataExactlyWhenClean(heap: Heap, v: Value)
    ensures (exists t :: Unfolds(heap, v, t)) <==> Clean(heap, v)
  {
    hide Clean;
    if exists t :: Unfolds(heap, v, t) {
      var t :| Unfolds(heap, v, t);
      DataIsClean(heap, v, t);
    }
    if Clean(heap, v) {
      var t := DataOf(heap, v);
    }
  }

  ghost predicate IsNormal(heap: Heap, v: Value) {
    exists d :: Normal(heap, v, d)
  }

  /** What normalizeItemData accepts: clean graphs whose data is within every limit, of depth, nodes, bytes and sizes. */
  lemma NormalExactlyWhenClean(heap: Heap, v: Value)
    ensures IsNormal(heap, v) <==>
            Clean(heap, v) && forall t | Unfolds(heap, v, t) :: Within(t, 0) && DataSize(t) <= MAX_NODES
  {
    hide Clean;
    if IsNormal(heap, v) {
      var t :| Normal(heap, v, t);
      DataIsClean(heap, v, t);
      forall u | Unfolds(heap, v, u)
        ensures Within(u, 0) && DataSize(u) <= MAX_NODES
      {
        UnfoldsOnce(heap, v, t, u);
      }
    }
    if Clean(heap, v) {
      var t := DataOf(heap, v);
      assert Within(t, 0) && DataSize(t) <= MAX_NODES ==> Normal(heap, v, t);
    }
  }
}
