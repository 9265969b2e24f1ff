/** Which graphs have data at all: those with nothing unsupported and no cycle within reach. */
module CanonicalGraph {
  import opened CanonicalText
  import opened CanonicalWalk
  import opened KeyOrder
  import opened Options
  import opened Places
  import opened Utf16

  predicate Supported(heap: Heap, v: Value) {
    !v.JsNonFinite? && !v.JsUnsupported? && RefOk(heap, v)
  }

  /** An array of supported elements and gaps, or a plain object without accessors. */
  predicate SupportedAt(heap: Heap, at: Loc) {
    at in heap
    && match heap[at]
       case ArrayOf(slots) => forall i | 0 <= i < |slots| && slots[i].Some? :: Supported(heap, slots[i].value)
       case Plain(props) =>
         var sorted := Sorted(props);
         forall i | 0 <= i < |sorted| :: sorted[i].content.Some? && Supported(heap, sorted[i].content.value)
       case Exotic => false
  }

  ghost predicate IsPath(heap: Heap, path: seq<Loc>) {
    path != [] && forall i | 0 <= i < |path| - 1 :: Holds(heap, path[i], path[i + 1])
  }

  /** Everything within reach is supported, and no way through the graph comes by the same place twice. */
  ghost predicate Clean(heap: Heap, v: Value) {
    && Supported(heap, v)
    && (v.Ref? ==> forall path | IsPath(heap, path) && path[0] == v.at ::
          Simple(path) && SupportedAt(heap, path[|path| - 1]))
  }

  // No data without that.

  lemma UnfoldingIsSupported(heap: Heap, v: Value, t: Json)
    requires Unfolds(heap, v, t)
    ensures Supported(heap, v) && (v.Ref? ==> SupportedAt(heap, v.at))
  {
    if v.Ref? {
      match heap[v.at] {
        case ArrayOf(slots) =>
          forall i | 0 <= i < |slots| && slots[i].Some?
            ensures Supported(heap, slots[i].value)
          {
            ArrayParts(heap, v.at, slots, t, i);
          }
        case Plain(props) =>
          forall i | 0 <= i < |Sorted(props)|
            ensures Sorted(props)[i].content.Some? && Supported(heap, Sorted(props)[i].content.value)
          {
            ObjectParts(heap, v.at, props, t, i);
          }
        case Exotic =>
      }
    }
  }

  lemma PathsAreSimple(heap: Heap, path: seq<Loc>, t: Json)
    requires IsPath(heap, path) && Unfolds(heap, Ref(path[0]), t)
    ensures Simple(path)
  {
    hide Unfolds, IsPath;
    forall i, j | 0 <= i < j < |path|
      ensures path[i] != path[j]
    {
      NotTwice(heap, path, t, i, j);
    }
  }

  lemma NotTwice(heap: Heap, path: seq<Loc>, t: Json, i: nat, j: nat)
    requires IsPath(heap, path) && Unfolds(heap, Ref(path[0]), t) && i < j < |path|
    ensures path[i] != path[j]
  {
    hide Unfolds, Holds;
    PartIsPath(heap, path, 0, i);
    PartIsPath(heap, path, i, j);
    var part := PathShrinks(heap, path[0..i + 1], t);
    var later := PathShrinks(heap, path[i..j + 1], part);
    if path[i] == path[j] {
      UnfoldsOnce(heap, Ref(path[i]), part, later);
    }
  }

  lemma PartIsPath(heap: Heap, path: seq<Loc>, i: nat, j: nat)
    requires IsPath(heap, path) && i <= j < |path|
    ensures IsPath(heap, path[i..j + 1])
  {
    hide Holds;
    var part := path[i..j + 1];
    forall k | 0 <= k < |part| - 1
      ensures Holds(heap, part[k], part[k + 1])
    {
      assert part[k] == path[i + k] && part[k + 1] == path[i + k + 1];
    }
  }

  lemma DataIsClean(heap: Heap, v: Value, t: Json)
    requires Unfolds(heap, v, t)
    ensures Clean(heap, v)
  {
    UnfoldingIsSupported(heap, v, t);
    if v.Ref? {
      forall path | IsPath(heap, path) && path[0] == v.at
        ensures Simple(path) && SupportedAt(heap, path[|path| - 1])
      {
        PathsAreSimple(heap, path, t);
        var part := PathShrinks(heap, path, t);
        UnfoldingIsSupported(heap, Ref(path[|path| - 1]), part);
      }
    }
    hide Unfolds, Holds, SupportedAt;
  }

  // And data with it: the graph is unfolded along its paths, which cannot be longer than it has places.

  /** All paths from the root that go on from `path` are simple and end in a supported place. */
  ghost predicate CleanFrom(heap: Heap, root: Loc) {
    forall path | IsPath(heap, path) && path[0] == root :: Simple(path) && SupportedAt(heap, path[|path| - 1])
  }

  lemma PathGrows(heap: Heap, path: seq<Loc>, next: Loc)
    requires IsPath(heap, path) && Holds(heap, path[|path| - 1], next)
    ensures IsPath(heap, path + [next])
  {
    hide Holds;
    var longer := path + [next];
    forall i | 0 <= i < |longer| - 1
      ensures Holds(heap, longer[i], longer[i + 1])
    {
      if i < |path| - 1 {
        assert longer[i] == path[i] && longer[i + 1] == path[i + 1];
      }
    }
  }

  lemma {:induction false} PlacesAreInside(heap: Heap, root: Loc, path: seq<Loc>)
    requires CleanFrom(heap, root) && IsPath(heap, path) && path[0] == root
    ensures forall i | 0 <= i < |path| :: path[i] in heap
  {
    forall i | 0 <= i < |path|
      ensures path[i] in heap
    {
      assert IsPath(heap, path[..i + 1]);
    }
  }

  lemma Leaf(heap: Heap, v: Value) returns (t: Json)
    requires Supported(heap, v) && !v.Ref?
    ensures Unfolds(heap, v, t)
  {
    match v {
      case JsNull => t := Null;
      case JsBool(value) => t := Bool(value);
      case JsString(text) => t := Str(text);
      case JsNumber(shown) => t := Num(shown);
      case JsNegZero => t := CanonicalText.NegZero;
    }
  }

  /** The data at the end of a path from the root. */
  lemma {:induction false} DataAt(heap: Heap, root: Loc, path: seq<Loc>) returns (t: Json)
    requires CleanFrom(heap, root) && IsPath(heap, path) && path[0] == root
    ensures Unfolds(heap, Ref(path[|path| - 1]), t)
    decreases |heap.Keys| - |path|, 2
  {
    var at := path[|path| - 1];
    assert Simple(path) && SupportedAt(heap, at);
    PlacesAreInside(heap, root, path);
    SimpleIsShort(heap.Keys, path);
    if heap[at].ArrayOf? {
      var items := ItemsData(heap, root, path, heap[at].slots);
      t := Arr(items);
    } else {
      var fields := FieldsData(heap, root, path, heap[at].props);
      t := Obj(fields);
    }
    hide CleanFrom, IsPath, Holds;
  }

  lemma {:induction false} ItemsData(heap: Heap, root: Loc, path: seq<Loc>, slots: seq<Option<Value>>)
    returns (items: seq<Slot>)
    requires CleanFrom(heap, root) && IsPath(heap, path) && path[0] == root && |path| <= |heap.Keys|
    requires SupportedAt(heap, path[|path| - 1]) && heap[path[|path| - 1]] == ArrayOf(slots)
    ensures |items| == |slots| && SlotsUnfold(heap, slots, items)
    decreases |heap.Keys| - |path|, 1
  {
    items := [];
    hide CleanFrom, IsPath, Unfolds;
    while |items| < |slots|
      invariant |items| <= |slots| && forall i | 0 <= i < |items| :: SlotUnfolds(heap, slots[i], items[i])
    {
      var k := |items|;
      if slots[k].None? {
        items := items + [Hole];
      } else {
        assert slots[k].value.Ref? ==> slots[k] == Some(Ref(slots[k].value.at));
        var part := ValueData(heap, root, path, slots[k].value);
        items := items + [Item(part)];
      }
    }
  }

  lemma {:induction false} FieldsData(heap: Heap, root: Loc, path: seq<Loc>, props: seq<Property>)
    returns (fields: seq<Field>)
    requires CleanFrom(heap, root) && IsPath(heap, path) && path[0] == root && |path| <= |heap.Keys|
    requires SupportedAt(heap, path[|path| - 1]) && heap[path[|path| - 1]] == Plain(props)
    ensures |fields| == |Sorted(props)| && FieldsUnfold(heap, Sorted(props), fields)
    decreases |heap.Keys| - |path|, 1
  {
    var sorted := Sorted(props);
    fields := [];
    hide CleanFrom, IsPath, Unfolds, Sorted;
    while |fields| < |sorted|
      invariant |fields| <= |sorted| && forall i | 0 <= i < |fields| :: FieldUnfolds(heap, sorted[i], fields[i])
    {
      var k := |fields|;
      var v := sorted[k].content.value;
      assert v.Ref? ==> sorted[k].content == Some(Ref(v.at));
      var part := ValueData(heap, root, path, v);
      fields := fields + [Field(sorted[k].key, part)];
    }
  }

  lemma {:induction false} ValueData(heap: Heap, root: Loc, path: seq<Loc>, v: Value) returns (t: Json)
    requires CleanFrom(heap, root) && IsPath(heap, path) && path[0] == root && Supported(heap, v)
    requires v.Ref? ==> Holds(heap, path[|path| - 1], v.at)
    requires |path| <= |heap.Keys|
    ensures Unfolds(heap, v, t)
    decreases |heap.Keys| - |path|, 0
  {
    if v.Ref? {
      var longer := path + [v.at];
      PathGrows(heap, path, v.at);
      assert longer[0] == root;
      PlacesAreInside(heap, root, longer);
      assert Simple(longer);
      SimpleIsShort(heap.Keys, longer);
      t := DataAt(heap, root, longer);
    } else {
      t := Leaf(heap, v);
    }
  }

  lemma DataOf(heap: Heap, v: Value) returns (t: Json)
    requires Clean(heap, v)
    ensures Unfolds(heap, v, t)
  {
    hide Holds, SupportedAt;
    if v.Ref? {
      assert CleanFrom(heap, v.at) && IsPath(heap, [v.at]);
      t := DataAt(heap, v.at, [v.at]);
    } else {
      t := Leaf(heap, v);
    }
  }

  /** A graph stands for data exactly when nothing unsupported is within reach of it and no cycle is. */
  lemma HasDataExactlyWhenClean(heap: Heap, v: Value)
    ensures (exists t :: Unfolds(heap, v, t)) <==> Clean(heap, v)
  {
    hide Clean;
    if exists t :: Unfolds(heap, v, t) {
      var t :| Unfolds(heap, v, t);
      DataIsClean(heap, v, t);
    }
    if Clean(heap, v) {
      var t := DataOf(heap, v);
    }
  }

  /** What canonicalJson accepts: clean graphs whose data is within the limits of depth, nodes and collections. */
  lemma AcceptableExactlyWhenClean(heap: Heap, v: Value)
    ensures Acceptable(heap, v) <==>
            Clean(heap, v) && forall t | Unfolds(heap, v, t) :: Fits(t, 0) && Size(t) <= MAX_NODES
  {
    hide Clean;
    if Acceptable(heap, v) {
      var t :| Unfolds(heap, v, t) && Fits(t, 0) && Size(t) <= MAX_NODES;
      DataIsClean(heap, v, t);
      forall u | Unfolds(heap, v, u)
        ensures Fits(u, 0) && Size(u) <= MAX_NODES
      {
        UnfoldsOnce(heap, v, t, u);
      }
    }
    if Clean(heap, v) {
      var t := DataOf(heap, v);
    }
  }
}
