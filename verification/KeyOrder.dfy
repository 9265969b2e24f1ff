/** Object keys in the order JavaScript's sort gives them: by UTF-16 code units (section 3.2.3 of RFC 8785). */
module KeyOrder {
  import opened Utf16

  datatype Keyed<T> = Keyed(key: Text, content: T)

  predicate Before(a: Text, b: Text) {
    if b == [] then false
    else if a == [] then true
    else a[0] < b[0] || (a[0] == b[0] && Before(a[1..], b[1..]))
  }

  function Insert<T>(x: Keyed<T>, s: seq<Keyed<T>>): seq<Keyed<T>> {
    if s == [] then [x]
    else if Before(s[0].key, x.key) then [s[0]] + Insert(x, s[1..])
    else [x] + s
  }

  function Sorted<T>(s: seq<Keyed<T>>): seq<Keyed<T>> {
    if s == [] then [] else Insert(s[0], Sorted(s[1..]))
  }

  predicate Distinct<T>(s: seq<Keyed<T>>) {
    forall i, j | 0 <= i < j < |s| :: s[i].key != s[j].key
  }

  predicate Increasing<T>(s: seq<Keyed<T>>) {
    forall i, j | 0 <= i < j < |s| :: Before(s[i].key, s[j].key)
  }

  lemma {:induction false} BeforeIsTotal(a: Text, b: Text)
    ensures a == b || Before(a, b) || Before(b, a)
    ensures !(Before(a, b) && Before(b, a)) && !Before(a, a)
  {
    if a != [] && b != [] {
      BeforeIsTotal(a[1..], b[1..]);
      BeforeIsTotal(a[1..], a[1..]);
      assert a == [a[0]] + a[1..] && b == [b[0]] + b[1..];
    } else if a != [] {
      BeforeIsTotal(a[1..], a[1..]);
    }
  }

  lemma {:induction false} BeforeIsTransitive(a: Text, b: Text, c: Text)
    requires Before(a, b) && Before(b, c)
    ensures Before(a, c)
  {
    if a != [] && a[0] == b[0] == c[0] {
      BeforeIsTransitive(a[1..], b[1..], c[1..]);
    }
  }

  lemma {:induction false} InsertKeeps<T>(x: Keyed<T>, s: seq<Keyed<T>>)
    ensures multiset(Insert(x, s)) == multiset(s) + multiset{x}
  {
    if s != [] {
      assert s == [s[0]] + s[1..];
      if Before(s[0].key, x.key) {
        InsertKeeps(x, s[1..]);
      }
    }
  }

  lemma {:induction false} InsertLengthens<T>(x: Keyed<T>, s: seq<Keyed<T>>)
    ensures |Insert(x, s)| == |s| + 1
  {
    if s != [] && Before(s[0].key, x.key) {
      InsertLengthens(x, s[1..]);
    }
  }

  /** Sorting keeps exactly the entries there were. */
  lemma {:induction false} SortedKeeps<T>(s: seq<Keyed<T>>)
    ensures multiset(Sorted(s)) == multiset(s) && |Sorted(s)| == |s|
  {
    hide Insert;
    if s != [] {
      SortedKeeps(s[1..]);
      InsertKeeps(s[0], Sorted(s[1..]));
      InsertLengthens(s[0], Sorted(s[1..]));
      assert s == [s[0]] + s[1..];
    }
  }

  lemma SameEntries<T>(s: seq<Keyed<T>>, t: seq<Keyed<T>>, x: Keyed<T>)
    requires multiset(s) == multiset(t)
    ensures x in s <==> x in t
  {
    assert x in multiset(s) <==> x in multiset(t);
  }

  lemma {:induction false} InsertIncreases<T>(x: Keyed<T>, s: seq<Keyed<T>>)
    requires Increasing(s) && forall y | y in s :: y.key != x.key
    ensures Increasing(Insert(x, s))
  {
    if s != [] {
      var r := Insert(x, s);
      BeforeIsTotal(s[0].key, x.key);
      if Before(s[0].key, x.key) {
        var rest := Insert(x, s[1..]);
        InsertIncreases(x, s[1..]);
        InsertKeeps(x, s[1..]);
        forall j | 0 <= j < |rest|
          ensures Before(s[0].key, rest[j].key)
        {
          assert rest[j] in multiset(rest);
        }
      } else {
        assert x.key != s[0].key by { assert s[0] in s; }
        forall j | 0 <= j < |s|
          ensures Before(x.key, s[j].key)
        {
          if j > 0 {
            BeforeIsTransitive(x.key, s[0].key, s[j].key);
          }
        }
      }
    }
  }

  lemma {:induction false} SortedIncreases<T>(s: seq<Keyed<T>>)
    requires Distinct(s)
    ensures Increasing(Sorted(s))
  {
    if s != [] {
      var rest := s[1..];
      assert Distinct(rest);
      SortedIncreases(rest);
      SortedKeeps(rest);
      forall y | y in Sorted(rest)
        ensures y.key != s[0].key
      {
        SameEntries(Sorted(rest), rest, y);
        var j :| 0 <= j < |rest| && rest[j] == y;
        assert y == s[j + 1];
      }
      InsertIncreases(s[0], Sorted(rest));
    }
  }

  lemma FirstIsLeast<T>(s: seq<Keyed<T>>, t: seq<Keyed<T>>)
    requires Increasing(s) && Increasing(t) && s != [] && multiset(s) == multiset(t)
    ensures t != [] && s[0] == t[0]
  {
    SameEntries(s, t, s[0]);
    SameEntries(s, t, t[0]);
    var i :| 0 <= i < |t| && t[i] == s[0];
    var j :| 0 <= j < |s| && s[j] == t[0];
    BeforeIsTotal(s[0].key, t[0].key);
  }

  lemma RestIncreases<T>(s: seq<Keyed<T>>)
    requires s != [] && Increasing(s)
    ensures s == [s[0]] + s[1..] && multiset(s[1..]) == multiset(s) - multiset{s[0]} && Increasing(s[1..])
  {
    assert s == [s[0]] + s[1..];
    assert multiset(s) == multiset{s[0]} + multiset(s[1..]);
  }

  lemma {:induction false} IncreasingIsUnique<T>(s: seq<Keyed<T>>, t: seq<Keyed<T>>)
    requires Increasing(s) && Increasing(t) && multiset(s) == multiset(t)
    ensures s == t
  {
    hide Increasing;
    if s != [] {
      FirstIsLeast(s, t);
      RestIncreases(s);
      RestIncreases(t);
      IncreasingIsUnique(s[1..], t[1..]);
    } else {
      assert |multiset(s)| == |multiset(t)|;
    }
  }

  /** The order the properties were added in does not matter. */
  lemma SortedIsOrderBlind<T>(s: seq<Keyed<T>>, t: seq<Keyed<T>>)
    requires Distinct(s) && Distinct(t) && multiset(s) == multiset(t)
    ensures Sorted(s) == Sorted(t)
  {
    SortedIncreases(s);
    SortedIncreases(t);
    SortedKeeps(s);
    SortedKeeps(t);
    IncreasingIsUnique(Sorted(s), Sorted(t));
  }
}
