/** The objects that are signed and hashed, as they are written down, and the order the encoder gives their keys. */
module PayloadOrder {
  import opened CanonicalText
  import opened Fingerprint
  import opened KeyOrder
  import opened Signatures
  import opened Utf16

  type Entry = Keyed<Json>

  function Entries(fields: seq<Field>): seq<Entry> {
    seq(|fields|, i requires 0 <= i < |fields| => Keyed(fields[i].key, fields[i].value))
  }

  function Written(name: string, value: Json): Entry {
    Keyed(Ascii(name), value)
  }

  function RequestAsWritten(verb: Text, path: Text, botId: Text, timestamp: Text, body: Json): seq<Entry> {
    [Written("audience", Str(Ascii("donut-upgrader-api"))), Written("version", Num([50])), Written("method", Str(verb)),
     Written("path", Str(path)), Written("botId", Str(botId)), Written("timestamp", Str(timestamp)),
       Written("body", body)]
  }

  function ResponseAsWritten(
      verb: Text, path: Text, botId: Text, requestTimestamp: Text, responseTimestamp: Text, statusCode: NumberText,
      requestBody: Json, responseBody: Json): seq<Entry>
  {
    [Written("audience", Str(Ascii("donut-upgrader-bot"))), Written("version", Num([49])), Written("method", Str(verb)),
     Written("path", Str(path)), Written("botId", Str(botId)), Written("requestTimestamp", Str(requestTimestamp)),
     Written("responseTimestamp", Str(responseTimestamp)), Written("statusCode", Num(statusCode)),
     Written("requestBody", requestBody), Written("responseBody", responseBody)]
  }

  function ItemAsWritten(item: ItemLike): seq<Entry> {
    [Written("version", Num([51])), Written("name", Str(item.name)), Written("metadata", item.metadata),
     Written("nbt", Tagged(item.nbt)), Written("components", Tagged(item.components)),
     Written("removedComponents", Tagged(item.removedComponents))]
  }

  /** The first letter that differs decides. */
  lemma {:induction false} DiffersAt(a: Text, b: Text, k: nat)
    requires k < |a| && k < |b| && a[..k] == b[..k] && a[k] < b[k]
    ensures Before(a, b)
  {
    if k > 0 {
      assert a[0] == a[..k][0] && b[0] == b[..k][0];
      assert a[1..][..k - 1] == a[..k][1..] && b[1..][..k - 1] == b[..k][1..];
      DiffersAt(a[1..], b[1..], k - 1);
    }
  }

  lemma NamesDifferAt(a: string, b: string, k: nat)
    requires k < |a| && k < |b| && a[..k] == b[..k] && AsciiUnit(a[k]) < AsciiUnit(b[k])
    ensures Before(Ascii(a), Ascii(b))
  {
    forall i | 0 <= i < k
      ensures Ascii(a)[i] == Ascii(b)[i]
    {
      assert a[i] == a[..k][i] && b[i] == b[..k][i];
    }
    DiffersAt(Ascii(a), Ascii(b), k);
  }

  /** Each key before the next is enough. */
  lemma {:induction false} StepsIncrease(s: seq<Entry>)
    requires forall i | 0 <= i < |s| - 1 :: Before(s[i].key, s[i + 1].key)
    ensures Increasing(s)
  {
    if |s| > 1 {
      var n := |s| - 1;
      StepsIncrease(s[..n]);
      forall i | 0 <= i < n
        ensures Before(s[i].key, s[n].key)
      {
        if i < n - 1 {
          assert Before(s[..n][i].key, s[..n][n - 1].key);
          BeforeIsTransitive(s[i].key, s[n - 1].key, s[n].key);
        }
      }
      forall i, j | 0 <= i < j < |s|
        ensures Before(s[i].key, s[j].key)
      {
        if j < n {
          assert Before(s[..n][i].key, s[..n][j].key);
        }
      }
    }
  }

  lemma IncreasingIsDistinct(s: seq<Entry>)
    requires Increasing(s)
    ensures Distinct(s)
  {
    forall i, j | 0 <= i < j < |s|
      ensures s[i].key != s[j].key
    {
      BeforeIsTotal(s[i].key, s[j].key);
    }
  }

  /** A list of increasing keys is the sorted form of every order of it. */
  lemma SortedIsThis(sorted: seq<Entry>, written: seq<Entry>)
    requires forall i | 0 <= i < |sorted| - 1 :: Before(sorted[i].key, sorted[i + 1].key)
    requires multiset(written) == multiset(sorted) && Distinct(written)
    ensures Sorted(written) == sorted
  {
    StepsIncrease(sorted);
    SortedIncreases(written);
    SortedKeeps(written);
    IncreasingIsUnique(Sorted(written), sorted);
  }

  lemma {:induction false} CountByKey(s: seq<Entry>, x: Entry)
    requires Distinct(s)
    ensures multiset(s)[x] == if x in s then 1 else 0
  {
    if s != [] {
      var n := |s| - 1;
      assert s == s[..n] + [s[n]];
      CountByKey(s[..n], x);
      if s[n] == x {
        assert x !in s[..n];
      }
    }
  }

  lemma DistinctSameEntries(s: seq<Entry>, t: seq<Entry>)
    requires Distinct(s) && Distinct(t) && forall x :: x in s <==> x in t
    ensures multiset(s) == multiset(t)
  {
    forall x
      ensures multiset(s)[x] == multiset(t)[x]
    {
      CountByKey(s, x);
      CountByKey(t, x);
    }
  }

  /** Two orders that undo each other. */
  predicate Undo(order: seq<nat>, back: seq<nat>) {
    && |order| == |back|
    && (forall i | 0 <= i < |order| :: order[i] < |back| && back[order[i]] == i)
    && (forall j | 0 <= j < |back| :: back[j] < |order| && order[back[j]] == j)
  }

  /** `written` lists the entries of `sorted` in that order. */
  predicate Reordered(sorted: seq<Entry>, written: seq<Entry>, order: seq<nat>) {
    && |order| == |sorted| == |written|
    && forall i | 0 <= i < |order| :: order[i] < |sorted| && written[i] == sorted[order[i]]
  }

  predicate Rises(names: seq<string>) {
    forall i | 0 <= i < |names| - 1 :: Before(Ascii(names[i]), Ascii(names[i + 1]))
  }

  predicate HasNames(s: seq<Entry>, names: seq<string>) {
    |s| == |names| && forall i | 0 <= i < |s| :: s[i].key == Ascii(names[i])
  }

  lemma SortedByOrder(sorted: seq<Entry>, written: seq<Entry>, names: seq<string>, order: seq<nat>, back: seq<nat>)
    requires HasNames(sorted, names) && Rises(names) && Reordered(sorted, written, order) && Undo(order, back)
    ensures Sorted(written) == sorted
  {
    hide Sorted, Before, Ascii;
    StepsIncrease(sorted);
    IncreasingIsDistinct(sorted);
    forall x
      ensures x in sorted <==> x in written
    {
      if x in sorted {
        var j :| 0 <= j < |sorted| && sorted[j] == x;
        assert written[back[j]] == x;
      }
    }
    forall i, j | 0 <= i < j < |written|
      ensures written[i].key != written[j].key
    {
      assert order[i] != order[j];
      assert order[i] < order[j] || order[j] < order[i];
    }
    DistinctSameEntries(sorted, written);
    SortedIsThis(sorted, written);
  }

  lemma RequestKeysRise()
    ensures var names := ["audience", "body", "botId", "method", "path", "timestamp", "version"];
            Rises(names)
  {
    NamesDifferAt("audience", "body", 0);
    NamesDifferAt("body", "botId", 2);
    NamesDifferAt("botId", "method", 0);
    NamesDifferAt("method", "path", 0);
    NamesDifferAt("path", "timestamp", 0);
    NamesDifferAt("timestamp", "version", 0);
    hide Ascii;
  }

  lemma ResponseKeysRise()
    ensures var names := ["audience", "botId", "method", "path", "requestBody", "requestTimestamp", "responseBody",
                          "responseTimestamp", "statusCode", "version"];
            Rises(names)
  {
    NamesDifferAt("audience", "botId", 0);
    NamesDifferAt("botId", "method", 0);
    NamesDifferAt("method", "path", 0);
    NamesDifferAt("path", "requestBody", 0);
    NamesDifferAt("requestBody", "requestTimestamp", 7);
    NamesDifferAt("requestTimestamp", "responseBody", 2);
    NamesDifferAt("responseBody", "responseTimestamp", 8);
    NamesDifferAt("responseTimestamp", "statusCode", 0);
    NamesDifferAt("statusCode", "version", 0);
    hide Ascii;
  }

  lemma ItemKeysRise()
    ensures var names := ["components", "metadata", "name", "nbt", "removedComponents", "version"];
            Rises(names)
  {
    NamesDifferAt("components", "metadata", 0);
    NamesDifferAt("metadata", "name", 0);
    NamesDifferAt("name", "nbt", 1);
    NamesDifferAt("nbt", "removedComponents", 0);
    NamesDifferAt("removedComponents", "version", 0);
    hide Ascii;
  }

  /** The request's object, in the order it is written in, is encoded with its keys in increasing order. */
  lemma RequestIsSorted(verb: Text, path: Text, botId: Text, timestamp: Text, body: Json)
    ensures Sorted(RequestAsWritten(verb, path, botId, timestamp, body))
         == Entries(RequestPayload(verb, path, botId, timestamp, body).fields)
  {
    hide Ascii, Before, Sorted, Rises;
    RequestKeysRise();
    var names := ["audience", "body", "botId", "method", "path", "timestamp", "version"];
    var sorted := Entries(RequestPayload(verb, path, botId, timestamp, body).fields);
    assert HasNames(sorted, names);
    var order, back := [0, 6, 3, 4, 2, 5, 1], [0, 6, 4, 2, 3, 5, 1];
    assert Reordered(sorted, RequestAsWritten(verb, path, botId, timestamp, body), order);
    assert Undo(order, back);
    hide Entries, RequestPayload, RequestAsWritten, HasNames, Reordered, Undo;
    SortedByOrder(sorted, RequestAsWritten(verb, path, botId, timestamp, body), names, order, back);
  }

  lemma ResponseIsSorted(
      verb: Text, path: Text, botId: Text, requestTimestamp: Text, responseTimestamp: Text, statusCode: NumberText,
      requestBody: Json, responseBody: Json)
    ensures Sorted(ResponseAsWritten(verb, path, botId, requestTimestamp, responseTimestamp, statusCode, requestBody,
                                     responseBody))
         == Entries(ResponsePayload(verb, path, botId, requestTimestamp, responseTimestamp, statusCode, requestBody,
                                    responseBody).fields)
  {
    hide Ascii, Before, Sorted, Rises;
    ResponseKeysRise();
    var names := ["audience", "botId", "method", "path", "requestBody", "requestTimestamp", "responseBody",
                  "responseTimestamp", "statusCode", "version"];
    var sorted := Entries(ResponsePayload(verb, path, botId, requestTimestamp, responseTimestamp, statusCode, requestBody,
                                          responseBody).fields);
    var written := ResponseAsWritten(verb, path, botId, requestTimestamp, responseTimestamp, statusCode, requestBody,
                                     responseBody);
    var order, back := [0, 9, 2, 3, 1, 5, 7, 8, 4, 6], [0, 4, 2, 3, 8, 5, 9, 6, 7, 1];
    assert HasNames(sorted, names);
    assert Reordered(sorted, written, order);
    hide Entries, ResponsePayload, ResponseAsWritten, HasNames, Reordered;
    TenUndo(order, back);
    hide Undo;
    SortedByOrder(sorted, written, names, order, back);
  }

  lemma TenUndo(order: seq<nat>, back: seq<nat>)
    requires order == [0, 9, 2, 3, 1, 5, 7, 8, 4, 6] && back == [0, 4, 2, 3, 8, 5, 9, 6, 7, 1]
    ensures Undo(order, back)
  {
  }

  /** And so is what stands for an item. */
  lemma ItemIsSorted(item: ItemLike)
    ensures Sorted(ItemAsWritten(item)) == Entries(PreImage(item).fields)
  {
    hide Ascii, Before, Sorted, Tagged, Rises;
    ItemKeysRise();
    var names := ["components", "metadata", "name", "nbt", "removedComponents", "version"];
    var sorted := Entries(PreImage(item).fields);
    var order, back := [5, 2, 1, 3, 0, 4], [4, 2, 1, 3, 5, 0];
    assert HasNames(sorted, names);
    assert Reordered(sorted, ItemAsWritten(item), order);
    assert Undo(order, back);
    hide Entries, PreImage, ItemAsWritten, HasNames, Reordered, Undo;
    SortedByOrder(sorted, ItemAsWritten(item), names, order, back);
  }
}
