/** Ways through a graph that come by no place twice, and how long they can be. */
module Places {

  predicate Simple(path: seq<nat>) {
    forall i, j | 0 <= i < j < |path| :: path[i] != path[j]
  }

  lemma {:induction false} SimpleCounts(path: seq<nat>, visited: set<nat>)
    requires Simple(path) && visited == set i | 0 <= i < |path| :: path[i]
    ensures |visited| == |path|
  {
    if path != [] {
      var n := |path| - 1;
      var front := set i | 0 <= i < n :: path[..n][i];
      assert front == set i | 0 <= i < |path[..n]| :: path[..n][i];
      SimpleCounts(path[..n], front);
      assert path[n] !in front;
      assert visited == front + {path[n]};
    }
  }

  /** Inside finitely many places there is no longer such way than there are places. */
  lemma SimpleIsShort(places: set<nat>, path: seq<nat>)
    requires Simple(path) && forall i | 0 <= i < |path| :: path[i] in places
    ensures |path| <= |places|
  {
    var visited := set i | 0 <= i < |path| :: path[i];
    SimpleCounts(path, visited);
    assert visited <= places;
    assert places == visited + (places - visited);
  }
}
