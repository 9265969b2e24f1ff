/** allowPlayerCommand: at most forty player commands a minute, and one player's at least five seconds apart. */
module Limiter {

  type Key = nat

  const WINDOW_MS := 60_000
  const MOST: nat := 40
  const APART_MS := 5_000
  const REMEMBERED: nat := 4096

  datatype Call = Call(identity: Key, at: int)

  datatype State = State(recent: seq<int>, last: map<Key, int>)

  function Recent(times: seq<int>, now: int): seq<int> {
    if times == [] then []
    else Recent(times[..|times| - 1], now) + if now - times[|times| - 1] < WINDOW_MS then [times[|times| - 1]] else []
  }

  predicate Allowed(state: State, call: Call) {
    && |Recent(state.recent, call.at)| < MOST
    && (call.identity in state.last ==> call.at - state.last[call.identity] >= APART_MS)
  }

  function Swept(last: map<Key, int>, now: int): map<Key, int> {
    if |last| > REMEMBERED then map k | k in last && now - last[k] < WINDOW_MS :: last[k] else last
  }

  function After(state: State, call: Call): State {
    var recent := Recent(state.recent, call.at);
    if Allowed(state, call)
    then State(recent + [call.at], Swept(state.last[call.identity := call.at], call.at))
    else state.(recent := recent)
  }

  class PlayerCommandLimiter {
    var recentCommandTimes: seq<int>
    var lastPlayerCommandAt: map<Key, int>

    function View(): State
      reads this
    {
      State(recentCommandTimes, lastPlayerCommandAt)
    }

    constructor ()
      ensures View() == State([], map[])
    {
      recentCommandTimes, lastPlayerCommandAt := [], map[];
    }

    method AllowPlayerCommand(identity: Key, now: int) returns (allowed: bool)
      modifies this
      ensures allowed == Allowed(old(View()), Call(identity, now))
      ensures View() == After(old(View()), Call(identity, now))
    {
      var kept: seq<int> := [];
      for i := 0 to |recentCommandTimes|
        invariant kept == Recent(recentCommandTimes[..i], now) && View() == old(View())
      {
        assert recentCommandTimes[..i + 1][..i] == recentCommandTimes[..i];
        if now - recentCommandTimes[i] < WINDOW_MS {
          kept := kept + [recentCommandTimes[i]];
        }
      }
      assert recentCommandTimes[..|recentCommandTimes|] == recentCommandTimes;
      recentCommandTimes := kept;
      if |recentCommandTimes| >= MOST {
        return false;
      }
      if identity in lastPlayerCommandAt && now - lastPlayerCommandAt[identity] < APART_MS {
        return false;
      }
      recentCommandTimes := recentCommandTimes + [now];
      lastPlayerCommandAt := lastPlayerCommandAt[identity := now];
      if |lastPlayerCommandAt| > REMEMBERED {
        lastPlayerCommandAt :=
          map k | k in lastPlayerCommandAt && now - lastPlayerCommandAt[k] < WINDOW_MS :: lastPlayerCommandAt[k];
      }
      return true;
    }
  }

  // Whole runs.

  predicate InTime(calls: seq<Call>) {
    forall i, j | 0 <= i < j < |calls| :: calls[i].at <= calls[j].at
  }

  function StateAfter(calls: seq<Call>): State {
    if calls == [] then State([], map[])
    else After(StateAfter(calls[..|calls| - 1]), calls[|calls| - 1])
  }

  /** The calls that were let through, in order. */
  function Passed(calls: seq<Call>): seq<Call> {
    if calls == [] then []
    else
      var n := |calls| - 1;
      Passed(calls[..n]) + if Allowed(StateAfter(calls[..n]), calls[n]) then [calls[n]] else []
  }

  function Times(calls: seq<Call>): seq<int> {
    seq(|calls|, i requires 0 <= i < |calls| => calls[i].at)
  }

  predicate Ordered(passed: seq<Call>, now: int) {
    && (forall i, j | 0 <= i < j < |passed| :: passed[i].at <= passed[j].at)
    && (forall i | 0 <= i < |passed| :: passed[i].at <= now)
  }

  /** The times kept are those of the last passes, and every pass of the last minute is among them. */
  predicate KnowsTimes(recent: seq<int>, passed: seq<Call>, now: int) {
    && |recent| <= MOST && |recent| <= |passed|
    && recent == Times(passed[|passed| - |recent|..])
    && forall i | 0 <= i < |passed| - |recent| :: now - passed[i].at >= WINDOW_MS
  }

  /** Each player's last pass is kept, unless it is more than a minute old. */
  predicate KnowsPlayers(last: map<Key, int>, passed: seq<Call>, now: int) {
    && (forall i | 0 <= i < |passed| ::
          now - passed[i].at >= WINDOW_MS
          || (passed[i].identity in last && last[passed[i].identity] >= passed[i].at))
    && (forall k | k in last :: Call(k, last[k]) in passed)
  }

  /** What the limiter still knows of the passes so far. */
  predicate Knows(state: State, passed: seq<Call>, now: int) {
    && Ordered(passed, now) && KnowsTimes(state.recent, passed, now) && KnowsPlayers(state.last, passed, now)
    && |state.last| <= REMEMBERED
  }

  /** Old times are dropped from the front, because they are in order. */
  lemma TailGrows(times: seq<int>, r: seq<int>, now: int)
    requires times != [] && forall i, j | 0 <= i < j < |times| :: times[i] <= times[j]
    requires var n := |times| - 1;
             && |r| <= n && r == times[..n][n - |r|..]
             && (forall i | 0 <= i < n - |r| :: now - times[i] >= WINDOW_MS)
             && (forall i | 0 <= i < |r| :: now - r[i] < WINDOW_MS)
    ensures var n := |times| - 1;
            var more := r + (if now - times[n] < WINDOW_MS then [times[n]] else []);
            && |more| <= |times| && more == times[|times| - |more|..]
            && (forall i | 0 <= i < |times| - |more| :: now - times[i] >= WINDOW_MS)
            && (forall i | 0 <= i < |more| :: now - more[i] < WINDOW_MS)
  {
    var n := |times| - 1;
    if r != [] {
      assert r[|r| - 1] == times[n - 1];
    }
    if now - times[n] < WINDOW_MS {
      assert r + [times[n]] == times[n - |r|..];
    } else {
      assert r + [] == [];
    }
  }

  lemma {:induction false} RecentIsATail(times: seq<int>, now: int)
    requires forall i, j | 0 <= i < j < |times| :: times[i] <= times[j]
    ensures var r := Recent(times, now);
            && |r| <= |times| && r == times[|times| - |r|..]
            && (forall i | 0 <= i < |times| - |r| :: now - times[i] >= WINDOW_MS)
            && (forall i | 0 <= i < |r| :: now - r[i] < WINDOW_MS)
  {
    if times != [] {
      var n := |times| - 1;
      var front := times[..n];
      RecentIsATail(front, now);
      var r := Recent(front, now);
      assert Recent(times, now) == r + (if now - times[n] < WINDOW_MS then [times[n]] else []);
      hide Recent;
      TailGrows(times, r, now);
    }
  }

  lemma {:induction false} IdentitiesOf(calls: seq<Call>)
    ensures |set c | c in calls :: c.identity| <= |calls|
  {
    if calls == [] {
      assert (set c | c in calls :: c.identity) == {};
    } else {
      var n := |calls| - 1;
      IdentitiesOf(calls[..n]);
      assert calls == calls[..n] + [calls[n]];
      assert (set c | c in calls :: c.identity) == (set c | c in calls[..n] :: c.identity) + {calls[n].identity};
    }
  }

  /** Right after a sweep only players of the last minute are left, so at most forty. */
  lemma SweepLeavesFew(last: map<Key, int>, passed: seq<Call>, recent: nat, now: int)
    requires recent <= MOST && recent <= |passed|
    requires forall i | 0 <= i < |passed| - recent :: now - passed[i].at >= WINDOW_MS
    requires forall k | k in last :: Call(k, last[k]) in passed
    requires |last| > REMEMBERED
    ensures |Swept(last, now)| <= MOST
  {
    var tail := passed[|passed| - recent..];
    var left, ids := Swept(last, now).Keys, set c | c in tail :: c.identity;
    forall k | k in left
      ensures k in ids
    {
      var i :| 0 <= i < |passed| && passed[i] == Call(k, last[k]);
      assert tail[i - (|passed| - recent)] == passed[i];
      assert passed[i] in tail && passed[i].identity == k;
    }
    IdentitiesOf(tail);
    Fewer(left, ids);
    assert |Swept(last, now)| == |left|;
  }

  lemma Fewer(a: set<Key>, b: set<Key>)
    requires forall k | k in a :: k in b
    ensures |a| <= |b|
  {
    assert b == a + (b - a);
  }

  /** The last times are the times of the last passes. */
  lemma TimesOfATail(passed: seq<Call>, n: nat, k: nat)
    requires k <= n <= |passed|
    ensures Times(passed[|passed| - n..])[n - k..] == Times(passed[|passed| - k..])
  {
    var tail, shorter := passed[|passed| - n..], passed[|passed| - k..];
    assert forall i | 0 <= i < k :: tail[n - k + i] == shorter[i];
  }

  lemma TimesAre(recent: seq<int>, passed: seq<Call>)
    requires |recent| <= |passed| && recent == Times(passed[|passed| - |recent|..])
    ensures forall i | 0 <= i < |recent| :: recent[i] == passed[|passed| - |recent| + i].at
  {
  }

  lemma TimesDrop(recent: seq<int>, passed: seq<Call>, before: int, now: int)
    requires KnowsTimes(recent, passed, before) && Ordered(passed, before) && before <= now
    ensures KnowsTimes(Recent(recent, now), passed, now)
  {
    hide Recent, Times;
    var n, r := |recent|, Recent(recent, now);
    TimesAre(recent, passed);
    RecentIsATail(recent, now);
    TimesOfATail(passed, n, |r|);
    forall i | 0 <= i < |passed| - |r|
      ensures now - passed[i].at >= WINDOW_MS
    {
      if i >= |passed| - n {
        assert recent[i - (|passed| - n)] == passed[i].at;
      }
    }
  }

  lemma RecentStaysKnown(state: State, passed: seq<Call>, before: int, now: int)
    requires Knows(state, passed, before) && before <= now
    ensures Knows(state.(recent := Recent(state.recent, now)), passed, now)
  {
    TimesDrop(state.recent, passed, before, now);
    hide KnowsTimes, Recent;
  }

  lemma TimesGrow(recent: seq<int>, passed: seq<Call>, call: Call)
    requires KnowsTimes(recent, passed, call.at) && |recent| < MOST
    ensures KnowsTimes(recent + [call.at], passed + [call], call.at)
  {
    var all, more := passed + [call], recent + [call.at];
    assert all[|all| - |more|..] == passed[|passed| - |recent|..] + [call];
    assert more == Times(all[|all| - |more|..]);
  }

  lemma PlayersGrow(last: map<Key, int>, passed: seq<Call>, call: Call)
    requires KnowsPlayers(last, passed, call.at) && Ordered(passed, call.at)
    ensures KnowsPlayers(last[call.identity := call.at], passed + [call], call.at)
    ensures |last[call.identity := call.at]| <= |last| + 1
  {
    var all, more := passed + [call], last[call.identity := call.at];
    assert all[|passed|] == call;
    assert forall i | 0 <= i < |passed| :: all[i] == passed[i];
    forall k | k in more
      ensures Call(k, more[k]) in all
    {
      assert k != call.identity ==> Call(k, last[k]) in passed;
    }
    assert more.Keys == last.Keys + {call.identity};
  }

  lemma SweepKeepsPlayers(last: map<Key, int>, passed: seq<Call>, now: int)
    requires KnowsPlayers(last, passed, now) && Ordered(passed, now)
    ensures KnowsPlayers(Swept(last, now), passed, now)
  {
  }

  lemma PassIsKnown(state: State, passed: seq<Call>, call: Call)
    requires Knows(state, passed, call.at) && |state.recent| < MOST
    ensures Knows(State(state.recent + [call.at], Swept(state.last[call.identity := call.at], call.at)), passed + [call],
                  call.at)
    ensures |state.last[call.identity := call.at]| > REMEMBERED ==>
              |Swept(state.last[call.identity := call.at], call.at)| <= MOST
  {
    var all, last := passed + [call], state.last[call.identity := call.at];
    TimesGrow(state.recent, passed, call);
    PlayersGrow(state.last, passed, call);
    assert Ordered(all, call.at);
    SweepKeepsPlayers(last, all, call.at);
    if |last| > REMEMBERED {
      SweepLeavesFew(last, all, |state.recent| + 1, call.at);
    }
    hide KnowsTimes, KnowsPlayers, Ordered;
  }

  /** After any calls, and once the old times are dropped for the next one, the limiter knows the passes so far. */
  lemma {:induction false} LimiterKnows(calls: seq<Call>, now: int)
    requires InTime(calls) && forall i | 0 <= i < |calls| :: calls[i].at <= now
    ensures Knows(StateAfter(calls).(recent := Recent(StateAfter(calls).recent, now)), Passed(calls), now)
    ensures |StateAfter(calls).recent| <= MOST
  {
    if calls != [] {
      var n := |calls| - 1;
      var front := calls[..n];
      LimiterKnows(front, calls[n].at);
      var state, passed := StateAfter(front), Passed(front);
      var ready := state.(recent := Recent(state.recent, calls[n].at));
      assert Knows(StateAfter(calls), Passed(calls), calls[n].at) by {
        if Allowed(state, calls[n]) {
          PassIsKnown(ready, passed, calls[n]);
        } else {
          assert passed + [] == passed;
        }
        hide Knows;
      }
      RecentStaysKnown(StateAfter(calls), Passed(calls), calls[n].at, now);
      hide StateAfter, Passed, Recent;
    }
  }

  /** In any minute at most forty commands pass: the forty-first after a pass is a minute later. */
  lemma {:induction false} FortyAMinute(calls: seq<Call>, i: nat)
    requires InTime(calls) && i + MOST < |Passed(calls)|
    ensures Passed(calls)[i + MOST].at - Passed(calls)[i].at >= WINDOW_MS
  {
    var n := |calls| - 1;
    var front := calls[..n];
    if i + MOST < |Passed(front)| {
      FortyAMinute(front, i);
    } else {
      LimiterKnows(front, calls[n].at);
      hide StateAfter, Recent, InTime, Ordered, KnowsPlayers;
    }
  }

  /** One player's commands pass at least five seconds apart, however much was forgotten in between. */
  lemma {:induction false} FiveSecondsApart(calls: seq<Call>, i: nat, j: nat)
    requires InTime(calls) && i < j < |Passed(calls)| && Passed(calls)[i].identity == Passed(calls)[j].identity
    ensures Passed(calls)[j].at - Passed(calls)[i].at >= APART_MS
  {
    var n := |calls| - 1;
    var front := calls[..n];
    if j < |Passed(front)| {
      FiveSecondsApart(front, i, j);
    } else {
      LimiterKnows(front, calls[n].at);
      hide StateAfter, Recent, InTime, Ordered, KnowsTimes;
    }
  }

  /** The memory of players never grows past its bound. */
  lemma MemoryIsBounded(calls: seq<Call>, now: int)
    requires InTime(calls) && forall i | 0 <= i < |calls| :: calls[i].at <= now
    ensures |StateAfter(calls).last| <= REMEMBERED && |StateAfter(calls).recent| <= MOST
  {
    LimiterKnows(calls, now);
  }

  /** And right after a call that swept it, at most forty players are left in it. */
  lemma SweepsLeaveForty(calls: seq<Call>, call: Call)
    requires InTime(calls) && (forall i | 0 <= i < |calls| :: calls[i].at <= call.at) && Allowed(StateAfter(calls), call)
    requires |StateAfter(calls).last[call.identity := call.at]| > REMEMBERED
    ensures |After(StateAfter(calls), call).last| <= MOST
  {
    LimiterKnows(calls, call.at);
    var state := StateAfter(calls);
    PassIsKnown(state.(recent := Recent(state.recent, call.at)), Passed(calls), call);
    hide Knows, StateAfter, Recent;
  }
}
