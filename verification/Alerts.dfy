/** The staff alert feed's memory: what one poll posts, given everything the polls before it held. */
module Alerts {
  import Arithmetic

  /** Texts by their identity: a win's id, a hold's player and time, a player's id. */
  type Key = nat

  const REMEMBER_MS := 7_200_000
  const REMEMBER_PROFIT_MS := 86_400_000

  datatype Profit = Profit(user: Key, net: int)

  datatype Noted = Noted(net: int, at: int)

  /** One answer of the gateway, and when it was taken. */
  datatype Poll = Poll(wins: seq<Key>, holds: seq<Key>, bar: int, profits: seq<Profit>, at: int)

  datatype Fresh = Fresh(wins: seq<Key>, holds: seq<Key>, profits: seq<Profit>)

  datatype Memory = Memory(wins: map<Key, int>, holds: map<Key, int>, profits: map<Key, Noted>, baselined: bool)

  function Kept(m: map<Key, int>, now: int): map<Key, int> {
    map k | k in m && now - m[k] <= REMEMBER_MS :: m[k]
  }

  function KeptProfits(m: map<Key, Noted>, now: int): map<Key, Noted> {
    map k | k in m && now - m[k].at <= REMEMBER_PROFIT_MS :: m[k]
  }

  /** The keys not known yet, in order, and the memory once they are. */
  function Note(m: map<Key, int>, keys: seq<Key>, now: int): (map<Key, int>, seq<Key>) {
    if keys == [] then (m, [])
    else
      var (before, news) := Note(m, keys[..|keys| - 1], now);
      var key := keys[|keys| - 1];
      if key in before then (before, news) else (before[key := now], news + [key])
  }

  /** How many times over the bar. */
  function Multiple(net: int, bar: int): int
    requires bar > 0
  {
    net / bar
  }

  predicate Passes(m: map<Key, Noted>, profit: Profit, bar: int) {
    && bar > 0 && profit.net >= bar
    && (profit.user in m ==> Multiple(profit.net, bar) > Multiple(m[profit.user].net, bar))
  }

  function NoteProfits(m: map<Key, Noted>, profits: seq<Profit>, bar: int, now: int): (map<Key, Noted>, seq<Profit>) {
    if profits == [] then (m, [])
    else
      var (before, news) := NoteProfits(m, profits[..|profits| - 1], bar, now);
      var profit := profits[|profits| - 1];
      if Passes(before, profit, bar)
      then (before[profit.user := Noted(profit.net, now)], news + [profit]) else (before, news)
  }

  /** What a poll holds that the memory does not. */
  function Learned(memory: Memory, poll: Poll): Fresh {
    Fresh(Note(Kept(memory.wins, poll.at), poll.wins, poll.at).1,
          Note(Kept(memory.holds, poll.at), poll.holds, poll.at).1,
          NoteProfits(KeptProfits(memory.profits, poll.at), poll.profits, poll.bar, poll.at).1)
  }

  function Remembering(memory: Memory, poll: Poll): Memory {
    Memory(Note(Kept(memory.wins, poll.at), poll.wins, poll.at).0,
           Note(Kept(memory.holds, poll.at), poll.holds, poll.at).0,
           NoteProfits(KeptProfits(memory.profits, poll.at), poll.profits, poll.bar, poll.at).0,
           true)
  }

  function Posts(memory: Memory, poll: Poll): Fresh {
    if memory.baselined then Learned(memory, poll) else Fresh([], [], [])
  }

  class MoneyAlertMemory {
    var wins: map<Key, int>
    var holds: map<Key, int>
    var profits: map<Key, Noted>
    var baselined: bool

    function View(): Memory
      reads this
    {
      Memory(wins, holds, profits, baselined)
    }

    constructor ()
      ensures View() == Memory(map[], map[], map[], false)
    {
      wins, holds, profits, baselined := map[], map[], map[], false;
    }

    method Prune(now: int)
      modifies this
      ensures wins == Kept(old(wins), now) && holds == Kept(old(holds), now)
      ensures profits == KeptProfits(old(profits), now) && baselined == old(baselined)
    {
      wins := map k | k in wins && now - wins[k] <= REMEMBER_MS :: wins[k];
      holds := map k | k in holds && now - holds[k] <= REMEMBER_MS :: holds[k];
      profits := map k | k in profits && now - profits[k].at <= REMEMBER_PROFIT_MS :: profits[k];
    }

    method TakeWins(keys: seq<Key>, now: int) returns (news: seq<Key>)
      modifies this
      ensures (wins, news) == Note(old(wins), keys, now)
      ensures View() == old(View()).(wins := wins)
    {
      news := [];
      for i := 0 to |keys|
        invariant (wins, news) == Note(old(wins), keys[..i], now) && View() == old(View()).(wins := wins)
      {
        assert keys[..i + 1][..i] == keys[..i];
        if keys[i] !in wins {
          wins := wins[keys[i] := now];
          news := news + [keys[i]];
        }
      }
      assert keys[..|keys|] == keys;
    }

    method TakeHolds(keys: seq<Key>, now: int) returns (news: seq<Key>)
      modifies this
      ensures (holds, news) == Note(old(holds), keys, now)
      ensures View() == old(View()).(holds := holds)
    {
      news := [];
      for i := 0 to |keys|
        invariant (holds, news) == Note(old(holds), keys[..i], now) && View() == old(View()).(holds := holds)
      {
        assert keys[..i + 1][..i] == keys[..i];
        if keys[i] !in holds {
          holds := holds[keys[i] := now];
          news := news + [keys[i]];
        }
      }
      assert keys[..|keys|] == keys;
    }

    method TakeProfits(rows: seq<Profit>, bar: int, now: int) returns (news: seq<Profit>)
      modifies this
      ensures (profits, news) == NoteProfits(old(profits), rows, bar, now)
      ensures View() == old(View()).(profits := profits)
    {
      news := [];
      for i := 0 to |rows|
        invariant (profits, news) == NoteProfits(old(profits), rows[..i], bar, now)
        invariant View() == old(View()).(profits := profits)
      {
        assert rows[..i + 1][..i] == rows[..i];
        if Passes(profits, rows[i], bar) {
          profits := profits[rows[i].user := Noted(rows[i].net, now)];
          news := news + [rows[i]];
        }
      }
      assert rows[..|rows|] == rows;
    }

    /** Learns a poll and returns what is news in it; before the first poll is learned nothing counts as news. */
    method Take(poll: Poll) returns (news: Fresh)
      modifies this
      ensures View() == Remembering(old(View()), poll)
      ensures news == Posts(old(View()), poll)
    {
      Prune(poll.at);
      var newWins := TakeWins(poll.wins, poll.at);
      var newHolds := TakeHolds(poll.holds, poll.at);
      var newProfits := TakeProfits(poll.profits, poll.bar, poll.at);
      if !baselined {
        baselined := true;
        return Fresh([], [], []);
      }
      return Fresh(newWins, newHolds, newProfits);
    }
  }

  // Whole runs.

  predicate InTime(polls: seq<Poll>) {
    forall i, j | 0 <= i < j < |polls| :: polls[i].at <= polls[j].at
  }

  function MemoryAfter(polls: seq<Poll>): Memory {
    if polls == [] then Memory(map[], map[], map[], false)
    else Remembering(MemoryAfter(polls[..|polls| - 1]), polls[|polls| - 1])
  }

  function LearnedAt(polls: seq<Poll>, i: nat): Fresh
    requires i < |polls|
  {
    Learned(MemoryAfter(polls[..i]), polls[i])
  }

  function PostedAt(polls: seq<Poll>, i: nat): Fresh
    requires i < |polls|
  {
    Posts(MemoryAfter(polls[..i]), polls[i])
  }

  /** The first poll posts nothing, and every later one exactly what it taught the memory. */
  lemma OnlyTheFirstIsSilent(polls: seq<Poll>, i: nat)
    requires i < |polls|
    ensures PostedAt(polls, i) == if i == 0 then Fresh([], [], []) else LearnedAt(polls, i)
  {
    if i == 0 {
      assert polls[..0] == [];
    }
  }

  // Wins and holds.

  predicate AllDiffer(keys: seq<Key>) {
    forall k, l | 0 <= k < l < |keys| :: keys[k] != keys[l]
  }

  lemma {:induction false} NoteLearns(m: map<Key, int>, keys: seq<Key>, now: int)
    ensures var (after, news) := Note(m, keys, now);
            && (forall k | k in news :: k !in m && k in after && after[k] == now)
            && (forall k | k in m :: k in after && after[k] == m[k])
            && (forall k | k in keys :: k in after)
            && AllDiffer(news)
  {
    if keys != [] {
      NoteLearns(m, keys[..|keys| - 1], now);
      assert keys == keys[..|keys| - 1] + [keys[|keys| - 1]];
    }
  }

  /** A key learned at one time is still known, or it was too long ago. */
  predicate StillKnown(m: map<Key, int>, key: Key, at: int, now: int) {
    now - at > REMEMBER_MS || (key in m && m[key] >= at)
  }

  lemma KnownStays(m: map<Key, int>, keys: seq<Key>, key: Key, at: int, before: int, now: int)
    requires StillKnown(m, key, at, before) && before <= now
    ensures StillKnown(Note(Kept(m, now), keys, now).0, key, at, now)
  {
    NoteLearns(Kept(m, now), keys, now);
  }

  lemma {:induction false} WinsStayKnown(polls: seq<Poll>, i: nat, n: nat, key: Key)
    requires InTime(polls) && i < n <= |polls| && key in LearnedAt(polls, i).wins
    ensures StillKnown(MemoryAfter(polls[..n]).wins, key, polls[i].at, polls[n - 1].at)
    decreases n
  {
    hide Note, Kept, NoteProfits, KeptProfits, AllDiffer;
    assert polls[..n][..n - 1] == polls[..n - 1];
    var m := MemoryAfter(polls[..n - 1]).wins;
    NoteLearns(Kept(m, polls[n - 1].at), polls[n - 1].wins, polls[n - 1].at);
    if i < n - 1 {
      WinsStayKnown(polls, i, n - 1, key);
      KnownStays(m, polls[n - 1].wins, key, polls[i].at, polls[n - 2].at, polls[n - 1].at);
    }
  }

  lemma {:induction false} HoldsStayKnown(polls: seq<Poll>, i: nat, n: nat, key: Key)
    requires InTime(polls) && i < n <= |polls| && key in LearnedAt(polls, i).holds
    ensures StillKnown(MemoryAfter(polls[..n]).holds, key, polls[i].at, polls[n - 1].at)
    decreases n
  {
    hide Note, Kept, NoteProfits, KeptProfits, AllDiffer;
    assert polls[..n][..n - 1] == polls[..n - 1];
    var m := MemoryAfter(polls[..n - 1]).holds;
    NoteLearns(Kept(m, polls[n - 1].at), polls[n - 1].holds, polls[n - 1].at);
    if i < n - 1 {
      HoldsStayKnown(polls, i, n - 1, key);
      KnownStays(m, polls[n - 1].holds, key, polls[i].at, polls[n - 2].at, polls[n - 1].at);
    }
  }

  /** Two posts of one win are more than two hours apart, whatever the polls repeat. */
  lemma WinsArePostedOnce(polls: seq<Poll>, i: nat, j: nat, key: Key)
    requires InTime(polls) && i < j < |polls| && key in PostedAt(polls, i).wins && key in PostedAt(polls, j).wins
    ensures polls[j].at - polls[i].at > REMEMBER_MS
  {
    OnlyTheFirstIsSilent(polls, i);
    OnlyTheFirstIsSilent(polls, j);
    var m := MemoryAfter(polls[..j]).wins;
    if i > 0 {
      WinsStayKnown(polls, i, j, key);
      NoteLearns(Kept(m, polls[j].at), polls[j].wins, polls[j].at);
      assert key !in Kept(m, polls[j].at);
    }
  }

  /** And so are two posts of one hold. */
  lemma HoldsArePostedOnce(polls: seq<Poll>, i: nat, j: nat, key: Key)
    requires InTime(polls) && i < j < |polls| && key in PostedAt(polls, i).holds && key in PostedAt(polls, j).holds
    ensures polls[j].at - polls[i].at > REMEMBER_MS
  {
    OnlyTheFirstIsSilent(polls, i);
    OnlyTheFirstIsSilent(polls, j);
    var m := MemoryAfter(polls[..j]).holds;
    if i > 0 {
      HoldsStayKnown(polls, i, j, key);
      NoteLearns(Kept(m, polls[j].at), polls[j].holds, polls[j].at);
      assert key !in Kept(m, polls[j].at);
    }
  }

  /** One poll posts a win or a hold once, and drops nothing that is new. */
  lemma OnePollPostsOnce(polls: seq<Poll>, i: nat)
    requires 0 < i < |polls|
    ensures var news := PostedAt(polls, i);
            AllDiffer(news.wins) && AllDiffer(news.holds)
    ensures forall key | key in polls[i].wins ::
              key in PostedAt(polls, i).wins || key in Kept(MemoryAfter(polls[..i]).wins, polls[i].at)
    ensures forall key | key in polls[i].holds ::
              key in PostedAt(polls, i).holds || key in Kept(MemoryAfter(polls[..i]).holds, polls[i].at)
  {
    OnlyTheFirstIsSilent(polls, i);
    var memory := MemoryAfter(polls[..i]);
    NoteLearns(Kept(memory.wins, polls[i].at), polls[i].wins, polls[i].at);
    NoteLearns(Kept(memory.holds, polls[i].at), polls[i].holds, polls[i].at);
    NewIsFresh(Kept(memory.wins, polls[i].at), polls[i].wins, polls[i].at);
    NewIsFresh(Kept(memory.holds, polls[i].at), polls[i].holds, polls[i].at);
    assert PostedAt(polls, i) == Learned(memory, polls[i]);
    hide Note, PostedAt;
  }

  lemma {:induction false} NewIsFresh(m: map<Key, int>, keys: seq<Key>, now: int)
    ensures forall k | k in Note(m, keys, now).0 :: k in m || k in Note(m, keys, now).1
    ensures forall k | k in keys :: k in Note(m, keys, now).0
  {
    if keys != [] {
      NewIsFresh(m, keys[..|keys| - 1], now);
      assert keys == keys[..|keys| - 1] + [keys[|keys| - 1]];
    }
  }

  // Profits.

  lemma MultiplesRise(a: int, b: int, bar: int)
    requires bar > 0 && Multiple(a, bar) > Multiple(b, bar)
    ensures a > b
  {
    if b >= a {
      MultipleOfMore(b, a, bar);
    }
    hide Multiple;
  }

  lemma MultipleOfMore(a: int, b: int, bar: int)
    requires bar > 0 && a >= b
    ensures Multiple(a, bar) >= Multiple(b, bar)
  {
    var p, q := a / bar, b / bar;
    assert a == bar * p + a % bar && b == bar * q + b % bar;
    assert (q - p) * bar == b - b % bar - (a - a % bar);
    Arithmetic.MultipleIsFar(q - p, bar);
  }

  /** Within one poll a player's remembered figure only grows, and what is learned beats what was remembered. */
  lemma {:induction false} NoteProfitsRaises(m: map<Key, Noted>, profits: seq<Profit>, bar: int, now: int)
    ensures var (after, news) := NoteProfits(m, profits, bar, now);
            && (forall u | u in m :: u in after && after[u].net >= m[u].net && (after[u] == m[u] || after[u].at == now))
            && (forall p | p in news :: p.user in after && after[p.user].net >= p.net && after[p.user].at == now)
            && (forall p | p in news ::
                  bar > 0 && (p.user in m ==> Multiple(p.net, bar) > Multiple(m[p.user].net, bar)))
            && (forall k, l | 0 <= k < l < |news| && news[k].user == news[l].user ::
                  Multiple(news[l].net, bar) > Multiple(news[k].net, bar))
  {
    hide Multiple;
    if profits != [] {
      var n := |profits| - 1;
      NoteProfitsRaises(m, profits[..n], bar, now);
      var (before, news) := NoteProfits(m, profits[..n], bar, now);
      var profit := profits[n];
      if Passes(before, profit, bar) {
        BeatsAll(m, before, news, profit, bar);
      }
    }
  }

  lemma BeatsAll(m: map<Key, Noted>, before: map<Key, Noted>, news: seq<Profit>, profit: Profit, bar: int)
    requires Passes(before, profit, bar)
    requires forall u | u in m :: u in before && before[u].net >= m[u].net
    requires forall p | p in news :: p.user in before && before[p.user].net >= p.net
    ensures profit.user in before ==> profit.net > before[profit.user].net
    ensures profit.user in m ==> Multiple(profit.net, bar) > Multiple(m[profit.user].net, bar)
    ensures forall p | p in news && p.user == profit.user :: Multiple(profit.net, bar) > Multiple(p.net, bar)
  {
    if profit.user in before {
      MultiplesRise(profit.net, before[profit.user].net, bar);
    }
    if profit.user in m {
      MultipleOfMore(before[profit.user].net, m[profit.user].net, bar);
    }
    forall p | p in news && p.user == profit.user
      ensures Multiple(profit.net, bar) > Multiple(p.net, bar)
    {
      MultipleOfMore(before[p.user].net, p.net, bar);
    }
    hide Multiple;
  }

  predicate StillNoted(m: map<Key, Noted>, profit: Profit, at: int, now: int) {
    now - at > REMEMBER_PROFIT_MS || (profit.user in m && m[profit.user].net >= profit.net && m[profit.user].at >= at)
  }

  lemma {:induction false} ProfitsStayNoted(polls: seq<Poll>, i: nat, n: nat, profit: Profit)
    requires InTime(polls) && i < n <= |polls| && profit in LearnedAt(polls, i).profits
    ensures StillNoted(MemoryAfter(polls[..n]).profits, profit, polls[i].at, polls[n - 1].at)
    decreases n
  {
    assert polls[..n][..n - 1] == polls[..n - 1];
    var m := KeptProfits(MemoryAfter(polls[..n - 1]).profits, polls[n - 1].at);
    NoteProfitsRaises(m, polls[n - 1].profits, polls[n - 1].bar, polls[n - 1].at);
    if i < n - 1 {
      ProfitsStayNoted(polls, i, n - 1, profit);
    }
    hide Multiple;
  }

  /** Within a day a player is posted again only on more whole bars than any earlier post had, by the bar of the day. */
  lemma ProfitsClimb(polls: seq<Poll>, i: nat, j: nat, early: Profit, late: Profit)
    requires InTime(polls) && i < j < |polls| && early.user == late.user
    requires early in PostedAt(polls, i).profits && late in PostedAt(polls, j).profits
    requires polls[j].at - polls[i].at <= REMEMBER_PROFIT_MS
    ensures polls[j].bar > 0 && Multiple(late.net, polls[j].bar) > Multiple(early.net, polls[j].bar)
  {
    OnlyTheFirstIsSilent(polls, i);
    OnlyTheFirstIsSilent(polls, j);
    ProfitsStayNoted(polls, i, j, early);
    var m := KeptProfits(MemoryAfter(polls[..j]).profits, polls[j].at);
    NoteProfitsRaises(m, polls[j].profits, polls[j].bar, polls[j].at);
    MultipleOfMore(m[early.user].net, early.net, polls[j].bar);
    hide Multiple;
  }
}
