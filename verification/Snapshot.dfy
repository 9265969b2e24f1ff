/**
 * The inventory snapshot the gateway trusts: a revision counter works as a sequence lock around the
 * waits, so a healthy snapshot is the inventory as it is, and item transfers never overlap.
 */
module Snapshot {
  import opened Options

  type ConnId = nat
  type Fingerprint = nat

  /** An occupied slot, by its item's fingerprint. */
  datatype Item = Item(fingerprint: Fingerprint, count: int)

  type Slots = seq<Option<Item>>

  // What is counted.

  /** The occupied slots, without the crafting result. */
  function Items(slots: Slots, crafting: int): seq<Item> {
    if slots == [] then []
    else
      var n := |slots| - 1;
      Items(slots[..n], crafting) + if slots[n].Some? && n != crafting then [slots[n].value] else []
  }

  function Count(items: seq<Item>): int {
    if items == [] then 0 else Count(items[..|items| - 1]) + items[|items| - 1].count
  }

  function CountOf(items: seq<Item>, fingerprint: Fingerprint): int {
    if items == [] then 0
    else
      var last := items[|items| - 1];
      CountOf(items[..|items| - 1], fingerprint) + if last.fingerprint == fingerprint then last.count else 0
  }

  /** For each fingerprint what its slots hold together, and no fingerprint that is not there. */
  ghost predicate AreTotals(totals: map<Fingerprint, int>, items: seq<Item>) {
    && (forall f | f in totals :: totals[f] == CountOf(items, f))
    && (forall f | f !in totals :: CountOf(items, f) == 0)
  }

  function SumOf(totals: map<Fingerprint, int>, fingerprints: seq<Fingerprint>): int
    requires forall i | 0 <= i < |fingerprints| :: fingerprints[i] in totals
  {
    if fingerprints == [] then 0
    else SumOf(totals, fingerprints[..|fingerprints| - 1]) + totals[fingerprints[|fingerprints| - 1]]
  }

  predicate AllPositive(items: seq<Item>) {
    forall i | 0 <= i < |items| :: items[i].count > 0
  }

  /** The fingerprints of the totals, each once, and what they sum to. */
  ghost predicate Listing(totals: map<Fingerprint, int>, listed: seq<Fingerprint>, sum: int) {
    && (forall f :: f in totals <==> f in listed)
    && (forall i, j | 0 <= i < j < |listed| :: listed[i] != listed[j])
    && SumOf(totals, listed) == sum
  }

  function Added(totals: map<Fingerprint, int>, item: Item): map<Fingerprint, int> {
    totals[item.fingerprint := (if item.fingerprint in totals then totals[item.fingerprint] else 0) + item.count]
  }

  function Listed(totals: map<Fingerprint, int>, listed: seq<Fingerprint>, item: Item): seq<Fingerprint> {
    if item.fingerprint in totals then listed else listed + [item.fingerprint]
  }

  lemma ListingGrows(totals: map<Fingerprint, int>, listed: seq<Fingerprint>, sum: int, item: Item)
    requires Listing(totals, listed, sum)
    ensures Listing(Added(totals, item), Listed(totals, listed, item), sum + item.count)
  {
    hide SumOf;
    if item.fingerprint in totals {
      SumWithOneMore(totals, listed, item.fingerprint, item.count);
    } else {
      SumWithANew(totals, listed, item.fingerprint, item.count);
    }
  }

  /** What has been counted of these items. */
  ghost predicate Tallied(totals: map<Fingerprint, int>, listed: seq<Fingerprint>, items: seq<Item>) {
    AllPositive(items) && AreTotals(totals, items) && Listing(totals, listed, Count(items))
  }

  /** The totals a snapshot sends; a slot with an impossible count fails it. */
  method CountTotals(slots: Slots, crafting: int)
    returns (totals: Option<map<Fingerprint, int>>, ghost listed: seq<Fingerprint>)
    ensures totals.Some? <==> AllPositive(Items(slots, crafting))
    ensures totals.Some? ==> Tallied(totals.value, listed, Items(slots, crafting))
  {
    var items := Items(slots, crafting);
    var sums: map<Fingerprint, int> := map[];
    listed := [];
    assert Tallied(sums, listed, items[..0]);
    assert items[..|items|] == items;
    hide AreTotals, Listing, Items, Tallied, Count, AllPositive;
    for i := 0 to |items|
      invariant Tallied(sums, listed, items[..i])
    {
      var item := items[i];
      if item.count <= 0 {
        NotPositive(items, i);
        return None, [];
      }
      OneMore(sums, listed, items, i);
      listed := Listed(sums, listed, item);
      sums := sums[item.fingerprint := (if item.fingerprint in sums then sums[item.fingerprint] else 0) + item.count];
    }
    TalliedIsPositive(sums, listed, items);
    totals := Some(sums);
  }

  lemma NotPositive(items: seq<Item>, i: nat)
    requires i < |items| && items[i].count <= 0
    ensures !AllPositive(items)
  {
  }

  lemma TalliedIsPositive(totals: map<Fingerprint, int>, listed: seq<Fingerprint>, items: seq<Item>)
    requires Tallied(totals, listed, items)
    ensures AllPositive(items)
  {
  }

  lemma OneMore(totals: map<Fingerprint, int>, listed: seq<Fingerprint>, items: seq<Item>, i: nat)
    requires i < |items| && items[i].count > 0 && Tallied(totals, listed, items[..i])
    ensures Tallied(Added(totals, items[i]), Listed(totals, listed, items[i]), items[..i + 1])
  {
    hide AreTotals, Listing, Listed, Added;
    var item := items[i];
    assert items[..i + 1] == items[..i] + [item] && items[..i + 1][..i] == items[..i];
    TotalsGrow(totals, items[..i], item);
    ListingGrows(totals, listed, Count(items[..i]), item);
  }

  lemma TotalsGrow(sums: map<Fingerprint, int>, items: seq<Item>, item: Item)
    requires AreTotals(sums, items)
    ensures AreTotals(Added(sums, item), items + [item])
  {
    assert (items + [item])[..|items|] == items;
  }

  lemma {:induction false} SumUnchanged(m: map<Fingerprint, int>, n: map<Fingerprint, int>, listed: seq<Fingerprint>)
    requires forall i | 0 <= i < |listed| :: listed[i] in m && listed[i] in n && m[listed[i]] == n[listed[i]]
    ensures SumOf(m, listed) == SumOf(n, listed)
  {
    if listed != [] {
      SumUnchanged(m, n, listed[..|listed| - 1]);
    }
  }

  lemma {:induction false} SumWithOneMore(m: map<Fingerprint, int>, listed: seq<Fingerprint>, f: Fingerprint, count: int)
    requires (forall i | 0 <= i < |listed| :: listed[i] in m) && f in listed
    requires forall k, l | 0 <= k < l < |listed| :: listed[k] != listed[l]
    ensures SumOf(m[f := m[f] + count], listed) == SumOf(m, listed) + count
  {
    var n := |listed| - 1;
    if listed[n] == f {
      SumUnchanged(m, m[f := m[f] + count], listed[..n]);
    } else {
      assert listed == listed[..n] + [listed[n]];
      SumWithOneMore(m, listed[..n], f, count);
    }
  }

  lemma SumWithANew(m: map<Fingerprint, int>, listed: seq<Fingerprint>, f: Fingerprint, count: int)
    requires (forall i | 0 <= i < |listed| :: listed[i] in m) && f !in listed
    ensures SumOf(m[f := count], listed + [f]) == SumOf(m, listed) + count
  {
    SumUnchanged(m, m[f := count], listed);
    assert (listed + [f])[..|listed|] == listed;
  }

  // When it is trusted.

  /** A snapshot under way: what it counted, when, and for which connection. */
  datatype Capture = Capture(conn: ConnId, revision: nat, slots: Slots)

  type CaptureId = nat
  type TransferId = nat

  datatype State = State(
    conn: Option<ConnId>,
    nextConn: ConnId,
    slots: Slots,
    inventoryRevision: nat,
    snapshotHealthy: bool,
    transferring: bool,
    screenOpen: bool,
    snapshottingConn: Option<ConnId>,
    captures: map<CaptureId, Capture>,
    acknowledged: set<Capture>,
    running: set<TransferId>,
    nextId: nat)

  function Start(): State {
    State(None, 0, [], 0, false, false, false, None, map[], {}, {}, 0)
  }

  /** invalidateSnapshotState. */
  function Invalidated(s: State): State {
    s.(inventoryRevision := s.inventoryRevision + 1, snapshotHealthy := false)
  }

  function SlotsChange(s: State, slots: Slots): State {
    Invalidated(s.(slots := slots))
  }

  function ScreenChanges(s: State, open: bool): State {
    Invalidated(s.(screenOpen := open))
  }

  predicate MaySnapshot(s: State) {
    s.conn.Some? && s.snapshottingConn != s.conn && !s.transferring
  }

  /** snapshot, up to its wait for the gateway. */
  function BeginSnapshot(s: State): State {
    if !MaySnapshot(s) then s
    else if s.screenOpen then s.(snapshotHealthy := false)
    else
      s.(snapshottingConn := s.conn, nextId := s.nextId + 1,
         captures := s.captures[s.nextId := Capture(s.conn.value, s.inventoryRevision, s.slots)])
  }

  function Dropped(s: State, id: CaptureId): State
    requires id in s.captures
  {
    s.(captures := s.captures - {id},
       snapshottingConn := if s.snapshottingConn == Some(s.captures[id].conn) then None else s.snapshottingConn)
  }

  function Weighed(s: State, capture: Capture): State {
    s.(acknowledged := s.acknowledged + {capture},
       snapshotHealthy := if s.conn != Some(capture.conn) then s.snapshotHealthy
                          else capture.revision == s.inventoryRevision && !s.transferring && !s.screenOpen)
  }

  /** The gateway took it: trusted only if nothing happened since it was counted. */
  function SnapshotTaken(s: State, id: CaptureId): State
    requires id in s.captures
  {
    Dropped(Weighed(s, s.captures[id]), id)
  }

  function SnapshotFailed(s: State, id: CaptureId): State
    requires id in s.captures
  {
    Dropped(s, id).(snapshotHealthy := s.snapshotHealthy && s.conn != Some(s.captures[id].conn))
  }

  /** A deposit code or a withdrawal job: the flag goes up before the first wait. */
  function BeginTransfer(s: State): State {
    if s.transferring || !s.snapshotHealthy then s
    else s.(transferring := true, snapshotHealthy := false, running := s.running + {s.nextId}, nextId := s.nextId + 1)
  }

  /** finishTransferReconciliation, up to the wait of its snapshot. */
  function FinishTransfer(s: State, id: TransferId): State {
    if id !in s.running then s
    else BeginSnapshot(Invalidated(s.(transferring := false, running := s.running - {id})))
  }

  function EndConnection(s: State): State {
    Invalidated(s.(conn := None))
  }

  function OpenConnection(s: State, slots: Slots): State {
    if s.conn.Some? then s
    else Invalidated(s.(conn := Some(s.nextConn), nextConn := s.nextConn + 1, slots := slots, screenOpen := false))
  }

  /** A trusted snapshot is of this connection and of the slots as they are, and no transfer is under way. */
  predicate Trusted(s: State) {
    s.snapshotHealthy ==>
      && s.conn.Some? && !s.transferring && !s.screenOpen
      && Capture(s.conn.value, s.inventoryRevision, s.slots) in s.acknowledged
  }

  /** Whatever was counted at the current revision is what the slots still hold. */
  predicate CapturesCurrent(s: State) {
    && (forall id | id in s.captures :: s.captures[id].revision <= s.inventoryRevision)
    && (forall id | id in s.captures ::
          s.captures[id].revision == s.inventoryRevision && s.conn == Some(s.captures[id].conn) ==>
            s.captures[id].slots == s.slots)
    && (forall id | id in s.captures :: id < s.nextId && s.captures[id].conn < s.nextConn)
    && (s.conn.Some? ==> s.conn.value < s.nextConn)
  }

  /** One snapshot at a time for one connection. */
  predicate OneEach(s: State) {
    && (forall i, j | i in s.captures && j in s.captures && s.captures[i].conn == s.captures[j].conn :: i == j)
    && (forall id | id in s.captures && s.conn == Some(s.captures[id].conn) :: s.snapshottingConn == s.conn)
  }

  /** One transfer at a time. */
  predicate OneTransfer(s: State) {
    && (s.transferring <==> s.running != {})
    && (forall i, j | i in s.running && j in s.running :: i == j)
  }

  predicate Sound(s: State) {
    Trusted(s) && CapturesCurrent(s) && OneEach(s) && OneTransfer(s)
  }

  datatype Event =
    | SlotsChanged(slots: Slots)
    | ScreenChanged(open: bool)
    | SnapshotDue
    | Taken(id: CaptureId)
    | Failed(id: CaptureId)
    | TransferAsked
    | TransferEnded(id: TransferId)
    | ConnectionEnded
    | ConnectionOpened(slots: Slots)

  function Apply(s: State, e: Event): State {
    match e
    case SlotsChanged(slots) => SlotsChange(s, slots)
    case ScreenChanged(open) => ScreenChanges(s, open)
    case SnapshotDue => BeginSnapshot(s)
    case Taken(id) => if id in s.captures then SnapshotTaken(s, id) else s
    case Failed(id) => if id in s.captures then SnapshotFailed(s, id) else s
    case TransferAsked => BeginTransfer(s)
    case TransferEnded(id) => FinishTransfer(s, id)
    case ConnectionEnded => EndConnection(s)
    case ConnectionOpened(slots) => OpenConnection(s, slots)
  }

  lemma BeginSnapshotSound(s: State)
    requires Sound(s)
    ensures Sound(BeginSnapshot(s))
  {
  }

  lemma TrustedNow(s: State)
    requires Sound(s)
    ensures s.snapshotHealthy ==>
              s.conn.Some? && Capture(s.conn.value, s.inventoryRevision, s.slots) in s.acknowledged && s.running == {}
  {
  }

  lemma WeighingDropsNothing(s: State, capture: Capture)
    ensures Weighed(s, capture).captures == s.captures
  {
  }

  lemma TransfersKnown(s: State)
    requires Sound(s)
    ensures s.transferring <==> s.running != {}
  {
  }

  lemma TransferEndSound(s: State, id: TransferId)
    requires Sound(s) && id in s.running
    ensures var u := Invalidated(s.(transferring := false, running := s.running - {id}));
            Sound(u) && u.running == {} && Sound(FinishTransfer(s, id))
  {
    var u := Invalidated(s.(transferring := false, running := s.running - {id}));
    assert s.running == {id};
    BeginSnapshotSound(u);
  }

  lemma StepSound(s: State, e: Event)
    requires Sound(s)
    ensures Sound(Apply(s, e))
  {
    match e {
      case SnapshotDue => BeginSnapshotSound(s);
      case Taken(id) =>
      case Failed(id) =>
      case TransferEnded(id) =>
        if id in s.running {
          TransferEndSound(s, id);
        }
      case _ =>
    }
  }

  /** The fields of the worker that this is about, updated in place. */
  class Inventory {
    var conn: Option<ConnId>
    var nextConn: ConnId
    var slots: Slots
    var inventoryRevision: nat
    var snapshotHealthy: bool
    var transferring: bool
    var screenOpen: bool
    var snapshottingConn: Option<ConnId>
    var captures: map<CaptureId, Capture>
    var acknowledged: set<Capture>
    var running: set<TransferId>
    var nextId: nat

    function View(): State
      reads this
    {
      State(conn, nextConn, slots, inventoryRevision, snapshotHealthy, transferring, screenOpen, snapshottingConn,
            captures, acknowledged, running, nextId)
    }

    ghost predicate Valid()
      reads this
    {
      Sound(View())
    }

    constructor ()
      ensures View() == Start() && Valid()
    {
      conn, nextConn, slots, inventoryRevision, snapshotHealthy := None, 0, [], 0, false;
      transferring, screenOpen, snapshottingConn, captures := false, false, None, map[];
      acknowledged, running, nextId := {}, {}, 0;
    }

    method InvalidateSnapshotState()
      modifies this
      ensures View() == Invalidated(old(View()))
    {
      inventoryRevision := inventoryRevision + 1;
      snapshotHealthy := false;
    }

    method UpdateSlots(now: Slots)
      requires Valid()
      modifies this
      ensures View() == SlotsChange(old(View()), now) && Valid() && !snapshotHealthy
    {
      ghost var before := View();
      slots := now;
      InvalidateSnapshotState();
      hide Trusted, CapturesCurrent, OneEach, OneTransfer;
      StepSound(before, SlotsChanged(now));
    }

    method SetScreen(open: bool)
      requires Valid()
      modifies this
      ensures View() == ScreenChanges(old(View()), open) && Valid() && !snapshotHealthy
    {
      ghost var before := View();
      screenOpen := open;
      InvalidateSnapshotState();
      hide Trusted, CapturesCurrent, OneEach, OneTransfer;
      StepSound(before, ScreenChanged(open));
    }

    method Snapshot() returns (id: Option<CaptureId>)
      requires Valid()
      modifies this
      ensures View() == BeginSnapshot(old(View())) && Valid()
      ensures id.Some? <==> View().nextId > old(View()).nextId
      ensures id.Some? ==> running == {} && id.value in captures && captures[id.value].slots == slots
    {
      hide Trusted, CapturesCurrent, OneEach, OneTransfer;
      TransfersKnown(View());
      BeginSnapshotSound(View());
      if conn.None? || snapshottingConn == conn || transferring {
        return None;
      }
      if screenOpen {
        snapshotHealthy := false;
        return None;
      }
      id := Some(nextId);
      snapshottingConn := conn;
      captures := captures[nextId := Capture(conn.value, inventoryRevision, slots)];
      nextId := nextId + 1;
    }

    method Drop(id: CaptureId)
      requires id in captures
      modifies this
      ensures View() == Dropped(old(View()), id)
    {
      if snapshottingConn == Some(captures[id].conn) {
        snapshottingConn := None;
      }
      captures := captures - {id};
    }

    method Weigh(capture: Capture)
      modifies this
      ensures View() == Weighed(old(View()), capture)
    {
      acknowledged := acknowledged + {capture};
      if conn == Some(capture.conn) {
        snapshotHealthy := capture.revision == inventoryRevision && !transferring && !screenOpen;
      }
    }

    /** After the gateway's answer: what it trusts from then on is what the slots hold now. */
    method Acknowledge(id: CaptureId)
      requires Valid() && id in captures
      modifies this
      ensures View() == SnapshotTaken(old(View()), id) && Valid()
      ensures snapshotHealthy ==>
                conn.Some? && Capture(conn.value, inventoryRevision, slots) in acknowledged && running == {}
    {
      hide Trusted, CapturesCurrent, OneEach, OneTransfer, Weighed, Dropped;
      StepSound(View(), Taken(id));
      ghost var before := View();
      Weigh(captures[id]);
      WeighingDropsNothing(before, before.captures[id]);
      assert captures == View().captures;
      Drop(id);
      TrustedNow(View());
    }

    method Fail(id: CaptureId)
      requires Valid() && id in captures
      modifies this
      ensures View() == SnapshotFailed(old(View()), id) && Valid()
    {
      ghost var before := View();
      if conn == Some(captures[id].conn) {
        snapshotHealthy := false;
      }
      Drop(id);
      hide Trusted, CapturesCurrent, OneEach, OneTransfer;
      StepSound(before, Failed(id));
    }

    /** One starts only with none running, and on slots the gateway has taken as they are. */
    method StartTransfer() returns (started: bool)
      requires Valid()
      modifies this
      ensures View() == BeginTransfer(old(View())) && started == (View() != old(View())) && Valid()
      ensures started ==> old(running) == {} && old(conn).Some? && slots == old(slots)
      ensures started ==> Capture(old(conn).value, old(inventoryRevision), old(slots)) in acknowledged
    {
      hide Trusted, CapturesCurrent, OneEach, OneTransfer;
      TrustedNow(View());
      StepSound(View(), TransferAsked);
      if transferring || !snapshotHealthy {
        return false;
      }
      transferring := true;
      snapshotHealthy := false;
      running := running + {nextId};
      nextId := nextId + 1;
      return true;
    }

    method FinishTransferReconciliation(id: TransferId)
      requires Valid() && id in running
      modifies this
      ensures View() == FinishTransfer(old(View()), id) && Valid() && running == {} && !snapshotHealthy
    {
      hide Trusted, CapturesCurrent, OneEach, OneTransfer;
      TransferEndSound(View(), id);
      transferring := false;
      running := running - {id};
      InvalidateSnapshotState();
      var _ := Snapshot();
    }

    method LeaveServer()
      requires Valid()
      modifies this
      ensures View() == EndConnection(old(View())) && Valid() && !snapshotHealthy
    {
      ghost var before := View();
      conn := None;
      InvalidateSnapshotState();
      hide Trusted, CapturesCurrent, OneEach, OneTransfer;
      StepSound(before, ConnectionEnded);
    }

    method JoinServer(now: Slots)
      requires Valid()
      modifies this
      ensures View() == OpenConnection(old(View()), now) && Valid()
    {
      hide Trusted, CapturesCurrent, OneEach, OneTransfer;
      StepSound(View(), ConnectionOpened(now));
      if conn.None? {
        conn, nextConn, slots, screenOpen := Some(nextConn), nextConn + 1, now, false;
        InvalidateSnapshotState();
      }
    }
  }

  function After(events: seq<Event>): State {
    if events == [] then Start() else Apply(After(events[..|events| - 1]), events[|events| - 1])
  }

  /** Whatever happens in whatever order. */
  lemma {:induction false} AlwaysSound(events: seq<Event>)
    ensures Sound(After(events))
  {
    if events != [] {
      AlwaysSound(events[..|events| - 1]);
      StepSound(After(events[..|events| - 1]), events[|events| - 1]);
    }
  }

  /** A snapshot is healthy exactly after an acknowledgement nothing happened since. */
  lemma HealthyOnlyByAcknowledgement(events: seq<Event>, e: Event)
    requires !After(events).snapshotHealthy && Apply(After(events), e).snapshotHealthy
    ensures e.Taken? && e.id in After(events).captures
    ensures var s := After(events);
            s.captures[e.id] == Capture(s.captures[e.id].conn, s.inventoryRevision, s.slots)
            && s.conn == Some(s.captures[e.id].conn) && !s.transferring
  {
    AlwaysSound(events);
  }

  /** While a transfer runs no second one starts, and no snapshot is trusted. */
  lemma TransfersNeverOverlap(events: seq<Event>)
    ensures var s := After(events);
            && |s.running| <= 1
            && (s.running != {} ==> !s.snapshotHealthy && Apply(s, TransferAsked) == s && BeginSnapshot(s) == s)
  {
    AlwaysSound(events);
    var running := After(events).running;
    if running != {} {
      var id :| id in running;
      assert running == {id};
    }
  }
}
