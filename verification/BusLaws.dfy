/**
 * A low-priority lane against one list: whatever is published, taken, paused and resumed,
 * queue and retained events together are a single first-in first-out list whose unfixed
 * tail coalesces by identity, and every published event is accounted for.
 */
module BusLaws {
  import opened Wrappers
  import opened EventBus

  // ----------------------------------------------------------------- the reference list

  /** One list of pending slots; the first `fixed` of them can no longer be replaced or dropped. */
  datatype Pending = Pending(list: seq<Slot>, fixed: nat, paused: bool, clock: nat)
  {
    predicate Valid() { fixed <= |list| }
  }

  /** Unless paused, as much of the list is fixed as the queue has room for. */
  function Settle(p: Pending, c: Capacities): (r: Pending)
    requires p.Valid()
    ensures r.Valid()
  {
    if p.paused then p else p.(fixed := Least(|p.list|, c.queue))
  }

  function RefMove(p: Pending, op: LaneOp, c: Capacities): (r: Pending)
    requires p.Valid()
    ensures r.Valid()
  {
    match op
    case PublishHere(e) =>
      var s := Slot(p.clock, e);
      var next := p.(clock := p.clock + 1);
      if !p.paused && |p.list| < c.queue then next.(list := p.list + [s], fixed := |p.list| + 1)
      else next.(list := p.list[..p.fixed] + Retain(p.list[p.fixed..], s, c.retained))
    case PublishElsewhere => p.(clock := p.clock + 1)
    case TakeHere => if p.fixed == 0 then p else Settle(p.(list := p.list[1..], fixed := p.fixed - 1), c)
    case TakeElsewhere => Settle(p, c)
    case Pause => p.(paused := true)
    case Resume => Settle(p.(paused := false), c)
  }

  function Abstract(v: View): Pending {
    Pending(v.lane.queue + v.lane.retained, |v.lane.queue|, v.paused, v.clock)
  }

  predicate DistinctIdentities(s: seq<Slot>) {
    forall i, j :: 0 <= i < j < |s| ==> Identity(s[i].event) != Identity(s[j].event)
  }

  /** Paused, or nothing retained, or no room to move up; identities distinct, sizes bounded. */
  predicate LaneInvariant(v: View, c: Capacities) {
    && |v.lane.queue| <= c.queue && |v.lane.retained| <= c.retained
    && (v.paused || v.lane.retained == [] || |v.lane.queue| == c.queue)
    && DistinctIdentities(v.lane.retained)
  }

  lemma RetainFacts(retained: seq<Slot>, s: Slot, capacity: nat)
    requires DistinctIdentities(retained) && |retained| <= capacity && capacity > 0
    ensures DistinctIdentities(Retain(retained, s, capacity)) && |Retain(retained, s, capacity)| <= capacity
  {
    var i := IndexOf(retained, Identity(s.event));
    if i < |retained| {
      assert forall j :: 0 <= j < |retained| && j != i ==> Identity(retained[j].event) != Identity(s.event);
    }
  }

  lemma FlushSettles(lane: Lane, paused: bool, clock: nat, c: Capacities)
    requires |lane.queue| <= c.queue && |lane.retained| <= c.retained && DistinctIdentities(lane.retained)
    ensures LaneInvariant(View(Flushed(lane, paused, c.queue), paused, clock), c)
    ensures Abstract(View(Flushed(lane, paused, c.queue), paused, clock)) == Settle(Abstract(View(lane, paused, clock)), c)
  {
    if !paused {
      var n := Fitting(lane, c.queue);
      assert lane.queue + lane.retained[..n] + lane.retained[n..] == lane.queue + lane.retained;
    }
  }

  lemma PublishRefines(v: View, e: Event, c: Capacities)
    requires Positive(c) && LaneInvariant(v, c)
    ensures LaneInvariant(Move(v, PublishHere(e), c), c)
    ensures Abstract(Move(v, PublishHere(e), c)) == RefMove(Abstract(v), PublishHere(e), c)
  {
    var queue, retained := v.lane.queue, v.lane.retained;
    var s := Slot(v.clock, e);
    if !v.paused && |queue| < c.queue {
      assert retained == [];
      assert queue + [s] + [] == queue + [] + [s];
    } else {
      RetainFacts(retained, s, c.retained);
      assert (queue + retained)[..|queue|] == queue && (queue + retained)[|queue|..] == retained;
      assert !(!v.paused && |queue + retained| < c.queue);
    }
  }

  lemma TakeRefines(v: View, c: Capacities)
    requires LaneInvariant(v, c)
    ensures LaneInvariant(Move(v, TakeHere, c), c)
    ensures Abstract(Move(v, TakeHere, c)) == RefMove(Abstract(v), TakeHere, c)
  {
    var queue, retained := v.lane.queue, v.lane.retained;
    if queue != [] {
      assert (queue + retained)[1..] == queue[1..] + retained;
      FlushSettles(Lane(queue[1..], retained), v.paused, v.clock, c);
    }
  }

  /** Every move of the lane is the same move of the list. */
  lemma LaneRefinesList(v: View, op: LaneOp, c: Capacities)
    requires Positive(c) && LaneInvariant(v, c)
    ensures LaneInvariant(Move(v, op, c), c)
    ensures Abstract(Move(v, op, c)) == RefMove(Abstract(v), op, c)
  {
    match op
    case PublishHere(e) => PublishRefines(v, e, c);
    case PublishElsewhere =>
    case TakeHere => TakeRefines(v, c);
    case TakeElsewhere => FlushSettles(v.lane, v.paused, v.clock, c);
    case Pause =>
    case Resume => FlushSettles(v.lane, false, v.clock, c);
  }

  function Moved(v: View, ops: seq<LaneOp>, c: Capacities): View {
    if ops == [] then v else Move(Moved(v, ops[..|ops| - 1], c), ops[|ops| - 1], c)
  }

  function RefMoved(p: Pending, ops: seq<LaneOp>, c: Capacities): (r: Pending)
    requires p.Valid()
    ensures r.Valid()
  {
    if ops == [] then p else RefMove(RefMoved(p, ops[..|ops| - 1], c), ops[|ops| - 1], c)
  }

  /** Over every run from an idle bus, queue and retained events together are the reference list. */
  lemma {:induction false} RunsRefineList(ops: seq<LaneOp>, c: Capacities)
    requires Positive(c)
    ensures LaneInvariant(Moved(IDLE, ops, c), c)
    ensures Abstract(Moved(IDLE, ops, c)) == RefMoved(Abstract(IDLE), ops, c)
  {
    if ops != [] {
      RunsRefineList(ops[..|ops| - 1], c);
      LaneRefinesList(Moved(IDLE, ops[..|ops| - 1], c), ops[|ops| - 1], c);
    }
  }

  // ---------------------------------------------------------- what becomes of every event

  /** A lane with its past: what was published to it, handed out, replaced and dropped. */
  datatype Track = Track(view: View, published: seq<Slot>, delivered: seq<Slot>, superseded: seq<Slot>, evicted: seq<Slot>)

  const START := Track(IDLE, [], [], [], [])

  predicate Retains(v: View, c: Capacities) { v.paused || |v.lane.queue| >= c.queue }

  function Replaced(retained: seq<Slot>, e: Event): seq<Slot> {
    var i := IndexOf(retained, Identity(e));
    if i < |retained| then [retained[i]] else []
  }

  function Evicted(retained: seq<Slot>, e: Event, capacity: nat): seq<Slot> {
    if IndexOf(retained, Identity(e)) == |retained| && 0 < |retained| && |retained| >= capacity then [retained[0]] else []
  }

  function TrackMove(t: Track, op: LaneOp, c: Capacities): Track {
    var v := t.view;
    var next := t.(view := Move(v, op, c));
    match op
    case PublishHere(e) =>
      var published := next.(published := t.published + [Slot(v.clock, e)]);
      if !Retains(v, c) then published
      else published.(superseded := t.superseded + Replaced(v.lane.retained, e),
                      evicted := t.evicted + Evicted(v.lane.retained, e, c.retained))
    case TakeHere => if v.lane.queue == [] then next else next.(delivered := t.delivered + [v.lane.queue[0]])
    case _ => next
  }

  function TrackRun(ops: seq<LaneOp>, c: Capacities): Track {
    if ops == [] then START else TrackMove(TrackRun(ops[..|ops| - 1], c), ops[|ops| - 1], c)
  }

  lemma {:induction false} TrackIsMoved(ops: seq<LaneOp>, c: Capacities)
    ensures TrackRun(ops, c).view == Moved(IDLE, ops, c)
  {
    if ops != [] {
      TrackIsMoved(ops[..|ops| - 1], c);
    }
  }

  /** How often an event occurs in some slots. */
  function Count(s: seq<Slot>, e: Event): nat {
    if s == [] then 0 else (if s[0].event == e then 1 else 0) + Count(s[1..], e)
  }

  lemma {:induction false} CountAppend(a: seq<Slot>, b: seq<Slot>, e: Event)
    ensures Count(a + b, e) == Count(a, e) + Count(b, e)
  {
    if a == [] {
      assert a + b == b;
    } else {
      CountAppend(a[1..], b, e);
      assert (a + b)[1..] == a[1..] + b;
    }
  }

  lemma CountOne(s: Slot, e: Event)
    ensures Count([s], e) == if s.event == e then 1 else 0
  {
    assert [s][1..] == [];
  }

  lemma {:induction false} CountReplace(s: seq<Slot>, i: nat, x: Slot, e: Event)
    requires i < |s|
    ensures Count(s[i := x], e) + Count([s[i]], e) == Count(s, e) + Count([x], e)
  {
    CountOne(s[i], e);
    CountOne(x, e);
    if i == 0 {
      assert s[i := x][1..] == s[1..];
    } else {
      assert s[i := x][1..] == s[1..][i - 1 := x];
      CountReplace(s[1..], i - 1, x, e);
    }
  }

  predicate Balanced(t: Track, e: Event) {
    Count(t.published, e)
      == Count(t.delivered, e) + Count(t.view.lane.queue, e) + Count(t.view.lane.retained, e)
         + Count(t.superseded, e) + Count(t.evicted, e)
  }

  lemma RetainBalances(retained: seq<Slot>, s: Slot, capacity: nat, e: Event)
    ensures Count(Retain(retained, s, capacity), e) + Count(Replaced(retained, s.event), e)
            + Count(Evicted(retained, s.event, capacity), e)
         == Count(retained, e) + Count([s], e)
  {
    var i := IndexOf(retained, Identity(s.event));
    CountOne(s, e);
    if i < |retained| {
      CountReplace(retained, i, Slot(retained[i].born, s.event), e);
      CountOne(Slot(retained[i].born, s.event), e);
    } else if 0 < |retained| && |retained| >= capacity {
      CountAppend(retained[1..], [s], e);
      CountOne(retained[0], e);
    } else {
      CountAppend(retained, [s], e);
    }
  }

  lemma FlushBalances(lane: Lane, paused: bool, capacity: nat, e: Event)
    ensures Count(Flushed(lane, paused, capacity).queue, e) + Count(Flushed(lane, paused, capacity).retained, e)
         == Count(lane.queue, e) + Count(lane.retained, e)
  {
    if !paused {
      var n := Fitting(lane, capacity);
      CountAppend(lane.queue, lane.retained[..n], e);
      CountAppend(lane.retained[..n], lane.retained[n..], e);
      assert lane.retained[..n] + lane.retained[n..] == lane.retained;
    }
  }

  lemma PublishBalances(t: Track, latest: Event, c: Capacities, e: Event)
    requires Balanced(t, e)
    ensures Balanced(TrackMove(t, PublishHere(latest), c), e)
  {
    var lane := t.view.lane;
    var s := Slot(t.view.clock, latest);
    CountAppend(t.published, [s], e);
    if Retains(t.view, c) {
      RetainBalances(lane.retained, s, c.retained, e);
      CountAppend(t.superseded, Replaced(lane.retained, latest), e);
      CountAppend(t.evicted, Evicted(lane.retained, latest, c.retained), e);
    } else {
      CountAppend(lane.queue, [s], e);
    }
  }

  lemma TakeBalances(t: Track, c: Capacities, e: Event)
    requires Balanced(t, e)
    ensures Balanced(TrackMove(t, TakeHere, c), e)
  {
    var lane := t.view.lane;
    if lane.queue != [] {
      CountAppend(t.delivered, [lane.queue[0]], e);
      CountOne(lane.queue[0], e);
      FlushBalances(lane.(queue := lane.queue[1..]), t.view.paused, c.queue, e);
    }
  }

  lemma MoveBalances(t: Track, op: LaneOp, c: Capacities, e: Event)
    requires Balanced(t, e)
    ensures Balanced(TrackMove(t, op, c), e)
  {
    match op
    case PublishHere(latest) => PublishBalances(t, latest, c, e);
    case PublishElsewhere =>
    case TakeHere => TakeBalances(t, c, e);
    case TakeElsewhere => FlushBalances(t.view.lane, t.view.paused, c.queue, e);
    case Pause =>
    case Resume => FlushBalances(t.view.lane, false, c.queue, e);
  }

  /**
   * Every published event is accounted for, as often as it was published: handed out,
   * queued, retained, replaced by a later one of its identity, or dropped as the oldest.
   */
  lemma {:induction false} EveryEventIsAccountedFor(ops: seq<LaneOp>, c: Capacities, e: Event)
    ensures Balanced(TrackRun(ops, c), e)
  {
    if ops != [] {
      EveryEventIsAccountedFor(ops[..|ops| - 1], c, e);
      MoveBalances(TrackRun(ops[..|ops| - 1], c), ops[|ops| - 1], c, e);
    }
  }

  // ------------------------------------------------------------------------ the order

  predicate Ascending(s: seq<Slot>) {
    forall i, j :: 0 <= i < j < |s| ==> s[i].born < s[j].born
  }

  predicate BornBefore(s: seq<Slot>, clock: nat) {
    forall i :: 0 <= i < |s| ==> s[i].born < clock
  }

  /** Handed out, queued, retained: in this order, in the order their places were taken. */
  function Trail(t: Track): seq<Slot> {
    t.delivered + t.view.lane.queue + t.view.lane.retained
  }

  predicate InOrder(t: Track) {
    Ascending(Trail(t)) && BornBefore(Trail(t), t.view.clock)
  }

  lemma NextIsLatest(all: seq<Slot>, s: Slot)
    requires Ascending(all) && BornBefore(all, s.born)
    ensures Ascending(all + [s]) && BornBefore(all + [s], s.born + 1)
  {}

  lemma GapKeepsOrder(front: seq<Slot>, rest: seq<Slot>, clock: nat)
    requires rest != [] && Ascending(front + rest) && BornBefore(front + rest, clock)
    ensures Ascending(front + rest[1..]) && BornBefore(front + rest[1..], clock)
  {
    var all, after := front + rest, front + rest[1..];
    forall i, j | 0 <= i < j < |after| ensures after[i].born < after[j].born {
      assert after[i] == all[if i < |front| then i else i + 1] && after[j] == all[if j < |front| then j else j + 1];
    }
    forall i | 0 <= i < |after| ensures after[i].born < clock {
      assert after[i] == all[if i < |front| then i else i + 1];
    }
  }

  lemma ReplacedInPlace(all: seq<Slot>, after: seq<Slot>, clock: nat)
    requires Ascending(all) && BornBefore(all, clock) && |after| == |all|
    requires forall k :: 0 <= k < |all| ==> after[k].born == all[k].born
    ensures Ascending(after) && BornBefore(after, clock + 1)
  {}

  lemma RetainKeepsOrder(front: seq<Slot>, retained: seq<Slot>, s: Slot, capacity: nat)
    requires Ascending(front + retained) && BornBefore(front + retained, s.born)
    ensures Ascending(front + Retain(retained, s, capacity)) && BornBefore(front + Retain(retained, s, capacity), s.born + 1)
  {
    var i := IndexOf(retained, Identity(s.event));
    if i < |retained| {
      ReplacedInPlace(front + retained, front + retained[i := Slot(retained[i].born, s.event)], s.born);
    } else if 0 < |retained| && |retained| >= capacity {
      GapKeepsOrder(front, retained, s.born);
      NextIsLatest(front + retained[1..], s);
      assert front + (retained[1..] + [s]) == front + retained[1..] + [s];
    } else {
      NextIsLatest(front + retained, s);
      assert front + (retained + [s]) == front + retained + [s];
    }
  }

  lemma FlushKeepsTrail(front: seq<Slot>, lane: Lane, paused: bool, capacity: nat)
    ensures front + Flushed(lane, paused, capacity).queue + Flushed(lane, paused, capacity).retained
         == front + lane.queue + lane.retained
  {}

  lemma PublishKeepsOrder(t: Track, e: Event, c: Capacities)
    requires InOrder(t) && LaneInvariant(t.view, c)
    ensures InOrder(TrackMove(t, PublishHere(e), c))
  {
    var s := Slot(t.view.clock, e);
    var next := TrackMove(t, PublishHere(e), c);
    if Retains(t.view, c) {
      RetainKeepsOrder(t.delivered + t.view.lane.queue, t.view.lane.retained, s, c.retained);
    } else {
      assert Trail(next) == Trail(t) + [s];
    }
  }

  /** Only publishing changes the trail: taking and flushing move slots along it. */
  lemma OthersKeepTrail(t: Track, op: LaneOp, c: Capacities)
    requires !op.PublishHere?
    ensures Trail(TrackMove(t, op, c)) == Trail(t)
  {
    var lane := t.view.lane;
    match op
    case PublishElsewhere =>
    case TakeHere =>
      if lane.queue != [] {
        FlushKeepsTrail(t.delivered + [lane.queue[0]], lane.(queue := lane.queue[1..]), t.view.paused, c.queue);
        assert t.delivered + [lane.queue[0]] + lane.queue[1..] == t.delivered + lane.queue;
      }
    case TakeElsewhere => FlushKeepsTrail(t.delivered, lane, t.view.paused, c.queue);
    case Pause =>
    case Resume => FlushKeepsTrail(t.delivered, lane, false, c.queue);
  }

  lemma MoveKeepsOrder(t: Track, op: LaneOp, c: Capacities)
    requires InOrder(t) && LaneInvariant(t.view, c)
    ensures InOrder(TrackMove(t, op, c))
  {
    if op.PublishHere? {
      PublishKeepsOrder(t, op.event, c);
    } else {
      OthersKeepTrail(t, op, c);
    }
  }

  /** Events are handed out in the order their places were taken, ahead of everything still waiting. */
  lemma {:induction false} DeliveryIsFirstInFirstOut(ops: seq<LaneOp>, c: Capacities)
    requires Positive(c)
    ensures InOrder(TrackRun(ops, c))
  {
    if ops != [] {
      var front := ops[..|ops| - 1];
      DeliveryIsFirstInFirstOut(front, c);
      TrackIsMoved(front, c);
      RunsRefineList(front, c);
      MoveKeepsOrder(TrackRun(front, c), ops[|ops| - 1], c);
    }
  }

  /** A slot whose place was taken by an event of the same identity. */
  predicate Native(published: seq<Slot>, s: Slot) {
    exists k :: 0 <= k < |published| && published[k].born == s.born && Identity(published[k].event) == Identity(s.event)
  }

  predicate AllNative(published: seq<Slot>, slots: seq<Slot>) {
    forall i :: 0 <= i < |slots| ==> Native(published, slots[i])
  }

  lemma NativeGrows(published: seq<Slot>, latest: Slot, slots: seq<Slot>)
    requires AllNative(published, slots)
    ensures AllNative(published + [latest], slots) && Native(published + [latest], latest)
  {
    var all := published + [latest];
    assert all[|published|] == latest;
    forall i | 0 <= i < |slots| ensures Native(all, slots[i]) {
      assert Native(published, slots[i]);
      var k :| 0 <= k < |published| && published[k].born == slots[i].born
               && Identity(published[k].event) == Identity(slots[i].event);
      assert all[k] == published[k];
    }
  }

  lemma RetainKeepsNative(published: seq<Slot>, retained: seq<Slot>, s: Slot, capacity: nat)
    requires AllNative(published, retained) && Native(published, s)
    ensures AllNative(published, Retain(retained, s, capacity))
  {
    var after := Retain(retained, s, capacity);
    var i := IndexOf(retained, Identity(s.event));
    forall k | 0 <= k < |after| ensures Native(published, after[k]) {
      if i < |retained| {
        assert Native(published, retained[k]);
      } else if after[k] != s {
        assert exists j :: 0 <= j < |retained| && retained[j] == after[k];
      }
    }
  }

  predicate KeepsIdentities(t: Track) {
    && AllNative(t.published, t.delivered) && AllNative(t.published, t.view.lane.queue)
    && AllNative(t.published, t.view.lane.retained)
  }

  lemma FlushKeepsNative(published: seq<Slot>, lane: Lane, paused: bool, capacity: nat)
    requires AllNative(published, lane.queue) && AllNative(published, lane.retained)
    ensures AllNative(published, Flushed(lane, paused, capacity).queue)
    ensures AllNative(published, Flushed(lane, paused, capacity).retained)
  {}

  lemma MoveKeepsIdentities(t: Track, op: LaneOp, c: Capacities)
    requires KeepsIdentities(t)
    ensures KeepsIdentities(TrackMove(t, op, c))
  {
    var lane := t.view.lane;
    match op
    case PublishHere(latest) =>
      var s := Slot(t.view.clock, latest);
      NativeGrows(t.published, s, t.delivered);
      NativeGrows(t.published, s, lane.queue);
      NativeGrows(t.published, s, lane.retained);
      RetainKeepsNative(t.published + [s], lane.retained, s, c.retained);
    case PublishElsewhere =>
    case TakeHere =>
      if lane.queue != [] {
        FlushKeepsNative(t.published, lane.(queue := lane.queue[1..]), t.view.paused, c.queue);
      }
    case TakeElsewhere => FlushKeepsNative(t.published, lane, t.view.paused, c.queue);
    case Pause =>
    case Resume => FlushKeepsNative(t.published, lane, false, c.queue);
  }

  /** Replacing never crosses identities: a place is handed out with the identity it was taken with. */
  lemma {:induction false} PlacesKeepIdentities(ops: seq<LaneOp>, c: Capacities)
    ensures KeepsIdentities(TrackRun(ops, c))
  {
    if ops != [] {
      PlacesKeepIdentities(ops[..|ops| - 1], c);
      MoveKeepsIdentities(TrackRun(ops[..|ops| - 1], c), ops[|ops| - 1], c);
    }
  }

  lemma MoveKeepsPublished(t: Track, op: LaneOp, c: Capacities)
    requires LaneInvariant(t.view, c) && Trail(t) == t.published
    requires TrackMove(t, op, c).superseded == t.superseded && TrackMove(t, op, c).evicted == t.evicted
    ensures Trail(TrackMove(t, op, c)) == TrackMove(t, op, c).published
  {
    if op.PublishHere? {
      var s := Slot(t.view.clock, op.event);
      if Retains(t.view, c) {
        assert Replaced(t.view.lane.retained, op.event) == [];
        assert Evicted(t.view.lane.retained, op.event, c.retained) == [];
        assert Retain(t.view.lane.retained, s, c.retained) == t.view.lane.retained + [s];
      }
      assert Trail(TrackMove(t, op, c)) == Trail(t) + [s];
    } else {
      OthersKeepTrail(t, op, c);
    }
  }

  /** While nothing was replaced or dropped, what was handed out and what waits is what was published, in order. */
  lemma {:induction false} NothingLostNothingReordered(ops: seq<LaneOp>, c: Capacities)
    requires Positive(c)
    requires TrackRun(ops, c).superseded == [] && TrackRun(ops, c).evicted == []
    ensures Trail(TrackRun(ops, c)) == TrackRun(ops, c).published
  {
    if ops != [] {
      var front := ops[..|ops| - 1];
      var t := TrackRun(front, c);
      assert |t.superseded| <= |TrackRun(ops, c).superseded| && |t.evicted| <= |TrackRun(ops, c).evicted|;
      NothingLostNothingReordered(front, c);
      TrackIsMoved(front, c);
      RunsRefineList(front, c);
      MoveKeepsPublished(t, ops[|ops| - 1], c);
    }
  }

  // ----------------------------------------------------------------------- identities

  /** Retained events are told apart by the first text among merge key, dedupe key, idempotency key, event id and trace id. */
  lemma IdentityIsFirstText(e: Event)
    ensures e.mergeKey.GetOr("") != "" ==> Identity(e) == e.mergeKey.value
    ensures e.mergeKey.GetOr("") == "" && e.dedupeKey.GetOr("") != "" ==> Identity(e) == e.dedupeKey.value
    ensures e.mergeKey.GetOr("") == "" && e.dedupeKey.GetOr("") == "" && e.idempotencyKey.GetOr("") != "" ==>
      Identity(e) == e.idempotencyKey.value
    ensures e.mergeKey.GetOr("") == "" && e.dedupeKey.GetOr("") == "" && e.idempotencyKey.GetOr("") == "" ==>
      && (e.eventId.GetOr("") != "" ==> Identity(e) == e.eventId.value)
      && (e.eventId.GetOr("") == "" && e.traceId.GetOr("") != "" ==> Identity(e) == e.traceId.value)
      && (e.eventId.GetOr("") == "" && e.traceId.GetOr("") == "" ==> Identity(e) == e.objectName)
  {}

  /** Of two events published while the lane is paused, the second replaces the first exactly when they share an identity. */
  lemma CoalescesExactlyWhen(v: View, first: Event, second: Event, c: Capacities)
    requires v.paused && v.lane.retained == [] && c.retained > 1
    ensures
      var t := Move(Move(v, PublishHere(first), c), PublishHere(second), c);
      && (|t.lane.retained| == 1 <==> Identity(first) == Identity(second))
      && t.lane.retained[|t.lane.retained| - 1].event == second
  {
    assert [] + [Slot(v.clock, first)] == [Slot(v.clock, first)];
  }

  // ------------------------------------------------------------------ the bus as a whole

  /** A call of the bus, as a low-priority lane may see it. */
  datatype BusCall =
    | Publishing(priority: nat, event: Event)
    | TakingTrading | TakingMaintenance | TakingPersistence | PausingLow | ResumingLow

  /** What a call is to the maintenance lane. */
  function ForMaintenance(call: BusCall): LaneOp {
    match call
    case Publishing(priority, e) => if priority == 2 then PublishHere(e) else PublishElsewhere
    case TakingMaintenance => TakeHere
    case TakingTrading => TakeElsewhere
    case TakingPersistence => TakeElsewhere
    case PausingLow => Pause
    case ResumingLow => Resume
  }

  /** And to the persistence lane, which an outbox takes the place of. */
  function ForPersistence(call: BusCall, hasSink: bool): LaneOp {
    match call
    case Publishing(priority, e) => if priority >= 3 && !hasSink then PublishHere(e) else PublishElsewhere
    case TakingMaintenance => TakeElsewhere
    case TakingTrading => TakeElsewhere
    case TakingPersistence => TakeHere
    case PausingLow => Pause
    case ResumingLow => Resume
  }

  /** The bus carries out a call, when it can: takers wait for an event, trading publishers for room. */
  method Perform(bus: Bus, call: BusCall) returns (taken: Option<Event>)
    requires call.Publishing? && call.priority <= 1 ==> |bus.trading| < bus.tradingCapacity
    requires call.TakingTrading? ==> bus.trading != []
    requires call.TakingMaintenance? ==> bus.maintenance.queue != []
    requires call.TakingPersistence? ==> bus.persistence.queue != []
    modifies bus
    ensures bus.MaintenanceView() == Move(old(bus.MaintenanceView()), ForMaintenance(call), bus.maintenanceCapacities)
    ensures bus.PersistenceView()
         == Move(old(bus.PersistenceView()), ForPersistence(call, old(bus.hasSink)), bus.persistenceCapacities)
    ensures call.TakingMaintenance? ==> taken == Some(old(bus.maintenance.queue[0].event))
    ensures call.TakingPersistence? ==> taken == Some(old(bus.persistence.queue[0].event))
    ensures call.TakingTrading? ==> taken == Some(old(bus.trading[0].event))
  {
    taken := None;
    match call {
      case Publishing(priority, e) => bus.Publish(priority, e);
      case TakingTrading =>
        var e := bus.NextTradingEvent();
        taken := Some(e);
      case TakingMaintenance =>
        var e := bus.NextMaintenanceEvent();
        taken := Some(e);
      case TakingPersistence =>
        var e := bus.NextPersistenceEvent();
        taken := Some(e);
      case PausingLow => bus.PauseLowPriority();
      case ResumingLow => bus.ResumeLowPriority();
    }
  }

  function MaintenanceOps(calls: seq<BusCall>): (ops: seq<LaneOp>)
    ensures |ops| == |calls| && forall i :: 0 <= i < |calls| ==> ops[i] == ForMaintenance(calls[i])
  {
    seq(|calls|, i requires 0 <= i < |calls| => ForMaintenance(calls[i]))
  }

  /** How often a run publishes an event at priority 2. */
  function PublishedAtTwo(calls: seq<BusCall>, e: Event): nat {
    if calls == [] then 0
    else
      PublishedAtTwo(calls[..|calls| - 1], e)
      + (if calls[|calls| - 1] == Publishing(2, e) then 1 else 0)
  }

  lemma {:induction false} MaintenanceGetsPriorityTwo(calls: seq<BusCall>, c: Capacities, e: Event)
    ensures Count(TrackRun(MaintenanceOps(calls), c).published, e) == PublishedAtTwo(calls, e)
  {
    if calls != [] {
      var front, last := calls[..|calls| - 1], calls[|calls| - 1];
      MaintenanceGetsPriorityTwo(front, c, e);
      assert MaintenanceOps(calls)[..|front|] == MaintenanceOps(front);
      var t := TrackRun(MaintenanceOps(front), c);
      if last.Publishing? && last.priority == 2 {
        var s := Slot(t.view.clock, last.event);
        CountAppend(t.published, [s], e);
        CountOne(s, e);
      }
    }
  }

  /**
   * Over every run of the bus from its start: every event published at priority 2 was handed
   * out to the maintenance consumer, waits for it, or was replaced or dropped in its lane.
   */
  lemma PriorityTwoIsAccountedFor(calls: seq<BusCall>, c: Capacities, e: Event)
    ensures
      var t := TrackRun(MaintenanceOps(calls), c);
      PublishedAtTwo(calls, e)
        == Count(t.delivered, e) + Count(t.view.lane.queue, e) + Count(t.view.lane.retained, e)
           + Count(t.superseded, e) + Count(t.evicted, e)
  {
    MaintenanceGetsPriorityTwo(calls, c, e);
    EveryEventIsAccountedFor(MaintenanceOps(calls), c, e);
  }

  /** On a bus whose maintenance lane is idle and not paused, an event published at priority 2 is the next one handed out. */
  method PublishedIsNext(bus: Bus, event: Event) returns (next: Event)
    requires bus.maintenance == Lane([], []) && !bus.lowPriorityPaused && bus.maintenanceCapacities.queue > 0
    modifies bus
    ensures next == event && bus.maintenance == Lane([], [])
  {
    bus.Publish(2, event);
    next := bus.NextMaintenanceEvent();
  }

  // ------------------------------------------------------- the consumer of all lanes at once

  /** Taking from this lane through the consumer that flushes first. */
  function TakenByNextEvent(v: View, c: Capacities): View
    requires Flushed(v.lane, v.paused, c.queue).queue != []
  {
    var m := Flushed(v.lane, v.paused, c.queue);
    v.(lane := m.(queue := m.queue[1..]))
  }

  /** That consumer leaves the lane in order exactly when it leaves nothing retained, or the lanes are paused. */
  lemma NextEventKeepsInvariantExactlyWhen(v: View, c: Capacities)
    requires Positive(c) && LaneInvariant(v, c) && v.lane.queue != []
    ensures LaneInvariant(TakenByNextEvent(v, c), c) <==> v.paused || v.lane.retained == []
  {
    FlushSettles(v.lane, v.paused, v.clock, c);
  }

  /** Otherwise the next event published overtakes every retained one. */
  lemma NextEventLetsLaterEventsOvertake(v: View, c: Capacities, e: Event)
    requires Positive(c) && LaneInvariant(v, c) && v.lane.queue != [] && !v.paused && v.lane.retained != []
    ensures
      var after := Move(TakenByNextEvent(v, c), PublishHere(e), c).lane;
      && after.queue != [] && after.queue[|after.queue| - 1] == Slot(v.clock, e)
      && after.retained == v.lane.retained
  {}
}
