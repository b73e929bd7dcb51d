/**
 * The in-process event bus. Trading events block their publisher when the queue is full;
 * low-priority events never do: what finds no room, or arrives while the low-priority
 * lanes are paused, is retained beside the queue, one event per identity.
 */
module EventBus {
  import opened Wrappers

  datatype Event = Event(
    mergeKey: Option<string>,
    dedupeKey: Option<string>,
    idempotencyKey: Option<string>,
    eventId: Option<string>,
    traceId: Option<string>,
    objectName: string)

  predicate IsText(t: Option<string>) { t.Some? && t.value != "" }

  /** The identity retained events are coalesced by. */
  function Identity(e: Event): string {
    if IsText(e.mergeKey) then e.mergeKey.value
    else if IsText(e.dedupeKey) then e.dedupeKey.value
    else if IsText(e.idempotencyKey) then e.idempotencyKey.value
    else if IsText(e.eventId) then e.eventId.value
    else if IsText(e.traceId) then e.traceId.value
    else e.objectName
  }

  /** A place in a lane: when it was taken, and the event that holds it now. */
  datatype Slot = Slot(born: nat, event: Event)

  datatype Lane = Lane(queue: seq<Slot>, retained: seq<Slot>)

  datatype Capacities = Capacities(queue: nat, retained: nat)

  predicate Positive(c: Capacities) { c.queue > 0 && c.retained > 0 }

  // ------------------------------------------------------------------- one lane's moves

  /** Index of the first retained event of this identity, or the length. */
  function IndexOf(retained: seq<Slot>, key: string): (i: nat)
    ensures i <= |retained|
    ensures i < |retained| ==> Identity(retained[i].event) == key
    ensures forall j :: 0 <= j < i ==> Identity(retained[j].event) != key
  {
    if retained == [] then 0
    else if Identity(retained[0].event) == key then 0
    else 1 + IndexOf(retained[1..], key)
  }

  /** Retaining replaces the event of the same identity in its place; otherwise the oldest gives way when full. */
  function Retain(retained: seq<Slot>, s: Slot, capacity: nat): seq<Slot> {
    var i := IndexOf(retained, Identity(s.event));
    if i < |retained| then retained[i := Slot(retained[i].born, s.event)]
    else (if 0 < |retained| && |retained| >= capacity then retained[1..] else retained) + [s]
  }

  function Least(a: int, b: int): int { if a <= b then a else b }

  /** How many retained events fit into the queue. */
  function Fitting(lane: Lane, capacity: nat): (n: nat)
    ensures n <= |lane.retained|
  {
    if |lane.queue| >= capacity then 0 else Least(|lane.retained|, capacity - |lane.queue|)
  }

  function Flushed(lane: Lane, paused: bool, capacity: nat): Lane {
    if paused then lane
    else
      var n := Fitting(lane, capacity);
      Lane(lane.queue + lane.retained[..n], lane.retained[n..])
  }

  function Published(lane: Lane, paused: bool, s: Slot, c: Capacities): Lane {
    if paused || |lane.queue| >= c.queue then lane.(retained := Retain(lane.retained, s, c.retained))
    else lane.(queue := lane.queue + [s])
  }

  /** Taking the head of the queue, then letting retained events move up. */
  function Taken(lane: Lane, paused: bool, capacity: nat): Lane
    requires lane.queue != []
  {
    Flushed(lane.(queue := lane.queue[1..]), paused, capacity)
  }

  // ------------------------------------------------------------------------- the bus

  datatype QueueLane = TradingLane | MaintenanceLane | PersistenceLane

  function LaneOf(priority: nat): QueueLane {
    if priority <= 1 then TradingLane else if priority == 2 then MaintenanceLane else PersistenceLane
  }

  class Bus {
    const tradingCapacity: nat
    const maintenanceCapacities: Capacities
    const persistenceCapacities: Capacities
    var trading: seq<Slot>
    var maintenance: Lane
    var persistence: Lane
    var lowPriorityPaused: bool
    var hasSink: bool
    /** Events mirrored to the outbox, with their priority. */
    var outbox: seq<(nat, Event)>
    /** Number of events published so far. */
    var clock: nat

    ghost function MaintenanceView(): View
      reads this
    {
      View(maintenance, lowPriorityPaused, clock)
    }

    ghost function PersistenceView(): View
      reads this
    {
      View(persistence, lowPriorityPaused, clock)
    }

    constructor (trading: nat, maintenance: nat, persistence: nat, retained: nat, hasSink: bool)
      requires trading > 0 && maintenance > 0 && persistence > 0 && retained > 0
      ensures tradingCapacity == trading
      ensures maintenanceCapacities == Capacities(maintenance, retained)
      ensures persistenceCapacities == Capacities(persistence, retained)
      ensures this.trading == [] && outbox == [] && this.hasSink == hasSink
      ensures MaintenanceView() == IDLE && PersistenceView() == IDLE
    {
      tradingCapacity := trading;
      maintenanceCapacities := Capacities(maintenance, retained);
      persistenceCapacities := Capacities(persistence, retained);
      this.trading := [];
      this.maintenance, this.persistence := Lane([], []), Lane([], []);
      lowPriorityPaused, this.hasSink, outbox, clock := false, hasSink, [], 0;
    }

    function Mirrored(priority: nat, event: Event): seq<(nat, Event)>
      reads this
    {
      if hasSink then outbox + [(priority, event)] else outbox
    }

    method RetainIn(retained: seq<Slot>, s: Slot, capacity: nat) returns (r: seq<Slot>)
      ensures r == Retain(retained, s, capacity)
    {
      for k := 0 to |retained|
        invariant forall j :: 0 <= j < k ==> Identity(retained[j].event) != Identity(s.event)
      {
        if Identity(retained[k].event) == Identity(s.event) {
          return retained[k := Slot(retained[k].born, s.event)];
        }
      }
      r := retained;
      if 0 < |r| && |r| >= capacity {
        r := r[1..];
      }
      r := r + [s];
    }

    method PublishLow(lane: Lane, s: Slot, c: Capacities) returns (r: Lane)
      ensures r == Published(lane, lowPriorityPaused, s, c)
    {
      if lowPriorityPaused {
        var kept := RetainIn(lane.retained, s, c.retained);
        return lane.(retained := kept);
      }
      if |lane.queue| < c.queue {
        return lane.(queue := lane.queue + [s]);
      }
      var kept := RetainIn(lane.retained, s, c.retained);
      return lane.(retained := kept);
    }

    /**
     * Publishing to the trading lane, at priority 0 and 1, waits for room; the two low-priority
     * lanes never wait. Priority 2 goes to maintenance, the rest to persistence, or to the
     * outbox alone when there is one.
     */
    method Publish(priority: nat, event: Event)
      requires priority <= 1 ==> |trading| < tradingCapacity
      modifies this
      ensures hasSink == old(hasSink)
      ensures outbox == old(outbox) + if old(hasSink) then [(priority, event)] else []
      ensures trading == old(trading) + if priority <= 1 then [Slot(old(clock), event)] else []
      ensures MaintenanceView() == Move(old(MaintenanceView()),
        if priority == 2 then PublishHere(event) else PublishElsewhere, maintenanceCapacities)
      ensures PersistenceView() == Move(old(PersistenceView()),
        if priority >= 3 && !old(hasSink) then PublishHere(event) else PublishElsewhere, persistenceCapacities)
    {
      var s := Slot(clock, event);
      clock := clock + 1;
      if LaneOf(priority) == PersistenceLane && hasSink {
        outbox := Mirrored(priority, event);
        return;
      }
      if LaneOf(priority) == TradingLane {
        trading := trading + [s];
        outbox := Mirrored(priority, event);
        return;
      }
      if LaneOf(priority) == MaintenanceLane {
        maintenance := PublishLow(maintenance, s, maintenanceCapacities);
      } else {
        persistence := PublishLow(persistence, s, persistenceCapacities);
      }
      outbox := Mirrored(priority, event);
    }

    method FlushLane(lane: Lane, capacity: nat) returns (r: Lane)
      ensures r == Flushed(lane, false, capacity)
    {
      r := lane;
      while r.retained != [] && |r.queue| < capacity
        invariant Flushed(r, false, capacity) == Flushed(lane, false, capacity)
        decreases |r.retained|
      {
        ghost var before := r;
        r := Lane(r.queue + [r.retained[0]], r.retained[1..]);
        OneMoves(before, capacity);
      }
    }

    method FlushRetainedBestEffort()
      modifies this`maintenance, this`persistence
      ensures maintenance == Flushed(old(maintenance), lowPriorityPaused, maintenanceCapacities.queue)
      ensures persistence == Flushed(old(persistence), lowPriorityPaused, persistenceCapacities.queue)
    {
      if lowPriorityPaused {
        return;
      }
      maintenance := FlushLane(maintenance, maintenanceCapacities.queue);
      persistence := FlushLane(persistence, persistenceCapacities.queue);
    }

    method NextTradingEvent() returns (event: Event)
      requires trading != []
      modifies this
      ensures event == old(trading[0].event) && trading == old(trading[1..])
      ensures hasSink == old(hasSink) && outbox == old(outbox)
      ensures MaintenanceView() == Move(old(MaintenanceView()), TakeElsewhere, maintenanceCapacities)
      ensures PersistenceView() == Move(old(PersistenceView()), TakeElsewhere, persistenceCapacities)
    {
      event := trading[0].event;
      trading := trading[1..];
      FlushRetainedBestEffort();
    }

    method NextMaintenanceEvent() returns (event: Event)
      requires maintenance.queue != []
      modifies this
      ensures event == old(maintenance.queue[0].event) && trading == old(trading)
      ensures hasSink == old(hasSink) && outbox == old(outbox)
      ensures MaintenanceView() == Move(old(MaintenanceView()), TakeHere, maintenanceCapacities)
      ensures PersistenceView() == Move(old(PersistenceView()), TakeElsewhere, persistenceCapacities)
    {
      event := maintenance.queue[0].event;
      maintenance := maintenance.(queue := maintenance.queue[1..]);
      FlushRetainedBestEffort();
    }

    method NextPersistenceEvent() returns (event: Event)
      requires persistence.queue != []
      modifies this
      ensures event == old(persistence.queue[0].event) && trading == old(trading)
      ensures hasSink == old(hasSink) && outbox == old(outbox)
      ensures MaintenanceView() == Move(old(MaintenanceView()), TakeElsewhere, maintenanceCapacities)
      ensures PersistenceView() == Move(old(PersistenceView()), TakeHere, persistenceCapacities)
    {
      event := persistence.queue[0].event;
      persistence := persistence.(queue := persistence.queue[1..]);
      FlushRetainedBestEffort();
    }

    method PauseLowPriority()
      modifies this`lowPriorityPaused
      ensures MaintenanceView() == Move(old(MaintenanceView()), Pause, maintenanceCapacities)
      ensures PersistenceView() == Move(old(PersistenceView()), Pause, persistenceCapacities)
    {
      lowPriorityPaused := true;
    }

    method ResumeLowPriority()
      modifies this`lowPriorityPaused, this`maintenance, this`persistence
      ensures MaintenanceView() == Move(old(MaintenanceView()), Resume, maintenanceCapacities)
      ensures PersistenceView() == Move(old(PersistenceView()), Resume, persistenceCapacities)
    {
      lowPriorityPaused := false;
      FlushRetainedBestEffort();
    }

    /** The consumer of all lanes at once: it flushes first and takes afterwards. */
    method NextEvent() returns (event: Option<Event>)
      modifies this
      ensures hasSink == old(hasSink) && outbox == old(outbox)
      ensures
        var m := Flushed(old(maintenance), old(lowPriorityPaused), maintenanceCapacities.queue);
        var p := Flushed(old(persistence), old(lowPriorityPaused), persistenceCapacities.queue);
        if old(trading) != [] then
          event == Some(old(trading[0].event)) && trading == old(trading[1..]) && maintenance == m && persistence == p
        else if m.queue != [] then
          event == Some(m.queue[0].event) && trading == [] && maintenance == m.(queue := m.queue[1..]) && persistence == p
        else if p.queue != [] then
          event == Some(p.queue[0].event) && trading == [] && maintenance == m && persistence == p.(queue := p.queue[1..])
        else event.None? && trading == [] && maintenance == m && persistence == p
    {
      FlushRetainedBestEffort();
      if trading != [] {
        event := Some(trading[0].event);
        trading := trading[1..];
      } else if maintenance.queue != [] {
        event := Some(maintenance.queue[0].event);
        maintenance := maintenance.(queue := maintenance.queue[1..]);
      } else if persistence.queue != [] {
        event := Some(persistence.queue[0].event);
        persistence := persistence.(queue := persistence.queue[1..]);
      } else {
        event := None;
      }
    }
  }

  lemma OneMoves(lane: Lane, capacity: nat)
    requires lane.retained != [] && |lane.queue| < capacity
    ensures Flushed(Lane(lane.queue + [lane.retained[0]], lane.retained[1..]), false, capacity)
         == Flushed(lane, false, capacity)
  {
    var next := Lane(lane.queue + [lane.retained[0]], lane.retained[1..]);
    var n := Fitting(lane, capacity);
    assert Fitting(next, capacity) == n - 1;
    assert [lane.retained[0]] + next.retained[..n - 1] == lane.retained[..n];
  }

  // -------------------------------------------------------- one lane, seen by itself

  datatype View = View(lane: Lane, paused: bool, clock: nat)

  const IDLE := View(Lane([], []), false, 0)

  datatype LaneOp =
    | PublishHere(event: Event) | PublishElsewhere | TakeHere | TakeElsewhere | Pause | Resume

  function Move(v: View, op: LaneOp, c: Capacities): View {
    match op
    case PublishHere(e) => View(Published(v.lane, v.paused, Slot(v.clock, e), c), v.paused, v.clock + 1)
    case PublishElsewhere => v.(clock := v.clock + 1)
    case TakeHere => if v.lane.queue == [] then v else v.(lane := Taken(v.lane, v.paused, c.queue))
    case TakeElsewhere => v.(lane := Flushed(v.lane, v.paused, c.queue))
    case Pause => v.(paused := true)
    case Resume => View(Flushed(v.lane, false, c.queue), false, v.clock)
  }
}
