/**
 In-order, exactly-once admission of numbered uploads
 (internal/backend/forwarder/append_seq.go).

 A caller runs `acquire`: it takes the lock, and is either told that its number is
 stale, or becomes the holder, or remembers the current `ready` channel and waits
 for that channel to be closed or for its own context to be cancelled. `Release`
 closes the channel, which wakes every waiter, and installs a new one. Channels
 are numbered; `closed` is the set of channels closed so far.
 */
module AppendSeq {

  const RETENTION: int := 600

  datatype Slot = Slot(next: int, processing: bool, ready: nat, closed: set<nat>, updatedAt: int)

  datatype Outcome = Stale | Granted | Wait(channel: nat)

  function NewSlot(now: int): Slot {
    Slot(1, false, 0, {}, now)
  }

  /** One pass of the acquire loop under the lock. */
  function Enter(s: Slot, number: int, now: int): (Slot, Outcome) {
    var t := s.(next := if s.next <= 0 then 1 else s.next, updatedAt := now);
    if number < t.next then (t, Stale)
    else if number == t.next && !t.processing then (t.(processing := true), Granted)
    else (t, Wait(t.ready))
  }

  function Release(s: Slot, number: int, now: int): Slot {
    if number <= 0 then s
    else if s.processing && s.next == number then
      Slot(s.next + 1, false, s.ready + 1, s.closed + {s.ready}, now)
    else s.(updatedAt := now)
  }

  predicate Expired(s: Slot, cutoff: int) {
    !s.processing && s.updatedAt != 0 && s.updatedAt < cutoff
  }

  // ---- The slot as the object the callers share ----

  class SequenceState {
    var next: int
    var processing: bool
    var ready: nat
    var closed: set<nat>
    var updatedAt: int

    function View(): Slot
      reads this
    {
      Slot(next, processing, ready, closed, updatedAt)
    }

    constructor (now: int)
      ensures View() == NewSlot(now)
    {
      next, processing, ready, closed, updatedAt := 1, false, 0, {}, now;
    }

    method TryAcquire(number: int, now: int) returns (o: Outcome)
      modifies this
      ensures (View(), o) == Enter(old(View()), number, now)
    {
      if next <= 0 {
        next := 1;
      }
      updatedAt := now;
      if number < next {
        return Stale;
      }
      if number == next && !processing {
        processing := true;
        return Granted;
      }
      o := Wait(ready);
    }

    method ReleaseTicket(number: int, now: int)
      modifies this
      ensures View() == Release(old(View()), number, now)
    {
      if number <= 0 {
        return;
      }
      if processing && next == number {
        processing := false;
        next := next + 1;
        closed := closed + {ready};
        ready := ready + 1;
      }
      updatedAt := now;
    }
  }

  // ---- The tracker: one slot per request, pruned on every lookup ----

  /** One lookup: expired slots go, and the slot of the request is found and touched, or made. */
  function LookUp(states: map<string, Slot>, requestID: string, now: int): map<string, Slot> {
    var left := map key | key in states && !Expired(states[key], now - RETENTION) :: states[key];
    left[requestID := if requestID in left then left[requestID].(updatedAt := now) else NewSlot(now)]
  }

  class Tracker {
    var states: map<string, Slot>

    constructor ()
      ensures states == map[]
    {
      states := map[];
    }

    /**
     Looks up the slot of a request. A slot that is held, was never used or was used
     within the retention stays as it is; an idle one beyond it is gone, or made anew.
     */
    method State(requestID: string, now: int) returns (slot: Slot)
      modifies this
      ensures states == LookUp(old(states), requestID, now)
      ensures requestID in states && slot == states[requestID] && slot.updatedAt == now
      ensures requestID !in old(states) ==> slot == Slot(1, false, 0, {}, now)
      ensures forall key | key in old(states) &&
                (old(states)[key].processing || old(states)[key].updatedAt == 0 || old(states)[key].updatedAt >= now - RETENTION) ::
                && key in states && states[key].(updatedAt := 0) == old(states)[key].(updatedAt := 0)
                && (key != requestID ==> states[key] == old(states)[key])
      ensures forall key | key in old(states) &&
                !old(states)[key].processing && old(states)[key].updatedAt != 0 && old(states)[key].updatedAt < now - RETENTION ::
                if key == requestID then states[key] == Slot(1, false, 0, {}, now) else key !in states
      ensures forall key | key in states && key != requestID :: key in old(states)
    {
      var cutoff := now - RETENTION;
      var left := states.Keys;
      while left != {}
        invariant left <= states.Keys <= old(states).Keys
        invariant forall key | key in states :: states[key] == old(states)[key]
        invariant forall key | key in left :: key in old(states)
        invariant forall key | key in old(states) && key !in left ::
                    key in states <==> !Expired(old(states)[key], cutoff)
        decreases |left|
      {
        var key :| key in left;
        if Expired(states[key], cutoff) {
          states := states - {key};
        }
        left := left - {key};
      }
      if requestID in states {
        slot := states[requestID].(updatedAt := now);
      } else {
        slot := NewSlot(now);
      }
      states := states[requestID := slot];
    }
  }

  /** What happens to the tracker: a lookup, and one lock region of a slot that was looked up. */
  datatype TrackerOp = Lookup(key: string, at: int) | Acquire(key: string, number: int, at: int) | Done(key: string, number: int, at: int)

  function TrackerStep(states: map<string, Slot>, op: TrackerOp): map<string, Slot> {
    match op
    case Lookup(key, at) => LookUp(states, key, at)
    case Acquire(key, number, at) => if key in states then states[key := Enter(states[key], number, at).0] else states
    case Done(key, number, at) => if key in states then states[key := Release(states[key], number, at)] else states
  }

  function TrackerRun(states: map<string, Slot>, ops: seq<TrackerOp>): map<string, Slot> {
    if ops == [] then states else TrackerStep(TrackerRun(states, ops[..|ops| - 1]), ops[|ops| - 1])
  }

  /** The operation is no lookup so late that the slot of `r`, idle since its last use, is out of its retention. */
  predicate Timely(states: map<string, Slot>, r: string, op: TrackerOp) {
    r in states && op.Lookup? ==>
      states[r].processing || states[r].updatedAt == 0 || op.at - states[r].updatedAt <= RETENTION
  }

  /** One operation on a slot that is used in time never takes its number back, and using a slot is what keeps it. */
  lemma TimelyStep(states: map<string, Slot>, r: string, op: TrackerOp)
    requires r in states && Timely(states, r, op)
    ensures var after := TrackerStep(states, op);
            && r in after && after[r].next >= states[r].next
            && (op.key == r && !(op.Done? && op.number <= 0) ==> after[r].updatedAt == op.at)
            && (op.key != r ==> after[r] == states[r])
  {
  }

  /** Whatever other requests do, the numbers of a request whose slot is used in time never start over. */
  lemma {:induction false} NumbersNeverStartOver(states: map<string, Slot>, ops: seq<TrackerOp>, r: string)
    requires r in states
    requires forall i :: 0 <= i < |ops| ==> Timely(TrackerRun(states, ops[..i]), r, ops[i])
    ensures r in TrackerRun(states, ops) && TrackerRun(states, ops)[r].next >= states[r].next
  {
    if ops != [] {
      var init := ops[..|ops| - 1];
      forall i | 0 <= i < |init| ensures Timely(TrackerRun(states, init[..i]), r, init[i]) {
        assert init[..i] == ops[..i] && init[i] == ops[i];
      }
      NumbersNeverStartOver(states, init, r);
      TimelyStep(TrackerRun(states, init), r, ops[|ops| - 1]);
    }
  }

  /** An idle slot beyond its retention does start over: the next lookup makes it anew. */
  lemma LateLookupStartsOver(states: map<string, Slot>, r: string, at: int)
    requires r in states && !Timely(states, r, Lookup(r, at))
    ensures TrackerStep(states, Lookup(r, at))[r] == Slot(1, false, 0, {}, at)
  {
  }

  // ---- Every interleaving of the callers of one slot ----

  datatype Caller =
    | Entering(number: int)
    | Blocked(number: int, channel: nat)
    | Holding(number: int)
    | TurnedAway(number: int)
    | GaveUp(number: int)
    | Finished(number: int)

  /** `grants` lists the numbers admitted so far, in order of admission. */
  datatype System = System(slot: Slot, callers: map<nat, Caller>, grants: seq<int>)

  datatype Op =
    | Arrive(id: nat, number: int)
    | TakeLock(id: nat, now: int)
    | Wake(id: nat)
    | CancelContext(id: nat)
    | ReleaseByCaller(id: nat, now: int)

  function Initial(now: int): System {
    System(NewSlot(now), map[], [])
  }

  /** Operations that are not possible in a state leave it unchanged. */
  function Step(y: System, op: Op): System {
    match op
    case Arrive(id, number) =>
      if id in y.callers || number <= 0 then y else y.(callers := y.callers[id := Entering(number)])
    case TakeLock(id, now) =>
      if id !in y.callers || !y.callers[id].Entering? then y
      else
        var number := y.callers[id].number;
        var (slot, outcome) := Enter(y.slot, number, now);
        (match outcome
         case Stale => y.(slot := slot, callers := y.callers[id := TurnedAway(number)])
         case Granted =>
           System(slot, y.callers[id := Holding(number)], y.grants + [number])
         case Wait(channel) => y.(slot := slot, callers := y.callers[id := Blocked(number, channel)]))
    case Wake(id) =>
      if id in y.callers && y.callers[id].Blocked? && y.callers[id].channel in y.slot.closed
      then y.(callers := y.callers[id := Entering(y.callers[id].number)])
      else y
    case CancelContext(id) =>
      if id in y.callers && y.callers[id].Blocked?
      then y.(callers := y.callers[id := GaveUp(y.callers[id].number)])
      else y
    case ReleaseByCaller(id, now) =>
      // A ticket may be released again by mistake; only its first release counts.
      if id in y.callers && (y.callers[id].Holding? || y.callers[id].Finished?)
      then y.(slot := Release(y.slot, y.callers[id].number, now),
              callers := y.callers[id := Finished(y.callers[id].number)])
      else y
  }

  function Run(start: int, ops: seq<Op>): System {
    if ops == [] then Initial(start) else Step(Run(start, ops[..|ops| - 1]), ops[|ops| - 1])
  }

  predicate CallerOk(c: Caller, s: Slot) {
    && c.number > 0
    && match c
       case Entering(_) => true
       case GaveUp(_) => true
       case Blocked(number, channel) =>
         channel in s.closed
         || (channel == s.ready && number >= s.next && (number == s.next ==> s.processing))
       case Holding(number) => s.processing && number == s.next
       case TurnedAway(number) => number < s.next
       case Finished(number) => number < s.next
  }

  ghost predicate Inv(y: System) {
    && y.slot.next >= 1
    && y.slot.ready !in y.slot.closed
    && (forall c | c in y.slot.closed :: c < y.slot.ready)
    && |y.grants| == y.slot.next - 1 + (if y.slot.processing then 1 else 0)
    && (forall i :: 0 <= i < |y.grants| ==> y.grants[i] == i + 1)
    && (forall id | id in y.callers :: CallerOk(y.callers[id], y.slot))
    && (forall i, j | i in y.callers && j in y.callers ::
          y.callers[i].Holding? && y.callers[j].Holding? ==> i == j)
    && (y.slot.processing ==> exists id :: id in y.callers && y.callers[id].Holding?)
  }

  lemma StepKeepsInv(y: System, op: Op)
    requires Inv(y)
    ensures Inv(Step(y, op))
  {
    var z := Step(y, op);
    if op.TakeLock? && op.id in y.callers && y.callers[op.id].Entering? {
      assert op.id in z.callers;
      if y.slot.processing {
        var holder :| holder in y.callers && y.callers[holder].Holding?;
        assert z.callers[holder].Holding?;
      }
    } else if z.slot.processing {
      var holder :| holder in y.callers && y.callers[holder].Holding?;
      assert holder in z.callers && z.callers[holder].Holding?;
    }
  }

  lemma {:induction false} RunKeepsInv(start: int, ops: seq<Op>)
    ensures Inv(Run(start, ops))
  {
    if ops != [] {
      RunKeepsInv(start, ops[..|ops| - 1]);
      StepKeepsInv(Run(start, ops[..|ops| - 1]), ops[|ops| - 1]);
    }
  }

  /** Numbers are admitted in the order 1, 2, 3, ... and each exactly once. */
  lemma GrantsInOrder(start: int, ops: seq<Op>)
    ensures var y := Run(start, ops);
            forall i :: 0 <= i < |y.grants| ==> y.grants[i] == i + 1
  {
    RunKeepsInv(start, ops);
  }

  /** At most one caller holds the slot, it holds the last number admitted, and a busy slot has a holder. */
  lemma OneHolder(start: int, ops: seq<Op>)
    ensures var y := Run(start, ops);
            && (forall i, j | i in y.callers && j in y.callers && y.callers[i].Holding? && y.callers[j].Holding? :: i == j)
            && (forall i | i in y.callers && y.callers[i].Holding? ::
                  y.slot.processing && y.grants != [] && y.callers[i].number == y.grants[|y.grants| - 1])
            && (y.slot.processing ==> exists i :: i in y.callers && y.callers[i].Holding?)
  {
    RunKeepsInv(start, ops);
  }

  /** Nobody sleeps on an open channel once its number can be admitted or is stale. */
  lemma NoLostWakeup(start: int, ops: seq<Op>, id: nat)
    requires var y := Run(start, ops);
             && id in y.callers && y.callers[id].Blocked?
             && (y.callers[id].number < y.slot.next
                 || (y.callers[id].number == y.slot.next && !y.slot.processing))
    ensures Run(start, ops).callers[id].channel in Run(start, ops).slot.closed
  {
    RunKeepsInv(start, ops);
  }

  /** So a waiter whose turn has come is admitted by waking up and taking the lock. */
  lemma WaiterIsAdmitted(start: int, ops: seq<Op>, id: nat, now: int)
    requires var y := Run(start, ops);
             && id in y.callers && y.callers[id].Blocked?
             && y.callers[id].number == y.slot.next && !y.slot.processing
    ensures var z := Run(start, ops + [Wake(id), TakeLock(id, now)]);
            id in z.callers && z.callers[id] == Holding(Run(start, ops).callers[id].number)
  {
    NoLostWakeup(start, ops, id);
    RunKeepsInv(start, ops);
    var wake := ops + [Wake(id)];
    var all := ops + [Wake(id), TakeLock(id, now)];
    assert wake[..|wake| - 1] == ops;
    assert all[..|all| - 1] == wake;
  }

  /** No channel is ever closed twice: the one a release closes is still open. */
  lemma ReadyIsOpen(start: int, ops: seq<Op>)
    ensures Run(start, ops).slot.ready !in Run(start, ops).slot.closed
  {
    RunKeepsInv(start, ops);
  }
}
