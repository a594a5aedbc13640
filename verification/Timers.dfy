/**
 The keyed, tokenised timers of a stream
 (internal/backend/forwarder/actor.go, scheduleStreamTimer to handleTimerEvent).

 Every registration makes a Done channel, identified here by the order in which
 it was made. Its goroutine waits for the channel or the clock; when both are
 ready either may win, so a replaced timer can still post its event. The event
 carries the key and the token, never the registration itself.
 */
module Timers {
  import opened Base

  datatype Registration = Registration(id: nat, token: nat)

  /** `closed` is the set of Done channels closed so far; closing one of them again panics. */
  datatype Table = Table(timers: map<string, Registration>, nextToken: nat, made: nat, closed: set<nat>, panicked: bool)

  function Close(t: Table, id: nat): Table {
    if id in t.closed then t.(panicked := true) else t.(closed := t.closed + {id})
  }

  predicate Valid(t: Table) {
    && (forall key | key in t.timers :: t.timers[key].id < t.made && t.timers[key].id !in t.closed)
    && (forall k1, k2 | k1 in t.timers && k2 in t.timers && t.timers[k1].id == t.timers[k2].id :: k1 == k2)
    && (forall id | id in t.closed :: id < t.made)
    && !t.panicked
  }

  function Schedule(t: Table, key: string): Table {
    var u := t.(timers := t.timers[key := Registration(t.made, t.nextToken + 1)],
                nextToken := t.nextToken + 1, made := t.made + 1);
    if key in t.timers then Close(u, t.timers[key].id) else u
  }

  function Clear(t: Table, key: string): Table {
    if key in t.timers then Close(t.(timers := t.timers - {key}), t.timers[key].id) else t
  }

  /** The table with its channels closed one by one, in any order. */
  function ClearAll(t: Table): Table {
    t.(timers := map[], closed := t.closed + set key | key in t.timers :: t.timers[key].id)
  }

  /** A new run of the same stream clears the timers and restarts the token counter. */
  function ResetForRun(t: Table): Table {
    ClearAll(t).(nextToken := 0)
  }

  predicate Matches(t: Table, key: string, token: nat) {
    key in t.timers && t.timers[key].token == token
  }

  lemma OperationsKeepValid(t: Table, key: string)
    requires Valid(t)
    ensures Valid(Schedule(t, key)) && Valid(Clear(t, key)) && Valid(ClearAll(t)) && Valid(ResetForRun(t))
  {
    ScheduleKeepsValid(t, key);
    ClearKeepsValid(t, key);
  }

  lemma ScheduleKeepsValid(t: Table, key: string)
    requires Valid(t)
    ensures Valid(Schedule(t, key))
  {
  }

  lemma ClearKeepsValid(t: Table, key: string)
    requires Valid(t)
    ensures Valid(Clear(t, key))
  {
  }

  /** Closing one registration and then all others closes them all. */
  lemma ClearAllByOne(t: Table, key: string)
    requires Valid(t) && key in t.timers
    ensures ClearAll(Clear(t, key)) == ClearAll(t)
  {
    var u := Clear(t, key);
    forall id ensures id in ClearAll(u).closed <==> id in ClearAll(t).closed {
      if id in ClearAll(t).closed && id !in t.closed {
        var k :| k in t.timers && t.timers[k].id == id;
        assert k == key || (k in u.timers && u.timers[k].id == id);
      }
    }
  }

  class TimerTable {
    var timers: map<string, Registration>
    var nextToken: nat
    var made: nat
    var closed: set<nat>
    var panicked: bool

    function View(): Table
      reads this
    {
      Table(timers, nextToken, made, closed, panicked)
    }

    constructor ()
      ensures View() == Table(map[], 0, 0, {}, false) && Valid(View())
    {
      timers, nextToken, made, closed, panicked := map[], 0, 0, {}, false;
    }

    method CloseDone(id: nat)
      modifies this`closed, this`panicked
      ensures View() == Close(old(View()), id)
    {
      if id in closed {
        panicked := true;
      } else {
        closed := closed + {id};
      }
    }

    /** Keys are trimmed; a blank one schedules nothing. */
    method ScheduleTimer(key: string) returns (token: nat)
      modifies this
      ensures Trim(key) == "" ==> View() == old(View()) && token == 0
      ensures Trim(key) != "" ==> View() == Schedule(old(View()), Trim(key))
      ensures Trim(key) != "" ==> token == nextToken == old(nextToken) + 1 && Matches(View(), Trim(key), token)
      ensures old(Valid(View())) ==> Valid(View())
    {
      var normalizedKey := Trim(key);
      TableStaysValid(View(), normalizedKey);
      if normalizedKey == "" {
        return 0;
      }
      var done := made;
      made := made + 1;
      nextToken := nextToken + 1;
      token := nextToken;
      var previous := if normalizedKey in timers then Some(timers[normalizedKey]) else None;
      timers := timers[normalizedKey := Registration(done, token)];
      if previous.Some? {
        CloseDone(previous.value.id);
      }
    }

    method ClearTimer(key: string)
      modifies this
      ensures View() == if Trim(key) == "" then old(View()) else Clear(old(View()), Trim(key))
      ensures Trim(key) != "" ==> Trim(key) !in timers
      ensures old(Valid(View())) ==> Valid(View())
    {
      var normalizedKey := Trim(key);
      TableStaysValid(View(), normalizedKey);
      if normalizedKey == "" {
        return;
      }
      Unregister(normalizedKey);
    }

    method Unregister(key: string)
      modifies this
      ensures View() == Clear(old(View()), key)
    {
      if key in timers {
        var registration := timers[key];
        timers := timers - {key};
        CloseDone(registration.id);
      }
    }

    method ClearAllTimers()
      requires Valid(View())
      modifies this
      ensures View() == ClearAll(old(View())) && Valid(View())
    {
      while timers != map[]
        invariant Valid(View())
        invariant ClearAll(View()) == ClearAll(old(View()))
        decreases |timers|
      {
        var key :| key in timers;
        ClearAllByOne(View(), key);
        OperationsKeepValid(View(), key);
        Unregister(key);
      }
    }

    /** The match and removal at the head of handleTimerEvent; `acts` tells whether the event goes on. */
    method AcceptEvent(key: string, token: nat) returns (acts: bool)
      modifies this
      ensures acts <==> Trim(key) != "" && Matches(old(View()), Trim(key), token)
      ensures View() == if acts then Clear(old(View()), Trim(key)) else old(View())
      ensures old(Valid(View())) ==> Valid(View()) && (acts ==> !Matches(View(), Trim(key), token))
    {
      TableStaysValid(View(), Trim(key));
      acts := Trim(key) != "" && Trim(key) in timers && timers[Trim(key)].token == token;
      if acts {
        ClearTimer(key);
      }
    }
  }

  lemma TableStaysValid(t: Table, key: string)
    ensures Valid(t) ==> Valid(Schedule(t, key)) && Valid(Clear(t, key))
  {
    if Valid(t) {
      OperationsKeepValid(t, key);
    }
  }

  // ---- Every interleaving of the actor, the clock and the timer goroutines ----

  datatype Phase = Armed | Posted | Over

  datatype Record = Record(key: string, token: nat, phase: Phase)

  /** An event of registration `actor` acted while `current` was registered under its key. */
  datatype Act = Act(actor: nat, current: nat)

  /** `records[id]` is the goroutine of the id-th registration. */
  datatype System = System(table: Table, records: seq<Record>, acts: seq<Act>)

  datatype Op =
    | DoSchedule(key: string)
    | DoClear(key: string)
    | DoClearAll
    | Elapse(id: nat)
    | ObserveDone(id: nat)
    | Handle(id: nat)
    | NewRun

  function Initial(): System {
    System(Table(map[], 0, 0, {}, false), [], [])
  }

  /** A registration and the goroutine that waits for it. */
  function Enroll(y: System, key: string): System {
    y.(table := Schedule(y.table, key), records := y.records + [Record(key, y.table.nextToken + 1, Armed)])
  }

  /** Keys are trimmed on the way in and blank ones ignored, so a record's key needs no further trimming. */
  function Step(y: System, op: Op): System {
    match op
    case DoSchedule(key) => if Trim(key) == "" then y else Enroll(y, Trim(key))
    case DoClear(key) => if Trim(key) == "" then y else y.(table := Clear(y.table, Trim(key)))
    case DoClearAll => y.(table := ClearAll(y.table))
    case Elapse(id) =>
      if id < |y.records| && y.records[id].phase.Armed?
      then y.(records := y.records[id := y.records[id].(phase := Posted)]) else y
    case ObserveDone(id) =>
      if id < |y.records| && y.records[id].phase.Armed? && id in y.table.closed
      then y.(records := y.records[id := y.records[id].(phase := Over)]) else y
    case Handle(id) =>
      if id < |y.records| && y.records[id].phase.Posted? then
        var r := y.records[id];
        var z := y.(records := y.records[id := r.(phase := Over)]);
        if Matches(y.table, r.key, r.token)
        then z.(table := Clear(y.table, r.key), acts := y.acts + [Act(id, y.table.timers[r.key].id)])
        else z
      else y
    case NewRun => y.(table := ResetForRun(y.table))
  }

  function RunFrom(y: System, ops: seq<Op>): System {
    if ops == [] then y else Step(RunFrom(y, ops[..|ops| - 1]), ops[|ops| - 1])
  }

  function Run(ops: seq<Op>): System {
    RunFrom(Initial(), ops)
  }

  predicate Outstanding(y: System, id: int) {
    0 <= id < |y.records| && !y.records[id].phase.Over?
  }

  predicate Current(y: System, id: int) {
    && 0 <= id < |y.records|
    && y.records[id].key in y.table.timers
    && y.table.timers[y.records[id].key].id == id
  }

  predicate Normal(key: string) {
    key != "" && Trim(key) == key
  }

  /** Every current registration belongs to the goroutine that was started with it. */
  predicate Registered(timers: map<string, Registration>, nextToken: nat, records: seq<Record>) {
    && (forall key | key in timers ::
          && timers[key].id < |records|
          && records[timers[key].id].key == key
          && records[timers[key].id].token == timers[key].token
          && timers[key].token <= nextToken)
    && (forall id :: 0 <= id < |records| ==> records[id].token >= 1 && Normal(records[id].key))
  }

  predicate ActedOnce(acts: seq<Act>, records: seq<Record>) {
    && (forall i :: 0 <= i < |acts| ==> acts[i].actor < |records| && records[acts[i].actor].phase.Over?)
    && (forall i, j :: 0 <= i < j < |acts| ==> acts[i].actor != acts[j].actor)
  }

  /** What holds in every run, new runs included. */
  predicate Inv(y: System) {
    && Valid(y.table)
    && y.table.made == |y.records|
    && Registered(y.table.timers, y.table.nextToken, y.records)
    && ActedOnce(y.acts, y.records)
  }

  /** What holds as long as the tokens in use were all handed out since the last restart of the counter. */
  ghost predicate Fresh(y: System) {
    && (forall id | Outstanding(y, id) :: y.records[id].token <= y.table.nextToken)
    && (forall a, b | Outstanding(y, a) && (Outstanding(y, b) || Current(y, b)) && a != b ::
          y.records[a].token != y.records[b].token)
  }

  lemma ScheduleRegisters(timers: map<string, Registration>, nextToken: nat, records: seq<Record>, key: string)
    requires Registered(timers, nextToken, records) && Normal(key)
    ensures Registered(timers[key := Registration(|records|, nextToken + 1)], nextToken + 1,
                       records + [Record(key, nextToken + 1, Armed)])
  {
  }

  lemma ScheduleKeepsInv(y: System, key: string)
    requires Inv(y) && Normal(key)
    ensures Inv(Enroll(y, key))
  {
    OperationsKeepValid(y.table, key);
    ScheduleRegisters(y.table.timers, y.table.nextToken, y.records, key);
    assert Schedule(y.table, key).timers == y.table.timers[key := Registration(|y.records|, y.table.nextToken + 1)];
  }

  /** Ending a goroutine, and letting its event act, keeps the bookkeeping. */
  lemma EndKeeps(y: System, id: nat, current: nat)
    requires Inv(y) && Outstanding(y, id)
    ensures var records := y.records[id := y.records[id].(phase := Over)];
            && Registered(y.table.timers, y.table.nextToken, records)
            && ActedOnce(y.acts, records)
            && ActedOnce(y.acts + [Act(id, current)], records)
  {
  }

  lemma ClearKeepsRegistered(t: Table, records: seq<Record>, key: string)
    requires Registered(t.timers, t.nextToken, records)
    ensures Registered(Clear(t, key).timers, Clear(t, key).nextToken, records)
    ensures Clear(t, key).made == t.made
  {
  }

  lemma HandleKeepsInv(y: System, id: nat)
    requires Inv(y)
    ensures Inv(Step(y, Handle(id)))
  {
    if id < |y.records| && y.records[id].phase.Posted? {
      var r := y.records[id];
      EndKeeps(y, id, if r.key in y.table.timers then y.table.timers[r.key].id else 0);
      OperationsKeepValid(y.table, r.key);
      ClearKeepsRegistered(y.table, y.records[id := r.(phase := Over)], r.key);
    }
  }

  lemma StepKeepsInv(y: System, op: Op)
    requires Inv(y)
    ensures Inv(Step(y, op))
  {
    match op
    case DoSchedule(key) =>
      TrimIdempotent(key);
      if Trim(key) != "" { ScheduleKeepsInv(y, Trim(key)); }
    case DoClear(key) =>
      OperationsKeepValid(y.table, Trim(key));
      ClearKeepsRegistered(y.table, y.records, Trim(key));
    case Handle(id) => HandleKeepsInv(y, id);
    case DoClearAll => OperationsKeepValid(y.table, "");
    case NewRun => OperationsKeepValid(y.table, "");
    case ObserveDone(id) => if Outstanding(y, id) { EndKeeps(y, id, 0); }
    case Elapse(id) =>
  }

  lemma {:induction false} RunKeepsInv(y: System, ops: seq<Op>)
    requires Inv(y)
    ensures Inv(RunFrom(y, ops))
  {
    if ops != [] {
      RunKeepsInv(y, ops[..|ops| - 1]);
      StepKeepsInv(RunFrom(y, ops[..|ops| - 1]), ops[|ops| - 1]);
    }
  }

  /** Between two new runs, tokens stay unique and an event acts only for its own registration. */
  lemma StepKeepsFresh(y: System, op: Op)
    requires Inv(y) && Fresh(y) && !op.NewRun?
    ensures Fresh(Step(y, op))
    ensures var z := Step(y, op);
            |z.acts| > |y.acts| ==> z.acts == y.acts + [Act(op.id, op.id)]
  {
    var z := Step(y, op);
    if op.DoSchedule? {
      TrimIdempotent(op.key);
      ScheduleKeepsFresh(y, Trim(op.key));
    } else {
      assert z.table.nextToken == y.table.nextToken;
      ShrinkKeepsFresh(y, z);
      if op.Handle? && Outstanding(y, op.id) && Matches(y.table, y.records[op.id].key, y.records[op.id].token) {
        assert Current(y, y.table.timers[y.records[op.id].key].id);
      }
    }
  }

  /** Goroutines only end and registrations only go: no token comes into use. */
  lemma ShrinkKeepsFresh(y: System, z: System)
    requires Fresh(y)
    requires z.table.nextToken == y.table.nextToken
    requires |z.records| == |y.records|
    requires forall id :: 0 <= id < |y.records| ==>
               && z.records[id].key == y.records[id].key
               && z.records[id].token == y.records[id].token
               && (y.records[id].phase.Over? ==> z.records[id].phase.Over?)
    requires forall key | key in z.table.timers :: key in y.table.timers && z.table.timers[key] == y.table.timers[key]
    ensures Fresh(z)
  {
    assert forall b | Current(z, b) :: Current(y, b);
    assert forall a | Outstanding(z, a) :: Outstanding(y, a);
  }

  lemma ScheduleKeepsFresh(y: System, key: string)
    requires Inv(y) && Fresh(y)
    ensures Fresh(Enroll(y, key))
  {
    var z := Enroll(y, key);
    forall b | 0 <= b < |y.records|
      ensures z.records[b] == y.records[b] && (Current(z, b) ==> Current(y, b))
    {
    }
  }

  predicate OwnActs(acts: seq<Act>) {
    forall i :: 0 <= i < |acts| ==> acts[i].actor == acts[i].current
  }

  predicate NoNewRun(ops: seq<Op>) {
    forall i :: 0 <= i < |ops| ==> !ops[i].NewRun?
  }

  lemma {:induction false} FreshRunActsForItself(y: System, ops: seq<Op>)
    requires Inv(y) && Fresh(y) && NoNewRun(ops)
    ensures Inv(RunFrom(y, ops)) && Fresh(RunFrom(y, ops))
    ensures OwnActs(y.acts) ==> OwnActs(RunFrom(y, ops).acts)
  {
    if ops != [] {
      var init := ops[..|ops| - 1];
      FreshRunActsForItself(y, init);
      StepKeepsInv(RunFrom(y, init), ops[|ops| - 1]);
      StepKeepsFresh(RunFrom(y, init), ops[|ops| - 1]);
    }
  }

  // ---- The results ----

  /** In every run no Done channel is closed a second time. */
  lemma DoneClosedOnce(ops: seq<Op>)
    ensures !Run(ops).table.panicked
  {
    RunKeepsInv(Initial(), ops);
  }

  /** In every run the event of one registration acts at most once. */
  lemma ActsOnce(ops: seq<Op>)
    ensures var acts := Run(ops).acts;
            forall i, j :: 0 <= i < j < |acts| ==> acts[i].actor != acts[j].actor
  {
    RunKeepsInv(Initial(), ops);
  }

  /** Within one run of the stream, an event acts only while its own registration is current. */
  lemma ActsWhileCurrent(ops: seq<Op>)
    requires NoNewRun(ops)
    ensures OwnActs(Run(ops).acts)
  {
    FreshRunActsForItself(Initial(), ops);
  }

  lemma {:induction false} TokensCount(ops: seq<Op>)
    requires NoNewRun(ops)
    ensures Run(ops).table.nextToken == |Run(ops).records|
    ensures forall i :: 0 <= i < |Run(ops).records| ==> Run(ops).records[i].token == i + 1
  {
    if ops != [] {
      TokensCount(ops[..|ops| - 1]);
      TokensStep(Run(ops[..|ops| - 1]), ops[|ops| - 1]);
    }
  }

  lemma TokensStep(y: System, op: Op)
    requires !op.NewRun? && y.table.nextToken == |y.records|
    requires forall i :: 0 <= i < |y.records| ==> y.records[i].token == i + 1
    ensures var z := Step(y, op);
            z.table.nextToken == |z.records| && forall i :: 0 <= i < |z.records| ==> z.records[i].token == i + 1
  {
  }

  /** Within one run of the stream the registrations carry the tokens 1, 2, 3, ..., so no two carry the same. */
  lemma TokensUnique(ops: seq<Op>)
    requires NoNewRun(ops)
    ensures forall i :: 0 <= i < |Run(ops).records| ==> Run(ops).records[i].token == i + 1
    ensures forall i, j :: 0 <= i < j < |Run(ops).records| ==> Run(ops).records[i].token != Run(ops).records[j].token
  {
    TokensCount(ops);
  }

  /** The same operations, where a new run clears the timers and keeps counting. */
  function KeepCounting(ops: seq<Op>): (r: seq<Op>)
    ensures |r| == |ops| && NoNewRun(r)
  {
    seq(|ops|, i requires 0 <= i < |ops| => if ops[i].NewRun? then DoClearAll else ops[i])
  }

  /** It is the restart of the counter alone that lets an event act for another registration. */
  lemma SafeWithoutReset(ops: seq<Op>)
    ensures OwnActs(Run(KeepCounting(ops)).acts)
    ensures var records := Run(KeepCounting(ops)).records;
            forall i, j :: 0 <= i < j < |records| ==> records[i].token != records[j].token
  {
    ActsWhileCurrent(KeepCounting(ops));
    TokensUnique(KeepCounting(ops));
  }

  /** With the restart an event need not act for itself: a left-over one can fire the new run's timer. */
  lemma StaleEventCanAct()
    ensures Run([DoSchedule("provider_resume"), Elapse(0), NewRun, DoSchedule("provider_resume"), Handle(0)]).acts
            == [Act(0, 1)]
  {
    var key := "provider_resume";
    assert Normal(key) by { TrimKeeps(key); }
    var ops1 := [DoSchedule(key)];
    var ops2 := ops1 + [Elapse(0)];
    var ops3 := ops2 + [NewRun];
    var ops4 := ops3 + [DoSchedule(key)];
    RunOn(Initial(), [], DoSchedule(key));
    RunOn(Initial(), ops1, Elapse(0));
    RunOn(Initial(), ops2, NewRun);
    RunOn(Initial(), ops3, DoSchedule(key));
    RunOn(Initial(), ops4, Handle(0));
    assert [] + [DoSchedule(key)] == ops1;
    assert Run(ops1).records == [Record(key, 1, Armed)];
    assert Run(ops2).records == [Record(key, 1, Posted)];
    assert Run(ops3).records == [Record(key, 1, Posted)];
    assert Run(ops4).table.timers == map[key := Registration(1, 1)];
    assert Run(ops4).records[0] == Record(key, 1, Posted);
    assert Run(ops4).acts == [];
    assert ops4 + [Handle(0)]
        == [DoSchedule("provider_resume"), Elapse(0), NewRun, DoSchedule("provider_resume"), Handle(0)];
  }

  lemma RunOn(y: System, ops: seq<Op>, op: Op)
    ensures RunFrom(y, ops + [op]) == Step(RunFrom(y, ops), op)
  {
    assert (ops + [op])[..|ops + [op]| - 1] == ops;
  }

  function Times(op: Op, n: nat): seq<Op> {
    seq(n, _ => op)
  }

  /** `z` is `y` after `n` registrations under one key. */
  predicate Rescheduled(y: System, z: System, key: string, n: nat) {
    && z.table.nextToken == y.table.nextToken + n
    && |z.records| == |y.records| + n
    && (forall i :: 0 <= i < |y.records| ==> z.records[i] == y.records[i])
    && z.acts == y.acts
    && (n > 0 ==> key in z.table.timers && z.table.timers[key] == Registration(|y.records| + n - 1, y.table.nextToken + n))
  }

  lemma RescheduleOnce(y: System, x: System, key: string, n: nat)
    requires Inv(x) && Rescheduled(y, x, key, n) && Normal(key)
    ensures Rescheduled(y, Step(x, DoSchedule(key)), key, n + 1)
  {
  }

  lemma {:induction false} ScheduleMany(y: System, key: string, n: nat)
    requires Inv(y) && Normal(key)
    ensures Inv(RunFrom(y, Times(DoSchedule(key), n))) && Rescheduled(y, RunFrom(y, Times(DoSchedule(key), n)), key, n)
  {
    RunKeepsInv(y, Times(DoSchedule(key), n));
    if n > 0 {
      var init := Times(DoSchedule(key), n - 1);
      ScheduleMany(y, key, n - 1);
      RescheduleOnce(y, RunFrom(y, init), key, n - 1);
      RunOn(y, init, DoSchedule(key));
      assert Times(DoSchedule(key), n) == init + [DoSchedule(key)];
    }
  }

  /**
   A new run is safe exactly when no goroutine of an earlier timer is still waiting
   and no event of one is still queued: then no continuation lets an event act for
   another registration, and otherwise some continuation does.
   */
  lemma NewRunSafeIff(y: System)
    requires Inv(y) && OwnActs(y.acts)
    ensures (forall ops | NoNewRun(ops) :: OwnActs(RunFrom(Step(y, NewRun), ops).acts))
            <==> (forall id :: !Outstanding(y, id))
  {
    var z := Step(y, NewRun);
    StepKeepsInv(y, NewRun);
    if forall id :: !Outstanding(y, id) {
      forall id ensures !Outstanding(z, id) {
        assert !Outstanding(y, id);
      }
      forall ops | NoNewRun(ops) ensures OwnActs(RunFrom(z, ops).acts) {
        FreshRunActsForItself(z, ops);
      }
    } else {
      var id :| Outstanding(y, id);
      var ops := StaleContinuation(z, id);
    }
  }

  /** In a run, each of whose restarts finds nothing outstanding, every event acts for its own registration. */
  lemma {:induction false} RestartsAreSafe(ops: seq<Op>)
    requires forall i, id :: 0 <= i < |ops| && ops[i].NewRun? ==> !Outstanding(Run(ops[..i]), id)
    ensures Inv(Run(ops)) && Fresh(Run(ops)) && OwnActs(Run(ops).acts)
  {
    if ops != [] {
      var n := |ops| - 1;
      var init := ops[..n];
      forall i, id | 0 <= i < |init| && init[i].NewRun? ensures !Outstanding(Run(init[..i]), id) {
        assert init[..i] == ops[..i] && ops[i] == init[i];
      }
      RestartsAreSafe(init);
      StepKeepsInv(Run(init), ops[n]);
      if ops[n].NewRun? {
        RestartKeepsFresh(Run(init));
      } else {
        StepKeepsFresh(Run(init), ops[n]);
      }
    }
  }

  lemma RestartKeepsFresh(y: System)
    requires forall id :: !Outstanding(y, id)
    ensures Fresh(Step(y, NewRun)) && Step(y, NewRun).acts == y.acts
  {
    forall id ensures !Outstanding(Step(y, NewRun), id) {
      assert !Outstanding(y, id);
    }
  }

  lemma StaleContinuation(z: System, id: nat) returns (ops: seq<Op>)
    requires Inv(z) && z.table.nextToken == 0 && z.table.timers == map[]
    requires Outstanding(z, id)
    ensures NoNewRun(ops)
    ensures !OwnActs(RunFrom(z, ops).acts)
  {
    var r := z.records[id];
    var again := Times(DoSchedule(r.key), r.token);
    ScheduleMany(z, r.key, r.token);
    var y1 := RunFrom(z, again);
    assert y1.records[id] == r;
    var ops1 := again + [Elapse(id)];
    ops := ops1 + [Handle(id)];
    RunOn(z, again, Elapse(id));
    RunOn(z, ops1, Handle(id));
    var y3 := RunFrom(z, ops);
    assert y3.acts[|y3.acts| - 1] == Act(id, |z.records| + r.token - 1);
  }
}
