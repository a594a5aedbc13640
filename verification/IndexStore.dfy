/**
 The event log of the codebase index and its listeners
 (internal/backend/forwarder/codebase_index_store.go, codebase_index_handler.go).

 A registration appends a numbered event, keeps the newest 2000, saves, and then
 puts a token into the one-place signal channel of every subscriber of the index.
 A listener lists the events after the last one it sent, sends them, and waits
 for its signal. Saving is taken to succeed.
 */
module IndexStore {
  import opened Base

  const MAX_EVENTS: nat := 2000

  datatype Event = Event(id: int, index: string, path: string)

  /** `signal` is whether the one-place channel is full. */
  datatype Subscriber = Subscriber(index: string, signal: bool)

  datatype Store = Store(nextID: int, events: seq<Event>, subscribers: map<nat, Subscriber>)

  function Newest(events: seq<Event>): seq<Event> {
    if |events| <= MAX_EVENTS then events else events[|events| - MAX_EVENTS..]
  }

  function Notify(subscribers: map<nat, Subscriber>, index: string): map<nat, Subscriber> {
    map id | id in subscribers ::
      if subscribers[id].index == index then subscribers[id].(signal := true) else subscribers[id]
  }

  function EventID(s: Store): int {
    if s.nextID <= 0 then 1 else s.nextID
  }

  predicate Accepts(index: string, path: string) {
    Trim(index) != "" && Trim(path) != ""
  }

  function Register(s: Store, index: string, path: string): Store {
    if !Accepts(index, path) then s
    else
      Store(EventID(s) + 1,
            Newest(s.events + [Event(EventID(s), Trim(index), Trim(path))]),
            Notify(s.subscribers, Trim(index)))
  }

  function After(events: seq<Event>, index: string, last: int): seq<Event> {
    if events == [] then []
    else
      var e := events[|events| - 1];
      var init := After(events[..|events| - 1], index, last);
      if e.id <= last || e.index != index then init else init + [e]
  }

  function MaxID(events: seq<Event>): int {
    if events == [] then 0 else Max(MaxID(events[..|events| - 1]), events[|events| - 1].id)
  }

  /** A new process reads the saved events and continues after their highest number. */
  function Load(saved: seq<Event>): Store {
    Store(MaxID(saved) + 1, saved, map[])
  }

  class CodebaseIndexStore {
    var nextID: int
    var events: seq<Event>
    var subscribers: map<nat, Subscriber>

    function View(): Store
      reads this
    {
      Store(nextID, events, subscribers)
    }

    constructor (saved: seq<Event>)
      ensures View() == Load(saved)
      ensures events == saved && subscribers == map[] && nextID >= 1 && forall i :: 0 <= i < |saved| ==> saved[i].id < nextID
      ensures nextID == 1 || exists i :: 0 <= i < |saved| && saved[i].id + 1 == nextID
    {
      MaxIDIsLargest(saved);
      var maxID := 0;
      for n := 0 to |saved|
        invariant maxID == MaxID(saved[..n])
      {
        assert saved[..n + 1][..n] == saved[..n];
        if saved[n].id > maxID {
          maxID := saved[n].id;
        }
      }
      assert saved[..|saved|] == saved;
      nextID, events, subscribers := maxID + 1, saved, map[];
    }

    method NotifySubscribers(index: string)
      modifies this`subscribers
      ensures subscribers == Notify(old(subscribers), index)
      ensures subscribers.Keys == old(subscribers).Keys
      ensures forall id | id in subscribers :: subscribers[id].index == old(subscribers)[id].index
                && (subscribers[id].signal <==> old(subscribers)[id].signal || subscribers[id].index == index)
    {
      var left := subscribers.Keys;
      while left != {}
        invariant left <= subscribers.Keys == old(subscribers).Keys
        invariant forall id | id in left :: subscribers[id] == old(subscribers)[id]
        invariant forall id | id in subscribers && id !in left ::
                    subscribers[id] == Notify(old(subscribers), index)[id]
        decreases |left|
      {
        var id :| id in left;
        if subscribers[id].index == index {
          subscribers := subscribers[id := subscribers[id].(signal := true)];
        }
        left := left - {id};
      }
    }

    method RegisterFile(index: string, path: string) returns (event: Option<Event>)
      modifies this
      ensures View() == Register(old(View()), index, path)
      ensures event.Some? <==> Trim(index) != "" && Trim(path) != ""
      ensures event.None? ==> View() == old(View())
      ensures event.Some? ==> events != [] && events[|events| - 1] == event.value && |events| <= MAX_EVENTS
      ensures event.Some? ==> event.value.index == Trim(index) && event.value.path == Trim(path)
      ensures event.Some? ==> event.value.id == (if old(nextID) <= 0 then 1 else old(nextID)) && nextID == event.value.id + 1
    {
      if Trim(index) == "" || Trim(path) == "" {
        return None;
      }
      if nextID <= 0 {
        nextID := 1;
      }
      var e := Event(nextID, Trim(index), Trim(path));
      nextID := nextID + 1;
      events := events + [e];
      if |events| > MAX_EVENTS {
        events := events[|events| - MAX_EVENTS..];
      }
      NotifySubscribers(Trim(index));
      event := Some(e);
    }

    method ListEvents(index: string, last: int) returns (listed: seq<Event>)
      ensures listed == After(events, Trim(index), last)
    {
      listed := [];
      for n := 0 to |events|
        invariant listed == After(events[..n], Trim(index), last)
      {
        assert events[..n + 1][..n] == events[..n];
        if !(events[n].id <= last || events[n].index != Trim(index)) {
          listed := listed + [events[n]];
        }
      }
      assert events[..|events|] == events;
    }
  }

  lemma {:induction false} MaxIDIsLargest(events: seq<Event>)
    ensures MaxID(events) >= 0 && forall i :: 0 <= i < |events| ==> events[i].id <= MaxID(events)
    ensures MaxID(events) == 0 || exists i :: 0 <= i < |events| && events[i].id == MaxID(events)
  {
    if events != [] {
      var n := |events| - 1;
      MaxIDIsLargest(events[..n]);
      assert forall i :: 0 <= i < n ==> events[i] == events[..n][i];
    }
  }

  // ---- Every interleaving of registrations, listeners and restarts ----

  datatype Phase = Listing | Sending | Waiting

  datatype Listener = Listener(index: string, last: int, queue: seq<Event>, delivered: seq<Event>, phase: Phase)

  /** `disk` is what was last saved, `log` every event ever registered. */
  datatype System = System(store: Store, disk: seq<Event>, log: seq<Event>, listeners: map<nat, Listener>)

  datatype Op =
    | DoRegister(index: string, path: string)
    | Listen(id: nat, index: string)
    | ListNew(id: nat)
    | Send(id: nat)
    | Wake(id: nat)
    | Hangup(id: nat)
    | Restart

  function Initial(): System {
    System(Load([]), [], [], map[])
  }

  function Step(y: System, op: Op): System {
    match op
    case DoRegister(index, path) =>
      var store := Register(y.store, index, path);
      y.(store := store, disk := store.events,
         log := y.log + (if Accepts(index, path) then [Event(EventID(y.store), Trim(index), Trim(path))] else []))
    case Listen(id, index) =>
      if id in y.listeners || Trim(index) == "" then y
      else y.(store := y.store.(subscribers := y.store.subscribers[id := Subscriber(Trim(index), false)]),
              listeners := y.listeners[id := Listener(Trim(index), 0, [], [], Listing)])
    case ListNew(id) =>
      if id !in y.listeners || !y.listeners[id].phase.Listing? then y
      else
        var l := y.listeners[id];
        y.(listeners := y.listeners[id := l.(queue := After(y.store.events, l.index, l.last), phase := Sending)])
    case Send(id) =>
      if id !in y.listeners || !y.listeners[id].phase.Sending? then y
      else y.(listeners := y.listeners[id := Sent(y.listeners[id])])
    case Wake(id) =>
      if id in y.listeners && y.listeners[id].phase.Waiting?
         && id in y.store.subscribers && y.store.subscribers[id].signal
      then y.(store := y.store.(subscribers := y.store.subscribers[id := y.store.subscribers[id].(signal := false)]),
              listeners := y.listeners[id := y.listeners[id].(phase := Listing)])
      else y
    case Hangup(id) =>
      y.(store := y.store.(subscribers := y.store.subscribers - {id}), listeners := y.listeners - {id})
    case Restart => y.(store := Load(y.disk), listeners := map[])
  }

  /** Sends the head of the queue, or goes to wait when the queue is empty. */
  function Sent(l: Listener): Listener {
    if l.queue == [] then l.(phase := Waiting)
    else
      var e := l.queue[0];
      l.(last := if e.id > l.last then e.id else l.last, queue := l.queue[1..], delivered := l.delivered + [e])
  }

  function Run(ops: seq<Op>): System {
    if ops == [] then Initial() else Step(Run(ops[..|ops| - 1]), ops[|ops| - 1])
  }

  // ---- What every run keeps ----

  predicate WellNumbered(log: seq<Event>) {
    forall i :: 0 <= i < |log| ==> log[i].id == i + 1
  }

  predicate Increasing(events: seq<Event>) {
    forall i, j :: 0 <= i < j < |events| ==> events[i].id < events[j].id
  }

  /** The highest number the listener has sent or is about to send. */
  function Horizon(l: Listener): int {
    if l.queue == [] then l.last else l.queue[|l.queue| - 1].id
  }

  predicate PushedOut(e: Event, log: seq<Event>) {
    e.id <= |log| - MAX_EVENTS
  }

  /** What was and what will be delivered are registered events in increasing order. */
  predicate Ordered(l: Listener, log: seq<Event>) {
    && 0 <= l.last <= |log|
    && Increasing(l.delivered) && Increasing(l.queue)
    && (forall i :: 0 <= i < |l.delivered| ==> l.delivered[i].id <= l.last && l.delivered[i] in log)
    && (forall i :: 0 <= i < |l.queue| ==> l.last < l.queue[i].id && l.queue[i] in log)
    && (!l.phase.Sending? ==> l.queue == [])
  }

  /** Past its listing, a listener has every newer retained event in its queue or a signal waiting. */
  predicate Alert(l: Listener, signal: bool, events: seq<Event>) {
    !l.phase.Listing? && !signal ==>
      forall i :: 0 <= i < |events| && events[i].index == l.index && events[i].id > l.last ==> events[i] in l.queue
  }

  /** Nothing up to the horizon is missing unless it was pushed out. */
  predicate Accounted(l: Listener, log: seq<Event>) {
    forall i :: 0 <= i < |log| && log[i].index == l.index && log[i].id <= Horizon(l)
                ==> log[i] in l.delivered || log[i] in l.queue || PushedOut(log[i], log)
  }

  predicate ListenerOk(l: Listener, signal: bool, events: seq<Event>, log: seq<Event>) {
    Ordered(l, log) && Alert(l, signal, events) && Accounted(l, log)
  }

  predicate Served(store: Store, log: seq<Event>, id: nat, l: Listener) {
    && id in store.subscribers
    && store.subscribers[id].index == l.index
    && ListenerOk(l, store.subscribers[id].signal, store.events, log)
  }

  ghost predicate Inv(y: System) {
    && WellNumbered(y.log)
    && y.store.nextID == |y.log| + 1
    && y.store.events == Newest(y.log)
    && y.disk == y.store.events
    && (forall id :: id in y.listeners ==> Served(y.store, y.log, id, y.listeners[id]))
  }

  lemma {:induction false} MaxIDOfNumbered(events: seq<Event>, from: int)
    requires from >= 0
    requires forall i :: 0 <= i < |events| ==> events[i].id == from + i + 1
    ensures MaxID(events) == if events == [] then 0 else from + |events|
  {
    if events != [] {
      MaxIDOfNumbered(events[..|events| - 1], from);
    }
  }

  /** Numbers continue after a restart as if nothing had happened. */
  lemma RestartKeepsInv(y: System)
    requires Inv(y)
    ensures Inv(Step(y, Restart))
  {
    MaxIDOfNumbered(Newest(y.log), |y.log| - |Newest(y.log)|);
  }

  lemma NewestOfNewest(log: seq<Event>, e: Event)
    ensures Newest(Newest(log) + [e]) == Newest(log + [e])
  {
  }

  lemma HearsOrdered(l: Listener, log: seq<Event>, e: Event)
    requires WellNumbered(log) && Ordered(l, log) && Accounted(l, log) && e.id == |log| + 1
    ensures Ordered(l, log + [e]) && Accounted(l, log + [e])
  {
    var longer := log + [e];
    assert forall x :: x in log ==> x in longer;
    assert Horizon(l) <= |log|;
    forall i | 0 <= i < |longer| && longer[i].index == l.index && longer[i].id <= Horizon(l)
      ensures longer[i] in l.delivered || longer[i] in l.queue || PushedOut(longer[i], longer)
    {
      assert i < |log| && longer[i] == log[i];
    }
  }

  lemma HearsAlert(l: Listener, signal: bool, log: seq<Event>, e: Event)
    requires Alert(l, signal, Newest(log))
    ensures Alert(l, signal || e.index == l.index, Newest(log + [e]))
  {
    var events := Newest(log + [e]);
    forall i | 0 <= i < |events| && events[i].index == l.index && e.index != l.index
      ensures events[i] in Newest(log)
    {
      var k := i + |log| + 1 - |events|;
      assert events[i] == (log + [e])[k] == log[k];
      assert Newest(log)[k - (|log| - |Newest(log)|)] == log[k];
    }
  }

  lemma RegisterKeepsInv(y: System, index: string, path: string)
    requires Inv(y)
    ensures Inv(Step(y, DoRegister(index, path)))
  {
    if Accepts(index, path) {
      var e := Event(EventID(y.store), Trim(index), Trim(path));
      NewestOfNewest(y.log, e);
      var z := Step(y, DoRegister(index, path));
      assert z.log == y.log + [e] && z.store.events == Newest(z.log);
      forall id | id in z.listeners ensures Served(z.store, z.log, id, z.listeners[id]) {
        var l := y.listeners[id];
        assert Served(y.store, y.log, id, l);
        HearsOrdered(l, y.log, e);
        HearsAlert(l, y.store.subscribers[id].signal, y.log, e);
      }
    }
  }

  lemma {:induction false} AfterMembers(events: seq<Event>, index: string, last: int)
    ensures forall e :: e in After(events, index, last) <==> e in events && e.index == index && e.id > last
  {
    if events != [] {
      AfterMembers(events[..|events| - 1], index, last);
      assert events == events[..|events| - 1] + [events[|events| - 1]];
    }
  }

  lemma {:induction false} AfterIncreasing(events: seq<Event>, index: string, last: int)
    requires Increasing(events)
    ensures Increasing(After(events, index, last))
  {
    if events != [] {
      var init := events[..|events| - 1];
      AfterIncreasing(init, index, last);
      AfterMembers(init, index, last);
      var r := After(init, index, last);
      assert forall i :: 0 <= i < |r| ==> r[i] in init;
    }
  }

  /** Listing yields exactly the matching events after the last one, in order. */
  lemma AfterSound(events: seq<Event>, index: string, last: int)
    requires Increasing(events)
    ensures Increasing(After(events, index, last))
    ensures forall e :: e in After(events, index, last) <==> e in events && e.index == index && e.id > last
  {
    AfterMembers(events, index, last);
    AfterIncreasing(events, index, last);
  }

  lemma ListOrdered(l: Listener, log: seq<Event>, r: seq<Event>)
    requires WellNumbered(log) && Ordered(l, log) && r == After(Newest(log), l.index, l.last)
    ensures Ordered(l.(queue := r, phase := Sending), log) && Alert(l.(queue := r, phase := Sending), false, Newest(log))
  {
    AfterSound(Newest(log), l.index, l.last);
    forall i | 0 <= i < |r| ensures l.last < r[i].id && r[i] in log {
      assert r[i] in r;
      assert r[i] in Newest(log);
    }
  }

  lemma ListAccounted(l: Listener, log: seq<Event>, r: seq<Event>)
    requires WellNumbered(log) && l.queue == [] && Accounted(l, log) && r == After(Newest(log), l.index, l.last)
    ensures Accounted(l.(queue := r, phase := Sending), log)
  {
    AfterSound(Newest(log), l.index, l.last);
    forall i | 0 <= i < |log| && log[i].index == l.index
      ensures log[i] in l.delivered || log[i] in r || PushedOut(log[i], log)
           || log[i].id > Horizon(l.(queue := r, phase := Sending))
    {
      if log[i].id > l.last && !PushedOut(log[i], log) {
        assert Newest(log)[i - (|log| - |Newest(log)|)] == log[i];
      }
    }
  }

  lemma SendOrdered(l: Listener, log: seq<Event>)
    requires l.phase.Sending? && WellNumbered(log) && Ordered(l, log)
    ensures Ordered(Sent(l), log)
  {
    if l.queue != [] {
      var m := Sent(l);
      assert l.queue[0] in log;
      assert forall i :: 0 <= i < |m.queue| ==> m.queue[i] == l.queue[i + 1];
      forall i | 0 <= i < |m.delivered| ensures m.delivered[i].id <= m.last && m.delivered[i] in log {
        assert i < |l.delivered| ==> m.delivered[i] == l.delivered[i];
      }
    }
  }

  lemma SendMoves(l: Listener, x: Event)
    requires l.queue != []
    ensures x in l.queue ==> x == l.queue[0] || x in Sent(l).queue
    ensures x in l.delivered || x == l.queue[0] ==> x in Sent(l).delivered
  {
    assert l.queue == [l.queue[0]] + Sent(l).queue;
  }

  lemma SendAlert(l: Listener, signal: bool, events: seq<Event>, log: seq<Event>)
    requires l.phase.Sending? && Ordered(l, log) && Alert(l, signal, events)
    ensures Alert(Sent(l), signal, events)
  {
    if l.queue != [] && !signal {
      forall i | 0 <= i < |events| && events[i].index == l.index && events[i].id > Sent(l).last
        ensures events[i] in Sent(l).queue
      {
        SendMoves(l, events[i]);
      }
    }
  }

  lemma SendAccounted(l: Listener, log: seq<Event>)
    requires l.phase.Sending? && Ordered(l, log) && Accounted(l, log)
    ensures Accounted(Sent(l), log)
  {
    if l.queue != [] {
      assert Horizon(Sent(l)) == Horizon(l);
      forall i | 0 <= i < |log| && log[i].index == l.index && log[i].id <= Horizon(l)
        ensures log[i] in Sent(l).delivered || log[i] in Sent(l).queue || PushedOut(log[i], log)
      {
        SendMoves(l, log[i]);
      }
    }
  }

  /** One listener and its signal change; the others are served as before. */
  lemma PutListener(y: System, id: nat, l: Listener, signal: bool)
    requires Inv(y) && id in y.listeners && l.index == y.listeners[id].index
    requires ListenerOk(l, signal, y.store.events, y.log)
    ensures Inv(y.(store := y.store.(subscribers := y.store.subscribers[id := Subscriber(l.index, signal)]),
                   listeners := y.listeners[id := l]))
  {
    var store := y.store.(subscribers := y.store.subscribers[id := Subscriber(l.index, signal)]);
    forall k | k in y.listeners && k != id ensures Served(store, y.log, k, y.listeners[k]) {
      assert Served(y.store, y.log, k, y.listeners[k]);
    }
    assert Served(store, y.log, id, l);
  }

  lemma ListKeepsInv(y: System, id: nat)
    requires Inv(y)
    ensures Inv(Step(y, ListNew(id)))
  {
    if id in y.listeners && y.listeners[id].phase.Listing? {
      var l := y.listeners[id];
      assert Served(y.store, y.log, id, l);
      var r := After(y.store.events, l.index, l.last);
      ListOrdered(l, y.log, r);
      ListAccounted(l, y.log, r);
      PutSame(y, id, l.(queue := r, phase := Sending));
    }
  }

  lemma SendKeepsInv(y: System, id: nat)
    requires Inv(y)
    ensures Inv(Step(y, Send(id)))
  {
    if id in y.listeners && y.listeners[id].phase.Sending? {
      var l := y.listeners[id];
      assert Served(y.store, y.log, id, l);
      SendOrdered(l, y.log);
      SendAlert(l, y.store.subscribers[id].signal, y.store.events, y.log);
      SendAccounted(l, y.log);
      PutSame(y, id, Sent(l));
    }
  }

  lemma PutSame(y: System, id: nat, l: Listener)
    requires Inv(y) && id in y.listeners && l.index == y.listeners[id].index && id in y.store.subscribers
    requires ListenerOk(l, y.store.subscribers[id].signal, y.store.events, y.log)
    ensures Inv(y.(listeners := y.listeners[id := l]))
  {
    assert Served(y.store, y.log, id, y.listeners[id]);
    assert Served(y.store, y.log, id, l);
  }

  lemma WakeKeepsInv(y: System, id: nat)
    requires Inv(y)
    ensures Inv(Step(y, Wake(id)))
  {
    if id in y.listeners && y.listeners[id].phase.Waiting? && id in y.store.subscribers && y.store.subscribers[id].signal {
      var l := y.listeners[id];
      assert Served(y.store, y.log, id, l);
      PutListener(y, id, l.(phase := Listing), false);
      assert y.store.subscribers[id].(signal := false) == Subscriber(l.index, false);
    }
  }

  lemma ListenKeepsInv(y: System, id: nat, index: string)
    requires Inv(y)
    ensures Inv(Step(y, Listen(id, index)))
  {
    var z := Step(y, Listen(id, index));
    forall k | k in z.listeners ensures Served(z.store, z.log, k, z.listeners[k]) {
      if k in y.listeners {
        assert Served(y.store, y.log, k, y.listeners[k]);
      }
    }
  }

  lemma HangupKeepsInv(y: System, id: nat)
    requires Inv(y)
    ensures Inv(Step(y, Hangup(id)))
  {
    var z := Step(y, Hangup(id));
    forall k | k in z.listeners ensures Served(z.store, z.log, k, z.listeners[k]) {
      assert Served(y.store, y.log, k, y.listeners[k]);
    }
  }

  lemma StepKeepsInv(y: System, op: Op)
    requires Inv(y)
    ensures Inv(Step(y, op))
  {
    match op
    case DoRegister(index, path) => RegisterKeepsInv(y, index, path);
    case Listen(id, index) => ListenKeepsInv(y, id, index);
    case ListNew(id) => ListKeepsInv(y, id);
    case Send(id) => SendKeepsInv(y, id);
    case Wake(id) => WakeKeepsInv(y, id);
    case Hangup(id) => HangupKeepsInv(y, id);
    case Restart => RestartKeepsInv(y);
  }

  lemma {:induction false} RunKeepsInv(ops: seq<Op>)
    ensures Inv(Run(ops))
  {
    if ops != [] {
      RunKeepsInv(ops[..|ops| - 1]);
      StepKeepsInv(Run(ops[..|ops| - 1]), ops[|ops| - 1]);
    }
  }

  // ---- The results, over every run ----

  /** A listener never waits on an empty signal while a retained event of its index is undelivered. */
  lemma NoLostWakeup(ops: seq<Op>, id: nat)
    requires var y := Run(ops);
             && id in y.listeners && y.listeners[id].phase.Waiting?
             && id in y.store.subscribers && !y.store.subscribers[id].signal
    ensures var y := Run(ops);
            After(y.store.events, y.listeners[id].index, y.listeners[id].last) == []
  {
    RunKeepsInv(ops);
    var y := Run(ops);
    var l := y.listeners[id];
    assert Served(y.store, y.log, id, l);
    NothingAfter(y.store.events, l.index, l.last);
  }

  lemma {:induction false} NothingAfter(events: seq<Event>, index: string, last: int)
    requires forall i :: 0 <= i < |events| ==> events[i].index != index || events[i].id <= last
    ensures After(events, index, last) == []
  {
    if events != [] {
      NothingAfter(events[..|events| - 1], index, last);
    }
  }

  /** What a listener delivers are registered events with strictly increasing numbers. */
  lemma DeliveryInOrder(ops: seq<Op>, id: nat)
    requires id in Run(ops).listeners
    ensures var y := Run(ops);
            && Increasing(y.listeners[id].delivered)
            && forall i :: 0 <= i < |y.listeners[id].delivered| ==> y.listeners[id].delivered[i] in y.log
  {
    RunKeepsInv(ops);
    assert Served(Run(ops).store, Run(ops).log, id, Run(ops).listeners[id]);
  }

  /** An event of the index below the last delivered number is missing only if 2000 newer ones pushed it out. */
  lemma SkippedOnlyWhenPushedOut(ops: seq<Op>, id: nat, i: nat)
    requires var y := Run(ops);
             && id in y.listeners && i < |y.log|
             && y.log[i].index == y.listeners[id].index
             && y.log[i].id <= y.listeners[id].last
             && y.log[i] !in y.listeners[id].delivered
    ensures |Run(ops).log| - i - 1 >= MAX_EVENTS
  {
    RunKeepsInv(ops);
    var y := Run(ops);
    assert Served(y.store, y.log, id, y.listeners[id]);
    assert Horizon(y.listeners[id]) >= y.listeners[id].last;
  }

  /** Exactly the newest 2000 events are retained, over every run and restart. */
  lemma RetainedIff(ops: seq<Op>, i: nat)
    requires i < |Run(ops).log|
    ensures Run(ops).log[i] in Run(ops).store.events <==> |Run(ops).log| - i <= MAX_EVENTS
  {
    RunKeepsInv(ops);
    NewestIff(Run(ops).log, i);
  }

  lemma NewestIff(log: seq<Event>, i: nat)
    requires WellNumbered(log) && i < |log|
    ensures log[i] in Newest(log) <==> |log| - i <= MAX_EVENTS
  {
    var events := Newest(log);
    var k := |log| - |events|;
    if i >= k {
      assert events[i - k] == log[i];
    }
    if log[i] in events {
      var j :| 0 <= j < |events| && events[j] == log[i];
      assert events[j] == log[k + j];
    }
  }

  /** A registration adds its event to the log, trimmed, and nothing else does. */
  lemma RegistersOne(ops: seq<Op>, op: Op)
    ensures var y := Run(ops);
            Step(y, op).log == y.log + (if op.DoRegister? && Trim(op.index) != "" && Trim(op.path) != ""
                                        then [Event(|y.log| + 1, Trim(op.index), Trim(op.path))] else [])
  {
    RunKeepsInv(ops);
    assert Run(ops).log + [] == Run(ops).log;
  }

  /** Event numbers are never reused, not even after a restart. */
  lemma NumbersNeverReused(ops: seq<Op>)
    ensures WellNumbered(Run(ops).log)
    ensures forall i, j :: 0 <= i < j < |Run(ops).log| ==> Run(ops).log[i].id != Run(ops).log[j].id
  {
    RunKeepsInv(ops);
  }
}
