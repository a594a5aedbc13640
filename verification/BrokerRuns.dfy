/**
 Every interleaving of publishers, terminal transitions and RunSSE consumers of one
 registered stream. One operation is one region run under the stream's lock.
 */
module BrokerRuns {
  import opened Base
  import opened BrokerSpec

  /** One RunSSE loop: `batch` is what its last read returned and it has not sent yet. */
  datatype Consumer = Consumer(start: nat, cursor: nat, batch: seq<Event>, delivered: seq<Event>)

  /** `ends`: terminal transitions still to publish their End. */
  datatype System = System(
    stream: Stream,
    log: seq<Event>,
    consumers: map<nat, Consumer>,
    nextID: nat,
    ends: nat)

  datatype Op =
    | PublishMessage(msg: Option<Message>)
    | MarkComplete
    | MarkFailed
    | MarkCanceled
    | PublishEnd(code: string, text: string)
    | StartProvider
    | Join
    | Leave(id: nat)
    | ReadBatch(id: nat)
    | Deliver(id: nat)

  function Initial(): System {
    System(Stream(Created, [], 1, 1, None, map[]), [], map[], 1, 0)
  }

  ghost function DoPublish(y: System, e: Event): System {
    y.(stream := Publish(y.stream, e), log := y.log + Published(y.stream, e))
  }

  function Mark(y: System, status: Status): System {
    y.(stream := y.stream.(status := status), ends := y.ends + 1)
  }

  /** The cursor a consumer commits after sending one event of its batch. */
  function NextCursor(cursor: nat, e: Event): nat {
    if e.sequence >= cursor then e.sequence + 1 else cursor + 1
  }

  function DoJoin(y: System): System {
    var c := JoinCursor(y.stream);
    y.(stream := Subscribe(y.stream, y.nextID),
       consumers := y.consumers[y.nextID := Consumer(c, c, [], [])],
       nextID := y.nextID + 1)
  }

  ghost function DoLeave(y: System, id: nat): System {
    y.(stream := Unsubscribe(y.stream, id), consumers := y.consumers - {id})
  }

  function DoRead(y: System, id: nat): System {
    if id !in y.consumers || y.consumers[id].batch != [] then y
    else
      var c := y.consumers[id];
      y.(consumers := y.consumers[id := c.(batch := Read(y.stream, c.cursor))])
  }

  function Delivered(c: Consumer): Consumer {
    if c.batch == [] then c
    else c.(cursor := NextCursor(c.cursor, c.batch[0]), batch := c.batch[1..], delivered := c.delivered + [c.batch[0]])
  }

  ghost function DoDeliver(y: System, id: nat): System {
    if id !in y.consumers || y.consumers[id].batch == [] then y
    else
      var d := Delivered(y.consumers[id]);
      y.(stream := Advance(y.stream, id, d.cursor), consumers := y.consumers[id := d])
  }

  ghost function Step(y: System, op: Op): System {
    match op
    case PublishMessage(msg) => DoPublish(y, Event(0, msg, false, "", ""))
    case MarkComplete => if Terminal(y.stream.status) then y else Mark(y, Completed)
    case MarkFailed => Mark(y, Failed)
    case MarkCanceled => Mark(y, Canceled)
    case PublishEnd(code, text) =>
      if y.ends == 0 then y else DoPublish(y, Event(0, None, true, code, text)).(ends := y.ends - 1)
    case StartProvider =>
      if Terminal(y.stream.status) then y else y.(stream := y.stream.(status := Streaming))
    case Join => DoJoin(y)
    case Leave(id) => DoLeave(y, id)
    case ReadBatch(id) => DoRead(y, id)
    case Deliver(id) => DoDeliver(y, id)
  }

  ghost function Run(ops: seq<Op>): System {
    if ops == [] then Initial() else Step(Run(ops[..|ops| - 1]), ops[|ops| - 1])
  }

  // ---- What every run keeps ----

  predicate Increasing(events: seq<Event>) {
    forall i, j :: 0 <= i < j < |events| ==> events[i].sequence < events[j].sequence
  }

  predicate Consecutive(events: seq<Event>, from: nat) {
    forall i :: 0 <= i < |events| ==> events[i].sequence == from + i
  }

  /** Each event is the published one, or its blanked copy when it is a checkpoint. */
  predicate Genuine(events: seq<Event>, log: seq<Event>) {
    forall i :: 0 <= i < |events| ==>
      && 1 <= events[i].sequence <= |log|
      && var e := log[events[i].sequence - 1];
         events[i] == e || (IsCheckpoint(e) && events[i] == Blank(e))
  }

  /** Everything a consumer was given, sent or not. */
  function Given(c: Consumer): seq<Event> {
    c.delivered + c.batch
  }

  /** The number behind the last one it was given. */
  function Reach(c: Consumer): nat {
    if c.batch == [] then c.cursor else c.batch[|c.batch| - 1].sequence + 1
  }

  predicate Has(events: seq<Event>, n: nat) {
    exists i :: 0 <= i < |events| && events[i].sequence == n
  }

  predicate BelowCheckpoint(events: seq<Event>, n: nat) {
    exists i :: 0 <= i < |events| && IsCheckpoint(events[i]) && n < events[i].sequence
  }

  /** Each number was given, or dropped from the window, or is superseded by a checkpoint that was given. */
  predicate Accounted(given: seq<Event>, start: nat, reach: nat, first: nat) {
    forall n :: start <= n < reach ==> Has(given, n) || n < first || BelowCheckpoint(given, n)
  }

  predicate ConsumerOk(c: Consumer, log: seq<Event>) {
    && 1 <= c.start <= c.cursor <= |log| + 1
    && Increasing(c.delivered) && Increasing(c.batch)
    && Genuine(c.delivered, log) && Genuine(c.batch, log)
    && (forall i :: 0 <= i < |c.delivered| ==> c.start <= c.delivered[i].sequence < c.cursor)
    && (forall i :: 0 <= i < |c.batch| ==> c.cursor <= c.batch[i].sequence)
  }

  /** Inside the window, a consumer has been given every number since it joined. */
  predicate Gapless(c: Consumer, first: nat) {
    && first <= c.cursor
    && |c.delivered| == c.cursor - c.start
    && Consecutive(c.delivered, c.start)
    && Consecutive(c.batch, c.cursor)
  }

  predicate EndsLast(log: seq<Event>) {
    forall i, j :: 0 <= i < j < |log| && log[i].end ==> log[j].end
  }

  /** The broker and one consumer agree. */
  predicate Served(s: Stream, log: seq<Event>, id: nat, c: Consumer) {
    && id in s.cursors && s.cursors[id] == c.cursor
    && ConsumerOk(c, log)
    && Accounted(Given(c), c.start, Reach(c), s.first)
  }

  predicate EndsOk(log: seq<Event>, ends: nat, status: Status) {
    && EndsLast(log)
    && (ends > 0 || (exists i :: 0 <= i < |log| && log[i].end) ==> Terminal(status))
  }

  ghost predicate Inv(y: System) {
    && Window(y.stream, y.log)
    && |y.stream.backlog| <= MAX_BACKLOG
    && y.consumers.Keys == y.stream.cursors.Keys
    && (forall id :: id in y.consumers ==> id < y.nextID && Served(y.stream, y.log, id, y.consumers[id]))
    && EndsOk(y.log, y.ends, y.stream.status)
  }

  lemma AccountedLater(given: seq<Event>, start: nat, reach: nat, first: nat, later: nat)
    requires Accounted(given, start, reach, first) && first <= later
    ensures Accounted(given, start, reach, later)
  {
  }

  lemma GenuineGrows(events: seq<Event>, log: seq<Event>, more: seq<Event>)
    requires Genuine(events, log)
    ensures Genuine(events, log + more)
  {
    forall i | 0 <= i < |events| ensures (log + more)[events[i].sequence - 1] == log[events[i].sequence - 1] {
    }
  }

  lemma ConsumerGrows(c: Consumer, log: seq<Event>, more: seq<Event>)
    requires ConsumerOk(c, log)
    ensures ConsumerOk(c, log + more)
  {
    GenuineGrows(c.delivered, log, more);
    GenuineGrows(c.batch, log, more);
  }

  lemma PublishServes(s: Stream, log: seq<Event>, id: nat, c: Consumer, e: Event)
    requires Window(s, log) && Served(s, log, id, c) && !Refused(s, e)
    ensures Served(Publish(s, e), log + [Numbered(s, e)], id, c)
  {
    AppendKeepsWindow(s, log, e);
    ConsumerGrows(c, log, [Numbered(s, e)]);
    AccountedLater(Given(c), c.start, Reach(c), s.first, Publish(s, e).first);
  }

  lemma PublishEndsOk(s: Stream, log: seq<Event>, ends: nat, e: Event)
    requires EndsOk(log, ends, s.status) && !Refused(s, e) && (e.end ==> ends > 0)
    ensures EndsOk(log + [Numbered(s, e)], ends, s.status)
  {
  }

  lemma PublishKeepsInv(y: System, e: Event)
    requires Inv(y)
    requires e.end ==> y.ends > 0
    ensures Inv(DoPublish(y, e))
  {
    PublishKeepsWindow(y.stream, y.log, e);
    var z := DoPublish(y, e);
    if Refused(y.stream, e) {
      assert z == y;
    } else {
      PublishEndsOk(y.stream, y.log, y.ends, e);
      forall id | id in y.consumers ensures Served(z.stream, z.log, id, y.consumers[id]) {
        PublishServes(y.stream, y.log, id, y.consumers[id], e);
      }
    }
  }

  lemma JoinKeepsInv(y: System)
    requires Inv(y)
    ensures Inv(DoJoin(y))
  {
    LatestIsLast(y.log);
    var z := DoJoin(y);
    forall id | id in z.consumers ensures Served(z.stream, z.log, id, z.consumers[id]) {
      if id != y.nextID {
        assert Served(y.stream, y.log, id, y.consumers[id]);
      }
    }
  }

  /** Compaction serves on whoever it served. */
  lemma CompactServes(s: Stream, log: seq<Event>, id: nat, c: Consumer)
    requires Window(s, log) && Served(s, log, id, c)
    ensures Served(Compact(s), log, id, c)
  {
    AccountedLater(Given(c), c.start, Reach(c), s.first, Compact(s).first);
  }

  lemma LeaveKeepsInv(y: System, id: nat)
    requires Inv(y)
    ensures Inv(DoLeave(y, id))
  {
    var s := y.stream.(cursors := y.stream.cursors - {id});
    CompactKeepsWindow(s, y.log);
    var z := DoLeave(y, id);
    forall k | k in z.consumers ensures Served(z.stream, z.log, k, z.consumers[k]) {
      assert Served(y.stream, y.log, k, y.consumers[k]);
      CompactServes(s, y.log, k, y.consumers[k]);
    }
  }

  lemma ShownIsOrdered(log: seq<Event>, from: nat)
    requires WellNumbered(log) && 1 <= from <= |log| + 1
    ensures Consecutive(ShownFrom(log, from), from)
    ensures Genuine(ShownFrom(log, from), log)
  {
  }

  /** Genuine events at or after the cursor, in order. */
  predicate InOrder(r: seq<Event>, log: seq<Event>, cursor: nat) {
    && Increasing(r) && Genuine(r, log)
    && forall i :: 0 <= i < |r| ==> cursor <= r[i].sequence
  }

  lemma CheckpointFirst(e: Event, rest: seq<Event>, log: seq<Event>, from: nat)
    requires WellNumbered(log) && 1 <= e.sequence <= |log| && log[e.sequence - 1] == e
    requires Consecutive(rest, from) && Genuine(rest, log) && e.sequence < from
    ensures InOrder([e] + rest, log, e.sequence)
  {
    var r := [e] + rest;
    assert forall i :: 1 <= i < |r| ==> r[i] == rest[i - 1];
  }

  /** A read never goes back. */
  lemma ReadIsOrdered(s: Stream, log: seq<Event>, cursor: nat)
    requires Window(s, log) && 1 <= cursor
    ensures InOrder(Read(s, cursor), log, cursor)
    ensures s.first <= cursor ==> Consecutive(Read(s, cursor), cursor)
  {
    if s.first <= cursor {
      ReadInsideWindow(s, log, cursor);
      if cursor < s.next {
        ShownIsOrdered(log, cursor);
      }
    } else {
      LatestIsLast(log);
      ReadBelowWindow(s, log, cursor);
      if s.latest.Some? && s.latest.value.sequence >= cursor {
        var from := Max(s.latest.value.sequence + 1, s.first);
        ShownIsOrdered(log, from);
        CheckpointFirst(s.latest.value, ShownFrom(log, from), log, from);
      } else {
        ShownIsOrdered(log, s.first);
      }
    }
  }

  lemma HasMore(a: seq<Event>, b: seq<Event>, n: nat)
    ensures Has(a, n) || Has(b, n) ==> Has(a + b, n)
    ensures BelowCheckpoint(a, n) || BelowCheckpoint(b, n) ==> BelowCheckpoint(a + b, n)
  {
    if i :| 0 <= i < |a| && a[i].sequence == n {
      assert (a + b)[i] == a[i];
    }
    if i :| 0 <= i < |b| && b[i].sequence == n {
      assert (a + b)[|a| + i] == b[i];
    }
    if i :| 0 <= i < |a| && IsCheckpoint(a[i]) && n < a[i].sequence {
      assert (a + b)[i] == a[i];
    }
    if i :| 0 <= i < |b| && IsCheckpoint(b[i]) && n < b[i].sequence {
      assert (a + b)[|a| + i] == b[i];
    }
  }

  lemma ConsecutiveHas(events: seq<Event>, from: nat, n: nat)
    requires Consecutive(events, from) && from <= n < from + |events|
    ensures Has(events, n)
  {
    assert events[n - from].sequence == n;
  }

  /** A read skips nothing but what the window has dropped or its checkpoint supersedes. */
  lemma ReadAccounts(s: Stream, log: seq<Event>, cursor: nat, n: nat)
    requires Window(s, log) && 1 <= cursor
    requires Read(s, cursor) != [] && cursor <= n <= Read(s, cursor)[|Read(s, cursor)| - 1].sequence
    ensures Has(Read(s, cursor), n) || n < s.first || BelowCheckpoint(Read(s, cursor), n)
  {
    var r := Read(s, cursor);
    ReadIsOrdered(s, log, cursor);
    if s.first <= cursor {
      ConsecutiveHas(r, cursor, n);
    } else {
      LatestIsLast(log);
      ReadBelowWindow(s, log, cursor);
      if s.latest.Some? && s.latest.value.sequence >= cursor {
        var from := Max(s.latest.value.sequence + 1, s.first);
        ShownIsOrdered(log, from);
        CheckpointAccounts(s.latest.value, ShownFrom(log, from), from, n);
      } else if n >= s.first {
        ShownIsOrdered(log, s.first);
        ConsecutiveHas(r, s.first, n);
      }
    }
  }

  lemma CheckpointAccounts(e: Event, rest: seq<Event>, from: nat, n: nat)
    requires IsCheckpoint(e) && Consecutive(rest, from) && e.sequence < from
    requires n <= ([e] + rest)[|rest|].sequence
    ensures n < e.sequence ==> BelowCheckpoint([e] + rest, n)
    ensures n == e.sequence || n >= from ==> Has([e] + rest, n)
  {
    assert ([e] + rest)[0] == e;
    HasMore([e], rest, n);
    if n >= from {
      assert ([e] + rest)[|rest|] == rest[|rest| - 1];
      ConsecutiveHas(rest, from, n);
    }
  }

  lemma ReadServes(s: Stream, log: seq<Event>, id: nat, c: Consumer)
    requires Window(s, log) && Served(s, log, id, c) && c.batch == []
    ensures Served(s, log, id, c.(batch := Read(s, c.cursor)))
  {
    var d := c.(batch := Read(s, c.cursor));
    ReadIsOrdered(s, log, c.cursor);
    forall n | d.start <= n < Reach(d) ensures Has(Given(d), n) || n < s.first || BelowCheckpoint(Given(d), n) {
      HasMore(c.delivered, d.batch, n);
      if n < c.cursor {
        assert Given(c) == c.delivered;
      } else {
        ReadAccounts(s, log, c.cursor, n);
      }
    }
  }

  lemma ReadKeepsInv(y: System, id: nat)
    requires Inv(y)
    ensures Inv(DoRead(y, id))
  {
    if id in y.consumers && y.consumers[id].batch == [] {
      ReadServes(y.stream, y.log, id, y.consumers[id]);
    }
  }

  /** Sending moves an event from the batch to the delivered ones and changes nothing else that was given. */
  lemma DeliverMoves(c: Consumer, d: Consumer)
    requires c.batch != [] && d == Delivered(c) && d.cursor == c.batch[0].sequence + 1
    ensures Given(d) == Given(c) && Reach(d) == Reach(c)
  {
    assert c.batch == [c.batch[0]] + d.batch;
    ConcatAssociates(c.delivered, [c.batch[0]], d.batch);
  }

  lemma DeliverOne(c: Consumer, log: seq<Event>)
    requires c.batch != [] && ConsumerOk(c, log)
    ensures ConsumerOk(Delivered(c), log)
    ensures Delivered(c).cursor == c.batch[0].sequence + 1 > c.cursor
  {
    var d := Delivered(c);
    assert c.cursor <= c.batch[0].sequence;
    assert forall i :: 0 <= i < |d.batch| ==> d.batch[i] == c.batch[i + 1];
  }

  lemma DeliverGapless(c: Consumer, log: seq<Event>, first: nat, later: nat)
    requires c.batch != [] && ConsumerOk(c, log) && Gapless(c, first) && later <= Delivered(c).cursor
    ensures Gapless(Delivered(c), later)
  {
    var d := Delivered(c);
    assert forall i :: 0 <= i < |d.batch| ==> d.batch[i] == c.batch[i + 1];
  }

  /** One consumer's cursor moves on; the others are served as before. */
  lemma MoveCursor(s: Stream, log: seq<Event>, id: nat, d: Consumer, k: nat, c: Consumer)
    requires Served(s, log, k, c) && k != id
    ensures Served(s.(cursors := s.cursors[id := d.cursor]), log, k, c)
  {
  }

  lemma DeliverServes(s: Stream, log: seq<Event>, id: nat, c: Consumer, d: Consumer)
    requires Served(s, log, id, c) && c.batch != [] && d == Delivered(c)
    ensures d.cursor > s.cursors[id] && Served(s.(cursors := s.cursors[id := d.cursor]), log, id, d)
  {
    DeliverOne(c, log);
    DeliverMoves(c, d);
  }

  lemma DeliverKeepsInv(y: System, id: nat)
    requires Inv(y)
    ensures Inv(DoDeliver(y, id))
  {
    if id in y.consumers && y.consumers[id].batch != [] {
      var c := y.consumers[id];
      var d := Delivered(c);
      DeliverServes(y.stream, y.log, id, c, d);
      var s := y.stream.(cursors := y.stream.cursors[id := d.cursor]);
      CompactKeepsWindow(s, y.log);
      var z := DoDeliver(y, id);
      assert z.stream == Compact(s);
      forall k | k in z.consumers ensures Served(z.stream, z.log, k, z.consumers[k]) {
        if k != id {
          MoveCursor(y.stream, y.log, id, d, k, y.consumers[k]);
        }
        CompactServes(s, y.log, k, z.consumers[k]);
      }
    }
  }

  lemma StepKeepsInv(y: System, op: Op)
    requires Inv(y)
    ensures Inv(Step(y, op))
  {
    match op
    case PublishMessage(msg) => PublishKeepsInv(y, Event(0, msg, false, "", ""));
    case PublishEnd(code, text) => if y.ends > 0 { PublishKeepsInv(y, Event(0, None, true, code, text)); }
    case Join => JoinKeepsInv(y);
    case Leave(id) => LeaveKeepsInv(y, id);
    case ReadBatch(id) => ReadKeepsInv(y, id);
    case Deliver(id) => DeliverKeepsInv(y, id);
    case _ =>
  }

  lemma {:induction false} RunKeepsInv(ops: seq<Op>)
    ensures Inv(Run(ops))
  {
    if ops != [] {
      RunKeepsInv(ops[..|ops| - 1]);
      StepKeepsInv(Run(ops[..|ops| - 1]), ops[|ops| - 1]);
    }
  }

  // ---- The results, over every run ----

  /** In every run the backlog is the contiguous window of the log and at most the cap long. */
  lemma BacklogIsWindow(ops: seq<Op>)
    ensures var y := Run(ops);
            && Window(y.stream, y.log)
            && |y.stream.backlog| <= MAX_BACKLOG
  {
    RunKeepsInv(ops);
  }

  /** No subscriber ever sees a sequence number twice or out of order, or an event nobody published. */
  lemma DeliveryInOrder(ops: seq<Op>, id: nat)
    requires id in Run(ops).consumers
    ensures Increasing(Run(ops).consumers[id].delivered)
    ensures Genuine(Run(ops).consumers[id].delivered, Run(ops).log)
  {
    RunKeepsInv(ops);
  }

  /**
   Whatever happened to the stream, each number from a subscriber's start up to the last
   it was given was given to it, or dropped from the window, or lies below a checkpoint
   it was given.
   */
  lemma NothingVanishes(ops: seq<Op>, id: nat, n: nat)
    requires id in Run(ops).consumers
    requires Run(ops).consumers[id].start <= n < Reach(Run(ops).consumers[id])
    ensures var given := Given(Run(ops).consumers[id]);
            Has(given, n) || n < Run(ops).stream.first || BelowCheckpoint(given, n)
  {
    RunKeepsInv(ops);
    assert Served(Run(ops).stream, Run(ops).log, id, Run(ops).consumers[id]);
  }

  /** The subscriber, where it exists, reads inside the window. */
  predicate Inside(y: System, id: nat) {
    id in y.consumers ==> y.stream.first <= y.consumers[id].cursor
  }

  ghost predicate AlwaysInside(ops: seq<Op>, id: nat) {
    forall n :: 0 <= n <= |ops| ==> Inside(Run(ops[..n]), id)
  }

  lemma ReadGapless(s: Stream, log: seq<Event>, c: Consumer)
    requires Window(s, log) && 1 <= c.cursor && c.batch == [] && Gapless(c, s.first)
    ensures Gapless(c.(batch := Read(s, c.cursor)), s.first)
  {
    ReadIsOrdered(s, log, c.cursor);
  }

  /** What one operation does to a subscriber it does not remove. */
  lemma ConsumerAfter(y: System, op: Op, id: nat)
    requires id in y.consumers && id < y.nextID && id in Step(y, op).consumers
    ensures var c := y.consumers[id];
            Step(y, op).consumers[id] ==
              if op == ReadBatch(id) && c.batch == [] then c.(batch := Read(y.stream, c.cursor))
              else if op == Deliver(id) then Delivered(c)
              else c
  {
  }

  lemma GaplessStep(y: System, op: Op, id: nat)
    requires Inv(y) && (id in y.consumers ==> Gapless(y.consumers[id], y.stream.first))
    requires Inside(Step(y, op), id)
    ensures id in Step(y, op).consumers ==> Gapless(Step(y, op).consumers[id], Step(y, op).stream.first)
  {
    if id in y.consumers && id in Step(y, op).consumers {
      var c := y.consumers[id];
      assert Served(y.stream, y.log, id, c);
      ConsumerAfter(y, op, id);
      if op == ReadBatch(id) && c.batch == [] {
        ReadGapless(y.stream, y.log, c);
      } else if op == Deliver(id) && c.batch != [] {
        DeliverGapless(c, y.log, y.stream.first, Step(y, op).stream.first);
      }
    }
  }

  /** A subscriber that was never below the window has seen every event since it joined. */
  lemma {:induction false} DeliveryWithoutGaps(ops: seq<Op>, id: nat)
    requires AlwaysInside(ops, id)
    ensures id in Run(ops).consumers ==> Gapless(Run(ops).consumers[id], Run(ops).stream.first)
  {
    assert ops[..|ops|] == ops;
    assert Inside(Run(ops), id);
    if ops != [] {
      var before := ops[..|ops| - 1];
      forall n | 0 <= n <= |before| ensures Inside(Run(before[..n]), id) {
        assert before[..n] == ops[..n];
      }
      DeliveryWithoutGaps(before, id);
      RunKeepsInv(before);
      GaplessStep(Run(before), ops[|ops| - 1], id);
    }
  }

  /** The operation publishes: a live stream's message, or an End that is owed. */
  predicate Publishes(y: System, op: Op) {
    (op.PublishMessage? && !Terminal(y.stream.status)) || (op.PublishEnd? && y.ends > 0)
  }

  /** The event a publish sends. */
  function Sent(op: Op): Event
    requires op.PublishMessage? || op.PublishEnd?
  {
    if op.PublishMessage? then Event(0, op.msg, false, "", "") else Event(0, None, true, op.code, op.text)
  }

  /** Without the cap, compaction stops at the smallest cursor. */
  lemma CompactStopsAt(s: Stream, log: seq<Event>, id: nat)
    requires Window(s, log) && |s.backlog| <= MAX_BACKLOG && id in s.cursors && s.first <= s.cursors[id] <= s.next
    ensures Compact(s).first <= s.cursors[id]
  {
  }

  /** A publish passes a subscriber exactly when the backlog is full and the subscriber has consumed nothing of it. */
  lemma PublishPasses(s: Stream, log: seq<Event>, id: nat, e: Event)
    requires Window(s, log) && |s.backlog| <= MAX_BACKLOG && !Refused(s, e)
    requires id in s.cursors && s.first <= s.cursors[id] <= s.next
    ensures s.cursors[id] < Publish(s, e).first <==> |s.backlog| == MAX_BACKLOG && s.cursors[id] == s.first
    ensures s.cursors[id] < Publish(s, e).first ==> CapForces(Append(s, e))
  {
    AppendKeepsWindow(s, log, e);
    var t := Append(s, e);
    assert |t.backlog| == |s.backlog| + 1 && t.first == s.first && t.cursors == s.cursors;
    assert MinCursor(t.cursors, t.next) <= t.cursors[id];
  }

  /** Exactly these operations take a subscriber from inside the window to below it. */
  predicate Outruns(y: System, op: Op, id: nat) {
    && Publishes(y, op) && |y.stream.backlog| == MAX_BACKLOG
    && id in y.consumers && y.consumers[id].cursor == y.stream.first
  }

  lemma OutrunByPublish(y: System, op: Op, id: nat)
    requires Inv(y) && id in y.consumers && Inside(y, id) && (op.PublishMessage? || op.PublishEnd?)
    ensures !Inside(Step(y, op), id) <==> Outruns(y, op, id)
    ensures Outruns(y, op, id) ==> CapForces(Append(y.stream, Sent(op)))
  {
    assert Served(y.stream, y.log, id, y.consumers[id]);
    if Publishes(y, op) {
      PublishPasses(y.stream, y.log, id, Sent(op));
    }
  }

  lemma OutrunByOther(y: System, op: Op, id: nat)
    requires Inv(y) && id in y.consumers && Inside(y, id) && !op.PublishMessage? && !op.PublishEnd?
    ensures Inside(Step(y, op), id)
  {
    var c := y.consumers[id];
    assert Served(y.stream, y.log, id, c);
    match op {
      case Leave(k) =>
        if k != id {
          CompactStopsAt(y.stream.(cursors := y.stream.cursors - {k}), y.log, id);
        }
      case Deliver(k) =>
        if k in y.consumers && y.consumers[k].batch != [] {
          assert Served(y.stream, y.log, k, y.consumers[k]);
          DeliverOne(y.consumers[k], y.log);
          var d := Delivered(y.consumers[k]);
          CompactStopsAt(y.stream.(cursors := y.stream.cursors[k := d.cursor]), y.log, id);
        }
      case _ =>
    }
  }

  /** A subscriber inside the window falls below it if and only if a publish meets a full backlog of which it has consumed nothing. */
  lemma OutrunIff(y: System, op: Op, id: nat)
    requires Inv(y) && id in y.consumers && Inside(y, id)
    ensures !Inside(Step(y, op), id) <==> Outruns(y, op, id)
  {
    if op.PublishMessage? || op.PublishEnd? {
      OutrunByPublish(y, op, id);
    } else {
      OutrunByOther(y, op, id);
    }
  }

  /** The operation takes a subscriber below the window, or lets it join there. */
  predicate FallsBehind(y: System, op: Op, id: nat) {
    Outruns(y, op, id) || (op.Join? && y.nextID == id && JoinCursor(y.stream) < y.stream.first)
  }

  lemma InsideStep(y: System, op: Op, id: nat)
    requires Inv(y) && Inside(y, id)
    ensures Inside(Step(y, op), id) <==> !FallsBehind(y, op, id)
  {
    if id in y.consumers {
      OutrunIff(y, op, id);
    }
  }

  lemma RunSnoc(ops: seq<Op>, n: nat)
    requires n < |ops|
    ensures Run(ops[..n + 1]) == Step(Run(ops[..n]), ops[n])
  {
    assert ops[..n + 1][..n] == ops[..n];
  }

  ghost predicate NeverFalls(ops: seq<Op>, id: nat) {
    forall i :: 0 <= i < |ops| ==> !FallsBehind(Run(ops[..i]), ops[i], id)
  }

  lemma InsideNext(ops: seq<Op>, id: nat, n: nat)
    requires n < |ops| && Inside(Run(ops[..n]), id)
    ensures Inside(Run(ops[..n + 1]), id) <==> !FallsBehind(Run(ops[..n]), ops[n], id)
  {
    RunKeepsInv(ops[..n]);
    RunSnoc(ops, n);
    InsideStep(Run(ops[..n]), ops[n], id);
  }

  lemma {:induction false} StaysInside(ops: seq<Op>, id: nat, n: nat)
    requires n <= |ops| && NeverFalls(ops, id)
    ensures Inside(Run(ops[..n]), id)
  {
    if n == 0 {
      assert ops[..0] == [];
    } else {
      StaysInside(ops, id, n - 1);
      InsideNext(ops, id, n - 1);
    }
  }

  /** A subscriber is inside the window at every moment of a run if and only if no operation puts it behind. */
  lemma InsideIff(ops: seq<Op>, id: nat)
    ensures AlwaysInside(ops, id) <==> NeverFalls(ops, id)
  {
    if NeverFalls(ops, id) {
      forall n | 0 <= n <= |ops| ensures Inside(Run(ops[..n]), id) {
        StaysInside(ops, id, n);
      }
    }
    if AlwaysInside(ops, id) {
      forall i | 0 <= i < |ops| ensures !FallsBehind(Run(ops[..i]), ops[i], id) {
        assert Inside(Run(ops[..i]), id) && Inside(Run(ops[..i + 1]), id);
        InsideNext(ops, id, i);
      }
    }
  }

  /** Nothing but an End event is ever published after an End event. */
  lemma NothingAfterEnd(ops: seq<Op>)
    ensures EndsLast(Run(ops).log)
  {
    RunKeepsInv(ops);
  }

  /** A subscriber `id` that joins now has been given nothing, and its first read is the first batch of the log. */
  ghost predicate JoinsWithFirstBatch(y: System, id: nat) {
    var joined := Step(y, Join);
    && WellNumbered(y.log) && 1 <= y.stream.first <= |y.log| + 1
    && id in joined.consumers && joined.consumers[id].delivered == []
    && Step(joined, ReadBatch(id)).consumers[id].batch == FirstBatch(y.log, y.stream.first)
  }

  lemma JoinReadStep(y: System)
    requires Inv(y)
    ensures JoinsWithFirstBatch(y, y.nextID)
  {
    JoinReadsFirstBatch(y.stream, y.log, y.nextID);
    var joined := Step(y, Join);
    assert joined == DoJoin(y);
    assert Step(joined, ReadBatch(y.nextID)) == DoRead(joined, y.nextID);
  }

  /** Whatever happened before, a subscriber that joins and reads gets the first batch of the log. */
  lemma JoinThenRead(ops: seq<Op>)
    ensures JoinsWithFirstBatch(Run(ops), Run(ops).nextID)
  {
    RunKeepsInv(ops);
    JoinReadStep(Run(ops));
  }

  /** A terminal transition ends a live stream and owes one End, which is then published. */
  lemma EndsArePublished(ops: seq<Op>, op: Op, code: string, text: string)
    requires op.MarkFailed? || op.MarkCanceled? || (op.MarkComplete? && !Terminal(Run(ops).stream.status))
    ensures var y := Step(Run(ops), op);
            && y.stream.status == (if op.MarkFailed? then Failed else if op.MarkCanceled? then Canceled else Completed)
            && Step(y, PublishEnd(code, text)).log == y.log + [Event(|y.log| + 1, None, true, code, text)]
  {
    RunKeepsInv(ops);
    MarkThenEnd(Run(ops), op, code, text);
  }

  lemma MarkThenEnd(y: System, op: Op, code: string, text: string)
    requires Inv(y) && (op.MarkFailed? || op.MarkCanceled? || (op.MarkComplete? && !Terminal(y.stream.status)))
    ensures var z := Step(y, op);
            && z.stream.status == (if op.MarkFailed? then Failed else if op.MarkCanceled? then Canceled else Completed)
            && Step(z, PublishEnd(code, text)).log == z.log + [Event(|z.log| + 1, None, true, code, text)]
  {
    var z := Step(y, op);
    assert z.ends > 0 && Window(z.stream, z.log);
    PublishTakes(z.stream, z.log, Event(0, None, true, code, text));
  }

  /** A message reaches the log exactly while the stream is live, unchanged but for its number. */
  lemma MessagesAreLogged(ops: seq<Op>, msg: Option<Message>)
    ensures var y := Run(ops);
            Step(y, PublishMessage(msg)).log
            == y.log + (if Terminal(y.stream.status) then [] else [Event(|y.log| + 1, msg, false, "", "")])
  {
    RunKeepsInv(ops);
    PublishTakes(Run(ops).stream, Run(ops).log, Event(0, msg, false, "", ""));
  }

  lemma TerminalStays(y: System, op: Op)
    requires Terminal(y.stream.status)
    ensures Terminal(Step(y, op).stream.status)
  {
  }

  lemma {:induction false} TerminalAfter(ops: seq<Op>, n: nat)
    requires n <= |ops| && Terminal(Run(ops[..n]).stream.status)
    ensures Terminal(Run(ops).stream.status)
  {
    if n == |ops| {
      assert ops[..n] == ops;
    } else {
      var before := ops[..|ops| - 1];
      assert before[..n] == ops[..n];
      TerminalAfter(before, n);
      TerminalStays(Run(before), ops[|ops| - 1]);
    }
  }

  /** A terminal status never becomes a live one again, however a run goes on. */
  lemma TerminalIsForever(ops: seq<Op>, more: seq<Op>)
    requires Terminal(Run(ops).stream.status)
    ensures Terminal(Run(ops + more).stream.status)
  {
    assert (ops + more)[..|ops|] == ops;
    TerminalAfter(ops + more, |ops|);
  }
}
