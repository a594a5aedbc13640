/**
 The values of one registered stream of the broker and what each lock region of
 the broker does to them (internal/backend/forwarder/broker.go).

 Nothing here assumes a well-formed stream: the functions follow the branches of
 the code on every value, and `Window` below says which values are reachable.
 */
module BrokerSpec {
  import opened Base

  const MAX_BACKLOG: nat := 1024

  datatype Status = Created | Streaming | Completed | Canceled | Failed

  predicate Terminal(status: Status) {
    status.Completed? || status.Canceled? || status.Failed?
  }

  datatype Message = Checkpoint(payload: int) | Update(payload: int)

  datatype Event = Event(sequence: nat, msg: Option<Message>, end: bool, code: string, text: string)

  predicate IsCheckpoint(e: Event) {
    e.msg.Some? && !e.end && e.msg.value.Checkpoint?
  }

  function Blank(e: Event): Event {
    e.(msg := None)
  }

  datatype Stream = Stream(
    status: Status,
    backlog: seq<Event>,
    first: nat,
    next: nat,
    latest: Option<Event>,
    cursors: map<nat, nat>)

  function FirstBacklog(s: Stream): nat {
    if s.backlog != [] && s.backlog[0].sequence > 0 then s.backlog[0].sequence
    else if s.first > 0 then s.first
    else if s.next > 0 then s.next
    else 1
  }

  /** The smallest live cursor, or `top` when every cursor is beyond it. */
  ghost function MinCursor(cursors: map<nat, nat>, top: nat): (m: nat)
    ensures m <= top
    ensures forall id | id in cursors :: m <= cursors[id]
    ensures m == top || exists id :: id in cursors && cursors[id] == m
    decreases |cursors|
  {
    if cursors == map[] then top
    else
      var id :| id in cursors;
      var rest := cursors - {id};
      var m := MinCursor(rest, top);
      assert forall k | k in cursors :: k == id || (k in rest && rest[k] == cursors[k]);
      if cursors[id] <= m then cursors[id] else m
  }

  /** How many leading events every live subscriber has consumed. */
  ghost function ConsumedPrefix(s: Stream): (k: nat)
    ensures k <= |s.backlog|
  {
    var m := MinCursor(s.cursors, s.next);
    if s.cursors != map[] && m > s.first then Min(m - s.first, |s.backlog|) else 0
  }

  /** The cap, rather than the subscribers, decides how much is dropped. */
  ghost predicate CapForces(s: Stream) {
    |s.backlog| - ConsumedPrefix(s) > MAX_BACKLOG
  }

  ghost function KeepFrom(s: Stream): (k: nat)
    ensures k <= |s.backlog|
  {
    if CapForces(s) then |s.backlog| - MAX_BACKLOG else ConsumedPrefix(s)
  }

  ghost function Compact(s: Stream): Stream {
    if s.backlog == [] then (if s.next > 0 then s.(first := s.next) else s)
    else s.(backlog := s.backlog[KeepFrom(s)..], first := s.first + KeepFrom(s))
  }

  /** Erases the message of the retained copy of the previous checkpoint. */
  function Tombstone(backlog: seq<Event>, first: nat, latest: Option<Event>): (r: seq<Event>)
    ensures |r| == |backlog|
  {
    if latest.None? || latest.value.sequence < first then backlog
    else
      var index := latest.value.sequence - first;
      if index < |backlog| && backlog[index].sequence == latest.value.sequence && IsCheckpoint(backlog[index])
      then backlog[index := Blank(backlog[index])]
      else backlog
  }

  function Numbered(s: Stream, e: Event): Event {
    e.(sequence := if s.next == 0 then FirstBacklog(s) else s.next)
  }

  predicate Refused(s: Stream, e: Event) {
    !e.end && Terminal(s.status)
  }

  /** The stream between the append and the compaction of a publish. */
  function Append(s: Stream, e: Event): Stream {
    var ev := Numbered(s, e);
    var first := if s.first == 0 then ev.sequence else s.first;
    if IsCheckpoint(ev) then
      s.(backlog := Tombstone(s.backlog, first, s.latest) + [ev], first := first,
         next := ev.sequence + 1, latest := Some(ev))
    else
      s.(backlog := s.backlog + [ev], first := first, next := ev.sequence + 1)
  }

  ghost function Publish(s: Stream, e: Event): Stream {
    if Refused(s, e) then s else Compact(Append(s, e))
  }

  function JoinCursor(s: Stream): nat {
    var first := if s.first == 0 then FirstBacklog(s) else s.first;
    if s.latest.Some? && s.latest.value.sequence > 0 then s.latest.value.sequence
    else if s.backlog != [] then first
    else if s.next == 0 then 1
    else s.next
  }

  function Subscribe(s: Stream, id: nat): Stream {
    var first := if s.first == 0 then FirstBacklog(s) else s.first;
    s.(first := first, cursors := s.cursors[id := JoinCursor(s)])
  }

  ghost function Unsubscribe(s: Stream, id: nat): Stream {
    Compact(s.(cursors := s.cursors - {id}))
  }

  ghost function Advance(s: Stream, id: nat, cursor: nat): Stream {
    if id in s.cursors && cursor > s.cursors[id] then Compact(s.(cursors := s.cursors[id := cursor])) else s
  }

  function StartCursor(s: Stream, cursor: nat): nat {
    if cursor != 0 then cursor
    else if s.latest.Some? && s.latest.value.sequence > 0 then s.latest.value.sequence
    else FirstBacklog(s)
  }

  function Read(s: Stream, cursor: nat): seq<Event> {
    var c := StartCursor(s, cursor);
    if c < s.first && s.latest.Some? && s.latest.value.sequence >= c then
      var checkpoint := s.latest.value;
      if s.backlog != [] && checkpoint.sequence >= s.first then
        var start := checkpoint.sequence - s.first + 1;
        [checkpoint] + (if start < |s.backlog| then s.backlog[start..] else [])
      else [checkpoint] + s.backlog
    else if s.backlog == [] then []
    else
      var from := if c < s.first then s.first else c;
      if from >= s.next || from - s.first >= |s.backlog| then [] else s.backlog[from - s.first..]
  }

  // ---- The log the backlog is a window of ----

  predicate WellNumbered(log: seq<Event>) {
    forall i :: 0 <= i < |log| ==> log[i].sequence == i + 1
  }

  ghost function LatestCheckpoint(log: seq<Event>): Option<Event> {
    if log == [] then None
    else if IsCheckpoint(log[|log| - 1]) then Some(log[|log| - 1])
    else LatestCheckpoint(log[..|log| - 1])
  }

  /** The i-th published event as it is retained: superseded checkpoints are blank. */
  ghost function Shown(log: seq<Event>, i: nat): Event
    requires i < |log|
  {
    if IsCheckpoint(log[i]) && LatestCheckpoint(log) != Some(log[i]) then Blank(log[i]) else log[i]
  }

  /** The events with sequence numbers from `from` on, as they are retained. */
  ghost function ShownFrom(log: seq<Event>, from: nat): (r: seq<Event>)
    requires 1 <= from <= |log| + 1
    ensures |r| == |log| + 1 - from
    ensures forall k :: 0 <= k < |r| ==> r[k] == Shown(log, from - 1 + k)
  {
    seq(|log| + 1 - from, k requires 0 <= k < |log| + 1 - from => Shown(log, from - 1 + k))
  }

  /** The backlog is the window [first, next) of everything ever published. */
  ghost predicate Window(s: Stream, log: seq<Event>) {
    && WellNumbered(log)
    && s.next == |log| + 1
    && 1 <= s.first <= s.next
    && s.backlog == ShownFrom(log, s.first)
    && s.latest == LatestCheckpoint(log)
  }

  lemma {:induction false} LatestIsLast(log: seq<Event>)
    requires WellNumbered(log)
    ensures LatestCheckpoint(log).None? ==> forall i :: 0 <= i < |log| ==> !IsCheckpoint(log[i])
    ensures LatestCheckpoint(log).Some? ==>
              var i := LatestCheckpoint(log).value.sequence - 1;
              && 0 <= i < |log|
              && log[i] == LatestCheckpoint(log).value
              && IsCheckpoint(log[i])
              && forall j :: i < j < |log| ==> !IsCheckpoint(log[j])
  {
    if log != [] && !IsCheckpoint(log[|log| - 1]) {
      LatestIsLast(log[..|log| - 1]);
    }
  }

  /** What a publish adds to the log. */
  function Published(s: Stream, e: Event): seq<Event> {
    if Refused(s, e) then [] else [Numbered(s, e)]
  }

  /** The events already retained, before and after the log grows by `ev`. */
  lemma ShownGrows(log: seq<Event>, ev: Event, i: nat)
    requires WellNumbered(log + [ev]) && i < |log|
    ensures Shown(log + [ev], i) == if IsCheckpoint(ev) && IsCheckpoint(log[i]) then Blank(log[i]) else Shown(log, i)
  {
    assert (log + [ev])[..|log|] == log;
    assert (log + [ev])[i] == log[i];
  }

  lemma TombstoneIsShown(s: Stream, log: seq<Event>, k: nat)
    requires Window(s, log) && k < |s.backlog|
    ensures Tombstone(s.backlog, s.first, s.latest)[k]
         == if IsCheckpoint(log[s.first - 1 + k]) then Blank(log[s.first - 1 + k]) else Shown(log, s.first - 1 + k)
  {
    LatestIsLast(log);
    assert s.backlog[k] == Shown(log, s.first - 1 + k);
  }

  lemma AppendKeepsWindow(s: Stream, log: seq<Event>, e: Event)
    requires Window(s, log)
    ensures Window(Append(s, e), log + [Numbered(s, e)])
  {
    var ev := Numbered(s, e);
    var longer := log + [ev];
    var t := Append(s, e);
    assert longer[..|longer| - 1] == log;
    assert WellNumbered(longer);
    forall k | 0 <= k < |s.backlog| ensures t.backlog[k] == Shown(longer, t.first - 1 + k) {
      ShownGrows(log, ev, s.first - 1 + k);
      TombstoneIsShown(s, log, k);
    }
    assert t.backlog[|s.backlog|] == ev == longer[|log|];
    assert Shown(longer, |log|) == ev;
  }

  lemma CompactKeepsWindow(s: Stream, log: seq<Event>)
    requires Window(s, log)
    ensures Window(Compact(s), log)
    ensures |Compact(s).backlog| <= MAX_BACKLOG
  {
    var k := KeepFrom(s);
    if s.backlog != [] {
      assert Compact(s).backlog == ShownFrom(log, s.first + k);
    }
  }

  /** Sequence numbers are absolute: publishing extends the log and keeps the window. */
  lemma PublishKeepsWindow(s: Stream, log: seq<Event>, e: Event)
    requires Window(s, log)
    ensures Window(Publish(s, e), log + Published(s, e))
    ensures |s.backlog| <= MAX_BACKLOG ==> |Publish(s, e).backlog| <= MAX_BACKLOG
  {
    if Refused(s, e) {
      assert log + [] == log;
    } else {
      AppendKeepsWindow(s, log, e);
      CompactKeepsWindow(Append(s, e), log + Published(s, e));
    }
  }

  /** Inside the window a read is exactly the rest of the log. */
  lemma ReadInsideWindow(s: Stream, log: seq<Event>, cursor: nat)
    requires Window(s, log)
    requires s.first <= cursor
    ensures Read(s, cursor) == if cursor < s.next then ShownFrom(log, cursor) else []
  {
  }

  /**
   Below the window a read resumes from the newest checkpoint when that is not
   older than the cursor, and from the start of the window otherwise.
   */
  lemma ReadBelowWindow(s: Stream, log: seq<Event>, cursor: nat)
    requires Window(s, log)
    requires 0 < cursor < s.first
    ensures s.latest.Some? && s.latest.value.sequence >= cursor ==>
              && IsCheckpoint(s.latest.value)
              && s.latest.value.sequence <= |log|
              && Read(s, cursor) ==
                 [s.latest.value] + ShownFrom(log, Max(s.latest.value.sequence + 1, s.first))
    ensures s.latest.None? || s.latest.value.sequence < cursor ==>
              Read(s, cursor) == ShownFrom(log, s.first)
  {
    LatestIsLast(log);
    if s.latest.Some? && s.latest.value.sequence >= cursor {
      var from := Max(s.latest.value.sequence + 1, s.first);
      SuffixIsShown(s, log, from);
      assert Read(s, cursor) == [s.latest.value] + s.backlog[from - s.first..];
    }
  }

  lemma SuffixIsShown(s: Stream, log: seq<Event>, from: nat)
    requires Window(s, log) && s.first <= from <= s.next
    ensures s.backlog[from - s.first..] == ShownFrom(log, from)
  {
  }

  /** Cursor zero means "from the newest checkpoint, or from the window". */
  lemma ReadFromZero(s: Stream, log: seq<Event>)
    requires Window(s, log)
    ensures Read(s, 0) == Read(s, if s.latest.Some? then s.latest.value.sequence else s.first)
  {
    LatestIsLast(log);
    if s.backlog != [] {
      assert s.backlog[0] == Shown(log, s.first - 1);
    }
  }

  /**
   Compaction never drops a retained event that some live subscriber has still
   to consume, unless the cap forces it to; then the backlog is exactly full.
   */
  lemma CompactRespectsCursors(s: Stream, log: seq<Event>, id: nat, i: nat)
    requires Window(s, log)
    requires id in s.cursors
    requires s.first <= i < s.next && s.cursors[id] <= i
    ensures CapForces(s) ==> |Compact(s).backlog| == MAX_BACKLOG
    ensures !CapForces(s) ==> Compact(s).first <= i && Shown(log, i - 1) in Compact(s).backlog
  {
    CompactKeepsWindow(s, log);
    if !CapForces(s) {
      var t := Compact(s);
      assert t.backlog[i - t.first] == Shown(log, i - 1);
    }
  }

  /** Told on the log alone: what a subscriber that joins now is to read first. */
  ghost function FirstBatch(log: seq<Event>, first: nat): seq<Event>
    requires WellNumbered(log) && 1 <= first <= |log| + 1
  {
    LatestIsLast(log);
    match LatestCheckpoint(log)
    case None => ShownFrom(log, first)
    case Some(e) => [e] + ShownFrom(log, Max(e.sequence + 1, first))
  }

  /** The first read of a new subscriber is the newest checkpoint and all that is retained after it, else the whole window. */
  lemma JoinReadsFirstBatch(s: Stream, log: seq<Event>, id: nat)
    requires Window(s, log)
    ensures id in Subscribe(s, id).cursors
    ensures Read(Subscribe(s, id), Subscribe(s, id).cursors[id]) == FirstBatch(log, s.first)
    ensures Window(Subscribe(s, id), log)
  {
    LatestIsLast(log);
    var t := Subscribe(s, id);
    assert t.cursors[id] == (if s.latest.Some? then s.latest.value.sequence else s.first);
    if s.latest.Some? {
      var e := s.latest.value;
      if s.first <= e.sequence {
        ReadInsideWindow(t, log, e.sequence);
        CheckpointHeads(log, e);
      } else {
        ReadBelowWindow(t, log, e.sequence);
      }
    } else {
      ReadInsideWindow(t, log, s.first);
    }
  }

  lemma ShownCons(log: seq<Event>, k: nat)
    requires 1 <= k <= |log|
    ensures ShownFrom(log, k) == [Shown(log, k - 1)] + ShownFrom(log, k + 1)
  {
    var a, b := ShownFrom(log, k), ShownFrom(log, k + 1);
    forall i | 0 <= i < |a| ensures a[i] == ([Shown(log, k - 1)] + b)[i] {
    }
  }

  lemma CheckpointHeads(log: seq<Event>, e: Event)
    requires LatestCheckpoint(log) == Some(e) && 1 <= e.sequence <= |log| && log[e.sequence - 1] == e
    ensures ShownFrom(log, e.sequence) == [e] + ShownFrom(log, e.sequence + 1)
  {
    ShownCons(log, e.sequence);
  }

  /**
   Exactly what compaction retains: an event that some live subscriber has still to
   consume, or any event while there is no subscriber, as long as it is one of the newest 1024.
   */
  lemma RetainedIff(s: Stream, log: seq<Event>, i: nat)
    requires Window(s, log) && s.first <= i < s.next
    ensures Compact(s).first <= i <==>
              (s.cursors == map[] || exists id :: id in s.cursors && s.cursors[id] <= i) && s.next - i <= MAX_BACKLOG
  {
    var m := MinCursor(s.cursors, s.next);
    assert |s.backlog| == s.next - s.first > 0;
    if id :| id in s.cursors && s.cursors[id] <= i {
      assert m <= i;
    } else if s.cursors != map[] {
      assert m > i by {
        if m != s.next {
          var id :| id in s.cursors && s.cursors[id] == m;
        }
      }
    }
  }

  /** A live stream takes every event, a terminal one only an End; the event gets the next number and nothing else changes in it. */
  lemma PublishTakes(s: Stream, log: seq<Event>, e: Event)
    requires Window(s, log)
    ensures Published(s, e) == if e.end || !Terminal(s.status) then [e.(sequence := |log| + 1)] else []
    ensures Publish(s, e).status == s.status && Publish(s, e).cursors == s.cursors
    ensures !e.end && Terminal(s.status) ==> Publish(s, e) == s
  {
  }
}
