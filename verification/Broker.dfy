/**
 The stream object of the broker, updated in place under its lock
 (internal/backend/forwarder/broker.go). Each method is one lock region and is
 proved equal, on every state, to the function of the same name in `BrokerSpec`.
 */
module Broker {
  import opened Base
  import opened BrokerSpec

  class ActiveStream {
    var status: Status
    var backlog: seq<Event>
    var first: nat
    var next: nat
    var latest: Option<Event>
    var cursors: map<nat, nat>

    function View(): Stream
      reads this
    {
      Stream(status, backlog, first, next, latest, cursors)
    }

    constructor ()
      ensures View() == Stream(Created, [], 1, 1, None, map[])
      ensures Window(View(), [])
    {
      status, backlog, first, next, latest, cursors := Created, [], 1, 1, None, map[];
    }

    /** Scans the live cursors in arbitrary order for the smallest. */
    method SmallestCursor() returns (m: nat)
      ensures m == MinCursor(cursors, next)
    {
      m := next;
      var left := cursors.Keys;
      while left != {}
        invariant left <= cursors.Keys
        invariant m <= next
        invariant forall id | id in cursors && id !in left :: m <= cursors[id]
        invariant m == next || exists id :: id in cursors && cursors[id] == m
        decreases |left|
      {
        var id :| id in left;
        if cursors[id] < m {
          m := cursors[id];
        }
        left := left - {id};
      }
    }

    method CompactBacklog()
      modifies this
      ensures View() == Compact(old(View()))
    {
      if backlog == [] {
        if next > 0 {
          first := next;
        }
        return;
      }
      var keepFrom := 0;
      if cursors != map[] {
        var minCursor := SmallestCursor();
        if minCursor > first {
          keepFrom := minCursor - first;
          if keepFrom > |backlog| {
            keepFrom := |backlog|;
          }
        }
      }
      if |backlog| - keepFrom > MAX_BACKLOG {
        keepFrom := |backlog| - MAX_BACKLOG;
      }
      if keepFrom <= 0 {
        return;
      }
      backlog := backlog[keepFrom..];
      first := first + keepFrom;
    }

    method TombstoneLatestCheckpoint()
      modifies this`backlog
      ensures backlog == Tombstone(old(backlog), first, latest)
    {
      if latest.None? || latest.value.sequence < first {
        return;
      }
      var index := latest.value.sequence - first;
      if index >= |backlog| {
        return;
      }
      if backlog[index].sequence == latest.value.sequence && IsCheckpoint(backlog[index]) {
        backlog := backlog[index := Blank(backlog[index])];
      }
    }

    method PublishEvent(event: Event)
      modifies this
      ensures View() == Publish(old(View()), event)
      ensures forall log | old(Window(View(), log)) ::
                Window(View(), log + Published(old(View()), event))
    {
      ghost var before := View();
      if event.end || !Terminal(status) {
        if next == 0 {
          next := FirstBacklog(View());
        }
        if first == 0 {
          first := next;
        }
        var numbered := event.(sequence := next);
        next := next + 1;
        if IsCheckpoint(numbered) {
          TombstoneLatestCheckpoint();
          latest := Some(numbered);
        }
        backlog := backlog + [numbered];
        assert View() == Append(before, event);
        CompactBacklog();
      }
      forall log | Window(before, log)
        ensures Window(View(), log + Published(before, event))
      {
        PublishKeepsWindow(before, log, event);
      }
    }

    method AddSubscriber(id: nat) returns (cursor: nat)
      modifies this
      ensures View() == Subscribe(old(View()), id)
      ensures cursor == cursors[id] == JoinCursor(old(View()))
      ensures forall log | old(Window(View(), log)) :: Window(View(), log) && 1 <= cursor <= next
      ensures forall log | old(Window(View(), log)) :: Read(View(), cursor) == FirstBatch(log, first)
    {
      JoinAgrees(View(), id);
      if first == 0 {
        first := FirstBacklog(View());
      }
      if latest.Some? && latest.value.sequence > 0 {
        cursor := latest.value.sequence;
      } else if backlog != [] {
        cursor := first;
      } else {
        cursor := next;
        if cursor == 0 {
          cursor := 1;
        }
      }
      cursors := cursors[id := cursor];
    }

    method RemoveSubscriber(id: nat) returns (remaining: nat)
      modifies this
      ensures View() == Unsubscribe(old(View()), id)
      ensures remaining == |cursors|
      ensures forall log | old(Window(View(), log)) :: Window(View(), log)
    {
      ghost var without := View().(cursors := cursors - {id});
      forall log | Window(View(), log) ensures Window(Compact(without), log) {
        CompactKeepsWindow(without, log);
      }
      if id in cursors {
        cursors := cursors - {id};
      } else {
        assert cursors - {id} == cursors;
      }
      remaining := |cursors|;
      CompactBacklog();
    }

    method AdvanceSubscriber(id: nat, cursor: nat)
      modifies this
      ensures View() == Advance(old(View()), id, cursor)
      ensures forall log | old(Window(View(), log)) :: Window(View(), log)
      ensures forall k | k in old(cursors) :: k in cursors && old(cursors)[k] <= cursors[k]
    {
      ghost var moved := View().(cursors := cursors[id := cursor]);
      forall log | Window(View(), log) ensures Window(Compact(moved), log) {
        CompactKeepsWindow(moved, log);
      }
      if id in cursors && cursor > cursors[id] {
        cursors := cursors[id := cursor];
        CompactBacklog();
      }
    }

    /** Returns a copy of the unconsumed events; inside the window, exactly the rest of the log. */
    method ReadFromCursor(cursor: nat) returns (events: seq<Event>)
      ensures events == Read(View(), cursor)
      ensures forall log | Window(View(), log) && first <= cursor < next :: events == ShownFrom(log, cursor)
    {
      ReadAgrees(View(), cursor);
      var c := cursor;
      if c == 0 {
        if latest.Some? && latest.value.sequence > 0 {
          c := latest.value.sequence;
        } else {
          c := FirstBacklog(View());
        }
      }
      if c < first && latest.Some? && latest.value.sequence >= c {
        events := [latest.value];
        if backlog != [] && latest.value.sequence >= first {
          var start := latest.value.sequence - first + 1;
          if start < |backlog| {
            events := events + backlog[start..];
          }
        } else if backlog != [] {
          events := events + backlog;
        }
        return;
      }
      if backlog == [] {
        return [];
      }
      if c < first {
        c := first;
      }
      if c >= next {
        return [];
      }
      var start := c - first;
      if start >= |backlog| {
        return [];
      }
      events := backlog[start..];
    }

    /** The status half of Complete: only a live stream completes, and then an End is owed. */
    method MarkComplete() returns (owed: bool)
      modifies this`status
      ensures owed <==> !Terminal(old(status))
      ensures status == if owed then Completed else old(status)
    {
      owed := !Terminal(status);
      if owed {
        status := Completed;
      }
    }
  }

  lemma ReadAgrees(s: Stream, cursor: nat)
    ensures forall log | Window(s, log) && s.first <= cursor < s.next :: Read(s, cursor) == ShownFrom(log, cursor)
  {
    forall log | Window(s, log) && s.first <= cursor < s.next ensures Read(s, cursor) == ShownFrom(log, cursor) {
      ReadInsideWindow(s, log, cursor);
    }
  }

  lemma JoinAgrees(s: Stream, id: nat)
    ensures forall log | Window(s, log) :: 1 <= JoinCursor(s) <= s.next && Window(Subscribe(s, id), log)
    ensures forall log | Window(s, log) :: Read(Subscribe(s, id), JoinCursor(s)) == FirstBatch(log, s.first)
  {
    forall log | Window(s, log)
      ensures 1 <= JoinCursor(s) <= s.next && Window(Subscribe(s, id), log)
      ensures Read(Subscribe(s, id), JoinCursor(s)) == FirstBatch(log, s.first)
    {
      LatestIsLast(log);
      JoinReadsFirstBatch(s, log, id);
    }
  }
}
