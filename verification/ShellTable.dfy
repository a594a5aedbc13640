/** The table of background shells, updated in place (internal/backend/forwarder/await_shell_tool.go). */
module ShellTable {
  import opened Base
  import opened ShellTableSpec
  import opened ShellTableIndexes

  /** The loop that deletes the entries of one index that lead to `key`. */
  method DropEntries<K(==)>(index: map<K, string>, key: string) returns (r: map<K, string>)
    ensures r == Without(index, key)
  {
    r := index;
    var todo := index.Keys;
    while todo != {}
      invariant todo <= index.Keys
      invariant r == map x | x in index && (x in todo || Trim(index[x]) != key) :: index[x]
      decreases todo
    {
      var x :| x in todo;
      if Trim(index[x]) == key {
        r := r - {x};
      }
      todo := todo - {x};
    }
  }

  /** The event of a shell stream message, as far as the table is concerned. */
  datatype Event = Backgrounded(number: nat) | Output | Exit | Rejected | PermissionDenied

  function Observed(s: Shell, e: Event, now: nat): Shell {
    match e
    case Backgrounded(_) => s.(status := Status.Backgrounded, lastActivityAt := now)
    case Output => s.(status := Running, lastActivityAt := now)
    case Exit => s.(status := Completed, lastActivityAt := now, completedAt := now)
    case Rejected => s.(status := Status.Rejected, lastActivityAt := now, completedAt := now)
    case PermissionDenied => s.(status := Status.PermissionDenied, lastActivityAt := now, completedAt := now)
  }

  /**
   What one shell stream message does to the table: prune; then change the one shell
   the message belongs to, if there is one; then prune again. A shell that survived the
   first pruning is continued, never replaced by a fresh one.
   */
  ghost predicate Handled(before: Table, after: Table, p: Pending, e: Event, now: nat) {
    exists mid :: HandledVia(before, mid, after, p, e, now)
  }

  /** `mid` is the table after the first pruning. */
  ghost predicate HandledVia(before: Table, mid: Table, after: Table, p: Pending, e: Event, now: nat) {
    && Pruned(before, mid, now)
    && (e.Backgrounded? ==> Pruned(Spawn(mid, e.number, p, now), after, now))
    && (!e.Backgrounded? && Lookup(mid, p) == "" ==> after == mid)
    && (!e.Backgrounded? && Lookup(mid, p) != "" ==>
          && Lookup(mid, p) in mid.shells
          && Pruned(Continued(mid, Lookup(mid, p), p, e, now), after, now))
  }

  /**
   What a message shows of its shell, told status by status: an exit, a rejection or a
   denial ends it now, output makes it run, and it has been active now.
   */
  predicate Shows(e: Event, now: nat, before: Shell, after: Shell) {
    && after.createdAt == before.createdAt && after.lastActivityAt == now
    && (e.Output? ==> after.status == Running && after.completedAt == before.completedAt)
    && (e.Exit? ==> after.status == Completed && after.completedAt == now)
    && (e.Rejected? ==> after.status == Status.Rejected && after.completedAt == now)
    && (e.PermissionDenied? ==> after.status == Status.PermissionDenied && after.completedAt == now)
    && (e.Backgrounded? ==> after.status == Status.Backgrounded && after.completedAt == before.completedAt)
  }

  /** The shell `k` that is left is as it was, unless it is `id`, the one the message belongs to, which shows it. */
  predicate ShellAfter(before: Table, after: Table, id: string, e: Event, now: nat, k: string)
    requires k in after.shells
  {
    if k != id then k in before.shells && after.shells[k] == before.shells[k]
    else if k in before.shells then Shows(e, now, before.shells[k], after.shells[k]) || FreshlySpawned(e, now, k, after.shells[k])
    else FreshlySpawned(e, now, k, after.shells[k])
  }

  /** A shell that went to the background without being in the table. */
  predicate FreshlySpawned(e: Event, now: nat, k: string, s: Shell) {
    e.Backgrounded? && k == Decimal(e.number) && s == Shell(Status.Backgrounded, now, now, 0)
  }

  ghost predicate OthersUnchanged(before: Table, after: Table, id: string, e: Event, now: nat) {
    forall k :: k in after.shells ==> ShellAfter(before, after, id, e, now, k)
  }

  /** At most one shell changes; a message of a stream that went to the background concerns the shell of that number. */
  ghost predicate OnlyOneChanged(before: Table, after: Table, p: Pending, e: Event, now: nat) {
    exists id :: (e.Backgrounded? ==> id == Decimal(e.number)) && OthersUnchanged(before, after, id, e, now)
  }

  lemma SpawnedShows(before: Table, mid: Table, after: Table, p: Pending, e: Event, now: nat)
    requires Shrunk(before, mid) && e.Backgrounded? && Shrunk(Spawn(mid, e.number, p, now), after)
    ensures OthersUnchanged(before, after, Decimal(e.number), e, now)
  {
    NewShells(mid, "", e.number, p, now);
  }

  lemma ContinuedShows(before: Table, mid: Table, after: Table, id: string, p: Pending, e: Event, now: nat)
    requires Shrunk(before, mid) && !e.Backgrounded? && id in mid.shells && Shrunk(Continued(mid, id, p, e, now), after)
    ensures OthersUnchanged(before, after, id, e, now)
  {
  }

  lemma HandledChangesOne(before: Table, after: Table, p: Pending, e: Event, now: nat)
    requires Handled(before, after, p, e, now)
    ensures OnlyOneChanged(before, after, p, e, now)
  {
    var mid :| HandledVia(before, mid, after, p, e, now);
    if e.Backgrounded? {
      SpawnedShows(before, mid, after, p, e, now);
    } else if Lookup(mid, p) != "" {
      ContinuedShows(before, mid, after, Lookup(mid, p), p, e, now);
    } else {
      UnchangedAfterPruning(before, mid, e, now);
    }
  }

  /** A message reaches the shell its pending exec leads to, if that shell stays. */
  ghost predicate MessageReaches(before: Table, after: Table, p: Pending, e: Event, now: nat) {
    var id := Lookup(before, p);
    !e.Backgrounded? && id in before.shells && id in after.shells ==> Shows(e, now, before.shells[id], after.shells[id])
  }

  lemma HandledReaches(before: Table, after: Table, p: Pending, e: Event, now: nat)
    requires Sound(before) && Handled(before, after, p, e, now)
    ensures MessageReaches(before, after, p, e, now)
  {
    var id := Lookup(before, p);
    if !e.Backgrounded? && id in before.shells && id in after.shells {
      var mid :| HandledVia(before, mid, after, p, e, now);
      assert id in mid.shells;
      ShrunkLeads(before, mid, p);
      ContinuedShows(before, mid, after, id, p, e, now);
      assert ShellAfter(before, after, id, e, now, id);
    }
  }

  lemma UnchangedAfterPruning(before: Table, mid: Table, e: Event, now: nat)
    requires Shrunk(before, mid)
    ensures exists id :: OthersUnchanged(before, mid, id, e, now)
  {
    var id: string := AbsentKey(mid.shells.Keys);
    assert OthersUnchanged(before, mid, id, e, now);
  }

  /** Some text is no key: one longer than every key. */
  lemma {:induction false} AbsentKey(keys: set<string>) returns (id: string)
    ensures id != "" && id !in keys && forall k :: k in keys ==> |k| < |id|
  {
    if keys == {} {
      id := "x";
    } else {
      var k :| k in keys;
      id := AbsentKey(keys - {k});
      id := id + k;
      assert |id| > |k|;
      forall j | j in keys ensures |j| < |id| {
        assert j == k || j in keys - {k};
      }
    }
  }

  function Continued(t: Table, id: string, p: Pending, e: Event, now: nat): Table
    requires id in t.shells
  {
    Indexed(t.(shells := t.shells[id := Observed(t.shells[id], e, now)]), id, p)
  }

  class BackgroundShells {
    var shells: map<string, Shell>
    var byMessage: map<nat, string>
    var byExec: map<string, string>

    function View(): Table
      reads this
    {
      Table(shells, byMessage, byExec)
    }

    constructor ()
      ensures View() == EMPTY && Sound(View())
    {
      shells, byMessage, byExec := map[], map[], map[];
    }

    method RemoveBackgroundShell(id: string)
      modifies this
      ensures View() == Remove(old(View()), id)
    {
      var key := Trim(id);
      shells := shells - {key};
      byMessage := DropEntries(byMessage, key);
      byExec := DropEntries(byExec, key);
    }

    /** "" when there is no candidate. */
    method OldestBackgroundShellID(terminalOnly: bool, now: nat) returns (oldest: string)
      requires Sound(View())
      ensures oldest == "" ==> forall k :: k in shells ==> !Candidate(View(), k, terminalOnly)
      ensures oldest != "" ==> Candidate(View(), oldest, terminalOnly)
      ensures oldest != "" ==> OldestAmong(shells[oldest], View(), terminalOnly)
    {
      oldest := "";
      var oldestActivity := now;
      var todo := shells.Keys;
      while todo != {}
        invariant todo <= shells.Keys
        invariant oldest == "" ==> forall k :: k in shells && k !in todo ==> !Candidate(View(), k, terminalOnly)
        invariant oldest != "" ==> Candidate(View(), oldest, terminalOnly) && oldestActivity == Activity(shells[oldest])
        invariant oldest != "" ==>
                    forall k :: k in shells && k !in todo && Candidate(View(), k, terminalOnly) ==> oldestActivity <= Activity(shells[k])
        decreases todo
      {
        var id :| id in todo;
        todo := todo - {id};
        if terminalOnly && !Terminal(shells[id].status) {
          continue;
        }
        var activity := Activity(shells[id]);
        if oldest == "" || activity < oldestActivity {
          oldest := id;
          oldestActivity := activity;
        }
      }
    }

    /** The first loop: expired shells go. */
    method DropExpired(now: nat)
      requires Sound(View())
      modifies this
      ensures Shrunk(old(View()), View())
      ensures forall k :: k in old(shells) ==> (k in shells <==> !Expired(old(shells)[k], now))
    {
      ghost var before := View();
      ShrunkItself(before);
      var todo := shells.Keys;
      while todo != {}
        invariant todo <= shells.Keys && Shrunk(before, View())
        invariant forall k :: k in before.shells ==> (k in shells <==> k in todo || !Expired(before.shells[k], now))
        decreases todo
      {
        var id :| id in todo;
        if Expired(shells[id], now) {
          RemoveShrinks(before, View(), id);
          RemoveBackgroundShell(id);
        }
        todo := todo - {id};
      }
    }

    /** The second and third loops: the least recently active candidates go while there are more than `limit` shells. */
    method EvictOldest(limit: nat, terminalOnly: bool, now: nat)
      requires Sound(View())
      modifies this
      ensures Evicts(old(View()), View(), limit, terminalOnly)
      ensures |shells.Keys| > limit ==> terminalOnly && forall k :: k in shells ==> !Terminal(shells[k].status)
      ensures |old(shells).Keys| <= limit ==> View() == old(View())
    {
      ghost var before := View();
      ShrunkItself(before);
      while |shells.Keys| > limit
        invariant Evicts(before, View(), limit, terminalOnly)
        invariant |before.shells.Keys| <= limit ==> View() == before
        decreases |shells.Keys|
      {
        ShrunkKeepsSound(before, View());
        var oldest := OldestBackgroundShellID(terminalOnly, now);
        if oldest == "" {
          SomeKey(shells.Keys);
          break;
        }
        EvictStep(before, View(), oldest, limit, terminalOnly);
        RemoveShrinks(before, View(), oldest);
        RemoveBackgroundShell(oldest);
      }
    }

    method PruneBackgroundShells(now: nat)
      requires Sound(View())
      modifies this
      ensures Sound(View()) && Pruned(old(View()), View(), now)
    {
      ghost var t0 := View();
      DropExpired(now);
      ghost var t1 := View();
      ShrunkKeepsSound(t0, t1);
      EvictOldest(MAX_RETAINED, true, now);
      ghost var t2 := View();
      ShrunkKeepsSound(t1, t2);
      EvictOldest(HARD_MAX_RETAINED, false, now);
      ShrunkKeepsSound(t2, View());
      LoopsPrune(t0, t1, t2, View(), now);
    }

    method EnsureBackgroundShellState(shellID: string, pending: Pending, now: nat) returns (id: string)
      requires Sound(View())
      modifies this
      ensures id == Trim(shellID) && Sound(View())
      ensures Step(old(View()), Ensure(shellID, pending, now), View())
      ensures id != "" ==> id in shells && (Traceable(pending) ==> Lookup(View(), pending) == id)
    {
      id := Trim(shellID);
      TrimIdempotent(shellID);
      if id == "" {
        return;
      }
      PruneBackgroundShells(now);
      ghost var mid := View();
      if id !in shells {
        shells := shells[id := Shell(Running, now, 0, 0)];
      }
      AddIndexes(id, pending);
      AttachKeepsSound(mid, id, pending, now);
      AttachLeads(mid, id, pending, now, pending);
      assert View().shells == Attach(mid, id, pending, now).shells;
    }

    method AddIndexes(id: string, pending: Pending)
      modifies this
      ensures View() == Indexed(old(View()), id, pending)
    {
      if pending.messageID != 0 {
        byMessage := byMessage[pending.messageID := id];
      }
      if Trim(pending.execID) != "" {
        byExec := byExec[Trim(pending.execID) := id];
      }
    }

    /** A spawn result, or a stream that went to the background. */
    method ObserveSpawn(number: nat, pending: Pending, now: nat)
      requires Sound(View())
      modifies this
      ensures View() == Spawn(old(View()), number, pending, now) && Sound(View())
      ensures Decimal(number) in shells && (Traceable(pending) ==> Lookup(View(), pending) == Decimal(number))
      ensures forall q :: !Shares(pending, q) ==> Lookup(View(), q) == Lookup(old(View()), q)
    {
      SpawnKeepsSound(View(), number, pending, now);
      forall q ensures Traceable(pending) ==> Lookup(Spawn(View(), number, pending, now), pending) == Decimal(number)
               ensures !Shares(pending, q) ==> Lookup(Spawn(View(), number, pending, now), q) == Lookup(View(), q) {
        SpawnLeads(View(), number, pending, now, q);
      }
      var id := Decimal(number);
      var state := if id in shells then shells[id] else Shell(Status.Backgrounded, now, 0, 0);
      shells := shells[id := state.(status := Status.Backgrounded, lastActivityAt := now)];
      AddIndexes(id, pending);
    }

    method ShellIDForMessage(pending: Pending) returns (id: string)
      ensures id == Lookup(View(), pending)
      ensures Sound(View()) ==>
                if Trim(pending.execID) != "" && Trim(pending.execID) in byExec then id == byExec[Trim(pending.execID)]
                else if pending.messageID != 0 && pending.messageID in byMessage then id == byMessage[pending.messageID]
                else id == ""
    {
      var exec := Trim(pending.execID);
      if exec != "" && exec in byExec {
        id := Trim(byExec[exec]);
        if id != "" {
          return;
        }
      }
      if pending.messageID != 0 && pending.messageID in byMessage {
        return Trim(byMessage[pending.messageID]);
      }
      id := "";
    }

    method ObserveShellStream(pending: Pending, event: Event, now: nat)
      requires Sound(View())
      modifies this
      ensures Sound(View()) && Handled(old(View()), View(), pending, event, now)
      ensures OnlyOneChanged(old(View()), View(), pending, event, now)
      ensures MessageReaches(old(View()), View(), pending, event, now)
    {
      ghost var before := View();
      HandleShellStream(pending, event, now);
      HandledChangesOne(before, View(), pending, event, now);
      HandledReaches(before, View(), pending, event, now);
    }

    method HandleShellStream(pending: Pending, event: Event, now: nat)
      requires Sound(View())
      modifies this
      ensures Sound(View()) && Handled(old(View()), View(), pending, event, now)
    {
      ghost var before := View();
      PruneBackgroundShells(now);
      ghost var mid := View();
      var id := ShellIDForMessage(pending);
      LookupFindsShell(mid, pending);
      if event.Backgrounded? {
        ObserveSpawn(event.number, pending, now);
      } else {
        var found := ContinueShell(id, pending, event, now);
        if found == "" {
          assert HandledVia(before, mid, View(), pending, event, now);
          return;
        }
      }
      PruneBackgroundShells(now);
      assert HandledVia(before, mid, View(), pending, event, now);
    }

    /** The shell a message belongs to is ensured and shows the message. */
    method ContinueShell(id: string, pending: Pending, event: Event, now: nat) returns (found: string)
      requires Sound(View()) && Fits(View(), now) && (id == "" || id in shells)
      modifies this
      ensures Sound(View()) && found == id
      ensures id == "" ==> View() == old(View())
      ensures id != "" ==> View() == Continued(old(View()), id, pending, event, now)
    {
      ghost var mid := View();
      TrimKey(mid, id);
      found := EnsureBackgroundShellState(id, pending, now);
      if found == "" {
        return;
      }
      EnsuredIsContinued(mid, View(), id, pending, now);
      shells := shells[found := Observed(shells[found], event, now)];
      assert View().shells == Continued(mid, id, pending, event, now).shells;
    }
  }

  lemma SomeKey(keys: set<string>)
    requires |keys| > 0
    ensures exists k :: k in keys
  {
    var k :| k in keys;
  }

  lemma ShrunkItself(t: Table)
    requires Sound(t)
    ensures Shrunk(t, t)
  {
  }

  lemma RestrictedTwice<K>(index: map<K, string>, a: set<string>, b: set<string>)
    requires b <= a
    ensures Restricted(Restricted(index, a), b) == Restricted(index, b)
  {
  }

  lemma ShrunkTrans(a: Table, b: Table, c: Table)
    requires Shrunk(a, b) && Shrunk(b, c)
    ensures Shrunk(a, c)
  {
    RestrictedTwice(a.byMessage, b.shells.Keys, c.shells.Keys);
    RestrictedTwice(a.byExec, b.shells.Keys, c.shells.Keys);
  }

  /** The three loops of one pruning, put together. */
  lemma LoopsPrune(t0: Table, t1: Table, t2: Table, t3: Table, now: nat)
    requires Shrunk(t0, t1) && forall k :: k in t0.shells ==> (k in t1.shells <==> !Expired(t0.shells[k], now))
    requires Evicts(t1, t2, MAX_RETAINED, true)
    requires |t2.shells.Keys| > MAX_RETAINED ==> forall k :: k in t2.shells ==> !Terminal(t2.shells[k].status)
    requires Evicts(t2, t3, HARD_MAX_RETAINED, false) && |t3.shells.Keys| <= HARD_MAX_RETAINED
    requires |t2.shells.Keys| <= HARD_MAX_RETAINED ==> t3 == t2
    ensures Pruned(t0, t3, now)
  {
    ShrunkTrans(t0, t1, t2);
    ShrunkTrans(t0, t2, t3);
    forall k | Evicted(t0, t3, k) ensures Justified(t0, t3, k, now) {
      if k in t2.shells {
        assert Evicted(t2, t3, k);
      } else if k in t1.shells {
        assert Evicted(t1, t2, k);
        OldestStays(t1.shells[k], t2, t3, true);
        KeepsLimit(t2, t3);
      }
    }
  }

  lemma KeepsLimit(t2: Table, t3: Table)
    requires Evicts(t2, t3, HARD_MAX_RETAINED, false) && |t2.shells.Keys| >= MAX_RETAINED
    ensures |t3.shells.Keys| >= MAX_RETAINED
  {
    if k :| Evicted(t2, t3, k) {
      assert Fair(t2.shells[k], t3, HARD_MAX_RETAINED, false);
    } else {
      forall k | k in t2.shells.Keys ensures k in t3.shells.Keys {
        assert !Evicted(t2, t3, k);
      }
      assert t3.shells.Keys == t2.shells.Keys;
    }
  }

  lemma TrimKey(t: Table, id: string)
    requires Sound(t) && (id == "" || id in t.shells)
    ensures Trim(id) == id
  {
  }

  lemma AttachKnown(t: Table, id: string, p: Pending, now: nat)
    requires id in t.shells
    ensures Attach(t, id, p, now) == Indexed(t, id, p)
  {
    assert t.shells[id := t.shells[id]] == t.shells;
  }

  /** Ensuring a known shell right after a pruning only adds index entries. */
  lemma EnsuredIsContinued(t: Table, u: Table, id: string, p: Pending, now: nat)
    requires Sound(t) && Fits(t, now) && id in t.shells && Step(t, Ensure(id, p, now), u)
    ensures u == Indexed(t, id, p)
  {
    TrimKey(t, id);
    var mid :| Pruned(t, mid, now) && u == Attach(mid, Trim(id), p, now);
    PruneIsIdempotent(t, mid, now);
    AttachKnown(t, id, p, now);
  }
}
