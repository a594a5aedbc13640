/**
 Where the indexes of the shell table lead, and what a shell's times decide
 (internal/backend/forwarder/await_shell_tool.go), told on the entries alone.
 */
module ShellTableIndexes {
  import opened Base
  import opened ShellTableSpec

  /** The pending exec can be traced by its message id or its exec id. */
  predicate Traceable(p: Pending) {
    p.messageID != 0 || Trim(p.execID) != ""
  }

  predicate Shares(p: Pending, q: Pending) {
    (p.messageID != 0 && p.messageID == q.messageID) || (Trim(p.execID) != "" && Trim(p.execID) == Trim(q.execID))
  }

  // ---- One operation ----

  lemma IndexedLeads(t: Table, id: string, p: Pending, q: Pending)
    requires id != "" && Trim(id) == id
    ensures Traceable(p) ==> Lookup(Indexed(t, id, p), p) == id
    ensures !Shares(p, q) ==> Lookup(Indexed(t, id, p), q) == Lookup(t, q)
    ensures Lookup(t, q) == id ==> Lookup(Indexed(t, id, p), q) == id
  {
  }

  /** An ensured shell is where its pending exec leads from then on; nobody else is led elsewhere. */
  lemma AttachLeads(t: Table, id: string, p: Pending, now: nat, q: Pending)
    requires id != "" && Trim(id) == id
    ensures Traceable(p) ==> Lookup(Attach(t, id, p, now), p) == id
    ensures !Shares(p, q) ==> Lookup(Attach(t, id, p, now), q) == Lookup(t, q)
    ensures Lookup(t, q) == id ==> Lookup(Attach(t, id, p, now), q) == id
  {
    var s := if id in t.shells then t.shells[id] else Shell(Running, now, 0, 0);
    IndexedLeads(t.(shells := t.shells[id := s]), id, p, q);
  }

  lemma SpawnLeads(t: Table, number: nat, p: Pending, now: nat, q: Pending)
    ensures Traceable(p) ==> Lookup(Spawn(t, number, p, now), p) == Decimal(number)
    ensures !Shares(p, q) ==> Lookup(Spawn(t, number, p, now), q) == Lookup(t, q)
    ensures Lookup(t, q) == Decimal(number) ==> Lookup(Spawn(t, number, p, now), q) == Decimal(number)
  {
    DecimalIsKey(number);
    var id := Decimal(number);
    var s := if id in t.shells then t.shells[id] else Shell(Backgrounded, now, 0, 0);
    IndexedLeads(t.(shells := t.shells[id := s.(status := Backgrounded, lastActivityAt := now)]), id, p, q);
  }

  /** While a shell stays, whoever is led to it still is. */
  lemma ShrunkLeads(t: Table, u: Table, q: Pending)
    requires Sound(t) && Shrunk(t, u) && Lookup(t, q) in u.shells
    ensures Lookup(u, q) == Lookup(t, q)
  {
  }

  lemma RemoveLeads(t: Table, id: string, q: Pending)
    requires Sound(t) && Lookup(t, q) != Trim(id)
    ensures Lookup(Remove(t, id), q) == Lookup(t, q)
  {
  }

  // ---- Runs ----

  /** The operation attaches a shell for a pending exec. */
  predicate AttachesFor(op: Op, p: Pending, id: string) {
    (op.Ensure? && op.pending == p && Trim(op.id) == id != "") || (op.Spawned? && op.pending == p && Decimal(op.number) == id)
  }

  /** The operation attaches another shell for a pending exec that shares an id with `p`. */
  predicate Redirects(op: Op, p: Pending, id: string) {
    (op.Ensure? && Trim(op.id) != "" && Trim(op.id) != id && Shares(op.pending, p))
    || (op.Spawned? && Decimal(op.number) != id && Shares(op.pending, p))
  }

  /** The shell is not removed by the operation, nor by the pruning inside it. */
  ghost predicate StaysIn(t: Table, op: Op, u: Table, id: string) {
    if op.Ensure? && Trim(op.id) != ""
    then exists mid :: Pruned(t, mid, op.at) && u == Attach(mid, Trim(op.id), op.pending, op.at) && id in mid.shells
    else id in u.shells
  }

  lemma StepAttaches(t: Table, op: Op, u: Table, p: Pending, id: string)
    requires Step(t, op, u) && Traceable(p) && AttachesFor(op, p, id)
    ensures Lookup(u, p) == id
  {
    if op.Ensure? {
      TrimIdempotent(op.id);
      var mid :| Pruned(t, mid, op.at) && u == Attach(mid, Trim(op.id), op.pending, op.at);
      AttachLeads(mid, id, p, op.at, p);
    } else {
      SpawnLeads(t, op.number, p, op.at, p);
    }
  }

  lemma EnsureLeads(t: Table, mid: Table, key: string, q: Pending, now: nat, p: Pending, id: string)
    requires Sound(t) && Pruned(t, mid, now) && Lookup(t, p) == id && id in mid.shells && key != "" && Trim(key) == key
    requires key == id || !Shares(q, p)
    ensures Lookup(Attach(mid, key, q, now), p) == id
  {
    ShrunkLeads(t, mid, p);
    AttachLeads(mid, key, q, now, p);
  }

  lemma StepLeads(t: Table, op: Op, u: Table, p: Pending, id: string)
    requires Sound(t) && Step(t, op, u) && Lookup(t, p) == id != "" && StaysIn(t, op, u, id) && !Redirects(op, p, id)
    ensures Lookup(u, p) == id
  {
    match op {
      case Prune(now) => ShrunkLeads(t, u, p);
      case Ensure(key, q, now) =>
        TrimIdempotent(key);
        if Trim(key) != "" {
          var mid :| Pruned(t, mid, now) && u == Attach(mid, Trim(key), q, now) && id in mid.shells;
          EnsureLeads(t, mid, Trim(key), q, now, p, id);
        }
      case Spawned(number, q, now) => SpawnLeads(t, number, q, now, p);
      case Update(_, _) =>
      case Discard(key) => RemoveLeads(t, key, p);
    }
  }

  /** At step `j` of a run the shell stays, and no other one is attached for the ids of the pending exec. */
  ghost predicate Undisturbed(ops: seq<Op>, tables: seq<Table>, j: nat, p: Pending, id: string)
    requires |tables| == |ops| + 1 && j < |ops|
  {
    StaysIn(tables[j], ops[j], tables[j + 1], id) && !Redirects(ops[j], p, id)
  }

  lemma RunStepLeads(ops: seq<Op>, tables: seq<Table>, j: nat, p: Pending, id: string)
    requires IsRun(ops, tables) && j < |ops| && Undisturbed(ops, tables, j, p, id) && Lookup(tables[j], p) == id != ""
    ensures Lookup(tables[j + 1], p) == id
  {
    RunKeepsSound(ops, tables, j);
    StepLeads(tables[j], ops[j], tables[j + 1], p, id);
  }

  lemma RunStepAttaches(ops: seq<Op>, tables: seq<Table>, i: nat, p: Pending, id: string)
    requires IsRun(ops, tables) && i < |ops| && Traceable(p) && AttachesFor(ops[i], p, id)
    ensures Lookup(tables[i + 1], p) == id
  {
    StepAttaches(tables[i], ops[i], tables[i + 1], p, id);
  }

  /**
   From the operation that attached it on, a pending exec leads to its shell, as long as
   the shell stays and no other one is attached for the same ids.
   */
  lemma {:induction false} PendingLeads(ops: seq<Op>, tables: seq<Table>, i: nat, n: nat, p: Pending, id: string)
    requires IsRun(ops, tables) && i < n < |tables| && Traceable(p) && AttachesFor(ops[i], p, id) && id != ""
    requires forall j: nat :: i < j < n ==> Undisturbed(ops, tables, j, p, id)
    ensures Lookup(tables[n], p) == id
  {
    if n == i + 1 {
      RunStepAttaches(ops, tables, i, p, id);
    } else {
      PendingLeads(ops, tables, i, n - 1, p, id);
      RunStepLeads(ops, tables, n - 1, p, id);
    }
  }

  // ---- Times ----

  /** A terminal shell completed within ten minutes stays in a table of at most 16; one completed before that goes. */
  lemma RetentionIsTenMinutes(t: Table, u: Table, now: nat, k: string)
    requires Pruned(t, u, now) && |t.shells.Keys| <= 16 && k in t.shells
    ensures var s := t.shells[k];
            var ended := if s.completedAt != 0 then s.completedAt else s.lastActivityAt;
            k in u.shells <==>
              !((s.status == Completed || s.status == Rejected || s.status == PermissionDenied || s.status == TransportClosed)
                && ended != 0 && ended + 600 < now)
  {
    NoNeedlessEviction(t, u, now);
  }

  /** Of two shells that may go, the one whose last sign of life is older goes first. */
  lemma OlderGoesFirst(t: Table, u: Table, now: nat, a: string, b: string)
    requires Pruned(t, u, now) && a in u.shells && b in t.shells && b !in u.shells && !Expired(t.shells[b], now)
    requires Terminal(t.shells[b].status) ==> Terminal(t.shells[a].status)
    ensures var x, y := t.shells[a], t.shells[b];
            (if y.completedAt != 0 then y.completedAt else if y.lastActivityAt != 0 then y.lastActivityAt else y.createdAt)
            <= (if x.completedAt != 0 then x.completedAt else if x.lastActivityAt != 0 then x.lastActivityAt else x.createdAt)
  {
    assert Evicted(t, u, b);
    assert Justified(t, u, b, now);
    assert Candidate(u, a, Terminal(t.shells[b].status));
  }

  /** Every terminal shell goes before any live one does. */
  lemma TerminalGoFirst(t: Table, u: Table, now: nat, a: string, b: string)
    requires Pruned(t, u, now) && a in t.shells && Terminal(t.shells[a].status)
    requires b in t.shells && b !in u.shells && !Terminal(t.shells[b].status)
    ensures a !in u.shells
  {
    LiveShellsStay(t, u, b, now);
  }

  /** A shell is made running, or in the background when it was spawned, and created now. */
  lemma NewShells(t: Table, id: string, number: nat, p: Pending, now: nat)
    ensures var a := Attach(t, id, p, now).shells;
            id in a && a[id] == if id in t.shells then t.shells[id] else Shell(Running, now, 0, 0)
    ensures var b := Spawn(t, number, p, now).shells;
            && Decimal(number) in b && b[Decimal(number)].status == Backgrounded && b[Decimal(number)].lastActivityAt == now
            && (Decimal(number) !in t.shells ==> b[Decimal(number)].createdAt == now && b[Decimal(number)].completedAt == 0)
            && (Decimal(number) in t.shells ==>
                  b[Decimal(number)].createdAt == t.shells[Decimal(number)].createdAt
                  && b[Decimal(number)].completedAt == t.shells[Decimal(number)].completedAt)
    ensures forall k :: k in t.shells && k != id ==> k in Attach(t, id, p, now).shells && Attach(t, id, p, now).shells[k] == t.shells[k]
    ensures forall k :: k in t.shells && k != Decimal(number) ==>
              k in Spawn(t, number, p, now).shells && Spawn(t, number, p, now).shells[k] == t.shells[k]
  {
  }
}
