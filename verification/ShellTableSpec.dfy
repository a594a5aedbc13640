/**
 The table of background shells with its two secondary indexes
 (internal/backend/forwarder/await_shell_tool.go). Times are numbers, 0 being the
 zero time. Go visits a map in any order, so pruning is specified as a relation.
 */
module ShellTableSpec {
  import opened Base

  const MAX_RETAINED: nat := 16
  const HARD_MAX_RETAINED: nat := 32
  const RETENTION_TTL: nat := 600

  datatype Status = Backgrounded | Running | Completed | Rejected | PermissionDenied | TransportClosed

  predicate Terminal(s: Status) {
    s.Completed? || s.Rejected? || s.PermissionDenied? || s.TransportClosed?
  }

  datatype Shell = Shell(status: Status, createdAt: nat, lastActivityAt: nat, completedAt: nat)

  datatype Table = Table(shells: map<string, Shell>, byMessage: map<nat, string>, byExec: map<string, string>)

  const EMPTY: Table := Table(map[], map[], map[])

  function FirstNonZero(a: nat, b: nat): nat {
    if a != 0 then a else b
  }

  function Activity(s: Shell): nat {
    FirstNonZero(s.completedAt, FirstNonZero(s.lastActivityAt, s.createdAt))
  }

  predicate Expired(s: Shell, now: nat) {
    var completedAt := FirstNonZero(s.completedAt, s.lastActivityAt);
    Terminal(s.status) && completedAt != 0 && completedAt < now - RETENTION_TTL
  }

  /** Stored keys are trimmed and not empty, and both indexes name existing shells only. */
  predicate Sound(t: Table) {
    && (forall k :: k in t.shells ==> k != "" && Trim(k) == k)
    && (forall m :: m in t.byMessage ==> t.byMessage[m] in t.shells)
    && (forall e :: e in t.byExec ==> t.byExec[e] in t.shells)
  }

  /** An index without the entries that lead to `key`, as the deletion loops leave it. */
  function Without<K>(index: map<K, string>, key: string): map<K, string> {
    map x | x in index && Trim(index[x]) != key :: index[x]
  }

  /** An index with only the entries that lead into `keys`. */
  function Restricted<K>(index: map<K, string>, keys: set<string>): map<K, string> {
    map x | x in index && index[x] in keys :: index[x]
  }

  function Remove(t: Table, id: string): Table {
    Table(t.shells - {Trim(id)}, Without(t.byMessage, Trim(id)), Without(t.byExec, Trim(id)))
  }

  /** Some shells are gone with exactly their index entries; everything else is as it was. */
  predicate Shrunk(before: Table, after: Table) {
    && after.shells.Keys <= before.shells.Keys
    && (forall k :: k in after.shells ==> after.shells[k] == before.shells[k])
    && after.byMessage == Restricted(before.byMessage, after.shells.Keys)
    && after.byExec == Restricted(before.byExec, after.shells.Keys)
  }

  predicate Evicted(before: Table, after: Table, k: string) {
    k in before.shells && k !in after.shells
  }

  predicate Candidate(t: Table, k: string, terminalOnly: bool) {
    k in t.shells && (terminalOnly ==> Terminal(t.shells[k].status))
  }

  /** No candidate in the table has been idle longer than `s`. */
  ghost predicate OldestAmong(s: Shell, t: Table, terminalOnly: bool) {
    forall j :: Candidate(t, j, terminalOnly) ==> Activity(s) <= Activity(t.shells[j])
  }

  /** What is left is small enough. */
  predicate Fits(t: Table, now: nat) {
    && (forall k :: k in t.shells ==> !Expired(t.shells[k], now))
    && |t.shells.Keys| <= HARD_MAX_RETAINED
    && (|t.shells.Keys| > MAX_RETAINED ==> forall k :: k in t.shells ==> !Terminal(t.shells[k].status))
  }

  /**
   Why a shell may be gone: it is terminal and expired; or terminal, least recently
   active among the terminal ones, and 16 shells remain; or live, least recently
   active of all, and 32 remain.
   */
  ghost predicate Justified(before: Table, after: Table, k: string, now: nat)
    requires k in before.shells
  {
    var s := before.shells[k];
    || Expired(s, now)
    || (Terminal(s.status) && |after.shells.Keys| >= MAX_RETAINED && OldestAmong(s, after, true))
    || (!Terminal(s.status) && |after.shells.Keys| >= HARD_MAX_RETAINED && OldestAmong(s, after, false))
  }

  ghost predicate Pruned(before: Table, after: Table, now: nat) {
    && Shrunk(before, after)
    && Fits(after, now)
    && forall k :: Evicted(before, after, k) ==> Justified(before, after, k, now)
  }

  // ---- Pruning ----

  lemma ShrunkKeepsSound(before: Table, after: Table)
    requires Sound(before) && Shrunk(before, after)
    ensures Sound(after)
  {
  }

  lemma RestrictedWithout<K>(index: map<K, string>, keys: set<string>, k: string)
    requires k in keys && forall x :: x in keys ==> Trim(x) == x
    ensures Without(Restricted(index, keys), k) == Restricted(index, keys - {k})
  {
  }

  lemma RemoveShrinks(before: Table, t: Table, k: string)
    requires Sound(before) && Shrunk(before, t) && k in t.shells
    ensures Shrunk(before, Remove(t, k)) && |Remove(t, k).shells.Keys| == |t.shells.Keys| - 1
    ensures Remove(t, k).shells.Keys == t.shells.Keys - {k}
  {
    assert Remove(t, k).shells.Keys == t.shells.Keys - {k};
    RestrictedWithout(before.byMessage, t.shells.Keys, k);
    RestrictedWithout(before.byExec, t.shells.Keys, k);
  }

  /** Only candidates went, each when it was the oldest, and never below the limit. */
  ghost predicate Evicts(before: Table, after: Table, limit: nat, terminalOnly: bool) {
    && Shrunk(before, after)
    && forall k :: Evicted(before, after, k) ==> Fair(before.shells[k], after, limit, terminalOnly)
  }

  ghost predicate Fair(s: Shell, after: Table, limit: nat, terminalOnly: bool) {
    (terminalOnly ==> Terminal(s.status)) && |after.shells.Keys| >= limit && OldestAmong(s, after, terminalOnly)
  }

  lemma EvictStep(before: Table, t: Table, k: string, limit: nat, terminalOnly: bool)
    requires Sound(before) && Evicts(before, t, limit, terminalOnly) && |t.shells.Keys| > limit
    requires Candidate(t, k, terminalOnly) && OldestAmong(t.shells[k], t, terminalOnly)
    ensures Evicts(before, Remove(t, k), limit, terminalOnly)
  {
    RemoveShrinks(before, t, k);
    var r := Remove(t, k);
    forall j | Evicted(before, r, j) ensures Fair(before.shells[j], r, limit, terminalOnly) {
      if j != k {
        assert j !in t.shells && Evicted(before, t, j);
        assert Fair(before.shells[j], t, limit, terminalOnly);
      }
      OldestStays(before.shells[j], t, r, terminalOnly);
    }
  }

  lemma OldestStays(s: Shell, t: Table, r: Table, terminalOnly: bool)
    requires OldestAmong(s, t, terminalOnly) && forall j :: j in r.shells ==> j in t.shells && r.shells[j] == t.shells[j]
    ensures OldestAmong(s, r, terminalOnly)
  {
    forall j | Candidate(r, j, terminalOnly) ensures Activity(s) <= Activity(r.shells[j]) {
      assert Candidate(t, j, terminalOnly);
    }
  }

  lemma SmallerWhenEvicted(before: Table, after: Table, k: string)
    requires Shrunk(before, after) && Evicted(before, after, k)
    ensures |after.shells.Keys| < |before.shells.Keys|
  {
    assert after.shells.Keys <= before.shells.Keys - {k};
    Cardinality(after.shells.Keys, before.shells.Keys - {k});
  }

  lemma {:induction false} Cardinality(a: set<string>, b: set<string>)
    requires a <= b
    ensures |a| <= |b|
  {
    if x :| x in a {
      Cardinality(a - {x}, b - {x});
    }
  }

  /** A pruned table is left alone by the next pruning at the same time. */
  lemma PruneIsIdempotent(t: Table, after: Table, now: nat)
    requires Fits(t, now) && Pruned(t, after, now)
    ensures after.shells == t.shells
    ensures Sound(t) ==> after == t
  {
    forall k | k in t.shells ensures k in after.shells {
      if k !in after.shells {
        assert Justified(t, after, k, now) by {
          assert Evicted(t, after, k);
        }
        SmallerWhenEvicted(t, after, k);
        assert false;
      }
    }
    assert after.shells.Keys == t.shells.Keys;
    if Sound(t) {
      assert after.byMessage == t.byMessage;
      assert after.byExec == t.byExec;
    }
  }

  /** A live shell goes only when 32 others stay, none of them terminal. */
  lemma LiveShellsStay(before: Table, after: Table, k: string, now: nat)
    requires Pruned(before, after, now) && k in before.shells && !Terminal(before.shells[k].status)
    ensures k in after.shells
         || (|after.shells.Keys| == HARD_MAX_RETAINED && forall j :: j in after.shells ==> !Terminal(after.shells[j].status))
  {
    if k !in after.shells {
      assert Evicted(before, after, k);
    }
  }

  /** Nothing is evicted from a table that fits already. */
  lemma NoNeedlessEviction(before: Table, after: Table, now: nat)
    requires Pruned(before, after, now) && |before.shells.Keys| <= MAX_RETAINED
    ensures forall k :: k in before.shells ==> (k in after.shells <==> !Expired(before.shells[k], now))
  {
    forall k | k in before.shells && k !in after.shells ensures Expired(before.shells[k], now) {
      assert Evicted(before, after, k);
      SmallerWhenEvicted(before, after, k);
    }
  }

  // ---- The other operations ----

  datatype Pending = Pending(messageID: nat, execID: string)

  function Indexed(t: Table, id: string, p: Pending): Table {
    var m := if p.messageID != 0 then t.byMessage[p.messageID := id] else t.byMessage;
    var e := if Trim(p.execID) != "" then t.byExec[Trim(p.execID) := id] else t.byExec;
    t.(byMessage := m, byExec := e)
  }

  function Attach(t: Table, id: string, p: Pending, now: nat): Table {
    var s := if id in t.shells then t.shells[id] else Shell(Running, now, 0, 0);
    Indexed(t.(shells := t.shells[id := s]), id, p)
  }

  function Spawn(t: Table, number: nat, p: Pending, now: nat): Table {
    var id := Decimal(number);
    var s := if id in t.shells then t.shells[id] else Shell(Backgrounded, now, 0, 0);
    Indexed(t.(shells := t.shells[id := s.(status := Backgrounded, lastActivityAt := now)]), id, p)
  }

  function Lookup(t: Table, p: Pending): string {
    var e := Trim(p.execID);
    if e != "" && e in t.byExec && Trim(t.byExec[e]) != "" then Trim(t.byExec[e])
    else if p.messageID != 0 && p.messageID in t.byMessage then Trim(t.byMessage[p.messageID])
    else ""
  }

  /** An index never leads to a shell that is gone. */
  lemma LookupFindsShell(t: Table, p: Pending)
    requires Sound(t)
    ensures Lookup(t, p) == "" || Lookup(t, p) in t.shells
    ensures (p.messageID != 0 && p.messageID in t.byMessage) || (Trim(p.execID) != "" && Trim(p.execID) in t.byExec) ==>
              Lookup(t, p) != ""
  {
  }

  lemma DecimalIsKey(n: nat)
    ensures Decimal(n) != "" && Trim(Decimal(n)) == Decimal(n)
  {
    DecimalRoundTrip(n);
    var d := Decimal(n);
    assert IsDigit(d[0]) && IsDigit(d[|d| - 1]);
    TrimKeeps(d);
  }

  lemma AttachKeepsSound(t: Table, id: string, p: Pending, now: nat)
    requires Sound(t) && id != "" && Trim(id) == id
    ensures Sound(Attach(t, id, p, now))
  {
  }

  lemma SpawnKeepsSound(t: Table, number: nat, p: Pending, now: nat)
    requires Sound(t)
    ensures Sound(Spawn(t, number, p, now))
  {
    DecimalIsKey(number);
  }

  // ---- Runs ----

  /** The lock regions are made of these steps; Update stands for every change of a shell's own fields. */
  datatype Op =
    | Prune(now: nat)
    | Ensure(id: string, pending: Pending, at: nat)
    | Spawned(number: nat, pending: Pending, at: nat)
    | Update(id: string, shell: Shell)
    | Discard(id: string)

  ghost predicate Step(t: Table, op: Op, u: Table) {
    match op
    case Prune(now) => Pruned(t, u, now)
    case Ensure(id, p, now) =>
      if Trim(id) == "" then u == t else exists mid :: Pruned(t, mid, now) && u == Attach(mid, Trim(id), p, now)
    case Spawned(number, p, now) => u == Spawn(t, number, p, now)
    case Update(id, s) => if id in t.shells then u == t.(shells := t.shells[id := s]) else u == t
    case Discard(id) => u == Remove(t, id)
  }

  /** A run: its operations and the table before, between and after them. */
  ghost predicate IsRun(ops: seq<Op>, tables: seq<Table>) {
    && |tables| == |ops| + 1 && tables[0] == EMPTY
    && forall i :: 0 <= i < |ops| ==> Step(tables[i], ops[i], tables[i + 1])
  }

  lemma RemoveKeepsSound(t: Table, id: string)
    requires Sound(t)
    ensures Sound(Remove(t, id))
  {
    var r := Remove(t, id);
    forall m | m in r.byMessage ensures r.byMessage[m] in r.shells {
      assert t.byMessage[m] in t.shells;
    }
    forall e | e in r.byExec ensures r.byExec[e] in r.shells {
      assert t.byExec[e] in t.shells;
    }
  }

  lemma StepKeepsSound(t: Table, op: Op, u: Table)
    requires Sound(t) && Step(t, op, u)
    ensures Sound(u)
  {
    match op {
      case Prune(now) => ShrunkKeepsSound(t, u);
      case Ensure(id, p, now) =>
        TrimIdempotent(id);
        if Trim(id) != "" {
          var mid :| Pruned(t, mid, now) && u == Attach(mid, Trim(id), p, now);
          ShrunkKeepsSound(t, mid);
          AttachKeepsSound(mid, Trim(id), p, now);
        }
      case Spawned(number, p, now) => SpawnKeepsSound(t, number, p, now);
      case Update(_, _) =>
      case Discard(id) => RemoveKeepsSound(t, id);
    }
  }

  lemma {:induction false} RunKeepsSound(ops: seq<Op>, tables: seq<Table>, n: nat)
    requires IsRun(ops, tables) && n < |tables|
    ensures Sound(tables[n])
  {
    if n > 0 {
      RunKeepsSound(ops, tables, n - 1);
      StepKeepsSound(tables[n - 1], ops[n - 1], tables[n]);
    }
  }

  /** In every run, an index entry leads to a shell that is still in the table. */
  lemma IndexesNeverDangle(ops: seq<Op>, tables: seq<Table>, n: nat, p: Pending)
    requires IsRun(ops, tables) && n < |tables|
    ensures Lookup(tables[n], p) == "" || Lookup(tables[n], p) in tables[n].shells
    ensures forall m :: m in tables[n].byMessage ==> tables[n].byMessage[m] in tables[n].shells
    ensures forall e :: e in tables[n].byExec ==> tables[n].byExec[e] in tables[n].shells
  {
    RunKeepsSound(ops, tables, n);
    LookupFindsShell(tables[n], p);
  }
}
