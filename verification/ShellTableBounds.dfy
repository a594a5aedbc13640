/**
 How many background shells the table holds: exactly after a pruning, and exactly when
 a step or a whole run exceeds the hard limit.
 */
module ShellTableBounds {
  import opened Base
  import opened ShellTableSpec

  function Live(t: Table): set<string> {
    set k | k in t.shells && !Terminal(t.shells[k].status)
  }

  function Unexpired(t: Table, now: nat): set<string> {
    set k | k in t.shells && !Expired(t.shells[k], now)
  }

  // ---- The size of a pruned table ----

  /** Below 32 shells no live one was evicted, below 16 none that had not expired. */
  lemma StaysBelow(t: Table, mid: Table, now: nat)
    requires Pruned(t, mid, now)
    ensures |mid.shells.Keys| < HARD_MAX_RETAINED ==> Live(t) <= mid.shells.Keys
    ensures |mid.shells.Keys| < MAX_RETAINED ==> Unexpired(t, now) <= mid.shells.Keys
  {
    forall k | k in t.shells && k !in mid.shells ensures Justified(t, mid, k, now) {
      assert Evicted(t, mid, k);
    }
  }

  /** Nothing expired is left, and above 16 shells nothing terminal. */
  lemma LeftAre(t: Table, mid: Table, now: nat)
    requires Pruned(t, mid, now)
    ensures mid.shells.Keys <= Unexpired(t, now)
    ensures |mid.shells.Keys| > MAX_RETAINED ==> mid.shells.Keys <= Live(t)
  {
  }

  function PrunedSize(unexpired: nat, live: nat): nat {
    if unexpired <= MAX_RETAINED then unexpired
    else if live <= MAX_RETAINED then MAX_RETAINED
    else if live <= HARD_MAX_RETAINED then live
    else HARD_MAX_RETAINED
  }

  /** Whatever the order of visiting, a pruning leaves a number of shells that depends only on two counts. */
  lemma PruneSizeExact(t: Table, mid: Table, now: nat)
    requires Pruned(t, mid, now)
    ensures |mid.shells.Keys| == PrunedSize(|Unexpired(t, now)|, |Live(t)|)
  {
    StaysBelow(t, mid, now);
    LeftAre(t, mid, now);
    Cardinality(mid.shells.Keys, Unexpired(t, now));
    if |mid.shells.Keys| < MAX_RETAINED {
      Cardinality(Unexpired(t, now), mid.shells.Keys);
    }
    if |mid.shells.Keys| < HARD_MAX_RETAINED {
      Cardinality(Live(t), mid.shells.Keys);
    }
    if |mid.shells.Keys| > MAX_RETAINED {
      Cardinality(mid.shells.Keys, Live(t));
    }
    assert Live(t) <= Unexpired(t, now);
    Cardinality(Live(t), Unexpired(t, now));
  }

  // ---- One step ----

  lemma AddOne(a: set<string>, x: string)
    ensures |a + {x}| == |a| + (if x in a then 0 else 1)
  {
    if x in a {
      assert a + {x} == a;
    }
  }

  lemma AttachSize(t: Table, id: string, p: Pending, now: nat)
    ensures |Attach(t, id, p, now).shells.Keys| == |t.shells.Keys| + (if id in t.shells then 0 else 1)
  {
    assert Attach(t, id, p, now).shells.Keys == t.shells.Keys + {id};
    AddOne(t.shells.Keys, id);
  }

  lemma SpawnSize(t: Table, number: nat, p: Pending, now: nat)
    ensures |Spawn(t, number, p, now).shells.Keys| == |t.shells.Keys| + (if Decimal(number) in t.shells then 0 else 1)
  {
    assert Spawn(t, number, p, now).shells.Keys == t.shells.Keys + {Decimal(number)};
    AddOne(t.shells.Keys, Decimal(number));
  }

  /** An ensured shell makes the table exceed the limit exactly when 32 live shells stay and it is none of them. */
  lemma EnsureFitsIff(t: Table, mid: Table, id: string, p: Pending, now: nat)
    requires Pruned(t, mid, now)
    ensures |Attach(mid, id, p, now).shells.Keys| <= HARD_MAX_RETAINED
        <==> |Live(t)| < HARD_MAX_RETAINED || id in mid.shells
  {
    PruneSizeExact(t, mid, now);
    assert Live(t) <= Unexpired(t, now);
    Cardinality(Live(t), Unexpired(t, now));
    AttachSize(mid, id, p, now);
  }

  /** A table within the limit whose shells are 32 live ones is left alone by a pruning. */
  lemma FullStays(t: Table, mid: Table, now: nat)
    requires Pruned(t, mid, now) && |t.shells.Keys| <= HARD_MAX_RETAINED <= |Live(t)|
    ensures mid.shells.Keys == t.shells.Keys
  {
    forall k | k in t.shells ensures k in mid.shells {
      if k !in mid.shells {
        assert |mid.shells.Keys| < HARD_MAX_RETAINED by {
          SmallerWhenEvicted(t, mid, k);
        }
        PruneSizeExact(t, mid, now);
        Cardinality(Live(t), Unexpired(t, now));
        assert false;
      }
    }
  }

  /** The step that takes a table of at most 32 shells above 32: a new id, with 32 shells there or, after a pruning, 32 live ones. */
  predicate Overflows(t: Table, op: Op) {
    match op
    case Spawned(number, _, _) => Decimal(number) !in t.shells && |t.shells.Keys| >= HARD_MAX_RETAINED
    case Ensure(id, _, _) => Trim(id) != "" && Trim(id) !in t.shells && |Live(t)| >= HARD_MAX_RETAINED
    case Prune(_) => false
    case Update(_, _) => false
    case Discard(_) => false
  }

  lemma OtherSize(t: Table, op: Op, u: Table)
    requires Step(t, op, u) && (op.Update? || op.Discard?)
    ensures |u.shells.Keys| <= |t.shells.Keys|
  {
    assert u.shells.Keys <= t.shells.Keys;
    Cardinality(u.shells.Keys, t.shells.Keys);
  }

  lemma EnsureStepFits(t: Table, mid: Table, id: string, p: Pending, now: nat)
    requires Pruned(t, mid, now) && |t.shells.Keys| <= HARD_MAX_RETAINED
    ensures |Attach(mid, id, p, now).shells.Keys| <= HARD_MAX_RETAINED
        <==> !(id !in t.shells && |Live(t)| >= HARD_MAX_RETAINED)
  {
    EnsureFitsIff(t, mid, id, p, now);
    if |Live(t)| >= HARD_MAX_RETAINED {
      FullStays(t, mid, now);
    }
  }

  /** From a table within the limit, exactly these steps leave the limit. */
  lemma StepFitsIff(t: Table, op: Op, u: Table)
    requires Step(t, op, u) && |t.shells.Keys| <= HARD_MAX_RETAINED
    ensures |u.shells.Keys| <= HARD_MAX_RETAINED <==> !Overflows(t, op)
  {
    match op {
      case Prune(now) =>
      case Ensure(id, p, now) =>
        if Trim(id) != "" {
          var mid :| Pruned(t, mid, now) && u == Attach(mid, Trim(id), p, now);
          EnsureStepFits(t, mid, Trim(id), p, now);
        }
      case Spawned(number, p, now) => SpawnSize(t, number, p, now);
      case Update(_, _) => OtherSize(t, op, u);
      case Discard(_) => OtherSize(t, op, u);
    }
  }

  // ---- Runs ----

  lemma {:induction false} FitsSoFar(ops: seq<Op>, tables: seq<Table>, n: nat)
    requires IsRun(ops, tables) && n < |tables|
    requires forall i :: 0 <= i < |ops| ==> !Overflows(tables[i], ops[i])
    ensures |tables[n].shells.Keys| <= HARD_MAX_RETAINED
  {
    if n > 0 {
      FitsSoFar(ops, tables, n - 1);
      StepFitsIff(tables[n - 1], ops[n - 1], tables[n]);
    }
  }

  /** A run keeps to the hard limit at every moment if and only if none of its steps overflows the table it meets. */
  lemma RunFitsIff(ops: seq<Op>, tables: seq<Table>)
    requires IsRun(ops, tables)
    ensures (forall n :: 0 <= n < |tables| ==> |tables[n].shells.Keys| <= HARD_MAX_RETAINED)
        <==> (forall i :: 0 <= i < |ops| ==> !Overflows(tables[i], ops[i]))
  {
    if forall i :: 0 <= i < |ops| ==> !Overflows(tables[i], ops[i]) {
      forall n | 0 <= n < |tables| ensures |tables[n].shells.Keys| <= HARD_MAX_RETAINED {
        FitsSoFar(ops, tables, n);
      }
    }
    if forall n :: 0 <= n < |tables| ==> |tables[n].shells.Keys| <= HARD_MAX_RETAINED {
      forall i | 0 <= i < |ops| ensures !Overflows(tables[i], ops[i]) {
        assert |tables[i].shells.Keys| <= HARD_MAX_RETAINED && |tables[i + 1].shells.Keys| <= HARD_MAX_RETAINED;
        StepFitsIff(tables[i], ops[i], tables[i + 1]);
      }
    }
  }

  /** How many ids were new when they were attached since the last pruning; an ensured shell counts only if it may not fit. */
  function Pressure(t: Table, op: Op, before: nat): nat {
    match op
    case Prune(_) => 0
    case Ensure(id, _, _) =>
      if Trim(id) == "" then before
      else if |Live(t)| < HARD_MAX_RETAINED || (|t.shells.Keys| <= HARD_MAX_RETAINED && Trim(id) in t.shells) then 0
      else 1
    case Spawned(number, _, _) => if Decimal(number) in t.shells then before else before + 1
    case Update(_, _) => before
    case Discard(_) => before
  }

  function NewSincePruning(ops: seq<Op>, tables: seq<Table>): nat
    requires |tables| == |ops| + 1
  {
    if ops == [] then 0
    else
      var n := |ops| - 1;
      Pressure(tables[n], ops[n], NewSincePruning(ops[..n], tables[..|ops|]))
  }

  lemma StepGrowth(t: Table, op: Op, u: Table, before: nat)
    requires Step(t, op, u) && |t.shells.Keys| <= HARD_MAX_RETAINED + before
    ensures |u.shells.Keys| <= HARD_MAX_RETAINED + Pressure(t, op, before)
  {
    match op {
      case Prune(now) =>
      case Ensure(id, p, now) =>
        if Trim(id) != "" {
          var mid :| Pruned(t, mid, now) && u == Attach(mid, Trim(id), p, now);
          AttachSize(mid, Trim(id), p, now);
          EnsureFitsIff(t, mid, Trim(id), p, now);
          if |t.shells.Keys| <= HARD_MAX_RETAINED {
            EnsureStepFits(t, mid, Trim(id), p, now);
          }
        }
      case Spawned(number, p, now) => SpawnSize(t, number, p, now);
      case Update(_, _) => OtherSize(t, op, u);
      case Discard(_) => OtherSize(t, op, u);
    }
  }

  lemma RunPrefix(ops: seq<Op>, tables: seq<Table>)
    requires IsRun(ops, tables) && ops != []
    ensures IsRun(ops[..|ops| - 1], tables[..|ops|])
  {
    var before, earlier := ops[..|ops| - 1], tables[..|ops|];
    forall i | 0 <= i < |before| ensures Step(earlier[i], before[i], earlier[i + 1]) {
      assert Step(tables[i], ops[i], tables[i + 1]);
    }
  }

  /** Beyond the limit the table holds at most the ids that were new when attached since the last pruning. */
  lemma {:induction false} TableIsBounded(ops: seq<Op>, tables: seq<Table>)
    requires IsRun(ops, tables)
    ensures |tables[|ops|].shells.Keys| <= HARD_MAX_RETAINED + NewSincePruning(ops, tables)
  {
    if ops != [] {
      var n := |ops| - 1;
      RunPrefix(ops, tables);
      TableIsBounded(ops[..n], tables[..|ops|]);
      StepGrowth(tables[n], ops[n], tables[n + 1], NewSincePruning(ops[..n], tables[..|ops|]));
    }
  }

  // ---- Spawn results alone never prune ----

  function Spawns(n: nat): seq<Op> {
    seq(n, i requires 0 <= i < n => Spawned(i, Pending(0, ""), 1))
  }

  function AfterSpawns(n: nat): Table {
    if n == 0 then EMPTY else Spawn(AfterSpawns(n - 1), n - 1, Pending(0, ""), 1)
  }

  /** `n` live shells under the first `n` numbers. */
  predicate Filled(t: Table, n: nat) {
    && |t.shells.Keys| == n && Live(t) == t.shells.Keys
    && forall k :: k in t.shells ==> AllDigits(k) && Number(k) < n
  }

  lemma SpawnFills(t: Table, n: nat)
    requires Filled(t, n)
    ensures Filled(Spawn(t, n, Pending(0, ""), 1), n + 1)
  {
    DecimalRoundTrip(n);
    SpawnSize(t, n, Pending(0, ""), 1);
    var u := Spawn(t, n, Pending(0, ""), 1);
    assert u.shells.Keys == t.shells.Keys + {Decimal(n)};
    forall k | k in u.shells ensures k in Live(u) {
      assert k != Decimal(n) ==> k in Live(t);
    }
  }

  lemma {:induction false} SpawnsFill(n: nat)
    ensures Filled(AfterSpawns(n), n)
  {
    if n > 0 {
      SpawnsFill(n - 1);
      SpawnFills(AfterSpawns(n - 1), n - 1);
    }
  }

  lemma SpawnsRun(n: nat, tables: seq<Table>)
    requires |tables| == n + 1 && forall i :: 0 <= i <= n ==> tables[i] == AfterSpawns(i)
    ensures IsRun(Spawns(n), tables)
  {
    forall i | 0 <= i < n ensures Step(tables[i], Spawns(n)[i], tables[i + 1]) {
      assert tables[i + 1] == Spawn(tables[i], i, Pending(0, ""), 1);
    }
  }

  /** The hard limit is not a bound on the table: spawn results alone grow it to any number of live shells. */
  lemma SpawnsExceedLimit(n: nat)
    ensures exists tables: seq<Table> :: IsRun(Spawns(n), tables) && |Live(tables[n])| == |tables[n].shells.Keys| == n
  {
    var tables := seq(n + 1, i requires 0 <= i <= n => AfterSpawns(i));
    SpawnsRun(n, tables);
    SpawnsFill(n);
    assert IsRun(Spawns(n), tables);
  }

  /** Nor does the pruning before an ensured shell help when 32 live shells are there already. */
  lemma EnsureExceedsLimit(t: Table, id: string, p: Pending, now: nat, u: Table)
    requires |Live(t)| == |t.shells.Keys| == HARD_MAX_RETAINED && Trim(id) != "" && Trim(id) !in t.shells
    requires Step(t, Ensure(id, p, now), u)
    ensures |u.shells.Keys| == HARD_MAX_RETAINED + 1
  {
    var mid :| Pruned(t, mid, now) && u == Attach(mid, Trim(id), p, now);
    FullStays(t, mid, now);
    AttachSize(mid, Trim(id), p, now);
  }
}
