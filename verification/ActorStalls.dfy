/**
 The ways in which a live turn comes to wait for nobody: for each of them exactly the
 commands that cause it, that it is reachable, and that it stays. A run without such a
 command always has somebody to wait for, or nothing to do.
 */
module ActorStalls {
  import opened Base
  import opened BrokerSpec
  import opened ActorSpec

  // ---- A pending compaction that nobody will end ----

  /** A live stream whose compaction waits for nothing. */
  predicate Wedged(t: Turn) {
    !Terminal(t.status) && t.compaction && !HookPending(t)
    && !(t.active && t.worker == SummaryCall(t.summaryToken))
  }

  /** The hook reports but the compaction request cannot be appended, or the hook is given up by transport recovery. */
  predicate Wedges(t: Turn, op: Op) {
    && !Terminal(t.status) && (op.ExecResult? || op.RecoverExec?)
    && op.id in t.execs && t.execs[op.id]
    && op.appendOk == op.RecoverExec?
  }

  lemma SameHooks(t: Turn, u: Turn)
    requires forall id :: (id in t.execs && t.execs[id]) <==> (id in u.execs && u.execs[id])
    ensures HookPending(t) <==> HookPending(u)
  {
  }

  lemma ReconcileWedged(t: Turn, o: DriveOutcome, ok: bool)
    ensures Wedged(Reconcile(t, o, ok)) <==> Wedged(t)
  {
    var u := Reconcile(t, o, ok);
    if t.compaction {
      assert u.execs == t.execs;
    } else if u.compaction {
      assert o.hook in u.execs && u.execs[o.hook];
    }
  }

  lemma RunRequestWedged(t: Turn, prewarm: bool, o: DriveOutcome, ok: bool)
    requires Inv(t) && !Wedged(t)
    ensures !Wedged(Step(t, RunRequest(prewarm), o, ok))
  {
    var u := Step(t, RunRequest(true), o, ok);
    if !prewarm {
      ReconcileWedged(u.(action := Start), o, ok);
    }
  }

  lemma OpenWedged(t: Turn, op: Op, o: DriveOutcome, ok: bool)
    requires Inv(t) && !Wedged(t) && (op.OpenExec? || op.OpenInteraction?)
    ensures !Wedged(Step(t, op, o, ok))
  {
    SameHooks(t, Step(t, op, o, ok));
  }

  lemma InteractionWedged(t: Turn, op: Op, o: DriveOutcome, ok: bool)
    requires Inv(t) && !Wedged(t) && op.InteractionResult?
    ensures !Wedged(Step(t, op, o, ok))
  {
    if !Terminal(t.status) && op.id in t.interactions {
      var u := t.(interactions := t.interactions - {op.id});
      SameHooks(t, u);
      if op.appendOk && t.interactions[op.id] {
        var v := u.(completion := Some(Merge(u.completion, CompleteAfterExternal)));
        SameHooks(t, v);
        ReconcileWedged(v, o, ok);
      } else if op.appendOk {
        ReconcileWedged(u, o, ok);
      }
    }
  }

  lemma TimerWedged(t: Turn, o: DriveOutcome, ok: bool)
    requires Inv(t) && !Wedged(t)
    ensures !Wedged(Step(t, TimerFires, o, ok))
  {
  }

  lemma ExecWedged(t: Turn, op: Op, o: DriveOutcome, ok: bool)
    requires Inv(t) && !Wedged(t) && (op.ExecResult? || op.RecoverExec?)
    ensures Wedged(Step(t, op, o, ok)) <==> Wedges(t, op)
  {
    if !Terminal(t.status) && op.id in t.execs {
      var u := t.(execs := t.execs - {op.id});
      ExecGone(t, op.id);
      ReconcileWedged(u, o, ok);
      if t.execs[op.id] {
        SameHooks(u, StartSummary(u, op.appendOk));
      } else {
        SameHooks(t, u);
      }
    }
  }

  lemma ProviderEndsWedged(t: Turn, finish: Finish, o: DriveOutcome, ok: bool)
    requires Inv(t) && !Wedged(t) && t.worker.ProviderCall?
    ensures !Wedged(Step(t, ProviderEnds(finish), o, ok))
  {
    var u := t.(worker := NoWorker, active := false, action := NoAction);
    SameHooks(t, u);
    ReconcileWedged(u.(action := Resume), o, ok);
    ReconcileWedged(u.(completion := None, action := Resume), o, ok);
  }

  lemma SummaryEndsWedged(t: Turn, result: SummaryResult, o: DriveOutcome, ok: bool)
    requires Inv(t) && !Wedged(t) && t.worker.SummaryCall?
    ensures !Wedged(Step(t, SummaryEnds(result), o, ok))
  {
    SameHooks(t, t.(worker := NoWorker));
    var u := t.(worker := NoWorker, active := false, action := NoAction, compaction := false);
    ReconcileWedged(u.(action := Resume), o, ok);
  }

  /** A pending compaction has its hook outstanding or its summary running: exactly two commands end that. */
  lemma WedgedIff(t: Turn, op: Op, o: DriveOutcome, ok: bool)
    requires Inv(t) && !Wedged(t)
    ensures Wedged(Step(t, op, o, ok)) <==> Wedges(t, op)
  {
    match op
    case RunRequest(prewarm) => RunRequestWedged(t, prewarm, o, ok);
    case OpenExec(_) => OpenWedged(t, op, o, ok);
    case OpenInteraction(_, _) => OpenWedged(t, op, o, ok);
    case ExecResult(_, _) => ExecWedged(t, op, o, ok);
    case RecoverExec(_, _) => ExecWedged(t, op, o, ok);
    case InteractionResult(_, _) => InteractionWedged(t, op, o, ok);
    case ProviderEnds(finish) => if t.worker.ProviderCall? { ProviderEndsWedged(t, finish, o, ok); }
    case SummaryEnds(result) => if t.worker.SummaryCall? { SummaryEndsWedged(t, result, o, ok); }
    case TimerFires => TimerWedged(t, o, ok);
    case ReconcileNow => ReconcileWedged(t, o, ok);
    case CancelTurn =>
    case FailTurn =>
  }

  lemma RunSnoc(commands: seq<Command>, c: Command)
    ensures Run(commands + [c]) == Step(Run(commands), c.op, c.o, c.ok)
  {
    assert (commands + [c])[..|commands|] == commands;
  }

  /** The first run request of a stream, with the outcome of its provider pass. */
  lemma FirstRun(o: DriveOutcome)
    ensures Run([Command(RunRequest(false), o, true)]) == Drive(Initial().(action := Start), o)
  {
    var c := Command(RunRequest(false), o, true);
    RunSnoc([], c);
    assert [] + [c] == [c];
    assert Run([]) == Initial();
    NothingExternal(Initial().(action := Start));
  }

  /** A run reaches a wedge: the hook's transport closes and its recovery only reconciles. */
  lemma WedgeIsReachable()
    ensures Wedged(Run([Command(RunRequest(false), Compacts(0), true), Command(RecoverExec(0, true), Runs, true)]))
  {
    var first := Command(RunRequest(false), Compacts(0), true);
    var second := Command(RecoverExec(0, true), Runs, true);
    FirstRun(Compacts(0));
    var t := Run([first]);
    assert t.compaction && t.execs == map[0 := true] && t.execs[0];
    RunKeepsInv([first]);
    WedgedIff(t, second.op, second.o, second.ok);
    RunSnoc([first], second);
    assert [first] + [second] == [first, second];
  }

  predicate NoRunRequest(commands: seq<Command>) {
    forall i :: 0 <= i < |commands| ==> !commands[i].op.RunRequest?
  }

  /** Once wedged, a stream never starts the provider again until it is run anew. */
  lemma {:induction false} WedgedForever(t: Turn, commands: seq<Command>)
    requires Inv(t) && Wedged(t) && NoRunRequest(commands)
    ensures var u := RunFrom(t, commands);
            && u.starts == t.starts
            && Inv(u)
            && (Terminal(u.status) || Wedged(u))
  {
    if commands != [] {
      var init := commands[..|commands| - 1];
      var c := commands[|commands| - 1];
      WedgedForever(t, init);
      WedgedStep(RunFrom(t, init), c);
      StepKeepsInv(RunFrom(t, init), c.op, c.o, c.ok);
    }
  }

  lemma WedgedStep(t: Turn, c: Command)
    requires Inv(t) && (Terminal(t.status) || Wedged(t)) && !c.op.RunRequest?
    ensures var u := Step(t, c.op, c.o, c.ok);
            u.starts == t.starts && (Terminal(u.status) || Wedged(u))
  {
    if Terminal(t.status) {
      TerminalStep(t, c);
    } else if c.op.ExecResult? || c.op.RecoverExec? {
      WedgedExec(t, c);
    } else if c.op.InteractionResult? {
      WedgedInteraction(t, c);
    } else if c.op.ReconcileNow? {
      WedgedReconcile(t, t, c);
    } else if c.op.ProviderEnds? || c.op.SummaryEnds? {
      WedgedEnd(t, c);
    } else {
      SameHooks(t, t.(execs := Step(t, c.op, c.o, c.ok).execs));
    }
  }

  lemma TerminalStep(t: Turn, c: Command)
    requires Terminal(t.status)
    ensures var u := Step(t, c.op, c.o, c.ok);
            u.starts == t.starts && Terminal(u.status)
  {
  }

  lemma WedgedInteraction(t: Turn, c: Command)
    requires Inv(t) && Wedged(t) && c.op.InteractionResult?
    ensures var u := Step(t, c.op, c.o, c.ok);
            u.starts == t.starts && Wedged(u)
  {
    if c.op.id in t.interactions {
      var u := t.(interactions := t.interactions - {c.op.id});
      WedgedReconcile(t, u, c);
      WedgedReconcile(t, u.(completion := Some(Merge(u.completion, CompleteAfterExternal))), c);
    }
  }

  lemma WedgedExec(t: Turn, c: Command)
    requires Inv(t) && Wedged(t) && (c.op.ExecResult? || c.op.RecoverExec?)
    ensures var u := Step(t, c.op, c.o, c.ok);
            u.starts == t.starts && (Terminal(u.status) || Wedged(u))
  {
    if c.op.id in t.execs {
      assert !t.execs[c.op.id];
      WedgedReconcile(t, t.(execs := t.execs - {c.op.id}), c);
    }
  }

  lemma WedgedEnd(t: Turn, c: Command)
    requires Inv(t) && Wedged(t)
    requires c.op.ProviderEnds? || c.op.SummaryEnds?
    ensures var u := Step(t, c.op, c.o, c.ok);
            u.starts == t.starts && (Terminal(u.status) || Wedged(u))
  {
    var v := t.(worker := NoWorker);
    WedgedReconcile(t, v, c);
    if c.op.ProviderEnds? && t.worker.ProviderCall? {
      var u := v.(active := false, action := NoAction);
      WedgedReconcile(t, u, c);
      WedgedReconcile(t, u.(action := Resume), c);
      WedgedReconcile(t, u.(action := Resume, completion := None), c);
      if c.op.finish.Finished? {
        SameHooks(t, HoldCompletion(u, c.op.finish.disposition));
      }
    }
  }

  lemma WedgedReconcile(t: Turn, u: Turn, c: Command)
    requires Inv(t) && Wedged(t)
    requires u.status == t.status && u.compaction && u.starts == t.starts
    requires forall id | id in u.execs :: id in t.execs && u.execs[id] == t.execs[id]
    requires u.worker == NoWorker || (u.worker == t.worker && u.active == t.active && u.summaryToken == t.summaryToken)
    ensures Wedged(u)
    ensures var v := Reconcile(u, c.o, c.ok); v.starts == t.starts && Wedged(v)
  {
    assert !HookPending(u);
    ReconcileWedged(u, c.o, c.ok);
  }

  // ---- An active call whose end nobody will accept ----

  /** A live stream marked active, while no running call carries a current token. */
  predicate Deaf(t: Turn) {
    && !Terminal(t.status) && t.active
    && t.worker != ProviderCall(t.providerToken) && t.worker != SummaryCall(t.summaryToken)
  }

  /** A run request resets the tokens, but not the mark of the call that runs. */
  predicate Deafens(t: Turn, op: Op) {
    !Terminal(t.status) && t.active && op.RunRequest?
  }

  /** Neither reconciling nor the resume timer makes a stream deaf. */
  lemma ReconcileDeaf(t: Turn, o: DriveOutcome, ok: bool)
    ensures Deaf(Reconcile(t, o, ok)) <==> Deaf(t)
  {
  }

  lemma RunRequestDeaf(t: Turn, prewarm: bool, o: DriveOutcome, ok: bool)
    requires Inv(t)
    ensures Deaf(Step(t, RunRequest(prewarm), o, ok)) <==> !Terminal(t.status) && t.active
  {
    var u := Step(t, RunRequest(true), o, ok);
    if !prewarm {
      ReconcileDeaf(u.(action := Start), o, ok);
    }
  }

  lemma InteractionDeaf(t: Turn, op: Op, o: DriveOutcome, ok: bool)
    requires Inv(t) && op.InteractionResult?
    ensures Deaf(Step(t, op, o, ok)) <==> Deaf(t)
    ensures Deaf(t) ==> Step(t, op, o, ok).starts == t.starts
  {
    if !Terminal(t.status) && op.id in t.interactions {
      var u := t.(interactions := t.interactions - {op.id});
      ReconcileDeaf(u, o, ok);
      ReconcileDeaf(u.(completion := Some(Merge(u.completion, CompleteAfterExternal))), o, ok);
    }
  }

  lemma HookResultDeaf(t: Turn, id: nat, appendOk: bool, o: DriveOutcome, ok: bool)
    requires Inv(t) && !Terminal(t.status) && id in t.execs && t.execs[id]
    ensures !Deaf(t) && !Deaf(Step(t, ExecResult(id, appendOk), o, ok))
  {
    ExecGone(t, id);
  }

  lemma ExecDeaf(t: Turn, op: Op, o: DriveOutcome, ok: bool)
    requires Inv(t) && (op.ExecResult? || op.RecoverExec?)
    ensures Deaf(Step(t, op, o, ok)) ==> Deaf(t)
    ensures Deaf(t) ==> Deaf(Step(t, op, o, ok)) || Terminal(Step(t, op, o, ok).status)
    ensures Deaf(t) ==> Step(t, op, o, ok).starts == t.starts
  {
    if !Terminal(t.status) && op.id in t.execs {
      if op.ExecResult? && t.execs[op.id] {
        HookResultDeaf(t, op.id, op.appendOk, o, ok);
      } else {
        ReconcileDeaf(t.(execs := t.execs - {op.id}), o, ok);
      }
    }
  }

  lemma ProviderEndDeaf(t: Turn, finish: Finish, o: DriveOutcome, ok: bool)
    requires Inv(t)
    ensures Deaf(Step(t, ProviderEnds(finish), o, ok)) <==> Deaf(t)
    ensures Deaf(t) ==> Step(t, ProviderEnds(finish), o, ok).starts == t.starts
  {
    if t.worker.ProviderCall? && t.worker.token == t.providerToken && finish.Finished? {
      PassOverDeaf(t.(worker := NoWorker, active := false, action := NoAction), finish.disposition, finish.resume, o, ok);
    }
  }

  lemma RequestDeaf(u: Turn, resume: bool, o: DriveOutcome, ok: bool)
    requires !u.active
    ensures !Deaf(EndOrContinue(u, resume, o, ok))
  {
    ReconcileDeaf(u.(action := if u.action == Start then Start else Resume), o, ok);
  }

  lemma PassOverDeaf(u: Turn, d: Disposition, resume: bool, o: DriveOutcome, ok: bool)
    requires !u.active
    ensures !Deaf(PassOver(u, d, resume, o, ok))
  {
    if External(u) == 0 {
      if u.completion.None? {
        RequestDeaf(u, resume, o, ok);
      } else {
        RequestDeaf(u.(completion := None), u.completion.value == ResumeAfterExternal, o, ok);
      }
    }
  }

  lemma AcceptedSummaryDeaf(t: Turn, result: SummaryResult, o: DriveOutcome, ok: bool)
    requires t.worker == SummaryCall(t.summaryToken)
    ensures !Deaf(Step(t, SummaryEnds(result), o, ok))
  {
    RequestDeaf(t.(worker := NoWorker, active := false, action := NoAction, compaction := false), true, o, ok);
  }

  lemma SummaryEndDeaf(t: Turn, result: SummaryResult, o: DriveOutcome, ok: bool)
    requires Inv(t)
    ensures Deaf(Step(t, SummaryEnds(result), o, ok)) <==> Deaf(t)
    ensures Deaf(t) ==> Step(t, SummaryEnds(result), o, ok).starts == t.starts
  {
    if t.worker == SummaryCall(t.summaryToken) {
      AcceptedSummaryDeaf(t, result, o, ok);
    }
  }

  lemma OtherDeaf(t: Turn, op: Op, o: DriveOutcome, ok: bool)
    requires Inv(t)
    requires op.OpenExec? || op.OpenInteraction? || op.TimerFires? || op.ReconcileNow? || op.CancelTurn? || op.FailTurn?
    ensures Deaf(Step(t, op, o, ok)) ==> Deaf(t)
    ensures Deaf(t) ==> Deaf(Step(t, op, o, ok)) || Terminal(Step(t, op, o, ok).status)
    ensures Deaf(t) ==> Step(t, op, o, ok).starts == t.starts
  {
    ReconcileDeaf(t, o, ok);
  }

  /** An active call loses its listener exactly by a run request on a live stream. */
  lemma DeafIff(t: Turn, op: Op, o: DriveOutcome, ok: bool)
    requires Inv(t) && !Deaf(t)
    ensures Deaf(Step(t, op, o, ok)) <==> Deafens(t, op)
  {
    if op.RunRequest? {
      RunRequestDeaf(t, op.prewarm, o, ok);
    } else if op.ExecResult? || op.RecoverExec? {
      ExecDeaf(t, op, o, ok);
    } else if op.InteractionResult? {
      InteractionDeaf(t, op, o, ok);
    } else if op.ProviderEnds? {
      ProviderEndDeaf(t, op.finish, o, ok);
    } else if op.SummaryEnds? {
      SummaryEndDeaf(t, op.result, o, ok);
    } else {
      OtherDeaf(t, op, o, ok);
    }
  }

  lemma DeafStep(t: Turn, c: Command)
    requires Inv(t) && (Terminal(t.status) || Deaf(t))
    ensures var u := Step(t, c.op, c.o, c.ok);
            u.starts == t.starts && (Terminal(u.status) || Deaf(u))
  {
    if Terminal(t.status) {
      TerminalStep(t, c);
    } else if c.op.RunRequest? {
      RunRequestDeaf(t, c.op.prewarm, c.o, c.ok);
    } else if c.op.ExecResult? || c.op.RecoverExec? {
      ExecDeaf(t, c.op, c.o, c.ok);
    } else if c.op.InteractionResult? {
      InteractionDeaf(t, c.op, c.o, c.ok);
    } else if c.op.ProviderEnds? {
      ProviderEndDeaf(t, c.op.finish, c.o, c.ok);
    } else if c.op.SummaryEnds? {
      SummaryEndDeaf(t, c.op.result, c.o, c.ok);
    } else {
      OtherDeaf(t, c.op, c.o, c.ok);
    }
  }

  /** Once deaf, a stream never starts the provider again, whatever it is asked, new runs included. */
  lemma {:induction false} DeafForever(t: Turn, commands: seq<Command>)
    requires Inv(t) && Deaf(t)
    ensures var u := RunFrom(t, commands);
            && u.starts == t.starts
            && Inv(u)
            && (Terminal(u.status) || Deaf(u))
  {
    if commands != [] {
      var init := commands[..|commands| - 1];
      var c := commands[|commands| - 1];
      DeafForever(t, init);
      DeafStep(RunFrom(t, init), c);
      StepKeepsInv(RunFrom(t, init), c.op, c.o, c.ok);
    }
  }

  /** Two run requests and the end of the first call leave a live, active stream without any call. */
  lemma DeafIsReachable(finish: Finish)
    ensures var run := Command(RunRequest(false), Runs, true);
            var t := Run([run, run, Command(ProviderEnds(finish), Runs, true)]);
            Deaf(t) && t.worker.NoWorker?
  {
    var run := Command(RunRequest(false), Runs, true);
    var end := Command(ProviderEnds(finish), Runs, true);
    FirstRun(Runs);
    RunKeepsInv([run]);
    RunSnoc([run], run);
    assert [run] + [run] == [run, run];
    RunRequestDeaf(Run([run]), false, Runs, true);
    RunKeepsInv([run, run]);
    RunSnoc([run, run], end);
    assert [run, run] + [end] == [run, run, end];
    ProviderEndDeaf(Run([run, run]), finish, Runs, true);
  }

  // ---- Work that is owed and that nothing outstanding will bring back ----

  /** The resume timer is set and will drive the provider. */
  predicate Resuming(t: Turn) {
    t.resumeTimer && t.action == Resume
  }

  /** A completion or a resume is still to be carried out, and no timer will do it. */
  predicate Owes(t: Turn) {
    !Resuming(t) && (t.completion.Some? || t.action == Resume)
  }

  predicate Forgotten(t: Turn) {
    !Terminal(t.status) && !t.active && External(t) == 0 && !t.compaction && Owes(t)
  }

  /** The last outstanding result cannot be appended, or the running call is interrupted with a completion pending. */
  predicate Forgets(t: Turn, op: Op) {
    && !Terminal(t.status)
    && (if (op.ExecResult? && op.id in t.execs && !t.execs[op.id]) || (op.InteractionResult? && op.id in t.interactions)
        then !op.appendOk && External(t) == 1 && !t.active && !t.compaction && Owes(t)
        else
          && External(t) == 0 && t.completion.Some?
          && ((op.ProviderEnds? && op.finish.Interrupted? && t.worker == ProviderCall(t.providerToken) && !t.compaction)
              || (op.SummaryEnds? && op.result.SummaryInterrupted? && t.worker == SummaryCall(t.summaryToken))))
  }

  /** After reconciling, nothing that was owed is left without a timer. */
  lemma ReconcileRemembers(t: Turn, o: DriveOutcome, ok: bool)
    requires t.action == Start ==> Terminal(t.status) || t.active || t.completion.None?
    ensures !Forgotten(Reconcile(t, o, ok))
  {
    NothingExternal(t);
    var u := Reconcile(t, o, ok);
    if !Terminal(t.status) && !t.active && External(t) == 0 && !t.compaction && t.completion.None? && t.action == Start {
      assert o.Compacts? ==> o.hook in u.execs;
    }
  }

  lemma RunRequestRemembers(t: Turn, prewarm: bool, o: DriveOutcome, ok: bool)
    ensures !Forgotten(Step(t, RunRequest(prewarm), o, ok))
  {
    var u := Step(t, RunRequest(true), o, ok);
    if !prewarm {
      ReconcileRemembers(u.(action := Start), o, ok);
    }
  }

  lemma ExternalGone(t: Turn, id: nat)
    ensures id in t.execs ==> External(t.(execs := t.execs - {id})) == External(t) - 1
    ensures id in t.interactions ==> External(t.(interactions := t.interactions - {id})) == External(t) - 1
  {
    if id in t.execs {
      MapSizeMinus(t.execs, id);
    }
    if id in t.interactions {
      MapSizeMinus(t.interactions, id);
    }
  }

  lemma MapSizeMinus(m: map<nat, bool>, id: nat)
    requires id in m
    ensures |m - {id}| == |m| - 1
  {
    assert (m - {id}).Keys == m.Keys - {id};
    assert |m - {id}| == |(m - {id}).Keys| && |m| == |m.Keys|;
  }

  /** The turn without one outstanding exec or interaction, left as it is. */
  lemma LostResult(t: Turn, u: Turn, id: nat)
    requires (id in t.execs && u == t.(execs := t.execs - {id}))
          || (id in t.interactions && u == t.(interactions := t.interactions - {id}))
    ensures Forgotten(u) <==> !Terminal(t.status) && External(t) == 1 && !t.active && !t.compaction && Owes(t)
  {
    ExternalGone(t, id);
  }

  lemma InteractionForgets(t: Turn, op: Op, o: DriveOutcome, ok: bool)
    requires Inv(t) && !Forgotten(t) && op.InteractionResult?
    ensures Forgotten(Step(t, op, o, ok)) <==> Forgets(t, op)
  {
    if !Terminal(t.status) && op.id in t.interactions {
      var u := t.(interactions := t.interactions - {op.id});
      if !op.appendOk {
        LostResult(t, u, op.id);
      } else if t.interactions[op.id] {
        ReconcileRemembers(u.(completion := Some(Merge(u.completion, CompleteAfterExternal))), o, ok);
      } else {
        ReconcileRemembers(u, o, ok);
      }
    }
  }

  lemma HookForgets(t: Turn, id: nat, appendOk: bool, o: DriveOutcome, ok: bool)
    requires Inv(t) && !Terminal(t.status) && id in t.execs && t.execs[id]
    ensures !Forgotten(Step(t, ExecResult(id, appendOk), o, ok))
  {
    ExecGone(t, id);
  }

  lemma ExecForgets(t: Turn, op: Op, o: DriveOutcome, ok: bool)
    requires Inv(t) && !Forgotten(t) && (op.ExecResult? || op.RecoverExec?)
    ensures Forgotten(Step(t, op, o, ok)) <==> Forgets(t, op)
  {
    if !Terminal(t.status) && op.id in t.execs {
      var u := t.(execs := t.execs - {op.id});
      if op.ExecResult? && t.execs[op.id] {
        HookForgets(t, op.id, op.appendOk, o, ok);
      } else if op.appendOk {
        ReconcileRemembers(u, o, ok);
      } else {
        LostResult(t, u, op.id);
      }
    }
  }

  lemma PassOverRemembers(u: Turn, d: Disposition, resume: bool, o: DriveOutcome, ok: bool)
    requires !u.active && u.action == NoAction
    ensures !Forgotten(PassOver(u, d, resume, o, ok))
  {
    ReconcileRemembers(u.(action := Resume), o, ok);
    ReconcileRemembers(u.(completion := None, action := Resume), o, ok);
  }

  lemma FinishedForgets(t: Turn, finish: Finish, o: DriveOutcome, ok: bool)
    requires t.worker == ProviderCall(t.providerToken) && t.providerToken > 0 && !Terminal(t.status) && finish.Finished?
    ensures !Forgotten(Step(t, ProviderEnds(finish), o, ok))
  {
    PassOverRemembers(t.(worker := NoWorker, active := false, action := NoAction), finish.disposition, finish.resume, o, ok);
  }

  lemma ProviderEndForgets(t: Turn, finish: Finish, o: DriveOutcome, ok: bool)
    requires Inv(t) && !Forgotten(t)
    ensures Forgotten(Step(t, ProviderEnds(finish), o, ok)) <==> Forgets(t, ProviderEnds(finish))
  {
    if t.worker == ProviderCall(t.providerToken) && !Terminal(t.status) && finish.Finished? {
      FinishedForgets(t, finish, o, ok);
    }
  }

  lemma SummaryEndForgets(t: Turn, result: SummaryResult, o: DriveOutcome, ok: bool)
    requires Inv(t) && !Forgotten(t)
    ensures Forgotten(Step(t, SummaryEnds(result), o, ok)) <==> Forgets(t, SummaryEnds(result))
  {
    if t.worker.SummaryCall? && t.worker.token == t.summaryToken {
      ReconcileRemembers(t.(worker := NoWorker, active := false, action := Resume, compaction := false), o, ok);
    }
  }

  lemma OtherForgets(t: Turn, op: Op, o: DriveOutcome, ok: bool)
    requires Inv(t) && !Forgotten(t)
    requires op.OpenExec? || op.OpenInteraction? || op.ReconcileNow? || op.CancelTurn? || op.FailTurn?
    ensures !Forgotten(Step(t, op, o, ok))
  {
    ReconcileRemembers(t, o, ok);
  }

  lemma TimerForgets(t: Turn, o: DriveOutcome, ok: bool)
    requires Inv(t) && !Forgotten(t)
    ensures !Forgotten(Step(t, TimerFires, o, ok))
  {
    NothingExternal(t);
  }

  /** Owed work is forgotten exactly by these commands. */
  lemma ForgottenIff(t: Turn, op: Op, o: DriveOutcome, ok: bool)
    requires Inv(t) && !Forgotten(t)
    ensures Forgotten(Step(t, op, o, ok)) <==> Forgets(t, op)
  {
    if op.RunRequest? {
      RunRequestRemembers(t, op.prewarm, o, ok);
    } else if op.ExecResult? || op.RecoverExec? {
      ExecForgets(t, op, o, ok);
    } else if op.InteractionResult? {
      InteractionForgets(t, op, o, ok);
    } else if op.ProviderEnds? {
      ProviderEndForgets(t, op.finish, o, ok);
    } else if op.SummaryEnds? {
      SummaryEndForgets(t, op.result, o, ok);
    } else if op.TimerFires? {
      TimerForgets(t, o, ok);
    } else {
      OtherForgets(t, op, o, ok);
    }
  }

  // ---- All together ----

  /** Somebody will report: an outstanding exec or interaction, the running call, or the resume timer. */
  predicate Awaited(t: Turn) {
    || External(t) > 0
    || (t.active && (t.worker == ProviderCall(t.providerToken) || t.worker == SummaryCall(t.summaryToken)))
    || Resuming(t)
  }

  /** The command breaks the promise that somebody will report. */
  predicate Stalls(t: Turn, op: Op) {
    Wedges(t, op) || Deafens(t, op) || Forgets(t, op)
  }

  predicate Stalled(t: Turn) {
    Wedged(t) || Deaf(t) || Forgotten(t)
  }

  /** The three failures are all there are: any other live turn is awaited or has nothing to do. */
  lemma StalledOrAwaited(t: Turn)
    requires Inv(t) && !Terminal(t.status) && !Stalled(t)
    ensures Awaited(t) || (!t.active && !t.compaction && t.completion.None? && t.action == NoAction)
  {
    NothingExternal(t);
    if t.compaction && HookPending(t) {
      assert t.execs != map[];
    }
  }

  lemma NoStallStep(t: Turn, c: Command)
    requires Inv(t) && !Stalled(t)
    ensures Stalled(Step(t, c.op, c.o, c.ok)) <==> Stalls(t, c.op)
  {
    WedgedIff(t, c.op, c.o, c.ok);
    DeafIff(t, c.op, c.o, c.ok);
    ForgottenIff(t, c.op, c.o, c.ok);
  }

  predicate NoStall(commands: seq<Command>) {
    forall i :: 0 <= i < |commands| ==> !Stalls(Run(commands[..i]), commands[i].op)
  }

  lemma {:induction false} NeverStalled(commands: seq<Command>, n: nat)
    requires NoStall(commands) && n <= |commands|
    ensures !Stalled(Run(commands[..n]))
  {
    if n == 0 {
      assert commands[..0] == [];
    } else {
      NeverStalled(commands, n - 1);
      PrefixSnoc(commands, n - 1);
      RunKeepsInv(commands[..n - 1]);
      NoStallStep(Run(commands[..n - 1]), commands[n - 1]);
    }
  }

  lemma PrefixSnoc(commands: seq<Command>, n: nat)
    requires n < |commands|
    ensures var c := commands[n]; Run(commands[..n + 1]) == Step(Run(commands[..n]), c.op, c.o, c.ok)
  {
    RunSnoc(commands[..n], commands[n]);
    assert commands[..n + 1] == commands[..n] + [commands[n]];
  }

  /** A run is never stalled, at any of its moments, if and only if none of its commands stalls it. */
  lemma NeverStalledIff(commands: seq<Command>)
    ensures (forall n :: 0 <= n <= |commands| ==> !Stalled(Run(commands[..n]))) <==> NoStall(commands)
  {
    if NoStall(commands) {
      forall n | 0 <= n <= |commands| ensures !Stalled(Run(commands[..n])) {
        NeverStalled(commands, n);
      }
    }
    if forall n :: 0 <= n <= |commands| ==> !Stalled(Run(commands[..n])) {
      forall i | 0 <= i < |commands| ensures !Stalls(Run(commands[..i]), commands[i].op) {
        assert !Stalled(Run(commands[..i])) && !Stalled(Run(commands[..i + 1]));
        PrefixSnoc(commands, i);
        RunKeepsInv(commands[..i]);
        NoStallStep(Run(commands[..i]), commands[i]);
      }
    }
  }

  /** In a run without such commands, a live turn always has somebody to wait for, or nothing to do. */
  lemma SomebodyReports(commands: seq<Command>)
    requires NoStall(commands) && !Terminal(Run(commands).status)
    ensures var t := Run(commands);
            Awaited(t) || (!t.active && !t.compaction && t.completion.None? && t.action == NoAction)
  {
    NeverStalled(commands, |commands|);
    assert commands[..|commands|] == commands;
    RunKeepsInv(commands);
    StalledOrAwaited(Run(commands));
  }

  /** Only a new run, a new exec or interaction, or another reconciliation brings forgotten work back. */
  predicate Revives(op: Op) {
    op.RunRequest? || op.OpenExec? || op.OpenInteraction? || op.ReconcileNow?
  }

  lemma ForgottenStep(t: Turn, c: Command)
    requires Inv(t) && (Terminal(t.status) || Forgotten(t)) && !Revives(c.op)
    ensures var u := Step(t, c.op, c.o, c.ok);
            u.starts == t.starts && (Terminal(u.status) || Forgotten(u))
  {
    NothingExternal(t);
  }

  lemma {:induction false} ForgottenForever(t: Turn, commands: seq<Command>)
    requires Inv(t) && Forgotten(t) && forall i :: 0 <= i < |commands| ==> !Revives(commands[i].op)
    ensures var u := RunFrom(t, commands);
            && u.starts == t.starts
            && Inv(u)
            && (Terminal(u.status) || Forgotten(u))
  {
    if commands != [] {
      var init := commands[..|commands| - 1];
      var c := commands[|commands| - 1];
      ForgottenForever(t, init);
      ForgottenStep(RunFrom(t, init), c);
      StepKeepsInv(RunFrom(t, init), c.op, c.o, c.ok);
    }
  }

  /** A tool result that cannot be appended leaves the turn's completion with nobody to carry it out. */
  lemma ForgottenIsReachable()
    ensures Forgotten(Run([Command(RunRequest(false), Runs, true), Command(OpenExec(0), Runs, true),
                           Command(ProviderEnds(Finished(ResumeAfterExternal, true)), Runs, true),
                           Command(ExecResult(0, false), Runs, true)]))
  {
    var c1 := Command(RunRequest(false), Runs, true);
    var c2 := Command(OpenExec(0), Runs, true);
    var c3 := Command(ProviderEnds(Finished(ResumeAfterExternal, true)), Runs, true);
    var c4 := Command(ExecResult(0, false), Runs, true);
    FirstRun(Runs);
    RunSnoc([c1], c2);
    assert [c1] + [c2] == [c1, c2];
    assert Run([c1, c2]).execs == map[0 := false];
    RunSnoc([c1, c2], c3);
    assert [c1, c2] + [c3] == [c1, c2, c3];
    var t := Run([c1, c2, c3]);
    assert External(t) == 1 && t.completion.Some? && !t.active && !t.compaction && t.status == Streaming;
    RunKeepsInv([c1, c2, c3]);
    RunSnoc([c1, c2, c3], c4);
    assert [c1, c2, c3] + [c4] == [c1, c2, c3, c4];
    ForgottenIff(t, c4.op, Runs, true);
  }

  // ---- What one command promises ----

  /** A command is safe, and it stalls a turn that was not stalled exactly when it is one of those named above. */
  predicate Handled(t: Turn, op: Op, u: Turn) {
    && Safe(if Ends(t, op) then t.(worker := NoWorker) else t, u)
    && (!Stalled(t) ==> (Stalled(u) <==> Stalls(t, op)))
  }

  lemma CommandIsHandled(t: Turn, op: Op, o: DriveOutcome, ok: bool)
    requires Inv(t)
    ensures Inv(Step(t, op, o, ok)) && Handled(t, op, Step(t, op, o, ok))
  {
    StepIsSafe(t, op, o, ok);
    if !Stalled(t) {
      NoStallStep(t, Command(op, o, ok));
    }
  }
}
