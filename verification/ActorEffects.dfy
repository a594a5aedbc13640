/**
 What the commands of a turn bring about, told on the fields of the turn alone: exactly
 which command completes or fails a live turn, starts the provider or sets the resume
 timer, and how a pass with outstanding work is carried out.
 */
module ActorEffects {
  import opened Base
  import opened BrokerSpec
  import opened ActorSpec
  import opened ActorStalls

  predicate LiveTurn(t: Turn) {
    !Terminal(t.status)
  }

  /** A result of outstanding work is appended; the hook of a compaction does not count, it starts the summary. */
  predicate Answered(t: Turn, op: Op) {
    || (op.ExecResult? && op.appendOk && op.id in t.execs && !t.execs[op.id])
    || (op.RecoverExec? && op.appendOk && op.id in t.execs)
    || (op.InteractionResult? && op.appendOk && op.id in t.interactions)
  }

  /** The command leaves an idle turn with nothing outstanding. */
  predicate Settles(t: Turn, op: Op) {
    && LiveTurn(t) && !t.active && !t.compaction
    && ((Answered(t, op) && External(t) == 1) || (op.ReconcileNow? && External(t) == 0))
  }

  /** The turn is to complete: that was decided before, or the user has now answered. */
  predicate IsToComplete(t: Turn, op: Op) {
    t.completion == Some(CompleteAfterExternal) || (op.InteractionResult? && op.id in t.interactions && t.interactions[op.id])
  }

  /** The current provider pass ends normally with nothing outstanding. */
  predicate PassEnds(t: Turn, op: Op) {
    LiveTurn(t) && op.ProviderEnds? && t.worker == ProviderCall(t.providerToken) && op.finish.Finished? && External(t) == 0
  }

  predicate PassFails(t: Turn, op: Op) {
    LiveTurn(t) && op.ProviderEnds? && t.worker == ProviderCall(t.providerToken) && op.finish.Broken?
  }

  /** The current summary call delivers its summary. */
  predicate SummaryArrives(t: Turn, op: Op) {
    LiveTurn(t) && op.SummaryEnds? && t.worker == SummaryCall(t.summaryToken) && op.result.Summarised?
  }

  predicate SummaryFails(t: Turn, op: Op) {
    LiveTurn(t) && op.SummaryEnds? && t.worker == SummaryCall(t.summaryToken) && op.result.SummaryBroken?
  }

  /** A run request on an idle stream, or the resume timer of an idle turn with nothing outstanding. */
  predicate Starts(t: Turn, op: Op) {
    && LiveTurn(t) && !t.active
    && (op == RunRequest(false) || (op.TimerFires? && t.resumeTimer && t.action == Resume && External(t) == 0))
  }

  /** The turn comes to its end. */
  predicate Finishes(t: Turn, op: Op) {
    || (Settles(t, op) && IsToComplete(t, op))
    || (PassEnds(t, op) && (t.completion == Some(CompleteAfterExternal) || (t.completion.None? && !op.finish.resume)))
    || (SummaryArrives(t, op) && (op.result.manual || (External(t) == 0 && t.completion == Some(CompleteAfterExternal))))
  }

  predicate Completes(t: Turn, op: Op, o: DriveOutcome, ok: bool) {
    (Finishes(t, op) && ok) || (Starts(t, op) && o.NothingToCompact?)
  }

  predicate Fails(t: Turn, op: Op, o: DriveOutcome, ok: bool) {
    || (LiveTurn(t) && (op.FailTurn? || (op.RecoverExec? && op.id in t.execs && !op.appendOk)))
    || PassFails(t, op) || SummaryFails(t, op)
    || (Finishes(t, op) && !ok) || (Starts(t, op) && o.Breaks?)
  }

  /** The turn is to go on when the timer fires. */
  predicate GoesOn(t: Turn, op: Op) {
    || (Settles(t, op) && !IsToComplete(t, op) && (t.completion == Some(ResumeAfterExternal) || t.action == Resume))
    || (PassEnds(t, op) && !t.compaction && (t.completion == Some(ResumeAfterExternal) || (t.completion.None? && op.finish.resume)))
    || (SummaryArrives(t, op) && !op.result.manual && External(t) == 0 && t.completion != Some(CompleteAfterExternal))
  }

  /** How the turn ends, and what it then is called. */
  predicate Outcome(u: Turn, status: Status, completes: bool, fails: bool, cancels: bool) {
    && u.status == (if completes then Completed else if fails then Failed else if cancels then Canceled else status)
    && (completes ==> u.phase == PhaseCompleted) && (fails ==> u.phase == PhaseFailed) && (cancels ==> u.phase == PhaseCanceled)
  }

  /** How the turn is carried on. */
  predicate Progress(t: Turn, u: Turn, starts: bool, goesOn: bool) {
    && u.starts == t.starts + (if starts then [Snapshot(false, false, 0, false, NoWorker)] else [])
    && (!t.resumeTimer ==> (u.resumeTimer <==> goesOn))
    && (goesOn ==> u.resumeTimer && u.action == Resume && u.completion.None? && !u.active)
  }

  /** The new turn, as far as the above decides it. */
  predicate Effect(t: Turn, op: Op, o: DriveOutcome, ok: bool, u: Turn) {
    && Outcome(u, if Starts(t, op) then Streaming else t.status, Completes(t, op, o, ok), Fails(t, op, o, ok), op.CancelTurn?)
    && Progress(t, u, Starts(t, op), GoesOn(t, op))
  }

  /** No command does two of these at once. */
  lemma EffectsExclude(t: Turn, op: Op, o: DriveOutcome, ok: bool)
    ensures !(Completes(t, op, o, ok) && Fails(t, op, o, ok))
    ensures GoesOn(t, op) ==> !Finishes(t, op) && !Starts(t, op) && !Fails(t, op, o, ok)
    ensures op.CancelTurn? ==> !Completes(t, op, o, ok) && !Fails(t, op, o, ok) && !GoesOn(t, op) && !Starts(t, op)
  {
  }

  // ---- Reconciling ----

  lemma ReconcileSettled(t: Turn, o: DriveOutcome, ok: bool)
    requires LiveTurn(t) && !t.active && External(t) == 0 && !t.compaction && t.action != Start
    ensures var u := Reconcile(t, o, ok);
            && u.starts == t.starts
            && (t.completion == Some(CompleteAfterExternal) ==>
                  if ok then u.status == Completed && u.phase == PhaseCompleted else u.status == Failed && u.phase == PhaseFailed)
            && (t.completion != Some(CompleteAfterExternal) ==> u.status == t.status)
            && (t.completion == Some(ResumeAfterExternal) || (t.completion.None? && t.action == Resume) ==>
                  u.resumeTimer && u.action == Resume && u.completion.None? && !u.active)
            && (u.resumeTimer ==> t.resumeTimer || t.completion == Some(ResumeAfterExternal) || (t.completion.None? && t.action == Resume))
  {
    if t.completion.Some? {
      match t.completion.value
      case ResumeAfterExternal =>
      case CompleteAfterExternal =>
    }
  }

  lemma ReconcileWaits(t: Turn, o: DriveOutcome, ok: bool)
    requires LiveTurn(t) && (t.active || External(t) > 0 || t.compaction)
    ensures Reconcile(t, o, ok) == t.(phase := Reconcile(t, o, ok).phase)
  {
  }

  /** What the phase of an idle turn tells, after it was reconciled. */
  lemma ReconcilePhase(t: Turn, o: DriveOutcome, ok: bool)
    requires LiveTurn(t) && !t.active && (t.action == Start ==> t.completion.None?)
    ensures var u := Reconcile(t, o, ok);
            LiveTurn(u) && !u.active ==>
              u.phase == if AwaitsUser(u) then AwaitingUser
                         else if u.compaction then Compacting
                         else if External(u) > 0 || (u.resumeTimer && u.action == Resume) then WaitingExternal
                         else Idle
  {
    NothingExternal(t);
    var u := Reconcile(t, o, ok);
    assert u.interactions == t.interactions;
    assert AwaitsUser(u) <==> AwaitsUser(t);
    if External(t) == 0 {
      assert !AwaitsUser(t);
    }
  }

  // ---- Each command ----

  /** A result can do no more than settle the turn. */
  lemma ResultKinds(t: Turn, op: Op, o: DriveOutcome, ok: bool)
    requires LiveTurn(t) && Answered(t, op)
    ensures !Starts(t, op) && !op.CancelTurn?
    ensures Completes(t, op, o, ok) <==> Settles(t, op) && IsToComplete(t, op) && ok
    ensures Fails(t, op, o, ok) <==> Settles(t, op) && IsToComplete(t, op) && !ok
    ensures GoesOn(t, op) <==> Settles(t, op) && !IsToComplete(t, op) && (t.completion == Some(ResumeAfterExternal) || t.action == Resume)
  {
  }

  /** A result that is not appended, or the hook's, settles nothing. */
  lemma QuietKinds(t: Turn, op: Op, o: DriveOutcome, ok: bool)
    requires (op.ExecResult? || op.RecoverExec? || op.InteractionResult?) && !Answered(t, op)
    ensures !Starts(t, op) && !Completes(t, op, o, ok) && !GoesOn(t, op)
    ensures Fails(t, op, o, ok) <==> LiveTurn(t) && op.RecoverExec? && op.id in t.execs
  {
  }

  lemma HookEffect(t: Turn, id: nat, appendOk: bool, o: DriveOutcome, ok: bool)
    requires Inv(t) && LiveTurn(t) && id in t.execs && t.execs[id]
    ensures Effect(t, ExecResult(id, appendOk), o, ok, Step(t, ExecResult(id, appendOk), o, ok))
  {
    QuietKinds(t, ExecResult(id, appendOk), o, ok);
    ExecGone(t, id);
    assert t.starts + [] == t.starts;
  }

  lemma ExecEffect(t: Turn, op: Op, o: DriveOutcome, ok: bool)
    requires Inv(t) && LiveTurn(t) && (op.ExecResult? || op.RecoverExec?)
    ensures Effect(t, op, o, ok, Step(t, op, o, ok))
  {
    assert t.starts + [] == t.starts;
    if op.id !in t.execs {
      QuietKinds(t, op, o, ok);
    } else if op.ExecResult? && t.execs[op.id] {
      HookEffect(t, op.id, op.appendOk, o, ok);
    } else if op.appendOk {
      ExternalGone(t, op.id);
      ReconcileOne(t, t.(execs := t.execs - {op.id}), op, o, ok);
    } else {
      QuietKinds(t, op, o, ok);
    }
  }

  /** A reconciliation after one result. */
  lemma ReconcileOne(t: Turn, u: Turn, op: Op, o: DriveOutcome, ok: bool)
    requires Inv(t) && LiveTurn(t) && Answered(t, op)
    requires External(u) == External(t) - 1 && u.completion == (if IsToComplete(t, op) then Some(CompleteAfterExternal) else t.completion)
    requires u == t.(execs := u.execs, interactions := u.interactions, completion := u.completion)
    ensures Effect(t, op, o, ok, Reconcile(u, o, ok))
  {
    ResultKinds(t, op, o, ok);
    assert t.starts + [] == t.starts;
    if !u.active && External(u) == 0 && !u.compaction {
      ReconcileSettled(u, o, ok);
    } else {
      ReconcileWaits(u, o, ok);
    }
  }

  lemma InteractionEffect(t: Turn, op: Op, o: DriveOutcome, ok: bool)
    requires Inv(t) && LiveTurn(t) && op.InteractionResult?
    ensures Effect(t, op, o, ok, Step(t, op, o, ok))
  {
    assert t.starts + [] == t.starts;
    if !Answered(t, op) {
      QuietKinds(t, op, o, ok);
    } else {
      ExternalGone(t, op.id);
      var u := t.(interactions := t.interactions - {op.id});
      if t.interactions[op.id] {
        var v := u.(completion := Some(Merge(u.completion, CompleteAfterExternal)));
        assert External(v) == External(u);
        ReconcileOne(t, v, op, o, ok);
      } else {
        ReconcileOne(t, u, op, o, ok);
      }
    }
  }

  lemma ReconcileNowEffect(t: Turn, o: DriveOutcome, ok: bool)
    requires Inv(t) && LiveTurn(t)
    ensures Effect(t, ReconcileNow, o, ok, Step(t, ReconcileNow, o, ok))
  {
    if !t.active && External(t) == 0 && !t.compaction {
      ReconcileSettled(t, o, ok);
    } else {
      ReconcileWaits(t, o, ok);
    }
  }

  /** The end of a pass says that the turn is over, as far as it goes. */
  predicate SaysOver(t: Turn, finish: Finish) {
    finish.Finished? && (t.completion == Some(CompleteAfterExternal) || (t.completion.None? && !finish.resume))
  }

  /** The end of a pass by itself neither starts nor settles anything but through the pass. */
  lemma ProviderKinds(t: Turn, op: Op, o: DriveOutcome, ok: bool)
    requires op.ProviderEnds?
    ensures !Starts(t, op) && !op.CancelTurn?
    ensures Completes(t, op, o, ok) <==> PassEnds(t, op) && SaysOver(t, op.finish) && ok
    ensures Fails(t, op, o, ok) <==> PassFails(t, op) || (PassEnds(t, op) && SaysOver(t, op.finish) && !ok)
    ensures GoesOn(t, op) <==> PassEnds(t, op) && !t.compaction && !SaysOver(t, op.finish)
  {
    if t.completion.Some? {
      match t.completion.value
      case ResumeAfterExternal =>
      case CompleteAfterExternal =>
    }
  }

  lemma OtherEndEffect(t: Turn, finish: Finish, o: DriveOutcome, ok: bool)
    requires Inv(t) && LiveTurn(t) && !PassEnds(t, ProviderEnds(finish))
    ensures Effect(t, ProviderEnds(finish), o, ok, Step(t, ProviderEnds(finish), o, ok))
  {
    ProviderKinds(t, ProviderEnds(finish), o, ok);
    assert t.starts + [] == t.starts;
    var u := t.(worker := NoWorker, active := false, action := NoAction);
    assert External(u) == External(t);
    if t.worker == ProviderCall(t.providerToken) && finish.Finished? {
      assert Step(t, ProviderEnds(finish), o, ok) == HoldCompletion(u, finish.disposition);
    }
  }

  lemma ProviderEffect(t: Turn, op: Op, o: DriveOutcome, ok: bool)
    requires Inv(t) && LiveTurn(t) && op.ProviderEnds?
    ensures Effect(t, op, o, ok, Step(t, op, o, ok))
  {
    if PassEnds(t, op) {
      PassEffect(t, op, o, ok, t.(worker := NoWorker, active := false, action := NoAction));
    } else {
      OtherEndEffect(t, op.finish, o, ok);
    }
  }

  lemma PassEffect(t: Turn, op: Op, o: DriveOutcome, ok: bool, u: Turn)
    requires Inv(t) && PassEnds(t, op) && u == t.(worker := NoWorker, active := false, action := NoAction)
    ensures Effect(t, op, o, ok, PassOver(u, op.finish.disposition, op.finish.resume, o, ok))
  {
    ProviderKinds(t, op, o, ok);
    assert t.starts + [] == t.starts;
    assert External(u) == 0;
    if t.completion == Some(ResumeAfterExternal) || (t.completion.None? && op.finish.resume) {
      var v := u.(completion := None, action := Resume);
      assert External(v) == 0;
      assert PassOver(u, op.finish.disposition, op.finish.resume, o, ok) == Reconcile(v, o, ok);
      if t.compaction {
        ReconcileWaits(v, o, ok);
      } else {
        ReconcileSettled(v, o, ok);
      }
    }
  }

  lemma SummaryEffect(t: Turn, op: Op, o: DriveOutcome, ok: bool)
    requires Inv(t) && LiveTurn(t) && op.SummaryEnds?
    ensures Effect(t, op, o, ok, Step(t, op, o, ok))
  {
    if SummaryArrives(t, op) && !op.result.manual {
      var v := t.(worker := NoWorker, active := false, action := Resume, compaction := false);
      assert External(v) == External(t);
      if External(t) == 0 {
        ReconcileSettled(v, o, ok);
      } else {
        ReconcileWaits(v, o, ok);
      }
    }
  }

  lemma RunEffect(t: Turn, prewarm: bool, o: DriveOutcome, ok: bool)
    requires Inv(t) && LiveTurn(t)
    ensures Effect(t, RunRequest(prewarm), o, ok, Step(t, RunRequest(prewarm), o, ok))
  {
    NothingExternal(Reset(t).(action := Start));
  }

  lemma TimerEffect(t: Turn, o: DriveOutcome, ok: bool)
    requires Inv(t) && LiveTurn(t)
    ensures Effect(t, TimerFires, o, ok, Step(t, TimerFires, o, ok))
  {
    NothingExternal(t);
  }

  /** Exactly which commands complete, fail, start or go on with a live turn. */
  lemma StepEffect(t: Turn, op: Op, o: DriveOutcome, ok: bool)
    requires Inv(t) && LiveTurn(t)
    ensures Effect(t, op, o, ok, Step(t, op, o, ok))
  {
    if op.RunRequest? {
      RunEffect(t, op.prewarm, o, ok);
    } else if op.ExecResult? || op.RecoverExec? {
      ExecEffect(t, op, o, ok);
    } else if op.InteractionResult? {
      InteractionEffect(t, op, o, ok);
    } else if op.ProviderEnds? {
      ProviderEffect(t, op, o, ok);
    } else if op.SummaryEnds? {
      SummaryEffect(t, op, o, ok);
    } else if op.TimerFires? {
      TimerEffect(t, o, ok);
    } else if op.ReconcileNow? {
      ReconcileNowEffect(t, o, ok);
    }
  }

  /** The same over runs: whatever happened, a live turn completes, fails, starts or goes on exactly so. */
  lemma RunEffects(commands: seq<Command>, c: Command)
    requires LiveTurn(Run(commands))
    ensures Effect(Run(commands), c.op, c.o, c.ok, Step(Run(commands), c.op, c.o, c.ok))
  {
    RunKeepsInv(commands);
    StepEffect(Run(commands), c.op, c.o, c.ok);
  }

  // ---- A pass with outstanding work ----

  /** The pass is over and its work outstanding; `completes` tells how the turn will end. */
  predicate Waiting(t: Turn, completes: bool) {
    && LiveTurn(t) && !t.active && !t.compaction && t.action == NoAction && !t.resumeTimer && t.completion.Some?
    && (completes <==> t.completion == Some(CompleteAfterExternal) || AwaitsUser(t))
  }

  lemma PassIsOver(t: Turn, finish: Finish, o: DriveOutcome, ok: bool)
    requires Inv(t) && LiveTurn(t) && t.worker == ProviderCall(t.providerToken) && !t.compaction && !t.resumeTimer
    requires finish.Finished? && External(t) > 0
    ensures var u := Step(t, ProviderEnds(finish), o, ok);
            && u.starts == t.starts && External(u) == External(t) && u.execs == t.execs && u.interactions == t.interactions
            && Waiting(u, finish.disposition.CompleteAfterExternal? || t.completion == Some(CompleteAfterExternal) || AwaitsUser(t))
  {
    var u := Step(t, ProviderEnds(finish), o, ok);
    assert AwaitsUser(u) <==> AwaitsUser(t) by {
      assert u.interactions == t.interactions;
    }
  }

  /** The user is no longer awaited exactly when the answered interaction was the only one that waited. */
  lemma AwaitsGone(t: Turn, id: nat)
    requires id in t.interactions
    ensures AwaitsUser(t) <==> t.interactions[id] || AwaitsUser(t.(interactions := t.interactions - {id}))
  {
    var u := t.(interactions := t.interactions - {id});
    if AwaitsUser(t) {
      var k :| k in t.interactions && t.interactions[k];
      assert k == id || (k in u.interactions && u.interactions[k]);
    }
    if AwaitsUser(u) {
      var k :| k in u.interactions && u.interactions[k];
      assert k in t.interactions && t.interactions[k];
    }
  }

  lemma InteractionStep(t: Turn, c: Command, completes: bool)
    requires Inv(t) && Waiting(t, completes) && Answered(t, c.op) && External(t) > 1 && c.op.InteractionResult?
    ensures var u := Step(t, c.op, c.o, c.ok);
            Waiting(u, completes) && External(u) == External(t) - 1 && u.starts == t.starts
  {
    ExternalGone(t, c.op.id);
    AwaitsGone(t, c.op.id);
    var v := t.(interactions := t.interactions - {c.op.id});
    var w := if t.interactions[c.op.id] then v.(completion := Some(Merge(v.completion, CompleteAfterExternal))) else v;
    assert External(w) == External(v);
    ReconcileWaits(w, c.o, c.ok);
    var u := Reconcile(w, c.o, c.ok);
    assert u.interactions == v.interactions;
    assert AwaitsUser(u) <==> AwaitsUser(v);
  }

  lemma ExecStep(t: Turn, c: Command, completes: bool)
    requires Inv(t) && Waiting(t, completes) && Answered(t, c.op) && External(t) > 1 && !c.op.InteractionResult?
    ensures var u := Step(t, c.op, c.o, c.ok);
            Waiting(u, completes) && External(u) == External(t) - 1 && u.starts == t.starts
  {
    ExternalGone(t, c.op.id);
    var v := t.(execs := t.execs - {c.op.id});
    ReconcileWaits(v, c.o, c.ok);
    var u := Reconcile(v, c.o, c.ok);
    assert u.interactions == t.interactions;
    assert AwaitsUser(u) <==> AwaitsUser(t);
  }

  lemma AnswerStep(t: Turn, c: Command, completes: bool)
    requires Inv(t) && Waiting(t, completes) && Answered(t, c.op) && External(t) > 1
    ensures var u := Step(t, c.op, c.o, c.ok);
            Waiting(u, completes) && External(u) == External(t) - 1 && u.starts == t.starts
  {
    if c.op.InteractionResult? {
      InteractionStep(t, c, completes);
    } else {
      ExecStep(t, c, completes);
    }
  }

  /** Each command is the appended answer to something still outstanding. */
  predicate AllAnswered(t: Turn, cs: seq<Command>) {
    forall i :: 0 <= i < |cs| ==> Answered(RunFrom(t, cs[..i]), cs[i].op)
  }

  lemma {:induction false} AnswersCount(t: Turn, cs: seq<Command>, completes: bool)
    requires Inv(t) && Waiting(t, completes) && AllAnswered(t, cs) && |cs| < External(t)
    ensures var u := RunFrom(t, cs);
            Inv(u) && Waiting(u, completes) && External(u) == External(t) - |cs| && u.starts == t.starts
  {
    if cs != [] {
      var n := |cs| - 1;
      var init := cs[..n];
      forall i | 0 <= i < n ensures Answered(RunFrom(t, init[..i]), init[i].op) {
        assert init[..i] == cs[..i] && init[i] == cs[i];
      }
      AnswersCount(t, init, completes);
      AnswerStep(RunFrom(t, init), cs[n], completes);
      StepKeepsInv(RunFrom(t, init), cs[n].op, cs[n].o, cs[n].ok);
    }
  }

  lemma LastInteraction(t: Turn, c: Command, completes: bool)
    requires Inv(t) && Waiting(t, completes) && Answered(t, c.op) && External(t) == 1 && c.op.InteractionResult?
    ensures var u := Step(t, c.op, c.o, c.ok);
            && u.starts == t.starts
            && (completes ==> u.status == if c.ok then Completed else Failed)
            && (!completes ==> LiveTurn(u) && u.resumeTimer && u.action == Resume && u.completion.None? && !u.active && External(u) == 0)
  {
    StepEffect(t, c.op, c.o, c.ok);
    ExternalGone(t, c.op.id);
    AwaitsGone(t, c.op.id);
    NobodyAwaited(t.(interactions := t.interactions - {c.op.id}));
  }

  lemma LastExec(t: Turn, c: Command, completes: bool)
    requires Inv(t) && Waiting(t, completes) && Answered(t, c.op) && External(t) == 1 && !c.op.InteractionResult?
    ensures var u := Step(t, c.op, c.o, c.ok);
            && u.starts == t.starts
            && (completes ==> u.status == if c.ok then Completed else Failed)
            && (!completes ==> LiveTurn(u) && u.resumeTimer && u.action == Resume && u.completion.None? && !u.active && External(u) == 0)
  {
    StepEffect(t, c.op, c.o, c.ok);
    ExternalGone(t, c.op.id);
    var u := t.(execs := t.execs - {c.op.id});
    NobodyAwaited(u);
    assert AwaitsUser(u) <==> AwaitsUser(t);
  }

  lemma LastAnswer(t: Turn, c: Command, completes: bool)
    requires Inv(t) && Waiting(t, completes) && Answered(t, c.op) && External(t) == 1
    ensures var u := Step(t, c.op, c.o, c.ok);
            && u.starts == t.starts
            && (completes ==> u.status == if c.ok then Completed else Failed)
            && (!completes ==> LiveTurn(u) && u.resumeTimer && u.action == Resume && u.completion.None? && !u.active && External(u) == 0)
  {
    if c.op.InteractionResult? {
      LastInteraction(t, c, completes);
    } else {
      LastExec(t, c, completes);
    }
  }

  lemma NobodyAwaited(t: Turn)
    requires External(t) == 0
    ensures !AwaitsUser(t)
  {
    NothingExternal(t);
  }

  /** All answers together. */
  lemma AnswersSettle(v: Turn, cs: seq<Command>, completes: bool)
    requires Inv(v) && Waiting(v, completes) && |cs| == External(v) > 0 && AllAnswered(v, cs)
    ensures var u := RunFrom(v, cs);
            && Inv(u) && u.starts == v.starts
            && (completes ==> u.status == if cs[|cs| - 1].ok then Completed else Failed)
            && (!completes ==> LiveTurn(u) && u.resumeTimer && u.action == Resume && u.completion.None? && !u.active && External(u) == 0)
  {
    var n := |cs| - 1;
    var init := cs[..n];
    forall i | 0 <= i < n ensures Answered(RunFrom(v, init[..i]), init[i].op) {
      assert init[..i] == cs[..i] && init[i] == cs[i];
    }
    AnswersCount(v, init, completes);
    LastAnswer(RunFrom(v, init), cs[n], completes);
    StepKeepsInv(RunFrom(v, init), cs[n].op, cs[n].o, cs[n].ok);
  }

  /**
   A pass that ends with work outstanding is carried out: once each piece of work has
   been answered, in any order, the turn completes if the pass, an earlier completion or
   an interaction with the user said so; otherwise the timer is set and, when it fires,
   the provider is started exactly once more.
   */
  lemma PassIsCarriedOut(t: Turn, finish: Finish, end: Command, cs: seq<Command>, timer: Command, completes: bool)
    requires Inv(t) && LiveTurn(t) && t.worker == ProviderCall(t.providerToken) && !t.compaction && !t.resumeTimer
    requires finish.Finished? && end.op == ProviderEnds(finish) && |cs| == External(t) > 0 && timer.op.TimerFires?
    requires AllAnswered(Step(t, end.op, end.o, end.ok), cs)
    requires completes <==> finish.disposition.CompleteAfterExternal? || t.completion == Some(CompleteAfterExternal) || AwaitsUser(t)
    ensures var u := RunFrom(Step(t, end.op, end.o, end.ok), cs);
            && u.starts == t.starts
            && (completes ==> u.status == if cs[|cs| - 1].ok then Completed else Failed)
            && (!completes ==> LiveTurn(u) && u.completion.None?)
            && (!completes ==> Step(u, timer.op, timer.o, timer.ok).starts == t.starts + [Snapshot(false, false, 0, false, NoWorker)])
  {
    PassIsOver(t, finish, end.o, end.ok);
    StepKeepsInv(t, end.op, end.o, end.ok);
    AnswersSettle(Step(t, end.op, end.o, end.ok), cs, completes);
    if !completes {
      StepEffect(RunFrom(Step(t, end.op, end.o, end.ok), cs), timer.op, timer.o, timer.ok);
    }
  }

  /** What one command promises its caller: it is safe, stalls exactly when named, and has exactly the effect told. */
  predicate Promised(t: Turn, op: Op, o: DriveOutcome, ok: bool, u: Turn) {
    Handled(t, op, u) && (LiveTurn(t) ==> Effect(t, op, o, ok, u))
  }

  lemma CommandKeepsPromise(t: Turn, op: Op, o: DriveOutcome, ok: bool)
    requires Inv(t)
    ensures Inv(Step(t, op, o, ok)) && Promised(t, op, o, ok, Step(t, op, o, ok))
  {
    CommandIsHandled(t, op, o, ok);
    if LiveTurn(t) {
      StepEffect(t, op, o, ok);
    }
  }

  /** A pending completion is carried out its own way. */
  predicate CarriesOut(t: Turn, ok: bool, u: Turn) {
    LiveTurn(t) && !t.active && External(t) == 0 && !t.compaction && t.action != Start ==>
      && u.starts == t.starts
      && (t.completion == Some(ResumeAfterExternal) ==>
            LiveTurn(u) && u.completion.None? && u.resumeTimer && u.action == Resume)
      && (t.completion == Some(CompleteAfterExternal) ==> u.status == if ok then Completed else Failed)
  }

  lemma ReconcileCarriesOut(t: Turn, o: DriveOutcome, ok: bool)
    ensures CarriesOut(t, ok, Reconcile(t, o, ok))
  {
    if LiveTurn(t) && !t.active && External(t) == 0 && !t.compaction && t.action != Start {
      ReconcileSettled(t, o, ok);
    }
  }
}
