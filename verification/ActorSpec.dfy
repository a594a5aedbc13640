/**
 The turn state machine of one stream: when a model call may start
 (internal/backend/forwarder/actor.go, compaction.go, service.go).

 The actor handles one command at a time. What a command cannot know beforehand
 (whether the prompt compiles, whether it has to be compacted first, whether a
 history append succeeds) is a parameter of the command.
 */
module ActorSpec {
  import opened Base
  import opened BrokerSpec

  datatype Phase = Idle | ProviderRunning | WaitingExternal | AwaitingUser | Compacting | PhaseCompleted | PhaseFailed | PhaseCanceled

  datatype Action = NoAction | Start | Resume

  datatype Disposition = ResumeAfterExternal | CompleteAfterExternal

  /** The model call in flight, if any: a provider pass or a compaction summary. */
  datatype Worker = NoWorker | ProviderCall(token: nat) | SummaryCall(token: nat)

  /** What a call of driveProvider found. */
  datatype Snapshot = Snapshot(terminal: bool, active: bool, external: nat, compaction: bool, worker: Worker)

  /** `execs[id]` tells whether the exec is a pre-compact hook, `interactions[id]` whether it waits for the user. */
  datatype Turn = Turn(
    status: Status,
    phase: Phase,
    active: bool,
    action: Action,
    completion: Option<Disposition>,
    compaction: bool,
    execs: map<nat, bool>,
    interactions: map<nat, bool>,
    providerToken: nat,
    summaryToken: nat,
    resumeTimer: bool,
    worker: Worker,
    starts: seq<Snapshot>)

  datatype DriveOutcome = Runs | Compacts(hook: nat) | NothingToCompact | Breaks

  function Initial(): Turn {
    Turn(Created, Idle, false, NoAction, None, false, map[], map[], 0, 0, false, NoWorker, [])
  }

  function External(t: Turn): nat {
    |t.execs| + |t.interactions|
  }

  function Fail(t: Turn): Turn {
    t.(completion := None, active := false, action := NoAction, phase := PhaseFailed, status := Failed)
  }

  function Complete(t: Turn, ok: bool): Turn {
    if Terminal(t.status) then t
    else if ok then t.(status := Completed, phase := PhaseCompleted)
    else Fail(t)
  }

  function Begin(t: Turn, o: DriveOutcome): Turn {
    match o
    case Runs => t.(active := true, worker := ProviderCall(t.providerToken), phase := ProviderRunning)
    case Compacts(hook) => t.(compaction := true, execs := t.execs[hook := true], phase := Compacting)
    case NothingToCompact => t.(status := Completed, phase := PhaseCompleted)
    case Breaks => Fail(t)
  }

  /** Records in what state the provider is driven. */
  function Noted(t: Turn): Turn {
    t.(starts := t.starts + [Snapshot(Terminal(t.status), t.active, External(t), t.compaction, t.worker)])
  }

  function NextPass(t: Turn): Turn {
    t.(status := Streaming, action := NoAction, providerToken := t.providerToken + 1)
  }

  function Drive(t: Turn, o: DriveOutcome): Turn {
    if t.active || Terminal(t.status) then Noted(t) else Begin(NextPass(Noted(t)), o)
  }

  predicate AwaitsUser(t: Turn) {
    exists id :: id in t.interactions && t.interactions[id]
  }

  function Reconcile(t: Turn, o: DriveOutcome, ok: bool): Turn {
    if Terminal(t.status) || t.active then t
    else if External(t) > 0 then
      t.(phase := if AwaitsUser(t) then AwaitingUser else if t.compaction then Compacting else WaitingExternal)
    else if t.compaction then t.(phase := Compacting)
    else if t.completion == Some(ResumeAfterExternal) then
      t.(completion := None, action := if t.action == Start then Start else Resume,
         phase := WaitingExternal, resumeTimer := true)
    else if t.completion.Some? then Complete(t.(completion := None), ok)
    else match t.action
      case Start => Drive(t, o)
      case Resume => t.(phase := WaitingExternal, resumeTimer := true)
      case NoAction => t.(phase := Idle)
  }

  function Request(t: Turn, action: Action, o: DriveOutcome, ok: bool): Turn {
    Reconcile(t.(action := if action == Resume && t.action == Start then Start else action), o, ok)
  }

  /** The resume timer fires: note that it does not look at the pending compaction. */
  function ResumeFired(t: Turn, o: DriveOutcome): Turn {
    if !t.resumeTimer then t
    else
      var u := t.(resumeTimer := false);
      if u.active || Terminal(u.status) || u.action != Resume || External(u) > 0 then u else Drive(u, o)
  }

  function StartSummary(t: Turn, appendOk: bool): Turn {
    if Terminal(t.status) then t.(compaction := false)
    else
      var u := t.(summaryToken := t.summaryToken + 1, action := NoAction, phase := Compacting);
      if appendOk then u.(active := true, worker := SummaryCall(u.summaryToken)) else u.(active := false)
  }

  function PreCompactDone(t: Turn, appendOk: bool, o: DriveOutcome, ok: bool): Turn {
    if t.compaction then StartSummary(t, appendOk) else Request(t, Resume, o, ok)
  }

  datatype SummaryResult = SummaryInterrupted | SummaryBroken | Summarised(manual: bool)

  function SummaryDone(t: Turn, token: nat, result: SummaryResult, o: DriveOutcome, ok: bool): Turn {
    if t.summaryToken != token then t
    else
      var u := t.(active := false, action := NoAction, compaction := false);
      if Terminal(u.status) || result.SummaryInterrupted? then u
      else if result.SummaryBroken? then Fail(u)
      else if result.manual then Complete(u, ok)
      else Request(u, Resume, o, ok)
  }

  datatype Finish = Interrupted | Broken | Finished(disposition: Disposition, resume: bool)

  function Merge(existing: Option<Disposition>, incoming: Disposition): Disposition {
    if existing == Some(CompleteAfterExternal) || incoming.CompleteAfterExternal? then CompleteAfterExternal
    else ResumeAfterExternal
  }

  function ProviderDone(t: Turn, token: nat, finish: Finish, o: DriveOutcome, ok: bool): Turn {
    if token == 0 || t.providerToken != token then t
    else
      var u := t.(active := false, action := NoAction);
      if Terminal(u.status) || finish.Interrupted? then u
      else if finish.Broken? then Fail(u)
      else PassOver(u, finish.disposition, finish.resume, o, ok)
  }

  function EndOrContinue(u: Turn, resume: bool, o: DriveOutcome, ok: bool): Turn {
    if resume then Request(u, Resume, o, ok) else Complete(u, ok)
  }

  function HoldCompletion(u: Turn, d: Disposition): Turn {
    u.(completion := Some(Merge(u.completion, d)), phase := if AwaitsUser(u) then AwaitingUser else WaitingExternal)
  }

  /** The end of a pass that was neither interrupted nor broken. */
  function PassOver(u: Turn, d: Disposition, resume: bool, o: DriveOutcome, ok: bool): Turn {
    if External(u) > 0 then HoldCompletion(u, d)
    else if u.completion.None? then EndOrContinue(u, resume, o, ok)
    else EndOrContinue(u.(completion := None), u.completion.value == ResumeAfterExternal, o, ok)
  }

  /** A run request forgets what the turn was waiting for; the mark of a running call stays. */
  function Reset(t: Turn): Turn {
    t.(completion := None, resumeTimer := false, action := NoAction, compaction := false,
       execs := map[], interactions := map[], providerToken := 0, summaryToken := 0, phase := Idle)
  }

  datatype Op =
    | RunRequest(prewarm: bool)
    | OpenExec(id: nat)
    | OpenInteraction(id: nat, awaiting: bool)
    | ExecResult(id: nat, appendOk: bool)
    | RecoverExec(id: nat, appendOk: bool)
    | InteractionResult(id: nat, appendOk: bool)
    | ProviderEnds(finish: Finish)
    | SummaryEnds(result: SummaryResult)
    | TimerFires
    | ReconcileNow
    | CancelTurn
    | FailTurn

  /**
   `o` and `ok` decide what happens if the command gets to drive the provider or to
   complete the turn. A failing append makes the handler of a result return its error
   to the client before it reconciles; the recovery of an exec runs from a timer, whose
   error fails the stream.
   */
  function Step(t: Turn, op: Op, o: DriveOutcome, ok: bool): Turn {
    match op
    case RunRequest(prewarm) =>
      if prewarm then Reset(t) else Request(Reset(t), Start, o, ok)
    case OpenExec(id) =>
      if Terminal(t.status) || id in t.execs then t else t.(execs := t.execs[id := false])
    case OpenInteraction(id, awaiting) =>
      if Terminal(t.status) || id in t.interactions then t
      else t.(interactions := t.interactions[id := awaiting])
    case ExecResult(id, appendOk) =>
      if Terminal(t.status) || id !in t.execs then t
      else
        var u := t.(execs := t.execs - {id});
        if t.execs[id] then PreCompactDone(u, appendOk, o, ok)
        else if appendOk then Reconcile(u, o, ok)
        else u
    case RecoverExec(id, appendOk) =>
      // The transport of a non-streaming exec closed and its grace period ran out.
      if Terminal(t.status) || id !in t.execs then t
      else
        var u := t.(execs := t.execs - {id});
        if appendOk then Reconcile(u, o, ok) else Fail(u)
    case InteractionResult(id, appendOk) =>
      if Terminal(t.status) || id !in t.interactions then t
      else
        var u := t.(interactions := t.interactions - {id});
        if !appendOk then u
        else if t.interactions[id]
        then Reconcile(u.(completion := Some(Merge(u.completion, CompleteAfterExternal))), o, ok)
        else Reconcile(u, o, ok)
    case ProviderEnds(finish) =>
      if t.worker.ProviderCall? then ProviderDone(t.(worker := NoWorker), t.worker.token, finish, o, ok) else t
    case SummaryEnds(result) =>
      if t.worker.SummaryCall? then SummaryDone(t.(worker := NoWorker), t.worker.token, result, o, ok) else t
    case TimerFires => ResumeFired(t, o)
    case ReconcileNow => Reconcile(t, o, ok)
    case CancelTurn =>
      t.(completion := None, action := NoAction, phase := PhaseCanceled, active := false, status := Canceled)
    case FailTurn => Fail(t)
  }

  datatype Command = Command(op: Op, o: DriveOutcome, ok: bool)

  function RunFrom(t: Turn, commands: seq<Command>): Turn {
    if commands == [] then t
    else
      var c := commands[|commands| - 1];
      Step(RunFrom(t, commands[..|commands| - 1]), c.op, c.o, c.ok)
  }

  function Run(commands: seq<Command>): Turn {
    RunFrom(Initial(), commands)
  }

  // ---- What every run keeps ----

  predicate Clean(s: Snapshot) {
    !s.terminal && !s.active && s.external == 0 && !s.compaction && s.worker.NoWorker?
  }

  predicate HookPending(t: Turn) {
    exists id :: id in t.execs && t.execs[id]
  }

  predicate OneHook(execs: map<nat, bool>) {
    forall i, j | i in execs && j in execs && execs[i] && execs[j] :: i == j
  }

  predicate Inv(t: Turn) {
    && (forall i :: 0 <= i < |t.starts| ==> Clean(t.starts[i]))
    && (!t.worker.NoWorker? ==> t.worker.token >= 1)
    && (!Terminal(t.status) ==>
          && (t.action == Start ==> t.active)
          && (t.compaction ==> !t.resumeTimer)
          && (!t.worker.NoWorker? ==> t.active)
          && (HookPending(t) ==> t.compaction && !t.active)
          && OneHook(t.execs)
          && (t.worker.SummaryCall? && t.worker.token == t.summaryToken ==> t.compaction))
  }

  /** A turn on which a provider start would be clean. */
  predicate Startable(t: Turn) {
    && !Terminal(t.status) && !t.active && t.worker.NoWorker?
    && t.execs == map[] && t.interactions == map[] && !t.compaction
  }

  lemma DriveKeepsInv(t: Turn, o: DriveOutcome)
    requires Inv(t.(action := NoAction)) && Startable(t) && !t.resumeTimer
    ensures Inv(Drive(t, o))
  {
  }

  lemma NothingExternal(t: Turn)
    ensures External(t) == 0 <==> t.execs == map[] && t.interactions == map[]
  {
    assert |t.execs| == 0 ==> t.execs == map[];
    assert |t.interactions| == 0 ==> t.interactions == map[];
  }

  /** Reconciling keeps the invariant; an action Start may only be left over from a command that cleared the timer. */
  lemma ReconcileKeepsInv(t: Turn, o: DriveOutcome, ok: bool)
    requires Inv(t.(action := NoAction))
    requires t.action == Start ==> t.active || Terminal(t.status) || (!t.resumeTimer && t.completion.None? && Startable(t))
    ensures Inv(Reconcile(t, o, ok))
  {
    NothingExternal(t);
  }

  lemma RequestResumeKeepsInv(t: Turn, o: DriveOutcome, ok: bool)
    requires Inv(t)
    ensures Inv(Request(t, Resume, o, ok))
  {
    ReconcileKeepsInv(t.(action := if t.action == Start then Start else Resume), o, ok);
  }

  lemma RunRequestKeepsInv(t: Turn, prewarm: bool, o: DriveOutcome, ok: bool)
    requires Inv(t)
    ensures Inv(Step(t, RunRequest(prewarm), o, ok))
  {
    var u := Step(t, RunRequest(true), o, ok);
    assert Inv(u);
    ReconcileKeepsInv(u.(action := Start), o, ok);
  }

  lemma StartSummaryKeepsInv(t: Turn, appendOk: bool)
    requires Inv(t) && t.compaction && t.worker.NoWorker? && !HookPending(t)
    ensures Inv(StartSummary(t, appendOk))
  {
    var u := StartSummary(t, appendOk);
    assert u.execs == t.execs;
  }

  lemma ExecGone(t: Turn, id: nat)
    requires Inv(t) && !Terminal(t.status) && id in t.execs
    ensures var u := t.(execs := t.execs - {id});
            && Inv(u)
            && (t.execs[id] ==> t.compaction && !t.active && t.worker.NoWorker? && !HookPending(u))
  {
    var u := t.(execs := t.execs - {id});
    if HookPending(u) {
      var k :| k in u.execs && u.execs[k];
      assert k in t.execs && t.execs[k] && k != id;
    }
    if t.execs[id] {
      assert HookPending(t);
    }
  }

  lemma ExecResultKeepsInv(t: Turn, id: nat, appendOk: bool, o: DriveOutcome, ok: bool)
    requires Inv(t) && !Terminal(t.status) && id in t.execs
    ensures Inv(Step(t, ExecResult(id, appendOk), o, ok))
    ensures Inv(Step(t, RecoverExec(id, appendOk), o, ok))
  {
    var u := t.(execs := t.execs - {id});
    ExecGone(t, id);
    ReconcileKeepsInv(u, o, ok);
    if t.execs[id] {
      StartSummaryKeepsInv(u, appendOk);
    }
  }

  lemma PassOverKeepsInv(u: Turn, d: Disposition, resume: bool, o: DriveOutcome, ok: bool)
    requires Inv(u) && u.worker.NoWorker? && !u.active && u.action.NoAction?
    ensures Inv(PassOver(u, d, resume, o, ok))
  {
    var v := u.(completion := None);
    assert HookPending(v) <==> HookPending(u);
    if u.completion.Some? {
      RequestResumeKeepsInv(v, o, ok);
    } else {
      RequestResumeKeepsInv(u, o, ok);
    }
  }

  lemma ProviderDoneKeepsInv(t: Turn, token: nat, finish: Finish, o: DriveOutcome, ok: bool)
    requires Inv(t) && t.worker.NoWorker?
    ensures Inv(ProviderDone(t, token, finish, o, ok))
  {
    var u := t.(active := false, action := NoAction);
    assert HookPending(u) <==> HookPending(t);
    if finish.Finished? {
      PassOverKeepsInv(u, finish.disposition, finish.resume, o, ok);
    }
  }

  lemma SummaryDoneKeepsInv(t: Turn, token: nat, result: SummaryResult, o: DriveOutcome, ok: bool)
    requires Inv(t) && t.worker.NoWorker?
    requires token == t.summaryToken && !Terminal(t.status) ==> !HookPending(t)
    ensures Inv(SummaryDone(t, token, result, o, ok))
  {
    var u := t.(active := false, action := NoAction, compaction := false);
    assert HookPending(u) <==> HookPending(t);
    if token == t.summaryToken && !Terminal(t.status) {
      RequestResumeKeepsInv(u, o, ok);
    }
  }

  lemma WorkerGone(t: Turn)
    requires Inv(t)
    ensures Inv(t.(worker := NoWorker))
    ensures !t.worker.NoWorker? && !Terminal(t.status) ==> !HookPending(t.(worker := NoWorker))
  {
    assert HookPending(t.(worker := NoWorker)) <==> HookPending(t);
  }

  lemma InteractionResultKeepsInv(t: Turn, id: nat, appendOk: bool, o: DriveOutcome, ok: bool)
    requires Inv(t)
    ensures Inv(Step(t, InteractionResult(id, appendOk), o, ok))
  {
    if !Terminal(t.status) && id in t.interactions {
      var u := t.(interactions := t.interactions - {id});
      assert HookPending(u) <==> HookPending(t);
      ReconcileKeepsInv(u, o, ok);
      ReconcileKeepsInv(u.(completion := Some(Merge(u.completion, CompleteAfterExternal))), o, ok);
    }
  }

  lemma OpenExecKeepsInv(t: Turn, id: nat, o: DriveOutcome, ok: bool)
    requires Inv(t)
    ensures Inv(Step(t, OpenExec(id), o, ok))
  {
    var u := Step(t, OpenExec(id), o, ok);
    assert HookPending(u) ==> HookPending(t);
  }

  lemma TimerKeepsInv(t: Turn, o: DriveOutcome)
    requires Inv(t)
    ensures Inv(ResumeFired(t, o))
  {
    if t.resumeTimer {
      var u := t.(resumeTimer := false);
      assert HookPending(u) <==> HookPending(t);
      NothingExternal(u);
      if !(u.active || Terminal(u.status) || u.action != Resume || External(u) > 0) {
        DriveKeepsInv(u, o);
      }
    }
  }

  lemma StepKeepsInv(t: Turn, op: Op, o: DriveOutcome, ok: bool)
    requires Inv(t)
    ensures Inv(Step(t, op, o, ok))
  {
    match op
    case RunRequest(prewarm) => RunRequestKeepsInv(t, prewarm, o, ok);
    case OpenExec(id) => OpenExecKeepsInv(t, id, o, ok);
    case ExecResult(id, appendOk) =>
      if !Terminal(t.status) && id in t.execs { ExecResultKeepsInv(t, id, appendOk, o, ok); }
    case RecoverExec(id, appendOk) =>
      if !Terminal(t.status) && id in t.execs { ExecResultKeepsInv(t, id, appendOk, o, ok); }
    case InteractionResult(id, appendOk) => InteractionResultKeepsInv(t, id, appendOk, o, ok);
    case ProviderEnds(finish) =>
      WorkerGone(t);
      if t.worker.ProviderCall? { ProviderDoneKeepsInv(t.(worker := NoWorker), t.worker.token, finish, o, ok); }
    case SummaryEnds(result) =>
      WorkerGone(t);
      if t.worker.SummaryCall? { SummaryDoneKeepsInv(t.(worker := NoWorker), t.worker.token, result, o, ok); }
    case TimerFires => TimerKeepsInv(t, o);
    case ReconcileNow => ReconcileKeepsInv(t, o, ok);
    case OpenInteraction(_, _) =>
    case CancelTurn =>
    case FailTurn =>
  }

  lemma {:induction false} RunKeepsInv(commands: seq<Command>)
    ensures Inv(Run(commands))
  {
    if commands != [] {
      var c := commands[|commands| - 1];
      RunKeepsInv(commands[..|commands| - 1]);
      StepKeepsInv(Run(commands[..|commands| - 1]), c.op, c.o, c.ok);
    }
  }

  // ---- The results ----

  /**
   Every provider start, by a reconciliation or by the resume timer, finds a live
   stream with no model call running, nothing outstanding and no compaction pending.
   */
  lemma StartsAreClean(commands: seq<Command>)
    ensures forall i :: 0 <= i < |Run(commands).starts| ==> Clean(Run(commands).starts[i])
  {
    RunKeepsInv(commands);
  }

  predicate Ends(t: Turn, op: Op) {
    (t.worker.ProviderCall? && op.ProviderEnds?) || (t.worker.SummaryCall? && op.SummaryEnds?)
  }

  /**
   What a caller can rely on across a handler: the invariant holds, the provider was
   driven at most once more, every start ever was clean, and a model call that was
   running still is the one running.
   */
  predicate Safe(t: Turn, u: Turn) {
    && Inv(u)
    && t.starts <= u.starts && |u.starts| <= |t.starts| + 1
    && (forall i :: 0 <= i < |u.starts| ==> Clean(u.starts[i]))
    && (!t.worker.NoWorker? ==> u.worker == t.worker)
  }

  lemma DriveIsSafe(t: Turn, o: DriveOutcome)
    requires Inv(t.(action := NoAction)) && Startable(t) && !t.resumeTimer
    ensures Safe(t, Drive(t, o))
  {
    DriveKeepsInv(t, o);
  }

  /** What reconciling needs of a turn: a requested start is left to the call that runs, or may be made. */
  predicate Reconcilable(t: Turn) {
    && Inv(t.(action := NoAction))
    && (t.action == Start ==> t.active || Terminal(t.status) || (!t.resumeTimer && t.completion.None? && Startable(t)))
  }

  lemma ReconcileIsSafe(t: Turn, o: DriveOutcome, ok: bool)
    requires Reconcilable(t)
    ensures Safe(t, Reconcile(t, o, ok))
  {
    ReconcileKeepsInv(t, o, ok);
    NothingExternal(t);
  }

  lemma InvIsReconcilable(t: Turn)
    requires Inv(t)
    ensures Reconcilable(t)
    ensures Reconcilable(t.(action := if t.action == Start then Start else Resume))
  {
    assert HookPending(t.(action := NoAction)) <==> HookPending(t);
  }

  lemma RequestIsSafe(t: Turn, o: DriveOutcome, ok: bool)
    requires Inv(t)
    ensures Safe(t, Request(t, Resume, o, ok))
  {
    InvIsReconcilable(t);
    ReconcileIsSafe(t.(action := if t.action == Start then Start else Resume), o, ok);
  }

  lemma TimerIsSafe(t: Turn, o: DriveOutcome)
    requires Inv(t)
    ensures Safe(t, ResumeFired(t, o))
  {
    TimerKeepsInv(t, o);
  }

  lemma PassOverIsSafe(u: Turn, d: Disposition, resume: bool, o: DriveOutcome, ok: bool)
    requires Inv(u) && u.worker.NoWorker? && !u.active && u.action.NoAction?
    ensures Safe(u, PassOver(u, d, resume, o, ok))
  {
    PassOverKeepsInv(u, d, resume, o, ok);
  }

  lemma ProviderDoneIsSafe(t: Turn, token: nat, finish: Finish, o: DriveOutcome, ok: bool)
    requires Inv(t) && t.worker.NoWorker?
    ensures Safe(t, ProviderDone(t, token, finish, o, ok))
  {
    var u := t.(active := false, action := NoAction);
    assert HookPending(u) <==> HookPending(t);
    if token != 0 && t.providerToken == token && !Terminal(t.status) && finish.Finished? {
      PassOverIsSafe(u, finish.disposition, finish.resume, o, ok);
    }
  }

  lemma SummaryDoneIsSafe(t: Turn, token: nat, result: SummaryResult, o: DriveOutcome, ok: bool)
    requires Inv(t) && t.worker.NoWorker?
    requires token == t.summaryToken && !Terminal(t.status) ==> !HookPending(t)
    ensures Safe(t, SummaryDone(t, token, result, o, ok))
  {
    SummaryDoneKeepsInv(t, token, result, o, ok);
  }

  lemma RunRequestIsSafe(t: Turn, prewarm: bool, o: DriveOutcome, ok: bool)
    requires Inv(t)
    ensures Safe(t, Step(t, RunRequest(prewarm), o, ok))
  {
    RunRequestKeepsInv(t, prewarm, o, ok);
    if !prewarm {
      var u := Step(t, RunRequest(true), o, ok);
      RunRequestKeepsInv(t, true, o, ok);
      ReconcileIsSafe(u.(action := Start), o, ok);
    }
  }

  lemma StartSummaryIsSafe(t: Turn, appendOk: bool)
    requires Inv(t) && t.compaction && t.worker.NoWorker? && !HookPending(t)
    ensures Safe(t, StartSummary(t, appendOk))
  {
    StartSummaryKeepsInv(t, appendOk);
  }

  lemma HookResultIsSafe(t: Turn, id: nat, appendOk: bool, o: DriveOutcome, ok: bool)
    requires Inv(t) && !Terminal(t.status) && id in t.execs && t.execs[id]
    ensures Safe(t, Step(t, ExecResult(id, appendOk), o, ok))
  {
    ExecGone(t, id);
    StartSummaryIsSafe(t.(execs := t.execs - {id}), appendOk);
  }

  lemma ExecResultIsSafe(t: Turn, op: Op, o: DriveOutcome, ok: bool)
    requires Inv(t) && (op.ExecResult? || op.RecoverExec?)
    ensures Safe(t, Step(t, op, o, ok))
  {
    if !Terminal(t.status) && op.id in t.execs {
      if op.ExecResult? && t.execs[op.id] {
        HookResultIsSafe(t, op.id, op.appendOk, o, ok);
      } else {
        var u := t.(execs := t.execs - {op.id});
        ExecGone(t, op.id);
        InvIsReconcilable(u);
        ReconcileIsSafe(u, o, ok);
      }
    }
  }

  lemma InteractionResultIsSafe(t: Turn, op: Op, o: DriveOutcome, ok: bool)
    requires Inv(t) && op.InteractionResult?
    ensures Safe(t, Step(t, op, o, ok))
  {
    if !Terminal(t.status) && op.id in t.interactions {
      var u := t.(interactions := t.interactions - {op.id});
      SameInv(t, u);
      if op.appendOk {
        var v := if t.interactions[op.id] then u.(completion := Some(Merge(u.completion, CompleteAfterExternal))) else u;
        SameInv(t, v);
        InvIsReconcilable(v);
        ReconcileIsSafe(v, o, ok);
      }
    }
  }

  /** The invariant does not depend on interactions, completions or phases. */
  lemma SameInv(t: Turn, u: Turn)
    requires Inv(t)
    requires u == t.(interactions := u.interactions, completion := u.completion, phase := u.phase)
    ensures Inv(u)
  {
    assert HookPending(u) <==> HookPending(t);
  }

  lemma EndIsSafe(t: Turn, op: Op, o: DriveOutcome, ok: bool)
    requires Inv(t) && Ends(t, op)
    ensures Safe(t.(worker := NoWorker), Step(t, op, o, ok))
  {
    WorkerGone(t);
    var v := t.(worker := NoWorker);
    if op.ProviderEnds? {
      ProviderDoneIsSafe(v, t.worker.token, op.finish, o, ok);
    } else {
      SummaryDoneIsSafe(v, t.worker.token, op.result, o, ok);
    }
  }

  /** The remaining commands drive nothing. */
  lemma QuietIsSafe(t: Turn, op: Op, o: DriveOutcome, ok: bool)
    requires Inv(t) && (op.OpenExec? || op.OpenInteraction? || op.CancelTurn? || op.FailTurn?)
    ensures Safe(t, Step(t, op, o, ok))
  {
    StepKeepsInv(t, op, o, ok);
  }

  /** Every command is safe; only the end of the running call itself changes who runs. */
  lemma StepIsSafe(t: Turn, op: Op, o: DriveOutcome, ok: bool)
    requires Inv(t)
    ensures Safe(if Ends(t, op) then t.(worker := NoWorker) else t, Step(t, op, o, ok))
  {
    if op.RunRequest? {
      RunRequestIsSafe(t, op.prewarm, o, ok);
    } else if op.ExecResult? || op.RecoverExec? {
      ExecResultIsSafe(t, op, o, ok);
    } else if op.InteractionResult? {
      InteractionResultIsSafe(t, op, o, ok);
    } else if op.ProviderEnds? || op.SummaryEnds? {
      if Ends(t, op) {
        EndIsSafe(t, op, o, ok);
      }
    } else if op.TimerFires? {
      TimerIsSafe(t, o);
    } else if op.ReconcileNow? {
      InvIsReconcilable(t);
      ReconcileIsSafe(t, o, ok);
    } else {
      QuietIsSafe(t, op, o, ok);
    }
  }

  /** At most one model call runs at a time: until it ends, no command begins another. */
  lemma OneModelCall(commands: seq<Command>, c: Command)
    ensures var t := Run(commands);
            !t.worker.NoWorker? && !Ends(t, c.op) ==> Step(t, c.op, c.o, c.ok).worker == t.worker
  {
    RunKeepsInv(commands);
    StepIsSafe(Run(commands), c.op, c.o, c.ok);
  }
}
