/**
 The stream fields the actor updates in place, and the handlers that decide about
 provider starts (internal/backend/forwarder/actor.go, compaction.go). Each handler
 is proved equal, on every state, to the function of `ActorSpec` it implements, and
 safe under the condition it needs; each command keeps `Valid` and says exactly what
 it brings about and when it leaves the turn waiting for nobody.
 */
module Actor {
  import opened Base
  import opened BrokerSpec
  import opened ActorSpec
  import opened ActorStalls
  import opened ActorEffects

  class StreamTurn {
    var status: Status
    var phase: Phase
    var active: bool
    var action: Action
    var completion: Option<Disposition>
    var compaction: bool
    var execs: map<nat, bool>
    var interactions: map<nat, bool>
    var providerToken: nat
    var summaryToken: nat
    var resumeTimer: bool
    var worker: Worker
    var starts: seq<Snapshot>

    function View(): Turn
      reads this
    {
      Turn(status, phase, active, action, completion, compaction, execs, interactions,
           providerToken, summaryToken, resumeTimer, worker, starts)
    }

    /** Holds between commands. */
    predicate Valid()
      reads this
    {
      Inv(View())
    }

    constructor ()
      ensures View() == ActorSpec.Initial() && Valid()
    {
      status, phase, active, action, completion, compaction := Created, Idle, false, NoAction, None, false;
      execs, interactions, providerToken, summaryToken := map[], map[], 0, 0;
      resumeTimer, worker, starts := false, NoWorker, [];
    }

    /** Scans the open interactions for one the user has to answer. */
    method HasAwaitingUserInteraction() returns (found: bool)
      ensures found <==> AwaitsUser(View())
    {
      var left := interactions.Keys;
      while left != {}
        invariant left <= interactions.Keys
        invariant forall id | id in interactions && id !in left :: !interactions[id]
        decreases |left|
      {
        var id :| id in left;
        if interactions[id] {
          return true;
        }
        left := left - {id};
      }
      found := false;
    }

    method FailStream()
      modifies this
      ensures View() == Fail(old(View()))
    {
      completion := None;
      active, action := false, NoAction;
      phase := PhaseFailed;
      status := Failed;
    }

    method CompleteTurn(ok: bool)
      modifies this
      ensures View() == ActorSpec.Complete(old(View()), ok)
    {
      if !Terminal(status) {
        if ok {
          status, phase := Completed, PhaseCompleted;
        } else {
          FailStream();
        }
      }
    }

    method DriveProvider(o: DriveOutcome)
      modifies this
      ensures View() == Drive(old(View()), o)
      ensures old(Inv(View().(action := NoAction)) && Startable(View()) && !resumeTimer) ==> Safe(old(View()), View())
    {
      ghost var t := View();
      if Inv(t.(action := NoAction)) && Startable(t) && !t.resumeTimer {
        DriveIsSafe(t, o);
      }
      NoteStart();
      if active || Terminal(status) {
        return;
      }
      EnterPass();
      BeginPass(o);
    }

    method NoteStart()
      modifies this
      ensures View() == Noted(old(View()))
    {
      starts := starts + [Snapshot(Terminal(status), active, External(View()), compaction, worker)];
    }

    method EnterPass()
      modifies this
      ensures View() == NextPass(old(View()))
    {
      status, action := Streaming, NoAction;
      providerToken := providerToken + 1;
    }

    /** The outcome of compiling the prompt: a call, a compaction, nothing to do, or an error. */
    method BeginPass(o: DriveOutcome)
      modifies this
      ensures View() == Begin(old(View()), o)
    {
      match o
      case Runs =>
        active := true;
        worker := ProviderCall(providerToken);
        phase := ProviderRunning;
      case Compacts(hook) =>
        compaction := true;
        execs := execs[hook := true];
        phase := Compacting;
      case NothingToCompact =>
        status, phase := Completed, PhaseCompleted;
      case Breaks =>
        FailStream();
    }

    method ReconcileStream(o: DriveOutcome, ok: bool)
      modifies this
      ensures View() == Reconcile(old(View()), o, ok)
      ensures old(Reconcilable(View())) ==> Safe(old(View()), View())
      ensures CarriesOut(old(View()), ok, View())
    {
      ReconcileCarriesOut(View(), o, ok);
      if Reconcilable(View()) {
        ReconcileIsSafe(View(), o, ok);
      }
      if Terminal(status) {
        return;
      }
      var pendingAction, pending := action, completion;
      if active {
        return;
      }
      if External(View()) > 0 {
        var awaiting := HasAwaitingUserInteraction();
        if awaiting {
          phase := AwaitingUser;
        } else if compaction {
          phase := Compacting;
        } else {
          phase := WaitingExternal;
        }
        return;
      }
      if compaction {
        phase := Compacting;
        return;
      }
      if pending.Some? {
        if pending.value == ResumeAfterExternal {
          completion := None;
          if action != Start {
            action := Resume;
          }
          pendingAction := Resume;
        } else {
          completion := None;
          CompleteTurn(ok);
          return;
        }
      }
      match pendingAction
      case Start => DriveProvider(o);
      case Resume =>
        phase := WaitingExternal;
        resumeTimer := true;
      case NoAction => phase := Idle;
    }

    method RequestProviderAction(requested: Action, o: DriveOutcome, ok: bool)
      modifies this
      ensures View() == Request(old(View()), requested, o, ok)
      ensures old(Valid()) && requested == Resume ==> Safe(old(View()), View())
    {
      if Valid() {
        RequestIsSafe(View(), o, ok);
      }
      match requested {
        case Start => action := Start;
        case Resume => if action != Start { action := Resume; }
        case NoAction => action := NoAction;
      }
      ReconcileStream(o, ok);
    }

    method ResumeTimerFired(o: DriveOutcome)
      modifies this
      ensures View() == ResumeFired(old(View()), o)
      ensures old(Valid()) ==> Safe(old(View()), View())
    {
      if Valid() {
        TimerIsSafe(View(), o);
      }
      if !resumeTimer {
        return;
      }
      resumeTimer := false;
      if active || Terminal(status) || action != Resume || External(View()) > 0 {
        return;
      }
      DriveProvider(o);
    }

    method StartPendingCompactionSummary(appendOk: bool)
      modifies this
      ensures View() == StartSummary(old(View()), appendOk)
      ensures old(Valid() && compaction && worker.NoWorker? && !HookPending(View())) ==> Safe(old(View()), View())
    {
      if Valid() && compaction && worker.NoWorker? && !HookPending(View()) {
        StartSummaryIsSafe(View(), appendOk);
      }
      if Terminal(status) {
        compaction := false;
        return;
      }
      summaryToken := summaryToken + 1;
      active, action := true, NoAction;
      phase := Compacting;
      if !appendOk {
        active := false;
        return;
      }
      worker := SummaryCall(summaryToken);
    }

    method HandlePreCompactTerminal(appendOk: bool, o: DriveOutcome, ok: bool)
      modifies this
      ensures View() == PreCompactDone(old(View()), appendOk, o, ok)
      ensures old(Valid() && worker.NoWorker? && !HookPending(View())) ==> Safe(old(View()), View())
    {
      if !compaction {
        RequestProviderAction(Resume, o, ok);
      } else {
        StartPendingCompactionSummary(appendOk);
      }
    }

    method HandleCompactionEvent(token: nat, result: SummaryResult, o: DriveOutcome, ok: bool)
      modifies this
      ensures View() == SummaryDone(old(View()), token, result, o, ok)
      ensures old(Valid() && worker.NoWorker? && !HookPending(View())) ==> Safe(old(View()), View())
    {
      if Valid() && worker.NoWorker? && !HookPending(View()) {
        SummaryDoneIsSafe(View(), token, result, o, ok);
      }
      if summaryToken != token {
        return;
      }
      active, action := false, NoAction;
      compaction := false;
      if result.SummaryInterrupted? || Terminal(status) {
        return;
      }
      match result
      case SummaryBroken => FailStream();
      case Summarised(manual) =>
        if manual {
          CompleteTurn(ok);
        } else {
          RequestProviderAction(Resume, o, ok);
        }
    }

    method HandleProviderDone(token: nat, finish: Finish, o: DriveOutcome, ok: bool)
      modifies this
      ensures View() == ProviderDone(old(View()), token, finish, o, ok)
      ensures old(Valid() && worker.NoWorker?) ==> Safe(old(View()), View())
    {
      if Valid() && worker.NoWorker? {
        ProviderDoneIsSafe(View(), token, finish, o, ok);
      }
      if token == 0 || providerToken != token {
        return;
      }
      active, action := false, NoAction;
      if finish.Interrupted? || Terminal(status) {
        return;
      }
      if finish.Broken? {
        FailStream();
        return;
      }
      FinishPass(finish.disposition, finish.resume, o, ok);
    }

    /** The end of a pass that was neither interrupted nor broken. */
    method FinishPass(disposition: Disposition, resume: bool, o: DriveOutcome, ok: bool)
      modifies this
      ensures View() == PassOver(old(View()), disposition, resume, o, ok)
      ensures old(Valid() && worker.NoWorker? && !active && action.NoAction?) ==> Safe(old(View()), View())
    {
      if Valid() && worker.NoWorker? && !active && action.NoAction? {
        PassOverIsSafe(View(), disposition, resume, o, ok);
      }
      if External(View()) > 0 {
        KeepCompletion(disposition);
        return;
      }
      if completion.None? {
        EndOrResume(resume, o, ok);
        return;
      }
      var existing := completion.value;
      completion := None;
      assert View() == old(View()).(completion := None);
      EndOrResume(existing == ResumeAfterExternal, o, ok);
    }

    method KeepCompletion(disposition: Disposition)
      modifies this
      ensures View() == HoldCompletion(old(View()), disposition)
    {
      var awaiting := HasAwaitingUserInteraction();
      completion := Some(Merge(completion, disposition));
      phase := if awaiting then AwaitingUser else WaitingExternal;
    }

    method EndOrResume(resume: bool, o: DriveOutcome, ok: bool)
      modifies this
      ensures View() == EndOrContinue(old(View()), resume, o, ok)
    {
      if resume {
        RequestProviderAction(Resume, o, ok);
      } else {
        CompleteTurn(ok);
      }
    }

    // ---- The commands of the mailbox ----

    method HandleRunIntent(prewarm: bool, o: DriveOutcome, ok: bool)
      requires Valid()
      modifies this
      ensures Valid() && Promised(old(View()), RunRequest(prewarm), o, ok, View())
      ensures View() == Step(old(View()), RunRequest(prewarm), o, ok)
    {
      CommandKeepsPromise(View(), RunRequest(prewarm), o, ok);
      ResetTurn();
      if !prewarm {
        RequestProviderAction(Start, o, ok);
      }
    }

    method ResetTurn()
      modifies this
      ensures View() == Reset(old(View()))
    {
      ForgetWork();
      execs, interactions := map[], map[];
      providerToken, summaryToken := 0, 0;
    }

    method ForgetWork()
      modifies this`completion, this`resumeTimer, this`action, this`compaction, this`phase
      ensures completion == None && !resumeTimer && action == NoAction && !compaction && phase == Idle
    {
      completion := None;
      resumeTimer := false;
      action, compaction := NoAction, false;
      phase := Idle;
    }

    method HandleExecResult(id: nat, appendOk: bool, o: DriveOutcome, ok: bool)
      requires Valid()
      modifies this
      ensures Valid() && Promised(old(View()), ExecResult(id, appendOk), o, ok, View())
      ensures View() == Step(old(View()), ExecResult(id, appendOk), o, ok)
    {
      CommandKeepsPromise(View(), ExecResult(id, appendOk), o, ok);
      if Terminal(status) || id !in execs {
        return;
      }
      var hook := execs[id];
      execs := execs - {id};
      if hook {
        HandlePreCompactTerminal(appendOk, o, ok);
        return;
      }
      if !appendOk {
        return;
      }
      ReconcileStream(o, ok);
    }

    method RecoverNonStreamingExec(id: nat, appendOk: bool, o: DriveOutcome, ok: bool)
      requires Valid()
      modifies this
      ensures Valid() && Promised(old(View()), RecoverExec(id, appendOk), o, ok, View())
      ensures View() == Step(old(View()), RecoverExec(id, appendOk), o, ok)
    {
      CommandKeepsPromise(View(), RecoverExec(id, appendOk), o, ok);
      if Terminal(status) || id !in execs {
        return;
      }
      execs := execs - {id};
      if !appendOk {
        FailStream();
        return;
      }
      ReconcileStream(o, ok);
    }

    method HandleInteractionResult(id: nat, appendOk: bool, o: DriveOutcome, ok: bool)
      requires Valid()
      modifies this
      ensures Valid() && Promised(old(View()), InteractionResult(id, appendOk), o, ok, View())
      ensures View() == Step(old(View()), InteractionResult(id, appendOk), o, ok)
    {
      CommandKeepsPromise(View(), InteractionResult(id, appendOk), o, ok);
      AnswerInteraction(id, appendOk, o, ok);
    }

    method AnswerInteraction(id: nat, appendOk: bool, o: DriveOutcome, ok: bool)
      modifies this
      ensures View() == Step(old(View()), InteractionResult(id, appendOk), o, ok)
    {
      if Terminal(status) || id !in interactions {
        return;
      }
      var waitsForUser := interactions[id];
      interactions := interactions - {id};
      if !appendOk {
        return;
      }
      if waitsForUser {
        completion := Some(Merge(completion, CompleteAfterExternal));
      }
      ReconcileStream(o, ok);
    }

    /** The goroutine of the provider call posts its end. */
    method ProviderCallEnds(finish: Finish, o: DriveOutcome, ok: bool)
      requires Valid()
      modifies this
      ensures Valid() && Promised(old(View()), ProviderEnds(finish), o, ok, View())
      ensures View() == Step(old(View()), ProviderEnds(finish), o, ok)
    {
      CommandKeepsPromise(View(), ProviderEnds(finish), o, ok);
      if worker.ProviderCall? {
        var token := worker.token;
        worker := NoWorker;
        HandleProviderDone(token, finish, o, ok);
      }
    }

    /** The goroutine of the summary call posts its end. */
    method SummaryCallEnds(result: SummaryResult, o: DriveOutcome, ok: bool)
      requires Valid()
      modifies this
      ensures Valid() && Promised(old(View()), SummaryEnds(result), o, ok, View())
      ensures View() == Step(old(View()), SummaryEnds(result), o, ok)
    {
      CommandKeepsPromise(View(), SummaryEnds(result), o, ok);
      if worker.SummaryCall? {
        var token := worker.token;
        worker := NoWorker;
        HandleCompactionEvent(token, result, o, ok);
      }
    }
  }
}
