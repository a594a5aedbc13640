# Verified model of the request-stream engine and its text algorithms

This project models, in Dafny, the part of the repository where state is shared,
bounded or rewritten, and proves what that code is for:

- the **stream broker** (`BrokerSpec`, `BrokerRuns`, `Broker`): an event log with
  absolute numbers, subscriber cursors, prefix compaction, a cap of 1024 events and
  blanked checkpoints, against the full log of everything published;
- **append sequencing** (`AppendSeq`): numbered uploads admitted in order, once each,
  over a lock and a broadcast channel;
- the **turn state machine** (`ActorSpec`, `ActorStalls`, `ActorEffects`, `Actor`), its **timers** (`Timers`)
  and its **output buffer** (`ProviderOutput`);
- **compaction** of a conversation (`CompactionSpec`, `CompactionProofs`, `CompactionPlans`,
  `Compaction`);
- the **codebase index** log and its listeners (`IndexStore`);
- **background shells**: output tails with offsets (`ShellTail`) and the pruned table
  with two indexes (`ShellTableSpec`, `ShellTableBounds`, `ShellTableIndexes`, `ShellTable`);
- **text algorithms**: the JSONC normaliser (`JsoncSpec`, `JsoncDecorated`, `Jsonc`), the
  line-ending offset map (`LineEndings`), the log file of the last lines (`LogWindow`), the
  i18n template rewrite (`I18nTemplates`) and the proto type closure (`ProtoCopy`, `ProtoNames`).

Concurrent code is modelled as atomic steps, one step for each region run under a lock.
A theorem about runs quantifies over every finite sequence of such steps, in every
interleaving. State that the source updates in place is a class whose methods are
proved equal to a function of the old state (or, where the source depends on the order
in which a Go map is visited, to a relation); the run theorems are about that function.
Bytes are characters or numbers below 256, integers are unbounded, times are numbers.

`dafny verify dfyconfig.toml` checks everything.

## What the proofs found

- **A timer event of an earlier run can act in a new one.** A new run on the same
  stream restarts the timer tokens (`internal/backend/forwarder/service.go:828`), so an
  event still queued can carry the key and token of a fresh registration.
  `Timers.StaleEventCanAct` is a run that does it; `Timers.NewRunSafeIff` says that a new
  run is safe exactly when no goroutine or event of an earlier timer is outstanding. No
  field of the stream tells that; `Timers.SafeWithoutReset` shows that it suffices not to
  restart the counter. Within one run tokens are unique (`Timers.TokensUnique`) and every
  event acts for its own registration (`Timers.ActsWhileCurrent`).
- **A live turn can come to wait for nobody, in three ways and no others**
  (`ActorStalls.StalledOrAwaited`, `ActorStalls.NeverStalledIff`).
  - *Wedged*: the pending compaction has neither its hook nor its summary call. It takes a
    hook result whose compaction request cannot be appended, or a transport recovery that
    gives up the hook (`WedgedIff`, `WedgeIsReachable`, `WedgedForever`).
  - *Deaf*: a run request while a model call runs resets the tokens
    (`internal/backend/forwarder/service.go:816-830`) but not the mark of the active call;
    the end of that call is then dropped and nothing ever clears the mark, not even another
    run request (`DeafIff`, `DeafIsReachable`, `DeafForever`).
  - *Forgotten*: the handler of the last outstanding result returns on a failing append
    before it reconciles, or the call is interrupted with a completion pending; the turn
    then owes a resume or a completion and no timer is set for it (`ForgottenIff`,
    `ForgottenIsReachable`, `ForgottenForever`).

  Provider starts are clean even so (`ActorSpec.StartsAreClean`): that property does not
  need appends to succeed.
- **The shell table is bounded only where it is pruned.** A spawn result does not prune,
  and an ensured shell is attached after its pruning, so either can exceed 32 shells:
  spawn results alone reach any number (`ShellTableBounds.SpawnsExceedLimit`), an ensured
  shell 33 (`ShellTableBounds.EnsureExceedsLimit`). A run stays within 32 exactly when no
  new id is spawned on 32 shells or ensured on 32 live ones (`ShellTableBounds.RunFitsIff`).
- **A template literal keeps its meaning exactly when it has no expression or no
  literal part holds a slot of its own** (`I18nTemplates.RewritePreservesIff`); an absent
  argument prints as nothing where the literal printed `null` or `undefined`
  (`I18nTemplates.ShownIffPresent`).
- **Generated names are looked up by short name only.** A reference to a type of another
  package prints the short name of a type of this one when the two agree, and that goes for
  Google's types and for unpackaged names too (`ProtoNames.ShortNameIsCaptured`); a type
  nested in the enclosing message hides one of the package (`ProtoNames.NestedNameHides`).
  `ProtoNames.FaithfulIffClear` gives, on the input, exactly when every printed name stands
  for the type referred to.
- **A subscriber loses events in one way only.** Past the join, it falls below the window
  exactly when a publish meets a full backlog of which it has consumed nothing
  (`BrokerRuns.OutrunIff`); what it then misses was dropped or lies below a checkpoint it
  is given (`BrokerRuns.NothingVanishes`).

## Model

| member | source | states |
|---|---|---|
| `BrokerSpec.LatestIsLast` | internal/backend/forwarder/broker.go:436-457 | the remembered checkpoint is the last one published, and none follows it |
| `BrokerSpec.AppendKeepsWindow` | internal/backend/forwarder/broker.go:404-427 | appending, with the previous checkpoint blanked, keeps the backlog the window [first, next) of the log |
| `BrokerSpec.TombstoneIsShown` | internal/backend/forwarder/broker.go:444-457 | blanking the remembered checkpoint leaves every retained checkpoint blank and every other event untouched |
| `BrokerSpec.CompactKeepsWindow` | internal/backend/forwarder/broker.go:518-549 | compaction drops a prefix only and leaves at most 1024 events |
| `BrokerSpec.CompactRespectsCursors` | internal/backend/forwarder/broker.go:518-549 | no retained event at or above a live cursor is dropped unless the cap forces it, and then the backlog is exactly full |
| `BrokerSpec.PublishKeepsWindow` | internal/backend/forwarder/broker.go:392-434 | a publish extends the log by one numbered event or, when refused, changes nothing, and keeps the window |
| `BrokerSpec.ReadInsideWindow` | internal/backend/forwarder/broker.go:459-500 | at a cursor inside the window a read is exactly the rest of the log |
| `BrokerSpec.ReadBelowWindow` | internal/backend/forwarder/broker.go:459-500 | below the window a read is the latest checkpoint and everything retained after it, or the whole window when that checkpoint is older than the cursor |
| `BrokerSpec.ReadFromZero` | internal/backend/forwarder/broker.go:459-500 | cursor zero reads from the latest checkpoint, else from the window |
| `BrokerSpec.JoinReadsFirstBatch` | internal/backend/forwarder/broker.go:185-223 | told on the log alone, the first read of a new subscriber is the newest checkpoint and every retained event after it, or the whole window when there is no checkpoint |
| `BrokerSpec.RetainedIff` | internal/backend/forwarder/broker.go:518-549 | compaction keeps an event if and only if it is among the newest 1024 and some subscriber has still to consume it, or there is no subscriber |
| `BrokerSpec.PublishTakes` | internal/backend/forwarder/broker.go:392-434 | a live stream takes every event and a terminal one only an End; the event gets the next number and is otherwise unchanged |
| `BrokerRuns.StepKeepsInv` | internal/backend/forwarder/broker.go:185-265 | every lock region keeps the window, the cap, the cursors in step with their consumers, and the order of End events |
| `BrokerRuns.BacklogIsWindow` | internal/backend/forwarder/broker.go:392-500 | in every run the backlog is a contiguous window of the full log, at most 1024 long |
| `BrokerRuns.ReadIsOrdered` | internal/backend/forwarder/broker.go:459-500 | a read yields genuine events at or after the cursor, increasing, and consecutive inside the window |
| `BrokerRuns.DeliveryInOrder` | internal/backend/forwarder/service.go:485-560 | in every run a subscriber sees strictly increasing numbers without repeats, and only published events |
| `BrokerRuns.NothingVanishes` | internal/backend/forwarder/broker.go:459-549 | in every run, each number from a subscriber's start up to the last it was given was given to it, or dropped from the window, or lies below a checkpoint it was given |
| `BrokerRuns.DeliveryWithoutGaps` | internal/backend/forwarder/broker.go:254-265 | a subscriber that was never below the window has seen every event since it joined, whatever the cap did to others |
| `BrokerRuns.OutrunIff` | internal/backend/forwarder/broker.go:518-549 | a subscriber inside the window falls below it if and only if a publish meets a full backlog of which it has consumed nothing |
| `BrokerRuns.InsideIff` | internal/backend/forwarder/broker.go:185-265 | a subscriber is inside the window at every moment of a run if and only if it did not join below it and no such publish met it |
| `BrokerRuns.NothingAfterEnd` | internal/backend/forwarder/broker.go:398-415 | in every interleaving of status changes and publishes, only End events follow an End event |
| `BrokerRuns.TerminalIsForever` | internal/backend/forwarder/broker.go:552-633 | a terminal status stays terminal however the run goes on |
| `BrokerRuns.JoinThenRead` | internal/backend/forwarder/service.go:485-560 | after every run, whoever joins and reads gets first the newest checkpoint and every retained event after it, else the whole window |
| `BrokerRuns.EndsArePublished` | internal/backend/forwarder/broker.go:552-633 | after every run, completing a live stream, failing or cancelling sets that status and the End owed is then published last |
| `BrokerRuns.MessagesAreLogged` | internal/backend/forwarder/broker.go:398-427 | after every run, a message enters the log exactly while the stream is live, unchanged but for its number |
| `Broker.ActiveStream.constructor` | internal/backend/forwarder/broker.go:140-172 | a new stream is empty and numbers from one |
| `Broker.ActiveStream.SmallestCursor` | internal/backend/forwarder/broker.go:526-533 | the loop finds the smallest live cursor, or the next number |
| `Broker.ActiveStream.CompactBacklog` | internal/backend/forwarder/broker.go:518-549 | the new stream is the compacted old one |
| `Broker.ActiveStream.TombstoneLatestCheckpoint` | internal/backend/forwarder/broker.go:444-457 | erases exactly the retained copy of the remembered checkpoint |
| `Broker.ActiveStream.PublishEvent` | internal/backend/forwarder/broker.go:392-434 | the new stream is the published one, window kept, cap kept |
| `Broker.ActiveStream.AddSubscriber` | internal/backend/forwarder/broker.go:185-223 | the cursor from which the first read is the newest checkpoint and every retained event after it, else the whole window; the window is kept |
| `Broker.ActiveStream.RemoveSubscriber` | internal/backend/forwarder/broker.go:237-252 | drops the cursor, compacts, counts who remains, and keeps the window |
| `Broker.ActiveStream.AdvanceSubscriber` | internal/backend/forwarder/broker.go:254-265 | no cursor moves back; after an advance the backlog is compacted and the window kept |
| `Broker.ActiveStream.ReadFromCursor` | internal/backend/forwarder/broker.go:459-500 | the slice of the log from the cursor, for every log the stream is a window of |
| `Broker.ActiveStream.MarkComplete` | internal/backend/forwarder/broker.go:552-579 | only a live stream completes, and then an End is owed |
| `AppendSeq.SequenceState.TryAcquire` | internal/backend/forwarder/append_seq.go:75-104 | one pass of the loop: stale, granted, or waiting on the current channel |
| `AppendSeq.SequenceState.ReleaseTicket` | internal/backend/forwarder/append_seq.go:106-121 | the holder's release moves on, closes the channel and installs a new one; any other release only touches the time |
| `AppendSeq.Tracker.State` | internal/backend/forwarder/append_seq.go:51-73 | a slot held, never used or used within the retention stays as it was; any idle slot beyond it is gone, or made anew if it is the one looked up |
| `AppendSeq.NumbersNeverStartOver` | internal/backend/forwarder/append_seq.go:51-73 | over every run of lookups, admissions and releases, while the slot of a request is used in time it stays and its next number never falls |
| `AppendSeq.LateLookupStartsOver` | internal/backend/forwarder/append_seq.go:123-133 | a lookup that comes too late for an idle slot numbers from one again |
| `AppendSeq.StepKeepsInv` | internal/backend/forwarder/append_seq.go:75-121 | every step of every caller keeps grants, holder and channels consistent |
| `AppendSeq.GrantsInOrder` | internal/backend/forwarder/append_seq.go:75-121 | in every run numbers are admitted 1, 2, 3, ... exactly once each |
| `AppendSeq.OneHolder` | internal/backend/forwarder/append_seq.go:88-92 | at most one caller holds the slot, it holds the last number admitted, and a busy slot has a holder |
| `AppendSeq.NoLostWakeup` | internal/backend/forwarder/append_seq.go:93-103 | no caller stays blocked on an unclosed channel once its number is grantable or stale |
| `AppendSeq.WaiterIsAdmitted` | internal/backend/forwarder/append_seq.go:93-103 | a waiter whose number has come wakes and is granted |
| `AppendSeq.ReadyIsOpen` | internal/backend/forwarder/append_seq.go:106-121 | the current channel is never closed, so no channel is closed twice |
| `Timers.TimerTable.ScheduleTimer` | internal/backend/forwarder/actor.go:1053-1102 | the key is trimmed, a blank one ignored; a fresh token, the old registration of the key closed and replaced, the table kept valid |
| `Timers.TimerTable.ClearTimer` | internal/backend/forwarder/actor.go:1114-1129 | the registration of the trimmed key is closed once and gone |
| `Timers.TimerTable.ClearAllTimers` | internal/backend/forwarder/actor.go:1131-1148 | every registration is closed, whatever the order of visiting |
| `Timers.TimerTable.AcceptEvent` | internal/backend/forwarder/actor.go:1159-1168 | an event goes on exactly when trimmed key and token match the table, and then never matches again |
| `Timers.DoneClosedOnce` | internal/backend/forwarder/actor.go:1150-1157 | in every run, restarts included, no Done channel is closed twice |
| `Timers.ActsOnce` | internal/backend/forwarder/actor.go:1159-1168 | in every run, restarts included, an event acts at most once |
| `Timers.TokensUnique` | internal/backend/forwarder/actor.go:1065-1078 | within one run the registrations carry the tokens 1, 2, 3, ..., no two the same |
| `Timers.ActsWhileCurrent` | internal/backend/forwarder/actor.go:1104-1112 | within one run an event acts only while its own registration is current |
| `Timers.StaleEventCanAct` | internal/backend/forwarder/service.go:810-828 | a run in which an event of an earlier run acts for a later registration |
| `Timers.NewRunSafeIff` | internal/backend/forwarder/service.go:810-828 | after a restart all events act for themselves, in every continuation up to the next restart, if and only if nothing was outstanding |
| `Timers.RestartsAreSafe` | internal/backend/forwarder/service.go:810-828 | in every run, however many restarts it has, whose restarts find nothing outstanding, all events act for themselves |
| `Timers.SafeWithoutReset` | internal/backend/forwarder/service.go:810-828 | in every run in which new runs keep counting, tokens are unique and events act for themselves |
| `ActorSpec.StepKeepsInv` | internal/backend/forwarder/actor.go:379-503 | every actor command keeps the turn invariant, whatever the appends and the prompt do |
| `ActorSpec.ReconcileIsSafe` | internal/backend/forwarder/actor.go:437-503 | reconciling drives the provider at most once, cleanly, and never replaces a running call |
| `ActorSpec.StepIsSafe` | internal/backend/forwarder/actor.go:379-415 | so does every command; only the end of the running call changes which call runs |
| `ActorSpec.StartsAreClean` | internal/backend/forwarder/actor.go:437-503 | in every run each provider start finds a live stream, no active call, nothing outstanding and no compaction |
| `ActorSpec.OneModelCall` | internal/backend/forwarder/service.go:1352-1365 | while a model call runs, no command begins another |
| `ActorStalls.WedgedIff` | internal/backend/forwarder/compaction.go:321-383 | a command leaves a pending compaction with nobody to end it if and only if it is one of the two named |
| `ActorStalls.WedgeIsReachable` | internal/backend/forwarder/service.go:1159-1193 | a two-command run that ends in such a state |
| `ActorStalls.WedgedForever` | internal/backend/forwarder/actor.go:437-503 | from there, until the stream is run anew, no command starts the provider again, and the stream stays so or ends |
| `ActorStalls.DeafIff` | internal/backend/forwarder/service.go:816-830 | an active call loses its listener if and only if a run request meets a live stream with an active call |
| `ActorStalls.DeafIsReachable` | internal/backend/forwarder/service.go:816-830 | two run requests and the end of the first call leave a live, active stream without any call |
| `ActorStalls.DeafForever` | internal/backend/forwarder/actor.go:518-525 | from there no command at all starts the provider again, and the stream stays so or ends |
| `ActorStalls.ForgottenIff` | internal/backend/forwarder/service.go:989-1016 | owed work is left without anybody to carry it out if and only if the last result cannot be appended or the call is interrupted with a completion pending |
| `ActorStalls.ForgottenIsReachable` | internal/backend/forwarder/service.go:989-1016 | a run of four commands that ends in such a state |
| `ActorStalls.ForgottenForever` | internal/backend/forwarder/actor.go:437-503 | from there only a new run, a new exec or interaction or another reconciliation brings the work back |
| `ActorStalls.StalledOrAwaited` | internal/backend/forwarder/actor.go:437-503 | any other live turn has a result, a call or the resume timer outstanding, or nothing to do |
| `ActorStalls.NeverStalledIff` | internal/backend/forwarder/actor.go:379-503 | a run is never stalled at any moment if and only if none of its commands is one of those named |
| `ActorStalls.SomebodyReports` | internal/backend/forwarder/actor.go:437-503 | in a run without such commands a live turn always has somebody to wait for, or nothing to do |
| `ActorStalls.CommandIsHandled` | internal/backend/forwarder/actor.go:379-415 | every command is safe and stalls exactly when named |
| `ActorEffects.ReconcileSettled` | internal/backend/forwarder/actor.go:466-491 | a live, inactive turn with nothing outstanding: a pending resume sets the timer and leaves it live, a pending completion completes it, or fails it when its appends fail, and nothing else ends it |
| `ActorEffects.ReconcilePhase` | internal/backend/forwarder/actor.go:437-503 | after a reconciliation the phase of an idle turn tells what it waits for |
| `ActorEffects.StepEffect` | internal/backend/forwarder/actor.go:379-503 | exactly which commands complete, fail or cancel a live turn, start the provider, or set the resume timer, told on the fields of the turn |
| `ActorEffects.RunEffects` | internal/backend/forwarder/actor.go:379-503 | the same after every run |
| `ActorEffects.PassIsCarriedOut` | internal/backend/forwarder/actor.go:814-962 | once the work a pass left behind has been answered, in any order, the turn completes if the pass, an earlier completion or a question to the user said so; else the timer is set and starts the provider exactly once more |
| `ActorEffects.CommandKeepsPromise` | internal/backend/forwarder/actor.go:379-415 | every command keeps the invariant, is safe, stalls exactly when named and has exactly that effect |
| `Actor.StreamTurn.HasAwaitingUserInteraction` | internal/backend/forwarder/actor.go:1032-1044 | the loop finds an interaction that waits for the user if there is one |
| `Actor.StreamTurn.DriveProvider` | internal/backend/forwarder/service.go:1352-1400 | nothing when active or terminal, else the next pass begins; on a startable turn the start is clean and the invariant holds |
| `Actor.StreamTurn.ReconcileStream` | internal/backend/forwarder/actor.go:437-503 | the reconciled turn; from a reconcilable one at most one clean start, the running call kept, the invariant kept; a pending resume resumes and a pending completion completes |
| `Actor.StreamTurn.RequestProviderAction` | internal/backend/forwarder/actor.go:417-435 | a requested start survives a requested resume, then the stream is reconciled; a resume is safe on every valid turn |
| `Actor.StreamTurn.ResumeTimerFired` | internal/backend/forwarder/actor.go:1169-1178 | the resume timer drives the provider only when it may: safe on every valid turn though it does not look at the compaction |
| `Actor.StreamTurn.StartPendingCompactionSummary` | internal/backend/forwarder/compaction.go:343-383 | the summary call starts unless the append fails; safe once no hook and no call is left |
| `Actor.StreamTurn.HandlePreCompactTerminal` | internal/backend/forwarder/compaction.go:321-341 | the hook's end starts the summary, or asks for a resume when the compaction is gone; safe once no hook and no call is left |
| `Actor.StreamTurn.HandleCompactionEvent` | internal/backend/forwarder/compaction.go:412-481 | only the current summary call ends the compaction, by resuming, completing or failing, and safely |
| `Actor.StreamTurn.HandleProviderDone` | internal/backend/forwarder/actor.go:814-962 | only the current pass ends the call, and safely |
| `Actor.StreamTurn.FinishPass` | internal/backend/forwarder/actor.go:814-962 | a pass with outstanding work remembers its completion, any other one resumes or completes, safely |
| `Actor.StreamTurn.HandleRunIntent` | internal/backend/forwarder/service.go:808-862 | keeps the turn valid, starts cleanly at most once, keeps the running call, stalls exactly when a call is active, and completes, fails or starts exactly when told |
| `Actor.StreamTurn.HandleExecResult` | internal/backend/forwarder/service.go:978-1017 | the same for the result of an exec, a failing append included |
| `Actor.StreamTurn.RecoverNonStreamingExec` | internal/backend/forwarder/service.go:1159-1193 | the same for an exec given up after its transport closed; a failing append fails the stream |
| `Actor.StreamTurn.HandleInteractionResult` | internal/backend/forwarder/interaction_tools.go:56-123 | the same for the answer to an interaction |
| `Actor.StreamTurn.ProviderCallEnds` | internal/backend/forwarder/actor.go:814-962 | the same for the end of a provider call, after which that call no longer runs |
| `Actor.StreamTurn.SummaryCallEnds` | internal/backend/forwarder/compaction.go:412-481 | the same for the end of a summary call |
| `CompactionProofs.LatestCompletedSound` | internal/backend/forwarder/compaction.go:1537-1561 | the latest completed call is that of the last result of the turn that has an id, and there is none only if no result of the turn has one |
| `CompactionProofs.PreservedSound` | internal/backend/forwarder/compaction.go:1431-1535 | exactly the entries worth preserving and at most a reasoning carrier are chosen, all of the turn |
| `CompactionProofs.PickFollowsIndexes` | internal/backend/forwarder/compaction.go:713-738 | the kept entries follow the chosen indexes in original order, results shortened |
| `CompactionProofs.CompactedShape` | internal/backend/forwarder/compaction.go:694-738 | exactly one summary, which is first, at most one runtime state, which is second, then entries of the turn in order with every user message and request context and, of the tool entries, exactly the call and result of the last completed exchange |
| `CompactionProofs.NothingKeptWithoutTurn` | internal/backend/forwarder/compaction.go:1431-1435 | a non-positive turn preserves nothing |
| `CompactionProofs.CurrentCandidateIff` | internal/backend/forwarder/compaction.go:1108-1166 | the current turn is worth compacting if and only if it holds a tool entry of another call than the latest completed one |
| `CompactionProofs.NothingToCompact` | internal/backend/forwarder/compaction.go:265-290 | a history of one turn with one tool exchange yields no plan |
| `CompactionProofs.CompactionDoesNotRepeat` | internal/backend/forwarder/compaction.go:674-692 | planning on the compacted history for the same turn and request finds nothing |
| `CompactionProofs.NoCompactionLoop` | internal/backend/forwarder/compaction.go:265-290 | compaction cannot follow compaction without new entries |
| `CompactionPlans.PreservedIff` | internal/backend/forwarder/compaction.go:1431-1535 | exactly which entries of the turn are preserved: its inputs, the exchange of the latest call and the nearest reasoning that call depends on |
| `CompactionPlans.ProjectIff` | internal/backend/forwarder/projector.go:497-640 | planning sees exactly the entries that stay, in order: of a cancelled turn what the model did, and its inputs unless a cancellation drops them |
| `CompactionPlans.TurnFoldIs` | internal/backend/forwarder/compaction.go:1195-1238 | an earlier turn is summarised by what its replayed entries say, in order, and counts them |
| `CompactionPlans.TurnCandidateIff` | internal/backend/forwarder/compaction.go:1195-1238 | an earlier turn is a candidate if and only if one of its entries says something |
| `CompactionPlans.CurrentFoldIs` | internal/backend/forwarder/compaction.go:1108-1166 | the candidate of the current turn says what its entries that are not preserved say, in order, and counts them |
| `CompactionPlans.OrderByAppearance` | internal/backend/forwarder/compaction.go:1168-1184 | the other turns come in the order in which they first appear |
| `CompactionPlans.ContextCandidatesIff` | internal/backend/forwarder/compaction.go:1168-1193 | there are candidates among the other turns if and only if one of their entries says something |
| `CompactionPlans.AutoPlanIff` | internal/backend/forwarder/compaction.go:265-290 | there is a plan if and only if another turn says something or the current one has an exchange older than its last |
| `CompactionPlans.DecideIff` | internal/backend/forwarder/compaction.go:141-211 | over the budget the history is compacted if it has a plan and fails otherwise; within it nothing happens |
| `Compaction.LatestCompletedToolCallID` | internal/backend/forwarder/compaction.go:1537-1561 | the loop finds the call of the last result of the turn that has an id |
| `Compaction.LatestReasoningCarrier` | internal/backend/forwarder/compaction.go:1470-1493 | the backward walk finds the reasoning the call depends on, or stops at a user input |
| `Compaction.PreservedEntryIndexes` | internal/backend/forwarder/compaction.go:1431-1457 | the loop computes the preserved index set |
| `Compaction.PreservedCurrentTurnEntries` | internal/backend/forwarder/compaction.go:713-738 | the loop computes the kept entries |
| `Compaction.CurrentTurnCompactionCandidate` | internal/backend/forwarder/compaction.go:1108-1166 | the candidate of the current turn, and exactly when there is one |
| `Compaction.GroupByTurn` | internal/backend/forwarder/compaction.go:1168-1184 | the other turns by first appearance, each with all its entries in order |
| `Compaction.ContextCompactionCandidates` | internal/backend/forwarder/compaction.go:1168-1193 | one candidate for each other turn that has anything to replay |
| `Compaction.Conversation.AppendEntries` | internal/backend/forwarder/file_store.go:731-764 | entries are appended unchanged but for their numbers, which continue, and the turn counter passes every turn |
| `Compaction.Conversation.BuildCompactedEntries` | internal/backend/forwarder/compaction.go:694-711 | summary, runtime state and kept entries |
| `Compaction.Conversation.ApplyCompaction` | internal/backend/forwarder/compaction.go:674-692 | the history becomes the compacted one renumbered from one, and cannot be compacted again for that turn |
| `IndexStore.CodebaseIndexStore.constructor` | internal/backend/forwarder/codebase_index_store.go:438-480 | numbering continues after the highest saved number |
| `IndexStore.CodebaseIndexStore.NotifySubscribers` | internal/backend/forwarder/codebase_index_store.go:520-530 | exactly the subscribers of the index have their signal set |
| `IndexStore.CodebaseIndexStore.RegisterFile` | internal/backend/forwarder/codebase_index_store.go:223-292 | the event is numbered, the newest 2000 are kept, its subscribers are signalled; blank input changes nothing |
| `IndexStore.CodebaseIndexStore.ListEvents` | internal/backend/forwarder/codebase_index_store.go:320-341 | the matching events after the given number |
| `IndexStore.AfterSound` | internal/backend/forwarder/codebase_index_store.go:320-341 | a listing is in increasing order and holds exactly the matching later events |
| `IndexStore.StepKeepsInv` | internal/backend/forwarder/codebase_index_handler.go:61-101 | registrations, listings, sends, wake-ups, hang-ups and restarts keep the log and every listener consistent |
| `IndexStore.NoLostWakeup` | internal/backend/forwarder/codebase_index_handler.go:61-101 | a listener waiting on an empty signal has no undelivered retained event |
| `IndexStore.DeliveryInOrder` | internal/backend/forwarder/codebase_index_handler.go:61-101 | delivered numbers strictly increase and name registered events |
| `IndexStore.SkippedOnlyWhenPushedOut` | internal/backend/forwarder/codebase_index_store.go:532-537 | an event that was skipped had been pushed out by 2000 newer ones |
| `IndexStore.NumbersNeverReused` | internal/backend/forwarder/codebase_index_store.go:511-518 | event numbers are never reused, restarts included |
| `IndexStore.RetainedIff` | internal/backend/forwarder/codebase_index_store.go:532-537 | over every run and restart exactly the newest 2000 events are retained |
| `IndexStore.RegistersOne` | internal/backend/forwarder/codebase_index_store.go:223-292 | after every run a registration with an index and a path adds one event, trimmed, and nothing else adds any |
| `JsoncSpec.NormalizeKeepsNewlines` | internal/cursor/settings.go:282-292 | every accepted input keeps its number of newlines |
| `JsoncSpec.StripCommentsIdempotent` | internal/cursor/settings.go:294-364 | stripping comments again changes nothing, on every accepted input |
| `JsoncSpec.MarkIsDropped` | internal/cursor/settings.go:282-292 | a byte-order mark in front is dropped, once |
| `JsoncDecorated.NormalizeDecorated` | internal/cursor/settings.go:282-409 | on any decorated token sequence the output is the tokens and white space, without comments and extra commas |
| `JsoncDecorated.LexPlain` | internal/cursor/settings.go:265-280 | that output reads back as the same tokens, strings byte for byte |
| `JsoncDecorated.RefusedWhenOpen` | internal/cursor/settings.go:294-364 | decorated text is accepted, and refused when a block comment that is not closed follows it |
| `Jsonc.NormalizeJson` | internal/cursor/settings.go:282-409 | for every JSON text decorated with white space, comments and one extra comma before a bracket, the output has the same tokens and newlines |
| `Jsonc.StripJSONCComments` | internal/cursor/settings.go:294-364 | the scanner equals the recursive definition, refuses exactly an open block comment, and is idempotent |
| `Jsonc.ClosesNext` | internal/cursor/settings.go:390-402 | the look-ahead finds white space and then a closing bracket |
| `Jsonc.StripJSONCTrailingCommas` | internal/cursor/settings.go:366-409 | the scanner equals the recursive definition |
| `Jsonc.NormalizeJSONC` | internal/cursor/settings.go:282-292 | byte-order mark, comments and commas removed; newlines kept |
| `LineEndings.TwoPassIsScan` | internal/backend/forwarder/edit_result_helpers.go:92-98 | the two-pass replacement and the scanner give the same text |
| `LineEndings.OffsetsOrdered` | internal/backend/forwarder/edit_result_helpers.go:64-90 | the table has one more entry than the text and is strictly increasing from the start to the end of the input |
| `LineEndings.SliceIsNormal` | internal/backend/forwarder/edit_result_helpers.go:64-90 | normalising the original bytes between two offsets gives exactly that piece of the text |
| `LineEndings.NormalizeEditContent` | internal/backend/forwarder/edit_result_helpers.go:64-90 | the loop gives the two-pass text and a table with all these properties |
| `LineEndings.ReplacementUsesEnding` | internal/backend/forwarder/edit_result_helpers.go:108-121 | replacement text keeps its content and every break becomes the chosen ending |
| `LineEndings.UniformRoundTrip` | internal/backend/forwarder/edit_result_helpers.go:108-121 | a text with one kind of break is restored exactly from its normal form |
| `LineEndings.CountLineEndings` | internal/backend/forwarder/edit_result_helpers.go:123-156 | the loop counts each kind of break and remembers the first |
| `LineEndings.DominantLineEnding` | internal/backend/forwarder/edit_result_helpers.go:123-174 | the most frequent ending; on a tie the first break wins, then CRLF before LF before CR; without breaks the fallback |
| `LogWindow.CountIsIncremental` | internal/logger/logger.go:221-238 | the incremental count is the recount, and its clamp at zero never acts |
| `LogWindow.CountBytesLines` | internal/logger/logger.go:251-260 | as many as there are pieces in any cut of the text into lines of which only the last may lack its newline |
| `LogWindow.SplitExists` | internal/logger/logger.go:251-260 | every text has such a cut |
| `LogWindow.SkipLines` | internal/logger/logger.go:271-278 | stands behind the wanted number of newlines, and gives up exactly when there are fewer |
| `LogWindow.LastLinesBytes` | internal/logger/logger.go:262-281 | the longest suffix with at most the target number of lines; the give-up branch is unreachable |
| `LogWindow.FileIsSuffix` | internal/logger/logger.go:155-180 | over every run of full or short writes and restarts the file is a suffix of everything written and the counters are a recount |
| `LogWindow.WriteIsBounded` | internal/logger/logger.go:155-180 | a write that adds a line leaves at most maxLines lines or those of its payload; any other write adds none |
| `LogWindow.NothingTrimmedNeedlessly` | internal/logger/logger.go:155-180 | while file and payload fit together, or the payload adds no line, a write trims nothing |
| `LogWindow.TrimmedToReserve` | internal/logger/logger.go:155-180 | otherwise the file is cut to its longest suffix that leaves room for the payload and the reserve, or for the payload alone, or to nothing |
| `LogWindow.FileIsBounded` | internal/logger/logger.go:155-180 | over every run the file has at most maxLines lines or those of the largest payload |
| `LogWindow.RecentLinesOnDisk` | internal/logger/logger.go:155-180 | with complete writes the last maxLines - trimReserve lines ever logged are on disk |
| `LogWindow.LineWindowWriter.constructor` | internal/logger/logger.go:130-153 | an existing file is recounted and trimmed to maxLines |
| `LogWindow.LineWindowWriter.TrimToLastLines` | internal/logger/logger.go:192-219 | the file becomes its longest suffix within the target, counters recounted |
| `LogWindow.LineWindowWriter.CountIncomingLines` | internal/logger/logger.go:221-238 | while the counters are a recount, exactly the lines by which the payload lengthens the file |
| `LogWindow.LineWindowWriter.WritePayload` | internal/logger/logger.go:155-180 | room is made, the stored part appended, the counters advanced |
| `I18nTemplates.InterpolateMessage` | frontend/src/i18n/runtime.js:149-154 | interpolation splits at the generated slots whatever braces or digits the literal parts begin or end with |
| `I18nTemplates.SlotIff` | frontend/src/i18n/runtime.js:149-154 | a slot is an opening brace, at least one digit and a closing brace, and nothing else |
| `I18nTemplates.MessageMeaning` | frontend/src/i18n/runtime.js:149-154 | any message over the template's slots, also one that reorders or repeats them, shows what it means |
| `I18nTemplates.RewritePreservesIff` | frontend/plugins/static-i18n-plugin.js:206-216 | for all present arguments the rewrite shows the original text, if and only if there is no expression or no literal part holds a slot |
| `I18nTemplates.ShownIffPresent` | frontend/plugins/static-i18n-plugin.js:274-282 | without such slots, the shown text is the original one if and only if no argument is absent |
| `I18nTemplates.CreateTemplateCanonical` | frontend/plugins/static-i18n-plugin.js:206-216 | the loop builds the message with slots 0, 1, 2, ... between the literal parts |
| `ShellTail.AppendRetains` | internal/backend/forwarder/await_shell_tool.go:926-941 | one append keeps the buffer the longest suffix of the output that fits, nothing miscounted |
| `ShellTail.LineRetains` | internal/backend/forwarder/await_shell_tool.go:965-974 | the same for a message on a line of its own |
| `ShellTail.TailIsLongestSuffix` | internal/backend/forwarder/await_shell_tool.go:926-941 | in every run the buffer is that suffix and dropped plus length is the length of the output |
| `ShellTail.ReadsCoverOutput` | internal/backend/forwarder/await_shell_tool.go:137-140 | successive reads are disjoint increasing slices, and bytes are missing before one exactly when its flag is raised |
| `ShellTail.UnflaggedReadsAreWhole` | internal/backend/forwarder/await_shell_tool.go:943-959 | while no flag is raised the reads joined are the output up to the last of them |
| `ShellTail.ShellOutput.AppendBoundedShellTail` | internal/backend/forwarder/await_shell_tool.go:926-941 | the appended stream, for every output it was the tail of |
| `ShellTail.ShellOutput.AppendBackgroundShellBuffer` | internal/backend/forwarder/await_shell_tool.go:965-974 | a separating newline where needed, then the trimmed text |
| `ShellTail.ShellOutput.ReadSince` | internal/backend/forwarder/await_shell_tool.go:943-959 | what is retained after the reader's offset, which moves to the end |
| `ShellTableSpec.PruneIsIdempotent` | internal/backend/forwarder/await_shell_tool.go:976-1005 | pruning a pruned table at the same time changes nothing |
| `ShellTableSpec.LiveShellsStay` | internal/backend/forwarder/await_shell_tool.go:998-1004 | a live shell goes only when 32 stay, none of them terminal |
| `ShellTableSpec.NoNeedlessEviction` | internal/backend/forwarder/await_shell_tool.go:981-997 | from a table of at most 16 exactly the expired shells go |
| `ShellTableSpec.LookupFindsShell` | internal/backend/forwarder/await_shell_tool.go:1089-1102 | an index never leads to a shell that is gone, and an entry always leads to one |
| `ShellTableSpec.StepKeepsSound` | internal/backend/forwarder/await_shell_tool.go:976-1087 | every operation keeps the keys trimmed and non-empty and both indexes on existing shells |
| `ShellTableSpec.IndexesNeverDangle` | internal/backend/forwarder/await_shell_tool.go:976-1087 | the same at every moment of every run |
| `ShellTableBounds.PruneSizeExact` | internal/backend/forwarder/await_shell_tool.go:976-1005 | in any order of visiting, a pruning leaves a number of shells fixed by the counts of live and of unexpired ones |
| `ShellTableBounds.EnsureFitsIff` | internal/backend/forwarder/await_shell_tool.go:1045-1064 | an ensured shell fits into 32 if and only if fewer than 32 live shells were there or it survived the pruning |
| `ShellTableBounds.StepFitsIff` | internal/backend/forwarder/await_shell_tool.go:976-1087 | a step takes a table within 32 above 32 if and only if it spawns a new id on 32 shells or ensures one on 32 live ones |
| `ShellTableBounds.RunFitsIff` | internal/backend/forwarder/await_shell_tool.go:976-1087 | a run keeps to 32 at every moment if and only if it has no such step |
| `ShellTableBounds.TableIsBounded` | internal/backend/forwarder/await_shell_tool.go:976-1087 | over every run, at most 32 shells and the ids that were new when attached since the last pruning |
| `ShellTableBounds.SpawnsExceedLimit` | internal/backend/forwarder/await_shell_tool.go:521-567 | for every n, a run of spawn results alone that holds n live shells |
| `ShellTableBounds.EnsureExceedsLimit` | internal/backend/forwarder/await_shell_tool.go:1045-1064 | a new shell ensured on 32 live ones makes 33 |
| `ShellTableIndexes.AttachLeads` | internal/backend/forwarder/await_shell_tool.go:1045-1087 | a pending exec with a message id or an exec id leads to the shell ensured for it; those that share neither lead where they did |
| `ShellTableIndexes.SpawnLeads` | internal/backend/forwarder/await_shell_tool.go:534-565 | the same for the shell of a spawn result |
| `ShellTableIndexes.PendingLeads` | internal/backend/forwarder/await_shell_tool.go:976-1102 | over every run, a pending exec leads to the shell attached for it until that shell is removed or another one is attached for the same ids |
| `ShellTableIndexes.RetentionIsTenMinutes` | internal/backend/forwarder/await_shell_tool.go:981-990 | from a table of at most 16 a shell goes if and only if it ended more than ten minutes ago |
| `ShellTableIndexes.OlderGoesFirst` | internal/backend/forwarder/await_shell_tool.go:1007-1021 | of two shells that may go, the one completed, active or created earlier goes first |
| `ShellTableIndexes.TerminalGoFirst` | internal/backend/forwarder/await_shell_tool.go:991-1004 | every terminal shell goes before any live one does |
| `ShellTableIndexes.NewShells` | internal/backend/forwarder/await_shell_tool.go:534-565 | a new shell is created now, running if ensured and in the background if spawned; a known one keeps its times, and all others stay as they are |
| `ShellTable.BackgroundShells.RemoveBackgroundShell` | internal/backend/forwarder/await_shell_tool.go:1023-1043 | the shell and exactly its index entries are gone |
| `ShellTable.DropEntries` | internal/backend/forwarder/await_shell_tool.go:1030-1039 | the loop deletes exactly the index entries that lead to the shell |
| `ShellTable.BackgroundShells.OldestBackgroundShellID` | internal/backend/forwarder/await_shell_tool.go:1007-1021 | a least recently active candidate, whatever the order of visiting; none only if there is none |
| `ShellTable.BackgroundShells.DropExpired` | internal/backend/forwarder/await_shell_tool.go:981-990 | exactly the expired terminal shells go |
| `ShellTable.BackgroundShells.EvictOldest` | internal/backend/forwarder/await_shell_tool.go:991-1004 | only candidates go, oldest first, never below the limit, until the limit or no candidate is left |
| `ShellTable.BackgroundShells.PruneBackgroundShells` | internal/backend/forwarder/await_shell_tool.go:976-1005 | terminates with at most 32 shells, more than 16 only if none is terminal, and every eviction justified |
| `ShellTable.BackgroundShells.EnsureBackgroundShellState` | internal/backend/forwarder/await_shell_tool.go:1045-1087 | a pruning, then the shell found or made; its pending exec leads to it from then on |
| `ShellTable.BackgroundShells.ObserveSpawn` | internal/backend/forwarder/await_shell_tool.go:534-565 | the shell found or made under its decimal number and backgrounded; its pending exec leads to it from then on and nobody else is led elsewhere |
| `ShellTable.BackgroundShells.ShellIDForMessage` | internal/backend/forwarder/await_shell_tool.go:1089-1102 | the entry of the exec id if there is one, else that of the message id |
| `ShellTable.BackgroundShells.ObserveShellStream` | internal/backend/forwarder/await_shell_tool.go:655-740 | between two prunings the shell its pending exec leads to shows the message, status and times, and no other shell changes |
| `ProtoCopy.CollectNeeded` | proto/ext_tool/extractor.go:1194-1207 | a type is collected if and only if a field, a map value or a method input or output resolves to it, it lies outside the package and Google's, and its short name is not local |
| `ProtoCopy.CollectRef` | proto/ext_tool/extractor.go:1296-1330 | a reference counts when it resolves outside the package and Google's and its short name is not local |
| `ProtoCopy.UsesIff` | proto/ext_tool/extractor.go:1271-1330 | what is collected is exactly what the fields, map values included, and the inputs and outputs of the methods refer to |
| `ProtoCopy.CopyRound` | proto/ext_tool/extractor.go:1209-1247 | in any order of visiting, only types referred to are copied, each once; a round that copies none leaves the package closed |
| `ProtoNames.CopyAllExternalTypes` | proto/ext_tool/extractor.go:1149-1267 | terminates; unless the round limit struck, which takes 21 copied types, no field and no method prints the name of another generated package, every external type is recorded under its short name, and every printed name stands for its type if and only if the closure of the input is clear |
| `ProtoCopy.ReferencesAreReached` | proto/ext_tool/extractor.go:1194-1247 | the package with its copies refers only to types the input package reaches |
| `ProtoNames.PrintsLocallyIffClosed` | proto/ext_tool/extractor.go:1496-1514 | no non-Google cross-package name is printed, under any parent, if and only if the package is closed |
| `ProtoNames.DefinedAreKnown` | proto/ext_tool/extractor.go:1209-1247 | when every external type is recorded as itself, the package defines exactly its own types and the extracted ones it reaches |
| `ProtoNames.StandsForIffClear` | proto/ext_tool/extractor.go:1730-1761 | one reference, to a Google, unpackaged, own or external type, prints a name that stands for its type if and only if the input is clear about it |
| `ProtoNames.FaithfulIffClear` | proto/ext_tool/extractor.go:1730-1761 | in a closed package every printed name stands for the type referred to if and only if, in the closure of the input, Google types share no short name, other types are extracted and alone with theirs, and none is hidden by a nested type |
| `ProtoNames.ShortNameIsCaptured` | proto/ext_tool/extractor.go:1730-1761 | for every other package, Google's and none at all included, a reference that prints the name of a type of the package |
| `ProtoNames.NestedNameHides` | proto/ext_tool/extractor.go:1739-1750 | a reference to a type of the package that a type nested in the enclosing message hides |
| `ProtoCopy.ResolveRoot` | proto/ext_tool/extractor.go:257-271 | the end of the alias chain, or the symbol itself exactly when the chain never ends |
| `ProviderOutput.OutputIsAccepted` | internal/backend/forwarder/actor.go:727-751 | over every run the output is the accepted deltas joined, and length and capacity stay within the limit |
| `ProviderOutput.FewAllocations` | internal/backend/forwarder/actor.go:727-751 | allocations are logarithmic in the limit, at most 11 with 4 MiB |
| `ProviderOutput.Accumulator.AppendProviderOutput` | internal/backend/forwarder/actor.go:727-751 | an accepted delta is appended, a rejected one changes nothing |

## Left out

- The broker's map of streams, shutdown, idle removal, cleanup timers and the subscriber wake-up signals: one registered stream is modelled.
- Wrap-around of 64-bit sequence numbers, tokens and offsets.
- Callers that wait on a slot while it is discarded: admission is proved per slot, and slots are looked up and discarded in a run of their own.
- Interleaving inside one actor command: the actor handles commands one at a time, and the goroutines of model calls are single steps. A failing append inside a result handler is one outcome, whichever of its appends or publishes fails.
- Completions without a disposition: the provider pass always computes one.
- Token estimates, prompt compilation, manual compaction and the legacy plan: whether a pass must compact is a parameter.
- Summaries of structured tool calls and JSON encodings of entries: an entry carries the decoded fields planning looks at.
- Failed saves and the file listing of the index store: saving is taken to succeed.
- The set of recorded background-shell actions, the remaining fields of a shell and the completion events of background tasks: only easy members.
- Null entries in the shell table: none is ever stored. Shell stream messages without a known event: they only prune.
- Map visiting order in Go is any order: methods choose elements arbitrarily.
- Errors of the log file's operating-system calls; short writes are modelled.
- Resolution of a proto reference by symbols, modules and distance: a parameter. Parsing of type names: names come already split.
- Closure when the round limit strikes: then the package may or may not be closed.
- The import lines of a generated proto file, and enclosing packages one of whose parts is called `google`.
- Catalogue lookup, locale state and hashing of message ids in the i18n code.
- Encoding of text as UTF-8: the algorithms look only at ASCII bytes, so a character stands for a byte.
- The user interface, proxies, certificates, updater, model channels and history metrics: wrappers or easier logic.
