/**
 Automatic compaction of a conversation's history
 (internal/backend/forwarder/compaction.go).

 When the prompt no longer fits, the history is replaced by a summary, the
 projected runtime state, and the inputs and last completed tool exchange of the
 current turn. Payloads appear here already decoded; an undecodable payload is
 `Unreadable`.
 */
module CompactionSpec {
  import opened Base

  const SNIPPET_CHARS: nat := 300
  const THINKING_CHARS: nat := 225

  datatype Kind =
    | UserMessage | RequestContext | PromptContext | ModelMessage
    | AssistantText | ToolCall | ToolResult | Metadata
    | CompactionSummary | CompactedSummary | CompactionRequest | RuntimeState | OtherKind

  datatype CancelPolicy = DropTurn | DropUnstarted | KeepStableInput

  datatype Payload =
    | Unreadable
    | UserPayload(text: string)
    | AssistantPayload(text: string, reasoning: string, signature: string)
    | CallPayload(id: string, tool: string, reasoning: string, signature: string)
    | ResultPayload(id: string, tool: string, result: string)
    | ModelPayload(fromModel: bool)
    | ModePayload
    | RunRequestPayload
    | CanceledPayload(policy: CancelPolicy)
    | OtherPayload(body: string)

  datatype Entry = Entry(number: int, turn: int, request: string, kind: Kind, callID: string, payload: Payload)

  predicate InTurn(e: Entry, turn: int, request: string) {
    e.turn == turn && Trim(e.request) == Trim(request)
  }

  predicate IsTool(e: Entry) {
    e.kind.ToolCall? || e.kind.ToolResult?
  }

  /** The tool call an entry belongs to, or the empty string. */
  function CallID(e: Entry): string {
    if Trim(e.callID) != "" then Trim(e.callID)
    else if e.kind.ToolCall? && e.payload.CallPayload? then Trim(e.payload.id)
    else if e.kind.ToolResult? && e.payload.ResultPayload? then Trim(e.payload.id)
    else ""
  }

  // ---- What is preserved ----

  /** The call whose result came last in the turn. */
  function LatestCompleted(entries: seq<Entry>, turn: int, request: string): string {
    if entries == [] then ""
    else
      var e := entries[|entries| - 1];
      if InTurn(e, turn, request) && e.kind.ToolResult? && CallID(e) != "" then CallID(e)
      else LatestCompleted(entries[..|entries| - 1], turn, request)
  }

  predicate ShouldPreserve(e: Entry, latest: string) {
    match e.kind
    case RequestContext => true
    case UserMessage => true
    case ToolCall => CallID(e) != "" && CallID(e) == Trim(latest)
    case ToolResult => CallID(e) != "" && CallID(e) == Trim(latest)
    case Metadata => e.payload.ModePayload? || e.payload.RunRequestPayload?
    case _ => false
  }

  /** The last call entry of the turn with the given id, or -1. */
  function LatestCallIndex(entries: seq<Entry>, turn: int, request: string, latest: string): (i: int)
    ensures -1 <= i < |entries|
    ensures i >= 0 ==> InTurn(entries[i], turn, request) && entries[i].kind.ToolCall?
  {
    if entries == [] then -1
    else
      var e := entries[|entries| - 1];
      if InTurn(e, turn, request) && e.kind.ToolCall? && CallID(e) == Trim(latest) then |entries| - 1
      else LatestCallIndex(entries[..|entries| - 1], turn, request, latest)
  }

  predicate NeedsCarrier(e: Entry) {
    e.kind.ToolCall? && e.payload.CallPayload? && (Trim(e.payload.reasoning) == "" || Trim(e.payload.signature) == "")
  }

  predicate IsCarrier(e: Entry) {
    e.kind.AssistantText? && e.payload.AssistantPayload?
    && Trim(e.payload.reasoning) != "" && Trim(e.payload.signature) != ""
  }

  /** The nearest signed reasoning of the turn before an index, not crossing a user input; or -1. */
  function CarrierIndex(entries: seq<Entry>, before: nat, turn: int, request: string): (i: int)
    requires before <= |entries|
    ensures -1 <= i < before
    ensures i >= 0 ==> InTurn(entries[i], turn, request) && IsCarrier(entries[i])
  {
    if before == 0 then -1
    else
      var e := entries[before - 1];
      if InTurn(e, turn, request) && IsCarrier(e) then before - 1
      else if InTurn(e, turn, request) && (e.kind.UserMessage? || e.kind.RequestContext?) then -1
      else CarrierIndex(entries, before - 1, turn, request)
  }

  function Preserved(entries: seq<Entry>, turn: int, request: string, latest: string): set<int> {
    if entries == [] || turn <= 0 then {}
    else
      var direct := set i | 0 <= i < |entries| && InTurn(entries[i], turn, request) && ShouldPreserve(entries[i], latest);
      var call := LatestCallIndex(entries, turn, request, latest);
      if call < 0 || !NeedsCarrier(entries[call]) then direct
      else
        var carrier := CarrierIndex(entries, call, turn, request);
        if carrier < 0 then direct else direct + {carrier}
  }

  /** Tool results are shortened; their call id stays. */
  function Shorten(e: Entry, trunc: string -> string): Entry {
    if e.kind.ToolResult? && e.payload.ResultPayload?
    then e.(payload := e.payload.(result := trunc(e.payload.result)))
    else e
  }

  /** The entries at the chosen indexes below n, in order and shortened. */
  function Pick(entries: seq<Entry>, chosen: set<int>, n: nat, trunc: string -> string): seq<Entry>
    requires n <= |entries|
  {
    if n == 0 then []
    else if n - 1 in chosen then Pick(entries, chosen, n - 1, trunc) + [Shorten(entries[n - 1], trunc)]
    else Pick(entries, chosen, n - 1, trunc)
  }

  datatype TurnSummary = TurnSummary(userText: string, steps: seq<string>)

  datatype Plan = Plan(turn: int, request: string, preserve: bool, turns: seq<TurnSummary>, messages: nat)

  function KeptEntries(entries: seq<Entry>, plan: Plan, trunc: string -> string): seq<Entry> {
    if entries == [] || !plan.preserve then []
    else
      var latest := LatestCompleted(entries, plan.turn, plan.request);
      Pick(entries, Preserved(entries, plan.turn, plan.request, latest), |entries|, trunc)
  }

  function SummaryEntry(plan: Plan, summary: string): Entry {
    Entry(0, plan.turn, Trim(plan.request), CompactedSummary, "", OtherPayload(Trim(summary)))
  }

  function RuntimeEntry(plan: Plan, state: string): Entry {
    Entry(0, plan.turn, Trim(plan.request), RuntimeState, "", OtherPayload(state))
  }

  /** The replacement history. `runtime` is the projected plan and todo state, if there is any. */
  function Compacted(entries: seq<Entry>, plan: Plan, summary: string, runtime: Option<string>, trunc: string -> string): seq<Entry> {
    [SummaryEntry(plan, summary)]
    + (if runtime.Some? then [RuntimeEntry(plan, runtime.value)] else [])
    + KeptEntries(entries, plan, trunc)
  }

  // ---- What a plan is made from ----

  function Snippet(text: string, max: nat): string {
    var t := Trim(text);
    if t == "" || max == 0 then "" else if |t| <= max then t else t[..max] + "..."
  }

  function UserTextOf(e: Entry): string {
    if e.payload.UserPayload? then Snippet(e.payload.text, SNIPPET_CHARS) else ""
  }

  /** What an entry contributes to the text that is summarised; possibly nothing. */
  function StepOf(e: Entry): string {
    match e.payload
    case AssistantPayload(text, reasoning, _) =>
      if !e.kind.AssistantText? then ""
      else if Snippet(text, SNIPPET_CHARS) != "" then "assistant=" + Snippet(text, SNIPPET_CHARS)
      else if Snippet(reasoning, THINKING_CHARS) != "" then "thinking=" + Snippet(reasoning, THINKING_CHARS)
      else ""
    case CallPayload(_, tool, _, _) =>
      if !e.kind.ToolCall? then "" else (if Trim(tool) == "" then "tool_call" else Trim(tool)) + "=called"
    case ResultPayload(_, tool, result) =>
      if !e.kind.ToolResult? then ""
      else (if Trim(tool) == "" then "tool_result" else Trim(tool))
           + "=" + (if Snippet(result, SNIPPET_CHARS) == "" then "completed" else Snippet(result, SNIPPET_CHARS))
    case _ => ""
  }

  predicate Replayable(e: Entry) {
    e.kind.AssistantText? || IsTool(e)
  }

  datatype Candidate = Candidate(summary: TurnSummary, replays: nat, tools: bool)

  const NO_CANDIDATE := Candidate(TurnSummary("", []), 0, false)

  function AddUserText(c: Candidate, e: Entry): Candidate {
    if e.kind.UserMessage? && Trim(c.summary.userText) == ""
    then c.(summary := c.summary.(userText := UserTextOf(e))) else c
  }

  function AddStep(c: Candidate, e: Entry): Candidate {
    if !Replayable(e) then c
    else c.(replays := c.replays + 1, tools := c.tools || IsTool(e),
            summary := c.summary.(steps := c.summary.steps + (if StepOf(e) != "" then [StepOf(e)] else [])))
  }

  /** The part of the current turn that is not preserved, as one candidate. */
  function CurrentFold(entries: seq<Entry>, turn: int, request: string, kept: set<int>, n: nat): Candidate
    requires n <= |entries|
  {
    if n == 0 then NO_CANDIDATE
    else
      var c := CurrentFold(entries, turn, request, kept, n - 1);
      var e := entries[n - 1];
      if !InTurn(e, turn, request) then c
      else if n - 1 in kept then AddUserText(c, e)
      else AddStep(AddUserText(c, e), e)
  }

  function CurrentCandidate(entries: seq<Entry>, turn: int, request: string): Option<Candidate> {
    var latest := LatestCompleted(entries, turn, request);
    if entries == [] || turn <= 0 || Trim(request) == "" || latest == "" then None
    else
      var c := CurrentFold(entries, turn, request, Preserved(entries, turn, request, latest), |entries|);
      if !c.tools || c.replays == 0 then None
      else if c.summary.steps == []
      then Some(c.(summary := c.summary.(steps := ["tool_history=earlier current-turn tool history compacted"])))
      else Some(c)
  }

  /** Entries of earlier turns: what the grouping by turn looks at. */
  predicate Compactable(e: Entry, turn: int, request: string) {
    e.turn > 0 && !e.kind.CompactionSummary? && !e.kind.CompactedSummary? && !InTurn(e, turn, request)
  }

  function TurnOrder(entries: seq<Entry>, turn: int, request: string): seq<int> {
    if entries == [] then []
    else
      var order := TurnOrder(entries[..|entries| - 1], turn, request);
      var e := entries[|entries| - 1];
      if Compactable(e, turn, request) && e.turn !in order then order + [e.turn] else order
  }

  function Group(entries: seq<Entry>, turn: int, request: string, t: int): seq<Entry> {
    if entries == [] then []
    else
      var group := Group(entries[..|entries| - 1], turn, request, t);
      var e := entries[|entries| - 1];
      if Compactable(e, turn, request) && e.turn == t then group + [e] else group
  }

  function TurnFold(entries: seq<Entry>): Candidate {
    if entries == [] then NO_CANDIDATE
    else
      var c := TurnFold(entries[..|entries| - 1]);
      var e := entries[|entries| - 1];
      if e.kind.UserMessage? then AddUserText(c, e).(replays := c.replays + 1) else AddStep(c, e)
  }

  function TurnCandidate(entries: seq<Entry>): Option<Candidate> {
    var c := TurnFold(entries);
    if c.replays == 0 || (Trim(c.summary.userText) == "" && c.summary.steps == []) then None else Some(c)
  }

  function TurnCandidates(entries: seq<Entry>, turn: int, request: string, order: seq<int>): seq<Candidate> {
    if order == [] then []
    else
      var rest := TurnCandidates(entries, turn, request, order[..|order| - 1]);
      var c := TurnCandidate(Group(entries, turn, request, order[|order| - 1]));
      if c.Some? then rest + [c.value] else rest
  }

  function ContextCandidates(entries: seq<Entry>, turn: int, request: string): seq<Candidate> {
    TurnCandidates(entries, turn, request, TurnOrder(entries, turn, request))
  }

  function Summaries(cs: seq<Candidate>): seq<TurnSummary> {
    if cs == [] then [] else Summaries(cs[..|cs| - 1]) + [cs[|cs| - 1].summary]
  }

  function Replays(cs: seq<Candidate>): nat {
    if cs == [] then 0 else Replays(cs[..|cs| - 1]) + cs[|cs| - 1].replays
  }

  // ---- The projection of cancelled turns that planning sees ----

  predicate IsActivity(e: Entry) {
    e.kind.AssistantText? || IsTool(e) || (e.kind.ModelMessage? && e.payload == ModelPayload(true))
  }

  predicate IsStableInput(e: Entry) {
    e.kind.RequestContext? || e.kind.UserMessage? || e.kind.PromptContext?
  }

  predicate Cancels(e: Entry) {
    e.turn > 0 && e.kind.Metadata? && e.payload.CanceledPayload?
  }

  /** The policy under which a turn was cancelled, if it was; dropping the turn wins, then the first. */
  function PolicyOf(entries: seq<Entry>, turn: int): Option<CancelPolicy> {
    if entries == [] then None
    else
      var p := PolicyOf(entries[..|entries| - 1], turn);
      var e := entries[|entries| - 1];
      if Cancels(e) && e.turn == turn && (p.None? || e.payload.policy.DropTurn?) then Some(e.payload.policy) else p
  }

  predicate HasActivity(entries: seq<Entry>, turn: int) {
    exists i :: 0 <= i < |entries| && entries[i].turn == turn && entries[i].turn > 0 && IsActivity(entries[i])
  }

  predicate Survives(e: Entry, policy: Option<CancelPolicy>, active: bool) {
    if e.turn <= 0 || policy.None? then true
    else if active && IsActivity(e) then true
    else if policy.value.DropUnstarted? then active && IsStableInput(e)
    else policy.value.KeepStableInput? && IsStableInput(e)
  }

  function ProjectPrefix(entries: seq<Entry>, n: nat): seq<Entry>
    requires n <= |entries|
  {
    if n == 0 then []
    else
      var e := entries[n - 1];
      if Survives(e, PolicyOf(entries, e.turn), HasActivity(entries, e.turn))
      then ProjectPrefix(entries, n - 1) + [e] else ProjectPrefix(entries, n - 1)
  }

  function Project(entries: seq<Entry>): seq<Entry> {
    ProjectPrefix(entries, |entries|)
  }

  /** buildAutoCompactionPlanFromHistory. */
  function AutoPlan(history: seq<Entry>, turn: int, request: string): Option<Plan> {
    var entries := Project(history);
    var earlier := ContextCandidates(entries, turn, request);
    var current := CurrentCandidate(entries, turn, request);
    var all := earlier + (if current.Some? then [current.value] else []);
    if all == [] then None else Some(Plan(turn, request, true, Summaries(all), Replays(all)))
  }

  datatype Decision = Fits | Compact(plan: Plan) | Overflow

  /** The decision before each provider request: compact only over budget, fail when nothing is left to compact. */
  function Decide(history: seq<Entry>, turn: int, request: string, tokens: int, budget: int): Decision {
    if !(tokens > 0 && tokens > budget) then Fits
    else
      var plan := AutoPlan(history, turn, request);
      if plan.Some? then Compact(plan.value) else Overflow
  }
}
