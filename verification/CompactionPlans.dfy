/**
 What planning looks at, told entry by entry: which entries are preserved, which a
 cancelled turn keeps, what a candidate is made of, and exactly when there is a plan.
 */
module CompactionPlans {
  import opened Base
  import opened CompactionSpec
  import opened CompactionProofs

  // ---- Which entries are preserved ----

  /** Reasoning that a provider accepts back needs both its text and its signature. */
  predicate Signed(reasoning: string, signature: string) {
    Trim(reasoning) != "" && Trim(signature) != ""
  }

  predicate IsUserInput(e: Entry) {
    e.kind.UserMessage? || e.kind.RequestContext?
  }

  predicate CarriesReasoning(e: Entry) {
    e.kind.AssistantText? && e.payload.AssistantPayload? && Signed(e.payload.reasoning, e.payload.signature)
  }

  /** `i` is the last signed reasoning of the turn before `c`, with no user input of the turn between. */
  predicate NearestReasoning(entries: seq<Entry>, turn: int, request: string, i: int, c: int) {
    && 0 <= i < c <= |entries| && InTurn(entries[i], turn, request) && CarriesReasoning(entries[i])
    && forall k :: i < k < c && InTurn(entries[k], turn, request) ==> !CarriesReasoning(entries[k]) && !IsUserInput(entries[k])
  }

  /** `c` is the last call entry of the turn with the given id. */
  predicate IsLastCall(entries: seq<Entry>, turn: int, request: string, id: string, c: int) {
    && 0 <= c < |entries| && InTurn(entries[c], turn, request) && entries[c].kind.ToolCall? && CallID(entries[c]) == id
    && forall k :: c < k < |entries| && InTurn(entries[k], turn, request) && entries[k].kind.ToolCall? ==> CallID(entries[k]) != id
  }

  /** The reasoning that the last call of the given id depends on and does not carry itself. */
  ghost predicate IsNeededReasoning(entries: seq<Entry>, turn: int, request: string, id: string, i: int) {
    exists c :: IsLastCall(entries, turn, request, id, c) && entries[c].payload.CallPayload?
                && !Signed(entries[c].payload.reasoning, entries[c].payload.signature)
                && NearestReasoning(entries, turn, request, i, c)
  }

  lemma {:induction false} CarrierIsNearest(entries: seq<Entry>, before: nat, turn: int, request: string)
    requires before <= |entries|
    ensures var i := CarrierIndex(entries, before, turn, request);
            if i >= 0 then NearestReasoning(entries, turn, request, i, before)
            else forall k :: !NearestReasoning(entries, turn, request, k, before)
  {
    if before > 0 {
      var e := entries[before - 1];
      if !(InTurn(e, turn, request) && (IsCarrier(e) || IsUserInput(e))) {
        CarrierIsNearest(entries, before - 1, turn, request);
        forall k ensures NearestReasoning(entries, turn, request, k, before) <==> NearestReasoning(entries, turn, request, k, before - 1) {
        }
      } else if IsCarrier(e) {
        assert NearestReasoning(entries, turn, request, before - 1, before);
      }
    }
  }

  lemma NearestIsUnique(entries: seq<Entry>, turn: int, request: string, i: int, j: int, c: int)
    requires NearestReasoning(entries, turn, request, i, c) && NearestReasoning(entries, turn, request, j, c)
    ensures i == j
  {
  }

  lemma LastCallSnoc(init: seq<Entry>, e: Entry, entries: seq<Entry>, turn: int, request: string, id: string, k: int)
    requires entries == init + [e]
    ensures InTurn(e, turn, request) && e.kind.ToolCall? && CallID(e) == id ==> (IsLastCall(entries, turn, request, id, k) <==> k == |init|)
    ensures !(InTurn(e, turn, request) && e.kind.ToolCall? && CallID(e) == id) ==>
              (IsLastCall(entries, turn, request, id, k) <==> IsLastCall(init, turn, request, id, k))
  {
    assert entries[|init|] == e;
    assert forall j :: 0 <= j < |init| ==> entries[j] == init[j];
  }

  lemma {:induction false} CallIndexIsLast(entries: seq<Entry>, turn: int, request: string, latest: string)
    ensures forall k :: IsLastCall(entries, turn, request, Trim(latest), k) <==> k >= 0 && k == LatestCallIndex(entries, turn, request, latest)
  {
    if entries != [] {
      var n := |entries| - 1;
      var init, e := entries[..n], entries[n];
      assert entries == init + [e];
      CallIndexIsLast(init, turn, request, latest);
      forall k ensures IsLastCall(entries, turn, request, Trim(latest), k) <==> k >= 0 && k == LatestCallIndex(entries, turn, request, latest) {
        LastCallSnoc(init, e, entries, turn, request, Trim(latest), k);
      }
    }
  }

  /** Kept for its own sake: inputs, mode and run metadata, and the entries of one call. */
  predicate KeptByKind(e: Entry, id: string) {
    || IsUserInput(e)
    || (IsTool(e) && CallID(e) != "" && CallID(e) == id)
    || (e.kind.Metadata? && (e.payload.ModePayload? || e.payload.RunRequestPayload?))
  }

  /** The carrier that the code looks for is the needed reasoning. */
  lemma CarrierIff(entries: seq<Entry>, turn: int, request: string, latest: string, call: int, i: int)
    requires call == LatestCallIndex(entries, turn, request, latest)
    ensures IsNeededReasoning(entries, turn, request, Trim(latest), i) <==>
              call >= 0 && NeedsCarrier(entries[call]) && i >= 0 && i == CarrierIndex(entries, call, turn, request)
  {
    CallIndexIsLast(entries, turn, request, latest);
    if call >= 0 {
      CarrierIsNearest(entries, call, turn, request);
    }
    if IsNeededReasoning(entries, turn, request, Trim(latest), i) {
      var c :| IsLastCall(entries, turn, request, Trim(latest), c) && entries[c].payload.CallPayload?
               && !Signed(entries[c].payload.reasoning, entries[c].payload.signature)
               && NearestReasoning(entries, turn, request, i, c);
      assert c == call;
      NearestIsUnique(entries, turn, request, i, CarrierIndex(entries, call, turn, request), call);
    }
  }

  lemma ByKindIff(e: Entry, latest: string)
    ensures ShouldPreserve(e, latest) <==> KeptByKind(e, Trim(latest))
  {
  }

  /** Exactly which entries of the current turn are preserved. */
  lemma PreservedIff(entries: seq<Entry>, turn: int, request: string, latest: string, i: int)
    requires turn > 0
    ensures i in Preserved(entries, turn, request, latest) <==>
              && 0 <= i < |entries| && InTurn(entries[i], turn, request)
              && (KeptByKind(entries[i], Trim(latest)) || IsNeededReasoning(entries, turn, request, Trim(latest), i))
  {
    CarrierIff(entries, turn, request, latest, LatestCallIndex(entries, turn, request, latest), i);
    if 0 <= i < |entries| {
      ByKindIff(entries[i], latest);
    }
  }

  // ---- What a cancelled turn keeps ----

  predicate CancelsAt(entries: seq<Entry>, turn: int, i: int) {
    0 <= i < |entries| && entries[i].turn == turn > 0 && entries[i].kind.Metadata? && entries[i].payload.CanceledPayload?
  }

  ghost predicate Cancelled(entries: seq<Entry>, turn: int) {
    exists i :: CancelsAt(entries, turn, i)
  }

  /** `i` is the first cancellation of the turn. */
  ghost predicate FirstCancelAt(entries: seq<Entry>, turn: int, i: int) {
    CancelsAt(entries, turn, i) && forall j :: CancelsAt(entries, turn, j) ==> i <= j
  }

  ghost predicate Dropped(entries: seq<Entry>, turn: int) {
    exists i :: CancelsAt(entries, turn, i) && entries[i].payload.policy.DropTurn?
  }

  predicate ModelActivity(e: Entry) {
    e.kind.AssistantText? || e.kind.ToolCall? || e.kind.ToolResult? || (e.kind.ModelMessage? && e.payload == ModelPayload(true))
  }

  predicate Started(entries: seq<Entry>, turn: int) {
    exists i :: 0 <= i < |entries| && entries[i].turn == turn && ModelActivity(entries[i])
  }

  /**
   A cancelled turn keeps what the model did in it. It keeps its inputs unless some
   cancellation drops it, or the first drops it because it had not started.
   */
  ghost predicate Stays(entries: seq<Entry>, e: Entry) {
    || e.turn <= 0 || !Cancelled(entries, e.turn)
    || ModelActivity(e)
    || ((IsUserInput(e) || e.kind.PromptContext?) && !Dropped(entries, e.turn)
        && (Started(entries, e.turn)
            || exists i :: FirstCancelAt(entries, e.turn, i) && entries[i].payload.policy.KeepStableInput?))
  }

  /** The policy is DropTurn if any cancellation says so, else that of the first. */
  lemma {:induction false} PolicyIs(entries: seq<Entry>, turn: int)
    ensures PolicyOf(entries, turn).None? <==> !Cancelled(entries, turn)
    ensures PolicyOf(entries, turn) == Some(DropTurn) <==> Dropped(entries, turn)
    ensures PolicyOf(entries, turn).Some? && !Dropped(entries, turn) ==>
              exists i :: FirstCancelAt(entries, turn, i) && PolicyOf(entries, turn) == Some(entries[i].payload.policy)
  {
    if entries != [] {
      var n := |entries| - 1;
      var init, e := entries[..n], entries[n];
      PolicyIs(init, turn);
      CancelsSnoc(init, e, turn, entries);
      if PolicyOf(init, turn).Some? && !Dropped(init, turn) {
        var i :| FirstCancelAt(init, turn, i) && PolicyOf(init, turn) == Some(init[i].payload.policy);
        assert CancelsAt(entries, turn, i) && FirstCancelAt(entries, turn, i);
      } else if PolicyOf(init, turn).None? && Cancels(e) && e.turn == turn {
        assert FirstCancelAt(entries, turn, n);
      }
    }
  }

  lemma CancelsSnoc(init: seq<Entry>, e: Entry, turn: int, entries: seq<Entry>)
    requires entries == init + [e]
    ensures forall i :: i != |init| ==> (CancelsAt(entries, turn, i) <==> CancelsAt(init, turn, i))
    ensures CancelsAt(entries, turn, |init|) <==> Cancels(e) && e.turn == turn
    ensures Cancelled(entries, turn) <==> Cancelled(init, turn) || (Cancels(e) && e.turn == turn)
    ensures Dropped(entries, turn) <==> Dropped(init, turn) || (Cancels(e) && e.turn == turn && e.payload.policy.DropTurn?)
  {
    forall i | i != |init| ensures CancelsAt(entries, turn, i) <==> CancelsAt(init, turn, i) {
    }
    assert entries[|init|] == e;
    if i :| CancelsAt(init, turn, i) {
      assert CancelsAt(entries, turn, i);
    }
    if i :| CancelsAt(init, turn, i) && init[i].payload.policy.DropTurn? {
      assert CancelsAt(entries, turn, i) && entries[i] == init[i];
    }
    if i :| CancelsAt(entries, turn, i) && entries[i].payload.policy.DropTurn? {
      if i < |init| {
        assert CancelsAt(init, turn, i) && entries[i] == init[i];
      }
    }
  }

  lemma FirstIsUnique(entries: seq<Entry>, turn: int, i: int, j: int)
    requires FirstCancelAt(entries, turn, i) && FirstCancelAt(entries, turn, j)
    ensures i == j
  {
  }

  lemma SurvivesIff(entries: seq<Entry>, i: int)
    requires 0 <= i < |entries|
    ensures Survives(entries[i], PolicyOf(entries, entries[i].turn), HasActivity(entries, entries[i].turn)) <==> Stays(entries, entries[i])
  {
    var e := entries[i];
    PolicyIs(entries, e.turn);
    if PolicyOf(entries, e.turn).Some? && !Dropped(entries, e.turn) {
      var f :| FirstCancelAt(entries, e.turn, f) && PolicyOf(entries, e.turn) == Some(entries[f].payload.policy);
      if k :| FirstCancelAt(entries, e.turn, k) && entries[k].payload.policy.KeepStableInput? {
        FirstIsUnique(entries, e.turn, f, k);
      }
    }
    if e.turn > 0 {
      assert HasActivity(entries, e.turn) <==> Started(entries, e.turn);
      if ModelActivity(e) {
        assert IsActivity(e) && HasActivity(entries, e.turn);
      }
    }
  }

  /** The entries at the chosen positions below `n`, in order. */
  function Selected(entries: seq<Entry>, chosen: set<int>, n: nat): seq<Entry>
    requires n <= |entries|
  {
    if n == 0 then []
    else if n - 1 in chosen then Selected(entries, chosen, n - 1) + [entries[n - 1]]
    else Selected(entries, chosen, n - 1)
  }

  ghost function StayingPositions(entries: seq<Entry>): set<int> {
    set i | 0 <= i < |entries| && Stays(entries, entries[i])
  }

  /** Planning sees exactly the entries that stay, in their order. */
  lemma ProjectIff(entries: seq<Entry>)
    ensures Project(entries) == Selected(entries, StayingPositions(entries), |entries|)
  {
    ProjectPrefixIs(entries, |entries|);
  }

  lemma {:induction false} ProjectPrefixIs(entries: seq<Entry>, n: nat)
    requires n <= |entries|
    ensures ProjectPrefix(entries, n) == Selected(entries, StayingPositions(entries), n)
  {
    if n > 0 {
      ProjectPrefixIs(entries, n - 1);
      SurvivesIff(entries, n - 1);
    }
  }

  // ---- What a candidate says ----

  /** The entry has text of its own to summarise. */
  predicate Speaks(e: Entry) {
    match e.kind
    case UserMessage => e.payload.UserPayload? && Trim(e.payload.text) != ""
    case AssistantText => e.payload.AssistantPayload? && (Trim(e.payload.text) != "" || Trim(e.payload.reasoning) != "")
    case ToolCall => e.payload.CallPayload?
    case ToolResult => e.payload.ResultPayload?
    case _ => false
  }

  /** Only white space trims to nothing. */
  lemma NotBlank(s: string, k: nat)
    requires k < |s| && !IsSpace(s[k])
    ensures Trim(s) != ""
  {
    var i, j := TrimSound(s);
  }

  lemma SnippetSpeaks(text: string, max: nat)
    requires max > 0
    ensures Trim(text) != "" <==> Snippet(text, max) != ""
    ensures Trim(text) != "" <==> Trim(Snippet(text, max)) != ""
  {
    var t := Trim(text);
    if t != "" {
      var i, j := TrimSound(text);
      assert t[0] == text[i];
      NotBlank(Snippet(text, max), 0);
    } else {
      assert Trim("") == "";
    }
  }

  lemma StepSpeaks(e: Entry)
    ensures Replayable(e) ==> (StepOf(e) != "" <==> Speaks(e))
    ensures e.kind.UserMessage? ==> (Trim(UserTextOf(e)) != "" <==> Speaks(e))
  {
    if e.payload.AssistantPayload? {
      SnippetSpeaks(e.payload.text, SNIPPET_CHARS);
      SnippetSpeaks(e.payload.reasoning, THINKING_CHARS);
    }
    if e.payload.UserPayload? {
      SnippetSpeaks(e.payload.text, SNIPPET_CHARS);
    } else {
      assert Trim("") == "";
    }
  }

  predicate Counted(e: Entry) {
    e.kind.UserMessage? || e.kind.AssistantText? || e.kind.ToolCall? || e.kind.ToolResult?
  }

  /** How many entries of a kind that is replayed. */
  function CountOf(entries: seq<Entry>): nat {
    if entries == [] then 0 else (if Counted(entries[0]) then 1 else 0) + CountOf(entries[1..])
  }

  /** What the replayed entries say, in order; silent ones say nothing. */
  function StepsOf(entries: seq<Entry>): seq<string> {
    if entries == [] then [] else OwnStep(entries[0]) + StepsOf(entries[1..])
  }

  function OwnStep(e: Entry): seq<string> {
    if Replayable(e) && Speaks(e) then [StepOf(e)] else []
  }

  lemma {:induction false} CountSnoc(entries: seq<Entry>, e: Entry)
    ensures CountOf(entries + [e]) == CountOf(entries) + (if Counted(e) then 1 else 0)
  {
    if entries == [] {
      assert [] + [e] == [e];
    } else {
      CountSnoc(entries[1..], e);
      assert (entries + [e])[1..] == entries[1..] + [e];
    }
  }

  lemma {:induction false} StepsSnoc(entries: seq<Entry>, e: Entry)
    ensures StepsOf(entries + [e]) == StepsOf(entries) + OwnStep(e)
  {
    if entries == [] {
      assert [] + [e] == [e];
      assert StepsOf([e]) == OwnStep(e) + StepsOf([e][1..]) == OwnStep(e);
    } else {
      var rest := entries[1..];
      StepsSnoc(rest, e);
      assert (entries + [e])[1..] == rest + [e] && (entries + [e])[0] == entries[0];
      ConcatAssociates(OwnStep(entries[0]), StepsOf(rest), OwnStep(e));
    }
  }

  /** A turn is summarised by what its replayed entries say. */
  lemma {:induction false} TurnFoldIs(entries: seq<Entry>)
    ensures TurnFold(entries).replays == CountOf(entries) && TurnFold(entries).summary.steps == StepsOf(entries)
  {
    if entries != [] {
      var n := |entries| - 1;
      TurnFoldIs(entries[..n]);
      StepSpeaks(entries[n]);
      CountSnoc(entries[..n], entries[n]);
      StepsSnoc(entries[..n], entries[n]);
      assert entries == entries[..n] + [entries[n]];
    }
  }

  /** And by the text of its first user message that has any. */
  lemma {:induction false} UserTextIs(entries: seq<Entry>)
    ensures Trim(TurnFold(entries).summary.userText) == "" ==> forall i :: !FirstToSpeak(entries, i)
    ensures Trim(TurnFold(entries).summary.userText) != "" ==>
              exists i :: FirstToSpeak(entries, i) && TurnFold(entries).summary.userText == UserTextOf(entries[i])
  {
    if entries == [] {
      assert Trim("") == "";
    } else {
      var n := |entries| - 1;
      var init, e := entries[..n], entries[n];
      UserTextIs(init);
      StepSpeaks(e);
      FirstSnoc(init, e, entries);
      if Trim(TurnFold(init).summary.userText) != "" {
        var i :| FirstToSpeak(init, i) && TurnFold(init).summary.userText == UserTextOf(init[i]);
        assert FirstToSpeak(entries, i);
      } else if e.kind.UserMessage? && Speaks(e) {
        NobodyFirst(init);
        assert FirstToSpeak(entries, n);
      }
    }
  }

  lemma FirstSnoc(init: seq<Entry>, e: Entry, entries: seq<Entry>)
    requires entries == init + [e]
    ensures forall i :: 0 <= i < |init| ==> entries[i] == init[i] && (FirstToSpeak(entries, i) <==> FirstToSpeak(init, i))
    ensures FirstToSpeak(entries, |init|) ==> e.kind.UserMessage? && Speaks(e)
    ensures entries[|init|] == e
  {
  }

  /** Where nobody is first to speak, nobody speaks. */
  lemma {:induction false} NobodyFirst(entries: seq<Entry>)
    requires forall i :: !FirstToSpeak(entries, i)
    ensures forall i :: 0 <= i < |entries| && entries[i].kind.UserMessage? ==> !Speaks(entries[i])
  {
    if entries != [] {
      var n := |entries| - 1;
      var init := entries[..n];
      FirstSnoc(init, entries[n], entries);
      NobodyFirst(init);
      assert !FirstToSpeak(entries, n);
    }
  }

  predicate FirstToSpeak(entries: seq<Entry>, i: int) {
    && 0 <= i < |entries| && entries[i].kind.UserMessage? && Speaks(entries[i])
    && forall j :: 0 <= j < i && entries[j].kind.UserMessage? ==> !Speaks(entries[j])
  }

  lemma {:induction false} StepsExist(entries: seq<Entry>)
    ensures StepsOf(entries) != [] <==> exists i :: 0 <= i < |entries| && Replayable(entries[i]) && Speaks(entries[i])
    ensures (exists i :: 0 <= i < |entries| && Counted(entries[i])) ==> CountOf(entries) > 0
  {
    if entries != [] {
      StepsExist(entries[1..]);
      assert forall i :: 1 <= i < |entries| ==> entries[i] == entries[1..][i - 1];
      if i :| 0 <= i < |entries| && Replayable(entries[i]) && Speaks(entries[i]) {
        assert i > 0 ==> Replayable(entries[1..][i - 1]) && Speaks(entries[1..][i - 1]);
      }
      if i :| 0 <= i < |entries| && Counted(entries[i]) {
        assert i > 0 ==> Counted(entries[1..][i - 1]);
      }
    }
  }

  /** A turn is a candidate exactly when one of its entries has something to say. */
  lemma TurnCandidateIff(entries: seq<Entry>)
    ensures TurnCandidate(entries).Some? <==> exists i :: 0 <= i < |entries| && Speaks(entries[i])
  {
    TurnFoldIs(entries);
    UserTextIs(entries);
    StepsExist(entries);
    if i :| 0 <= i < |entries| && Speaks(entries[i]) {
      assert Counted(entries[i]);
      if entries[i].kind.UserMessage? && Trim(TurnFold(entries).summary.userText) == "" {
        NobodyFirst(entries);
        assert false;
      }
    }
  }

  function UnpreservedPositions(entries: seq<Entry>, turn: int, request: string, kept: set<int>): set<int> {
    set i | 0 <= i < |entries| && i !in kept && InTurn(entries[i], turn, request)
  }

  /** The entries of the turn that are not preserved. */
  function Unpreserved(entries: seq<Entry>, turn: int, request: string, kept: set<int>, n: nat): seq<Entry>
    requires n <= |entries|
  {
    Selected(entries, UnpreservedPositions(entries, turn, request, kept), n)
  }

  function ReplayedOf(entries: seq<Entry>): nat {
    if entries == [] then 0 else (if Replayable(entries[|entries| - 1]) then 1 else 0) + ReplayedOf(entries[..|entries| - 1])
  }

  /** The candidate of the current turn says what its unpreserved entries say, in order, and counts them. */
  lemma {:induction false} CurrentFoldIs(entries: seq<Entry>, turn: int, request: string, kept: set<int>, n: nat)
    requires n <= |entries|
    ensures Says(CurrentFold(entries, turn, request, kept, n), Unpreserved(entries, turn, request, kept, n))
  {
    if n > 0 {
      CurrentFoldIs(entries, turn, request, kept, n - 1);
      UnpreservedNext(entries, turn, request, kept, n);
      var e := entries[n - 1];
      if InTurn(e, turn, request) {
        var c := CurrentFold(entries, turn, request, kept, n - 1);
        var rest := Unpreserved(entries, turn, request, kept, n - 1);
        UserTextSays(c, rest, e);
        if n - 1 !in kept {
          StepSays(AddUserText(c, e), rest, e);
        }
      }
    }
  }

  lemma UnpreservedNext(entries: seq<Entry>, turn: int, request: string, kept: set<int>, n: nat)
    requires 0 < n <= |entries|
    ensures var e := entries[n - 1];
            Unpreserved(entries, turn, request, kept, n)
            == Unpreserved(entries, turn, request, kept, n - 1) + (if InTurn(e, turn, request) && n - 1 !in kept then [e] else [])
  {
  }

  lemma UserTextSays(c: Candidate, rest: seq<Entry>, e: Entry)
    requires Says(c, rest)
    ensures Says(AddUserText(c, e), rest)
  {
  }

  predicate Says(c: Candidate, rest: seq<Entry>) {
    c.summary.steps == StepsOf(rest) && c.replays == ReplayedOf(rest)
  }

  lemma StepSays(c: Candidate, rest: seq<Entry>, e: Entry)
    requires Says(c, rest)
    ensures Says(AddStep(c, e), rest + [e])
  {
    assert (rest + [e])[..|rest|] == rest;
    StepsSnoc(rest, e);
    StepSpeaks(e);
  }

  // ---- Exactly when there is a plan ----

  /** Some entry of turn `t` comes before all of turn `u`. */
  ghost predicate AppearsBefore(entries: seq<Entry>, turn: int, request: string, t: int, u: int) {
    exists i :: 0 <= i < |entries| && Compactable(entries[i], turn, request) && entries[i].turn == t
                && forall j :: 0 <= j <= i && Compactable(entries[j], turn, request) ==> entries[j].turn != u
  }

  lemma AppearsSnoc(init: seq<Entry>, e: Entry, entries: seq<Entry>, turn: int, request: string, t: int, u: int)
    requires entries == init + [e] && AppearsBefore(init, turn, request, t, u)
    ensures AppearsBefore(entries, turn, request, t, u)
  {
    var i :| 0 <= i < |init| && Compactable(init[i], turn, request) && init[i].turn == t
             && forall j :: 0 <= j <= i && Compactable(init[j], turn, request) ==> init[j].turn != u;
    assert forall j :: 0 <= j < |init| ==> entries[j] == init[j];
  }

  lemma AppearsNew(init: seq<Entry>, turn: int, request: string, t: int, u: int)
    requires t in TurnOrder(init, turn, request) && u !in TurnOrder(init, turn, request)
    ensures AppearsBefore(init, turn, request, t, u)
  {
    OrderHolds(init, turn, request, t);
    OrderHolds(init, turn, request, u);
    var x :| x in init && Compactable(x, turn, request) && x.turn == t;
    var i :| 0 <= i < |init| && init[i] == x;
    forall j | 0 <= j <= i && Compactable(init[j], turn, request) ensures init[j].turn != u {
      assert init[j] in init;
    }
  }

  /** Turns come in the order in which they first appear. */
  lemma {:induction false} OrderByAppearance(entries: seq<Entry>, turn: int, request: string, a: nat, b: nat)
    requires a < b < |TurnOrder(entries, turn, request)|
    ensures AppearsBefore(entries, turn, request, TurnOrder(entries, turn, request)[a], TurnOrder(entries, turn, request)[b])
  {
    var n := |entries| - 1;
    var init, e := entries[..n], entries[n];
    var order := TurnOrder(init, turn, request);
    assert entries == init + [e];
    if b < |order| {
      OrderByAppearance(init, turn, request, a, b);
      AppearsSnoc(init, e, entries, turn, request, order[a], order[b]);
    } else {
      AppearsNew(init, turn, request, order[a], e.turn);
      AppearsSnoc(init, e, entries, turn, request, order[a], e.turn);
    }
  }

  lemma {:induction false} GroupHolds(entries: seq<Entry>, turn: int, request: string, t: int, e: Entry)
    ensures e in Group(entries, turn, request, t) <==> e in entries && Compactable(e, turn, request) && e.turn == t
  {
    if entries != [] {
      var n := |entries| - 1;
      GroupHolds(entries[..n], turn, request, t, e);
      assert entries == entries[..n] + [entries[n]];
    }
  }

  lemma {:induction false} OrderHolds(entries: seq<Entry>, turn: int, request: string, t: int)
    ensures t in TurnOrder(entries, turn, request) <==> exists e :: e in entries && Compactable(e, turn, request) && e.turn == t
  {
    if entries != [] {
      var n := |entries| - 1;
      var init, last := entries[..n], entries[n];
      OrderHolds(init, turn, request, t);
      OrderHolds(init, turn, request, last.turn);
      assert entries == init + [last];
      if Compactable(last, turn, request) {
        assert last in entries;
      }
    }
  }

  lemma {:induction false} CandidatesExist(entries: seq<Entry>, turn: int, request: string, order: seq<int>)
    ensures TurnCandidates(entries, turn, request, order) != [] <==>
              exists k :: 0 <= k < |order| && TurnCandidate(Group(entries, turn, request, order[k])).Some?
  {
    if order != [] {
      var n := |order| - 1;
      CandidatesExist(entries, turn, request, order[..n]);
      assert forall k :: 0 <= k < n ==> order[k] == order[..n][k];
      if k :| 0 <= k < n && TurnCandidate(Group(entries, turn, request, order[k])).Some? {
        assert TurnCandidate(Group(entries, turn, request, order[..n][k])).Some?;
      }
      if k :| 0 <= k < n && TurnCandidate(Group(entries, turn, request, order[..n][k])).Some? {
        assert TurnCandidate(Group(entries, turn, request, order[k])).Some?;
      }
    }
  }

  /** Some earlier turn, or an earlier request of the same turn, has something to say. */
  predicate OthersSpeak(entries: seq<Entry>, turn: int, request: string) {
    exists e :: e in entries && e.turn > 0 && !(e.turn == turn && Trim(e.request) == Trim(request)) && Speaks(e)
  }

  lemma ContextCandidatesIff(entries: seq<Entry>, turn: int, request: string)
    ensures ContextCandidates(entries, turn, request) != [] <==> OthersSpeak(entries, turn, request)
  {
    var order := TurnOrder(entries, turn, request);
    CandidatesExist(entries, turn, request, order);
    if k :| 0 <= k < |order| && TurnCandidate(Group(entries, turn, request, order[k])).Some? {
      var g := Group(entries, turn, request, order[k]);
      TurnCandidateIff(g);
      var i :| 0 <= i < |g| && Speaks(g[i]);
      GroupHolds(entries, turn, request, order[k], g[i]);
    }
    if e :| e in entries && e.turn > 0 && !(e.turn == turn && Trim(e.request) == Trim(request)) && Speaks(e) {
      assert Compactable(e, turn, request);
      OrderHolds(entries, turn, request, e.turn);
      GroupHolds(entries, turn, request, e.turn, e);
      var g := Group(entries, turn, request, e.turn);
      var i :| 0 <= i < |g| && g[i] == e;
      TurnCandidateIff(g);
      var k :| 0 <= k < |order| && order[k] == e.turn;
      assert TurnCandidate(Group(entries, turn, request, order[k])).Some?;
    }
  }

  /** The current turn has a completed exchange and a tool entry that belongs to another call. */
  ghost predicate OlderExchange(entries: seq<Entry>, turn: int, request: string) {
    turn > 0 && Trim(request) != "" &&
    exists i, j :: IsLastResult(entries, turn, request, i) && 0 <= j < |entries|
                   && InTurn(entries[j], turn, request) && IsTool(entries[j]) && CallID(entries[j]) != CallID(entries[i])
  }

  lemma CurrentIff(entries: seq<Entry>, turn: int, request: string)
    ensures CurrentCandidate(entries, turn, request).Some? <==> OlderExchange(entries, turn, request)
  {
    CurrentCandidateIff(entries, turn, request);
    LatestCompletedSound(entries, turn, request);
    if OlderExchange(entries, turn, request) {
      var i, j :| IsLastResult(entries, turn, request, i) && 0 <= j < |entries|
                  && InTurn(entries[j], turn, request) && IsTool(entries[j]) && CallID(entries[j]) != CallID(entries[i]);
      LastResultIsLatest(entries, turn, request, i);
    }
  }

  /** There is a plan exactly when, in what planning sees, others speak or the current turn has an older exchange. */
  lemma AutoPlanIff(history: seq<Entry>, turn: int, request: string)
    ensures var plan := AutoPlan(history, turn, request);
            && (plan.Some? <==> OthersSpeak(Project(history), turn, request) || OlderExchange(Project(history), turn, request))
            && (plan.Some? ==> plan.value.turn == turn && plan.value.request == request && plan.value.preserve)
  {
    ContextCandidatesIff(Project(history), turn, request);
    CurrentIff(Project(history), turn, request);
  }

  /** Over budget the history is compacted if it can be, and fails otherwise; within it nothing happens. */
  lemma DecideIff(history: seq<Entry>, turn: int, request: string, tokens: int, budget: int)
    ensures var d := Decide(history, turn, request, tokens, budget);
            && (d.Fits? <==> tokens <= 0 || tokens <= budget)
            && (d.Compact? <==> tokens > 0 && tokens > budget
                                && (OthersSpeak(Project(history), turn, request) || OlderExchange(Project(history), turn, request)))
  {
    AutoPlanIff(history, turn, request);
  }

  /** The plan lists the summaries in order and counts all the replayed messages. */
  lemma {:induction false} PlanLists(cs: seq<Candidate>, k: nat)
    requires k < |cs|
    ensures |Summaries(cs)| == |cs| && Summaries(cs)[k] == cs[k].summary
    ensures Replays(cs) == Replays(cs[..k]) + cs[k].replays + Replays(cs[k + 1..])
  {
    var n := |cs| - 1;
    if k == n {
      assert cs[k + 1..] == [];
      if n > 0 {
        PlanLists(cs[..n], n - 1);
      }
    } else {
      PlanLists(cs[..n], k);
      assert cs[..n][..k] == cs[..k] && cs[..n][k + 1..] == cs[k + 1..n];
      assert cs[k + 1..][..n - k - 1] == cs[k + 1..n] && cs[k + 1..][n - k - 1] == cs[n];
    }
  }
}
