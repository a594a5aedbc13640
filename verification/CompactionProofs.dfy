/** What automatic compaction guarantees, for every history. */
module CompactionProofs {
  import opened Base
  import opened CompactionSpec

  /** The chosen indexes below n, in increasing order. */
  function Indexes(chosen: set<int>, n: nat): (ix: seq<int>)
    ensures forall k :: 0 <= k < |ix| ==> 0 <= ix[k] < n && ix[k] in chosen
    ensures forall j, k :: 0 <= j < k < |ix| ==> ix[j] < ix[k]
    ensures forall i :: 0 <= i < n && i in chosen ==> i in ix
  {
    if n == 0 then [] else if n - 1 in chosen then Indexes(chosen, n - 1) + [n - 1] else Indexes(chosen, n - 1)
  }

  /** The text of a readable tool result is shortened; everything else stays. */
  predicate IsShortened(k: Entry, e: Entry, trunc: string -> string) {
    && k.number == e.number && k.turn == e.turn && k.request == e.request && k.kind == e.kind && k.callID == e.callID
    && k.payload == if e.kind.ToolResult? && e.payload.ResultPayload?
                    then ResultPayload(e.payload.id, e.payload.tool, trunc(e.payload.result)) else e.payload
  }

  ghost predicate SelectedInOrder(kept: seq<Entry>, entries: seq<Entry>, ix: seq<int>, trunc: string -> string) {
    && |kept| == |ix|
    && (forall j, k :: 0 <= j < k < |ix| ==> ix[j] < ix[k])
    && (forall k :: 0 <= k < |kept| ==> 0 <= ix[k] < |entries| && IsShortened(kept[k], entries[ix[k]], trunc))
  }

  /** Pick keeps the original order and content. */
  lemma {:induction false} PickFollowsIndexes(entries: seq<Entry>, chosen: set<int>, n: nat, trunc: string -> string)
    requires n <= |entries|
    ensures SelectedInOrder(Pick(entries, chosen, n, trunc), entries, Indexes(chosen, n), trunc)
  {
    if n > 0 {
      PickFollowsIndexes(entries, chosen, n - 1, trunc);
    }
  }

  lemma PickMembers(entries: seq<Entry>, chosen: set<int>, trunc: string -> string, p: seq<Entry>)
    requires p == Pick(entries, chosen, |entries|, trunc)
    ensures forall e :: e in p ==> exists i :: 0 <= i < |entries| && i in chosen && e == Shorten(entries[i], trunc)
    ensures forall i :: 0 <= i < |entries| && i in chosen ==> Shorten(entries[i], trunc) in p
  {
    var ix := Indexes(chosen, |entries|);
    PickFollowsIndexes(entries, chosen, |entries|, trunc);
    forall e | e in p
      ensures exists i :: 0 <= i < |entries| && i in chosen && e == Shorten(entries[i], trunc)
    {
      var k :| 0 <= k < |p| && p[k] == e;
      assert ix[k] in chosen && IsShortened(e, entries[ix[k]], trunc);
    }
    forall i | 0 <= i < |entries| && i in chosen
      ensures Shorten(entries[i], trunc) in p
    {
      var k :| 0 <= k < |ix| && ix[k] == i;
      assert IsShortened(p[k], entries[i], trunc);
    }
  }

  lemma CallIDTrimmed(e: Entry)
    ensures Trim(CallID(e)) == CallID(e)
  {
    TrimIdempotent(e.callID);
    if e.payload.CallPayload? {
      TrimIdempotent(e.payload.id);
    }
    if e.payload.ResultPayload? {
      TrimIdempotent(e.payload.id);
    }
  }

  /** The last result of the turn that names its call. */
  predicate IsLastResult(entries: seq<Entry>, turn: int, request: string, i: int) {
    && 0 <= i < |entries| && InTurn(entries[i], turn, request) && entries[i].kind.ToolResult? && CallID(entries[i]) != ""
    && forall j :: i < j < |entries| && InTurn(entries[j], turn, request) && entries[j].kind.ToolResult? ==> CallID(entries[j]) == ""
  }

  /** The latest completed call is that of the last result of the turn that names one; there is none only if no result does. */
  lemma {:induction false} LatestCompletedSound(entries: seq<Entry>, turn: int, request: string)
    ensures var latest := LatestCompleted(entries, turn, request);
            && Trim(latest) == latest
            && (latest != "" ==> exists i :: IsLastResult(entries, turn, request, i) && CallID(entries[i]) == latest)
            && (latest == "" ==>
                  forall i :: 0 <= i < |entries| && InTurn(entries[i], turn, request) && entries[i].kind.ToolResult?
                              ==> CallID(entries[i]) == "")
  {
    if entries != [] {
      var n := |entries| - 1;
      var init, e := entries[..n], entries[n];
      LatestCompletedSound(init, turn, request);
      CallIDTrimmed(e);
      LastResultSnoc(init, e, entries, turn, request);
      var latest := LatestCompleted(init, turn, request);
      if !(InTurn(e, turn, request) && e.kind.ToolResult? && CallID(e) != "") && latest != "" {
        var i :| IsLastResult(init, turn, request, i) && CallID(init[i]) == latest;
        assert IsLastResult(entries, turn, request, i);
      }
    }
  }

  lemma LastResultSnoc(init: seq<Entry>, e: Entry, entries: seq<Entry>, turn: int, request: string)
    requires entries == init + [e]
    ensures forall i :: 0 <= i < |init| ==> entries[i] == init[i]
    ensures InTurn(e, turn, request) && e.kind.ToolResult? && CallID(e) != "" ==> IsLastResult(entries, turn, request, |init|)
    ensures !(InTurn(e, turn, request) && e.kind.ToolResult? && CallID(e) != "") ==>
              forall i :: IsLastResult(init, turn, request, i) ==> IsLastResult(entries, turn, request, i)
  {
    assert entries[|init|] == e;
  }

  /** There is at most one last result, so its call is the latest completed one. */
  lemma LastResultIsLatest(entries: seq<Entry>, turn: int, request: string, i: int)
    requires IsLastResult(entries, turn, request, i)
    ensures LatestCompleted(entries, turn, request) == CallID(entries[i])
  {
    LatestCompletedSound(entries, turn, request);
    if LatestCompleted(entries, turn, request) != "" {
      var j :| IsLastResult(entries, turn, request, j) && CallID(entries[j]) == LatestCompleted(entries, turn, request);
      assert i == j;
    }
  }

  /** Every preserved entry is of the turn; a preserved tool entry belongs to the latest completed call. */
  lemma PreservedSound(entries: seq<Entry>, turn: int, request: string, latest: string)
    ensures forall i | i in Preserved(entries, turn, request, latest) ::
              && 0 <= i < |entries| && turn > 0
              && InTurn(entries[i], turn, request)
              && (ShouldPreserve(entries[i], latest) || IsCarrier(entries[i]))
    ensures turn > 0 ==> forall i :: 0 <= i < |entries| && InTurn(entries[i], turn, request) && ShouldPreserve(entries[i], latest)
                           ==> i in Preserved(entries, turn, request, latest)
  {
  }

  ghost predicate HasInputs(kept: seq<Entry>, entries: seq<Entry>, turn: int, request: string) {
    forall i :: 0 <= i < |entries| && InTurn(entries[i], turn, request)
                && (entries[i].kind.UserMessage? || entries[i].kind.RequestContext?)
                ==> entries[i] in kept
  }

  ghost predicate HasResult(kept: seq<Entry>, id: string) {
    exists r :: r in kept && r.kind.ToolResult? && CallID(r) == id
  }

  lemma KeptMembers(entries: seq<Entry>, plan: Plan, trunc: string -> string, e: Entry) returns (i: int)
    requires e in KeptEntries(entries, plan, trunc)
    ensures var latest := LatestCompleted(entries, plan.turn, plan.request);
            && 0 <= i < |entries| && e == Shorten(entries[i], trunc)
            && InTurn(e, plan.turn, plan.request)
            && (ShouldPreserve(e, latest) || IsCarrier(e))
            && (IsTool(e) ==> CallID(e) == latest != "")
  {
    var latest := LatestCompleted(entries, plan.turn, plan.request);
    var chosen := Preserved(entries, plan.turn, plan.request, latest);
    PickMembers(entries, chosen, trunc, KeptEntries(entries, plan, trunc));
    PreservedSound(entries, plan.turn, plan.request, latest);
    LatestCompletedSound(entries, plan.turn, plan.request);
    i :| 0 <= i < |entries| && i in chosen && e == Shorten(entries[i], trunc);
    assert CallID(e) == CallID(entries[i]);
  }

  lemma KeptHasInputs(entries: seq<Entry>, plan: Plan, trunc: string -> string)
    requires plan.preserve && plan.turn > 0
    ensures HasInputs(KeptEntries(entries, plan, trunc), entries, plan.turn, plan.request)
  {
    var latest := LatestCompleted(entries, plan.turn, plan.request);
    PickMembers(entries, Preserved(entries, plan.turn, plan.request, latest), trunc, KeptEntries(entries, plan, trunc));
    PreservedSound(entries, plan.turn, plan.request, latest);
    forall i | 0 <= i < |entries| && InTurn(entries[i], plan.turn, plan.request)
               && (entries[i].kind.UserMessage? || entries[i].kind.RequestContext?)
      ensures entries[i] in KeptEntries(entries, plan, trunc)
    {
      assert Shorten(entries[i], trunc) == entries[i];
    }
  }

  lemma KeptHasResult(entries: seq<Entry>, plan: Plan, trunc: string -> string)
    requires plan.preserve && plan.turn > 0
    ensures var latest := LatestCompleted(entries, plan.turn, plan.request);
            latest != "" ==> HasResult(KeptEntries(entries, plan, trunc), latest)
  {
    var latest := LatestCompleted(entries, plan.turn, plan.request);
    PickMembers(entries, Preserved(entries, plan.turn, plan.request, latest), trunc, KeptEntries(entries, plan, trunc));
    PreservedSound(entries, plan.turn, plan.request, latest);
    LatestCompletedSound(entries, plan.turn, plan.request);
    if latest != "" {
      var j :| 0 <= j < |entries| && InTurn(entries[j], plan.turn, plan.request)
               && entries[j].kind.ToolResult? && CallID(entries[j]) == latest;
      var r := Shorten(entries[j], trunc);
      assert r in KeptEntries(entries, plan, trunc) && CallID(r) == latest;
    }
  }

  /**
   The replacement history is a summary, at most one runtime state, and then entries
   of the current turn in their original order, among them every user message and
   request context, and no tool call without its result.
   */
  lemma CompactedShape(entries: seq<Entry>, plan: Plan, summary: string, runtime: Option<string>, trunc: string -> string)
    requires plan.preserve && plan.turn > 0
    ensures Headed(Compacted(entries, plan, summary, runtime, trunc), plan, summary, runtime, KeptEntries(entries, plan, trunc))
    ensures LatestExchange(KeptEntries(entries, plan, trunc), entries, plan, trunc)
    ensures var latest := LatestCompleted(entries, plan.turn, plan.request);
            var ix := Indexes(Preserved(entries, plan.turn, plan.request, latest), |entries|);
            SelectedInOrder(KeptEntries(entries, plan, trunc), entries, ix, trunc)
    ensures HasInputs(KeptEntries(entries, plan, trunc), entries, plan.turn, plan.request)
    ensures Usable(KeptEntries(entries, plan, trunc), plan)
  {
    var latest := LatestCompleted(entries, plan.turn, plan.request);
    PickFollowsIndexes(entries, Preserved(entries, plan.turn, plan.request, latest), |entries|, trunc);
    KeptHasInputs(entries, plan, trunc);
    KeptIsUsable(entries, plan, trunc);
    CompactedIsHeaded(entries, plan, summary, runtime, trunc, KeptEntries(entries, plan, trunc));
    KeptHasExchange(entries, plan, trunc);
  }

  /** The tool entry `j` of the turn belongs to the call of its last result `i`. */
  predicate InExchange(entries: seq<Entry>, turn: int, request: string, i: int, j: int) {
    && IsLastResult(entries, turn, request, i)
    && 0 <= j < |entries| && InTurn(entries[j], turn, request) && IsTool(entries[j]) && CallID(entries[j]) == CallID(entries[i])
  }

  /** Of the tool entries, exactly those of the call of the last result are kept, the result itself among them. */
  ghost predicate LatestExchange(kept: seq<Entry>, entries: seq<Entry>, plan: Plan, trunc: string -> string) {
    && (forall i, j :: InExchange(entries, plan.turn, plan.request, i, j) ==> exists k :: k in kept && IsShortened(k, entries[j], trunc))
    && (forall k :: k in kept && IsTool(k) ==>
          exists i :: IsLastResult(entries, plan.turn, plan.request, i) && CallID(k) == CallID(entries[i]))
  }

  lemma KeptHasExchange(entries: seq<Entry>, plan: Plan, trunc: string -> string)
    requires plan.preserve && plan.turn > 0
    ensures LatestExchange(KeptEntries(entries, plan, trunc), entries, plan, trunc)
  {
    var kept := KeptEntries(entries, plan, trunc);
    forall i, j | InExchange(entries, plan.turn, plan.request, i, j)
      ensures exists k :: k in kept && IsShortened(k, entries[j], trunc)
    {
      ExchangeEntryKept(entries, plan, trunc, i, j);
      assert IsShortened(Shorten(entries[j], trunc), entries[j], trunc);
    }
    forall k | k in kept && IsTool(k)
      ensures exists i :: IsLastResult(entries, plan.turn, plan.request, i) && CallID(k) == CallID(entries[i])
    {
      var n := KeptMembers(entries, plan, trunc, k);
      LatestCompletedSound(entries, plan.turn, plan.request);
    }
  }

  lemma ExchangeEntryKept(entries: seq<Entry>, plan: Plan, trunc: string -> string, i: int, j: int)
    requires plan.preserve && plan.turn > 0 && InExchange(entries, plan.turn, plan.request, i, j)
    ensures Shorten(entries[j], trunc) in KeptEntries(entries, plan, trunc)
  {
    LastResultIsLatest(entries, plan.turn, plan.request, i);
    CallIDTrimmed(entries[i]);
    var latest := LatestCompleted(entries, plan.turn, plan.request);
    PreservedSound(entries, plan.turn, plan.request, latest);
    PickMembers(entries, Preserved(entries, plan.turn, plan.request, latest), trunc, KeptEntries(entries, plan, trunc));
    assert ShouldPreserve(entries[j], latest);
  }

  /** Exactly one summary, which is first and carries the text; at most one runtime state, which is second; and then `kept`. */
  ghost predicate Headed(history: seq<Entry>, plan: Plan, summary: string, runtime: Option<string>, kept: seq<Entry>) {
    var head := if runtime.Some? then 2 else 1;
    && |history| == head + |kept| && history[head..] == kept
    && (forall i :: 0 <= i < |history| ==> (history[i].kind.CompactedSummary? <==> i == 0))
    && (forall i :: 0 <= i < |history| ==> (history[i].kind.RuntimeState? <==> i == 1 && runtime.Some?))
    && (forall i :: 0 <= i < head ==> history[i].turn == plan.turn && history[i].request == Trim(plan.request))
    && history[0].payload == OtherPayload(Trim(summary))
    && (runtime.Some? ==> history[1].payload == OtherPayload(runtime.value))
  }

  lemma CompactedIsHeaded(entries: seq<Entry>, plan: Plan, summary: string, runtime: Option<string>, trunc: string -> string, kept: seq<Entry>)
    requires kept == KeptEntries(entries, plan, trunc) && Usable(kept, plan)
    ensures Headed(Compacted(entries, plan, summary, runtime, trunc), plan, summary, runtime, kept)
  {
    var history := Compacted(entries, plan, summary, runtime, trunc);
    var head := if runtime.Some? then 2 else 1;
    forall i | head <= i < |history| ensures !history[i].kind.CompactedSummary? && !history[i].kind.RuntimeState? {
      assert history[i] == kept[i - head] && kept[i - head] in kept;
    }
  }

  /** Entries of the turn itself, none of them a state or a summary, and no tool call without its result. */
  ghost predicate Usable(kept: seq<Entry>, plan: Plan) {
    forall e :: e in kept ==>
      && InTurn(e, plan.turn, plan.request)
      && !e.kind.RuntimeState? && !e.kind.CompactedSummary? && !e.kind.CompactionSummary?
      && (e.kind.ToolCall? ==> CallID(e) != "" && HasResult(kept, CallID(e)))
  }

  lemma KeptIsUsable(entries: seq<Entry>, plan: Plan, trunc: string -> string)
    requires plan.preserve && plan.turn > 0
    ensures Usable(KeptEntries(entries, plan, trunc), plan)
  {
    KeptHasResult(entries, plan, trunc);
    forall e | e in KeptEntries(entries, plan, trunc)
      ensures
        && InTurn(e, plan.turn, plan.request)
        && !e.kind.RuntimeState? && !e.kind.CompactedSummary? && !e.kind.CompactionSummary?
        && (e.kind.ToolCall? ==> CallID(e) != "" && HasResult(KeptEntries(entries, plan, trunc), CallID(e)))
    {
      var i := KeptMembers(entries, plan, trunc, e);
    }
  }

  /** A non-positive turn has no identity to preserve: everything but the summary and the state goes. */
  lemma NothingKeptWithoutTurn(entries: seq<Entry>, plan: Plan, trunc: string -> string)
    requires plan.turn <= 0
    ensures KeptEntries(entries, plan, trunc) == []
  {
    PickNothing(entries, |entries|, trunc);
  }

  lemma {:induction false} PickNothing(entries: seq<Entry>, n: nat, trunc: string -> string)
    requires n <= |entries|
    ensures Pick(entries, {}, n, trunc) == []
  {
    if n > 0 {
      PickNothing(entries, n - 1, trunc);
    }
  }

  // ---- When there is something to compact ----

  lemma {:induction false} FoldFindsTools(entries: seq<Entry>, turn: int, request: string, kept: set<int>, n: nat)
    requires n <= |entries|
    ensures var c := CurrentFold(entries, turn, request, kept, n);
            && (c.tools <==> exists i :: 0 <= i < n && i !in kept && InTurn(entries[i], turn, request) && IsTool(entries[i]))
            && (c.tools ==> c.replays > 0)
  {
    if n > 0 {
      FoldFindsTools(entries, turn, request, kept, n - 1);
    }
  }

  /** The current turn is worth compacting exactly when it holds a tool entry of another call than the latest completed one. */
  lemma CurrentCandidateIff(entries: seq<Entry>, turn: int, request: string)
    ensures CurrentCandidate(entries, turn, request).Some? <==>
            var latest := LatestCompleted(entries, turn, request);
            && turn > 0 && Trim(request) != "" && latest != ""
            && exists i :: 0 <= i < |entries| && InTurn(entries[i], turn, request)
                           && IsTool(entries[i]) && CallID(entries[i]) != latest
  {
    var latest := LatestCompleted(entries, turn, request);
    FoldFindsTools(entries, turn, request, Preserved(entries, turn, request, latest), |entries|);
    if turn > 0 && latest != "" {
      LatestCompletedSound(entries, turn, request);
      PreservedTools(entries, turn, request, latest, Preserved(entries, turn, request, latest));
    }
  }

  /** Of the tool entries of the turn, exactly those of the latest completed call are preserved. */
  lemma PreservedTools(entries: seq<Entry>, turn: int, request: string, latest: string, kept: set<int>)
    requires turn > 0 && latest != "" && Trim(latest) == latest && kept == Preserved(entries, turn, request, latest)
    ensures forall i :: 0 <= i < |entries| && InTurn(entries[i], turn, request) && IsTool(entries[i])
              ==> (i in kept <==> CallID(entries[i]) == latest)
  {
    PreservedSound(entries, turn, request, latest);
    forall i | 0 <= i < |entries| && InTurn(entries[i], turn, request) && IsTool(entries[i])
      ensures i in kept <==> CallID(entries[i]) == latest
    {
    }
  }

  lemma {:induction false} NoOtherTurn(entries: seq<Entry>, turn: int, request: string)
    requires forall i :: 0 <= i < |entries| ==> !Compactable(entries[i], turn, request)
    ensures TurnOrder(entries, turn, request) == []
  {
    if entries != [] {
      NoOtherTurn(entries[..|entries| - 1], turn, request);
    }
  }

  lemma {:induction false} ProjectKeepsOnly(entries: seq<Entry>, n: nat)
    requires n <= |entries|
    ensures forall e :: e in ProjectPrefix(entries, n) ==> e in entries
  {
    if n > 0 {
      ProjectKeepsOnly(entries, n - 1);
    }
  }

  /** A history of one turn with at most one tool exchange cannot be compacted. */
  lemma NothingToCompact(history: seq<Entry>, turn: int, request: string, id: string)
    requires forall e :: e in history ==> InTurn(e, turn, request) && (IsTool(e) ==> CallID(e) == id)
    ensures AutoPlan(history, turn, request).None?
  {
    var entries := Project(history);
    ProjectKeepsOnly(history, |history|);
    assert forall i :: 0 <= i < |entries| ==> entries[i] in history;
    NoOtherTurn(entries, turn, request);
    LatestCompletedSound(entries, turn, request);
    CurrentCandidateIff(entries, turn, request);
  }

  /**
   Compaction cannot repeat: planned again for the same turn and request on its own
   output, even after further entries of that turn that are no tool entries,
   there is nothing left to compact.
   */
  lemma CompactionDoesNotRepeat(entries: seq<Entry>, plan: Plan, summary: string, runtime: Option<string>, trunc: string -> string,
                                more: seq<Entry>)
    requires forall e :: e in more ==> InTurn(e, plan.turn, plan.request) && !IsTool(e)
    ensures AutoPlan(Compacted(entries, plan, summary, runtime, trunc) + more, plan.turn, plan.request).None?
  {
    var latest := LatestCompleted(entries, plan.turn, plan.request);
    var history := Compacted(entries, plan, summary, runtime, trunc) + more;
    TrimIdempotent(plan.request);
    forall e | e in history
      ensures InTurn(e, plan.turn, plan.request) && (IsTool(e) ==> CallID(e) == latest)
    {
      if e in KeptEntries(entries, plan, trunc) {
        var i := KeptMembers(entries, plan, trunc, e);
      }
    }
    NothingToCompact(history, plan.turn, plan.request, latest);
  }

  /** So the next provider request either fits or fails with an overflow; it never compacts again. */
  lemma NoCompactionLoop(entries: seq<Entry>, plan: Plan, summary: string, runtime: Option<string>, trunc: string -> string,
                         more: seq<Entry>, tokens: int, budget: int)
    requires forall e :: e in more ==> InTurn(e, plan.turn, plan.request) && !IsTool(e)
    ensures !Decide(Compacted(entries, plan, summary, runtime, trunc) + more, plan.turn, plan.request, tokens, budget).Compact?
  {
    CompactionDoesNotRepeat(entries, plan, summary, runtime, trunc, more);
  }
}
