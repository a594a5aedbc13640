/**
 The loops of compaction, each proved against its function in `CompactionSpec`, and
 the conversation they rewrite (internal/backend/forwarder/compaction.go,
 projector.go, file_store.go).
 */
module Compaction {
  import opened Base
  import opened CompactionSpec
  import opened CompactionProofs

  method LatestCompletedToolCallID(entries: seq<Entry>, turn: int, request: string) returns (latest: string)
    ensures latest == LatestCompleted(entries, turn, request)
  {
    latest := "";
    for n := 0 to |entries|
      invariant latest == LatestCompleted(entries[..n], turn, request)
    {
      var e := entries[n];
      assert entries[..n + 1][..n] == entries[..n];
      if InTurn(e, turn, request) && e.kind.ToolResult? {
        var id := CallID(e);
        if id != "" {
          latest := id;
        }
      }
    }
    assert entries[..|entries|] == entries;
  }

  /** Walks back from the call, skipping other turns, until signed reasoning or a user input. */
  method LatestReasoningCarrier(entries: seq<Entry>, before: nat, turn: int, request: string) returns (index: int)
    requires before <= |entries|
    ensures index == CarrierIndex(entries, before, turn, request)
  {
    var i := before;
    while i > 0
      invariant 0 <= i <= before
      invariant CarrierIndex(entries, i, turn, request) == CarrierIndex(entries, before, turn, request)
    {
      i := i - 1;
      var e := entries[i];
      if InTurn(e, turn, request) {
        if e.kind.AssistantText? {
          if IsCarrier(e) {
            return i;
          }
        } else if e.kind.UserMessage? || e.kind.RequestContext? {
          return -1;
        }
      }
    }
    index := -1;
  }

  method PreservedEntryIndexes(entries: seq<Entry>, turn: int, request: string, latest: string) returns (kept: set<int>)
    ensures kept == Preserved(entries, turn, request, latest)
  {
    kept := {};
    if entries == [] || turn <= 0 {
      return;
    }
    var call := -1;
    for n := 0 to |entries|
      invariant kept == set i | 0 <= i < n && InTurn(entries[i], turn, request) && ShouldPreserve(entries[i], latest)
      invariant call == LatestCallIndex(entries[..n], turn, request, latest)
    {
      var e := entries[n];
      assert entries[..n + 1][..n] == entries[..n];
      if InTurn(e, turn, request) {
        if ShouldPreserve(e, latest) {
          kept := kept + {n};
        }
        if e.kind.ToolCall? && CallID(e) == Trim(latest) {
          call := n;
        }
      }
    }
    assert entries[..|entries|] == entries;
    if call < 0 || !NeedsCarrier(entries[call]) {
      return;
    }
    var carrier := LatestReasoningCarrier(entries, call, turn, request);
    if carrier >= 0 {
      kept := kept + {carrier};
    }
  }

  method PreservedCurrentTurnEntries(entries: seq<Entry>, plan: Plan, trunc: string -> string) returns (kept: seq<Entry>)
    ensures kept == KeptEntries(entries, plan, trunc)
  {
    kept := [];
    if entries == [] || !plan.preserve {
      return;
    }
    var latest := LatestCompletedToolCallID(entries, plan.turn, plan.request);
    var indexes := PreservedEntryIndexes(entries, plan.turn, plan.request, latest);
    for n := 0 to |entries|
      invariant kept == Pick(entries, indexes, n, trunc)
    {
      if n in indexes {
        kept := kept + [Shorten(entries[n], trunc)];
      }
    }
  }

  method CurrentTurnCompactionCandidate(entries: seq<Entry>, turn: int, request: string) returns (r: Option<Candidate>)
    ensures r == CurrentCandidate(entries, turn, request)
    ensures r.Some? <==>
            var latest := LatestCompleted(entries, turn, request);
            && turn > 0 && Trim(request) != "" && latest != ""
            && exists i :: 0 <= i < |entries| && InTurn(entries[i], turn, request)
                           && IsTool(entries[i]) && CallID(entries[i]) != latest
  {
    CurrentCandidateIff(entries, turn, request);
    r := None;
    if entries == [] || turn <= 0 || Trim(request) == "" {
      return;
    }
    var latest := LatestCompletedToolCallID(entries, turn, request);
    if latest == "" {
      return;
    }
    var kept := PreservedEntryIndexes(entries, turn, request, latest);
    var c := NO_CANDIDATE;
    for n := 0 to |entries|
      invariant c == CurrentFold(entries, turn, request, kept, n)
    {
      var e := entries[n];
      if InTurn(e, turn, request) {
        c := AddUserText(c, e);
        if n !in kept {
          c := AddStep(c, e);
        }
      }
    }
    if !c.tools || c.replays == 0 {
      return;
    }
    if c.summary.steps == [] {
      c := c.(summary := c.summary.(steps := ["tool_history=earlier current-turn tool history compacted"]));
    }
    r := Some(c);
  }

  /** `order` lists the other turns by first appearance and `grouped` their entries. */
  ghost predicate Grouped(order: seq<int>, grouped: map<int, seq<Entry>>, entries: seq<Entry>, turn: int, request: string) {
    && order == TurnOrder(entries, turn, request)
    && (forall k :: 0 <= k < |order| ==> order[k] in grouped)
    && (forall t :: t in grouped ==> t in order)
    && (forall t :: t in grouped ==> grouped[t] == Group(entries, turn, request, t))
  }

  lemma {:induction false} GroupOfAbsent(entries: seq<Entry>, turn: int, request: string, t: int)
    requires t !in TurnOrder(entries, turn, request)
    ensures Group(entries, turn, request, t) == []
  {
    if entries != [] {
      GroupOfAbsent(entries[..|entries| - 1], turn, request, t);
    }
  }

  lemma GroupStep(order: seq<int>, grouped: map<int, seq<Entry>>, entries: seq<Entry>, e: Entry, turn: int, request: string)
    requires Grouped(order, grouped, entries, turn, request)
    ensures !Compactable(e, turn, request) ==> Grouped(order, grouped, entries + [e], turn, request)
    ensures Compactable(e, turn, request) && e.turn !in grouped ==>
              Grouped(order + [e.turn], grouped[e.turn := [e]], entries + [e], turn, request)
    ensures Compactable(e, turn, request) && e.turn in grouped ==>
              Grouped(order, grouped[e.turn := grouped[e.turn] + [e]], entries + [e], turn, request)
  {
    assert (entries + [e])[..|entries|] == entries;
    if e.turn !in grouped {
      GroupOfAbsent(entries, turn, request, e.turn);
    }
  }

  /** Groups the entries of the other turns in order of first appearance. */
  method GroupByTurn(entries: seq<Entry>, turn: int, request: string)
    returns (order: seq<int>, grouped: map<int, seq<Entry>>)
    ensures Grouped(order, grouped, entries, turn, request)
  {
    order, grouped := [], map[];
    for n := 0 to |entries|
      invariant Grouped(order, grouped, entries[..n], turn, request)
    {
      var e := entries[n];
      assert entries[..n + 1] == entries[..n] + [e];
      GroupStep(order, grouped, entries[..n], e, turn, request);
      if Compactable(e, turn, request) {
        if e.turn !in grouped {
          order := order + [e.turn];
          grouped := grouped[e.turn := [e]];
        } else {
          grouped := grouped[e.turn := grouped[e.turn] + [e]];
        }
      }
    }
    assert entries[..|entries|] == entries;
  }

  /** Groups the entries of the other turns, then summarises each group. */
  method ContextCompactionCandidates(entries: seq<Entry>, turn: int, request: string) returns (candidates: seq<Candidate>)
    ensures candidates == ContextCandidates(entries, turn, request)
  {
    var order, grouped := GroupByTurn(entries, turn, request);
    candidates := [];
    for k := 0 to |order|
      invariant candidates == TurnCandidates(entries, turn, request, order[..k])
    {
      assert order[..k + 1][..k] == order[..k];
      var c := TurnCandidate(grouped[order[k]]);
      if c.Some? {
        candidates := candidates + [c.value];
      }
    }
    assert order[..|order|] == order;
  }

  class Conversation {
    var entries: seq<Entry>
    var nextEntry: int
    var nextTurn: int

    constructor (entries: seq<Entry>, nextEntry: int, nextTurn: int)
      ensures this.entries == entries && this.nextEntry == nextEntry && this.nextTurn == nextTurn
    {
      this.entries, this.nextEntry, this.nextTurn := entries, nextEntry, nextTurn;
    }

    /** Appends entries, numbering those that have no number yet and tracking the highest turn. */
    method AppendEntries(more: seq<Entry>)
      requires nextEntry >= 1
      modifies this
      ensures |entries| == |old(entries)| + |more| && old(entries) <= entries
      ensures forall j :: |old(entries)| <= j < |entries| ==>
                entries[j].(number := 0) == more[j - |old(entries)|].(number := 0)
      ensures (forall k :: 0 <= k < |more| ==> more[k].number == 0) ==>
                && nextEntry == old(nextEntry) + |more|
                && forall j :: |old(entries)| <= j < |entries| ==> entries[j].number == old(nextEntry) + j - |old(entries)|
      ensures nextTurn >= old(nextTurn)
      ensures forall k :: 0 <= k < |more| ==> more[k].turn < nextTurn
      ensures nextTurn == old(nextTurn) || exists k :: 0 <= k < |more| && more[k].turn + 1 == nextTurn
    {
      var maxTurn := nextTurn - 1;
      ghost var start := |entries|;
      for n := 0 to |more|
        invariant |entries| == start + n && old(entries) == entries[..start]
        invariant nextEntry >= 1 && nextTurn == old(nextTurn)
        invariant forall j :: start <= j < |entries| ==> entries[j].(number := 0) == more[j - start].(number := 0)
        invariant (forall k :: 0 <= k < |more| ==> more[k].number == 0) ==>
                    && nextEntry == old(nextEntry) + n
                    && forall j :: start <= j < |entries| ==> entries[j].number == old(nextEntry) + j - start
        invariant maxTurn >= old(nextTurn) - 1
        invariant forall k :: 0 <= k < n ==> more[k].turn <= maxTurn
        invariant maxTurn == old(nextTurn) - 1 || exists k :: 0 <= k < n && more[k].turn == maxTurn
      {
        var next := more[n];
        if next.number <= 0 {
          next := next.(number := nextEntry);
          nextEntry := nextEntry + 1;
        } else if next.number >= nextEntry {
          nextEntry := next.number + 1;
        }
        if next.turn > maxTurn {
          maxTurn := next.turn;
        }
        entries := entries + [next];
      }
      if maxTurn + 1 > nextTurn {
        nextTurn := maxTurn + 1;
      }
    }

    method BuildCompactedEntries(plan: Plan, summary: string, runtime: Option<string>, trunc: string -> string)
      returns (replacement: seq<Entry>)
      ensures replacement == Compacted(entries, plan, summary, runtime, trunc)
    {
      replacement := [SummaryEntry(plan, summary)];
      if runtime.Some? {
        replacement := replacement + [RuntimeEntry(plan, runtime.value)];
      }
      var kept := PreservedCurrentTurnEntries(entries, plan, trunc);
      replacement := replacement + kept;
    }

    /**
     Replaces the history by its compacted form, numbered from one. The rewritten
     history cannot be compacted again for the same turn and request.
     */
    method ApplyCompaction(plan: Plan, summary: string, runtime: Option<string>, trunc: string -> string)
      modifies this
      ensures Renumbered(entries, Compacted(old(entries), plan, summary, runtime, trunc))
      ensures nextEntry == |entries| + 1
      ensures nextTurn == Max(1, plan.turn + 1)
      ensures AutoPlan(entries, plan.turn, plan.request).None?
    {
      var replacement := BuildCompactedEntries(plan, summary, runtime, trunc);
      CompactedIsInTurn(entries, plan, summary, runtime, trunc, replacement);
      ghost var source := entries;
      ReplaceEntries(replacement, plan.turn);
      RenumberedCannotRepeat(source, plan, summary, runtime, trunc, replacement, entries);
    }

    /** Starts the conversation over with the given entries, all of one turn. */
    method ReplaceEntries(replacement: seq<Entry>, ghost turn: int)
      requires replacement != [] && forall k :: 0 <= k < |replacement| ==> replacement[k].turn == turn
      modifies this
      ensures Renumbered(entries, replacement)
      ensures nextEntry == |entries| + 1 && nextTurn == Max(1, turn + 1)
    {
      var reset := ResetNumbers(replacement);
      entries, nextEntry, nextTurn := [], 1, 1;
      AppendEntries(reset);
      RenumberedFromReset(entries, replacement);
      assert reset[0].turn == turn;
    }
  }

  function ResetNumbers(entries: seq<Entry>): (r: seq<Entry>)
    ensures |r| == |entries|
    ensures forall k :: 0 <= k < |r| ==> r[k] == entries[k].(number := 0)
  {
    seq(|entries|, k requires 0 <= k < |entries| => entries[k].(number := 0))
  }

  /** The same entries, numbered one, two, three, ... */
  predicate Renumbered(entries: seq<Entry>, source: seq<Entry>) {
    && |entries| == |source|
    && forall k :: 0 <= k < |entries| ==> entries[k] == source[k].(number := k + 1)
  }

  lemma RenumberedFromReset(entries: seq<Entry>, source: seq<Entry>)
    requires |entries| == |source|
    requires forall j :: 0 <= j < |entries| ==> entries[j].(number := 0) == ResetNumbers(source)[j].(number := 0)
    requires forall j :: 0 <= j < |entries| ==> entries[j].number == 1 + j
    ensures Renumbered(entries, source)
  {
    forall k | 0 <= k < |entries| ensures entries[k] == source[k].(number := k + 1) {
      assert entries[k].(number := 0) == source[k].(number := 0);
    }
  }

  lemma CompactedIsInTurn(source: seq<Entry>, plan: Plan, summary: string, runtime: Option<string>, trunc: string -> string,
                          compacted: seq<Entry>)
    requires compacted == Compacted(source, plan, summary, runtime, trunc)
    ensures |compacted| > 0
    ensures var latest := LatestCompleted(source, plan.turn, plan.request);
            forall k :: 0 <= k < |compacted| ==>
              && InTurn(compacted[k], plan.turn, plan.request)
              && (IsTool(compacted[k]) ==> CallID(compacted[k]) == latest)
  {
    var latest := LatestCompleted(source, plan.turn, plan.request);
    TrimIdempotent(plan.request);
    forall k | 0 <= k < |compacted|
      ensures InTurn(compacted[k], plan.turn, plan.request) && (IsTool(compacted[k]) ==> CallID(compacted[k]) == latest)
    {
      if compacted[k] in KeptEntries(source, plan, trunc) {
        var i := KeptMembers(source, plan, trunc, compacted[k]);
      }
    }
  }

  lemma RenumberedCannotRepeat(source: seq<Entry>, plan: Plan, summary: string, runtime: Option<string>, trunc: string -> string,
                               compacted: seq<Entry>, entries: seq<Entry>)
    requires compacted == Compacted(source, plan, summary, runtime, trunc)
    requires Renumbered(entries, compacted)
    ensures AutoPlan(entries, plan.turn, plan.request).None?
  {
    var latest := LatestCompleted(source, plan.turn, plan.request);
    CompactedIsInTurn(source, plan, summary, runtime, trunc, compacted);
    forall e | e in entries
      ensures InTurn(e, plan.turn, plan.request) && (IsTool(e) ==> CallID(e) == latest)
    {
      var k :| 0 <= k < |entries| && entries[k] == e;
      assert e == compacted[k].(number := e.number);
    }
    NothingToCompact(entries, plan.turn, plan.request, latest);
  }
}
