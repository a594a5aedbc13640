/**
 The bounded output tails of background shells and the offsets of their readers
 (internal/backend/forwarder/await_shell_tool.go).
 */
module ShellTail {
  import opened Base

  const TAIL_LIMIT: nat := 256 * 1024

  /** One output stream: the retained bytes, how many were dropped, where the reader stands. */
  datatype Tail = Tail(buffer: string, dropped: int, offset: int)

  datatype Read = Read(data: string, end: int, prefixDropped: bool)

  function AppendTail(current: string, dropped: int, value: string): (string, int) {
    if value == "" then (current, dropped)
    else if |value| >= TAIL_LIMIT then
      (value[|value| - TAIL_LIMIT..], dropped + |current| + |value| - TAIL_LIMIT)
    else if |current + value| <= TAIL_LIMIT then (current + value, dropped)
    else
      var drop := |current + value| - TAIL_LIMIT;
      ((current + value)[drop..], dropped + drop)
  }

  function OutputSince(current: string, dropped: int, offset: int): Read {
    var dropped := Max(dropped, 0);
    var end := dropped + |current|;
    var offset := Max(offset, 0);
    var from := Min(Max(offset, dropped), end);
    Read(current[from - dropped..], end, offset < dropped)
  }

  /** A trimmed message on a line of its own. */
  function AppendLine(current: string, dropped: int, value: string): (string, int) {
    var trimmed := Trim(value);
    if trimmed == "" then (current, dropped)
    else if current != "" && current[|current| - 1] != '\n' then
      var (c, d) := AppendTail(current, dropped, "\n");
      AppendTail(c, d, trimmed)
    else AppendTail(current, dropped, trimmed)
  }

  /** The longest suffix that fits. */
  function LastBytes(full: string): string {
    if |full| <= TAIL_LIMIT then full else full[|full| - TAIL_LIMIT..]
  }

  /** The retained bytes are the longest suffix of the whole output that fits, and nothing is miscounted. */
  predicate Retains(current: string, dropped: int, full: string) {
    current == LastBytes(full) && dropped + |current| == |full|
  }

  lemma AppendRetains(current: string, dropped: int, value: string, full: string)
    requires Retains(current, dropped, full)
    ensures var (c, d) := AppendTail(current, dropped, value); Retains(c, d, full + value)
  {
    if value == "" {
      assert full + value == full;
    }
  }

  /** The same promise for the line form, told on the whole output instead of the retained bytes. */
  function FullLine(full: string, value: string): string {
    if Trim(value) == "" then full
    else full + (if full != "" && full[|full| - 1] != '\n' then "\n" else "") + Trim(value)
  }

  lemma EndsAlike(current: string, dropped: int, full: string)
    requires Retains(current, dropped, full)
    ensures current == "" <==> full == ""
    ensures current != "" ==> current[|current| - 1] == full[|full| - 1]
  {
  }

  lemma SeparatedRetains(current: string, dropped: int, trimmed: string, full: string)
    requires Retains(current, dropped, full)
    ensures var (c, d) := AppendTail(current, dropped, "\n");
            var (e, f) := AppendTail(c, d, trimmed);
            Retains(e, f, full + "\n" + trimmed)
  {
    AppendRetains(current, dropped, "\n", full);
    var (c, d) := AppendTail(current, dropped, "\n");
    AppendRetains(c, d, trimmed, full + "\n");
  }

  lemma LineRetains(current: string, dropped: int, value: string, full: string)
    requires Retains(current, dropped, full)
    ensures var (c, d) := AppendLine(current, dropped, value); Retains(c, d, FullLine(full, value))
  {
    EndsAlike(current, dropped, full);
    if current != "" && current[|current| - 1] != '\n' {
      SeparatedRetains(current, dropped, Trim(value), full);
    } else {
      AppendRetains(current, dropped, Trim(value), full);
      assert full + "" == full;
    }
  }

  // ---- Runs ----

  datatype Op = Chunk(value: string) | Line(text: string) | Await

  /** The stream, and every read answered so far. */
  datatype System = System(tail: Tail, answers: seq<Read>)

  function Step(y: System, op: Op): System {
    match op
    case Chunk(v) =>
      var (c, d) := AppendTail(y.tail.buffer, y.tail.dropped, v);
      y.(tail := y.tail.(buffer := c, dropped := d))
    case Line(v) =>
      var (c, d) := AppendLine(y.tail.buffer, y.tail.dropped, v);
      y.(tail := y.tail.(buffer := c, dropped := d))
    case Await =>
      var r := OutputSince(y.tail.buffer, y.tail.dropped, y.tail.offset);
      System(y.tail.(offset := r.end), y.answers + [r])
  }

  function Run(ops: seq<Op>): System {
    if ops == [] then System(Tail("", 0, 0), []) else Step(Run(ops[..|ops| - 1]), ops[|ops| - 1])
  }

  /** Everything the shell ever printed. */
  function Full(ops: seq<Op>): string {
    if ops == [] then ""
    else
      var before := Full(ops[..|ops| - 1]);
      match ops[|ops| - 1]
      case Chunk(v) => before + v
      case Line(v) => FullLine(before, v)
      case Await => before
  }

  /** Where the reader stood before read `k`. */
  function Start(answers: seq<Read>, k: nat): int
    requires k <= |answers|
  {
    if k == 0 then 0 else answers[k - 1].end
  }

  /**
   Read `k` is a slice of the whole output. It begins where the previous one ended,
   or later with the dropped-prefix flag raised: never earlier, and the flag is never
   raised for nothing.
   */
  predicate Covers(answers: seq<Read>, k: nat, full: string)
    requires k < |answers|
  {
    var r := answers[k];
    && |r.data| <= r.end <= |full|
    && r.data == full[r.end - |r.data|..r.end]
    && Start(answers, k) <= r.end - |r.data|
    && (r.prefixDropped <==> Start(answers, k) < r.end - |r.data|)
    && (r.prefixDropped ==> |r.data| == TAIL_LIMIT)
  }

  predicate Inv(y: System, full: string) {
    && Retains(y.tail.buffer, y.tail.dropped, full)
    && y.tail.offset == Start(y.answers, |y.answers|)
    && 0 <= y.tail.offset <= |full|
    && forall k :: 0 <= k < |y.answers| ==> Covers(y.answers, k, full)
  }

  lemma CoversLater(answers: seq<Read>, full: string, more: string)
    requires forall k :: 0 <= k < |answers| ==> Covers(answers, k, full)
    ensures forall k :: 0 <= k < |answers| ==> Covers(answers, k, full + more)
  {
    forall k | 0 <= k < |answers| ensures Covers(answers, k, full + more) {
      var r := answers[k];
      assert Covers(answers, k, full);
      assert (full + more)[r.end - |r.data|..r.end] == full[r.end - |r.data|..r.end];
    }
  }

  lemma FullLineExtends(full: string, value: string)
    ensures |full| <= |FullLine(full, value)| && FullLine(full, value) == full + FullLine(full, value)[|full|..]
  {
  }

  /** One read, told on the whole output. */
  lemma ReadIsSlice(current: string, dropped: int, offset: int, full: string)
    requires Retains(current, dropped, full) && 0 <= offset <= |full|
    ensures var r := OutputSince(current, dropped, offset);
            var from := Max(offset, dropped);
            && r.end == |full| && |r.data| == |full| - from && r.data == full[from..]
            && (r.prefixDropped <==> offset < dropped) && (dropped > 0 ==> |current| == TAIL_LIMIT)
  {
    assert current == full[dropped..];
    var from := Max(offset, dropped);
    assert current[from - dropped..] == full[from..];
  }

  lemma ReadCovers(answers: seq<Read>, r: Read, full: string, dropped: int)
    requires r.end == |full| && |r.data| <= |full| && r.data == full[|full| - |r.data|..]
    requires |full| - |r.data| == Max(Start(answers, |answers|), dropped)
    requires r.prefixDropped <==> Start(answers, |answers|) < dropped
    requires dropped > 0 ==> |full| - dropped == TAIL_LIMIT
    requires 0 <= Start(answers, |answers|)
    ensures Covers(answers + [r], |answers|, full)
  {
    assert (answers + [r])[|answers|] == r;
    assert Start(answers + [r], |answers|) == Start(answers, |answers|);
    assert full[|full| - |r.data|..|full|] == full[|full| - |r.data|..];
  }

  lemma EarlierReadsStay(answers: seq<Read>, r: Read, full: string, k: nat)
    requires k < |answers| && Covers(answers, k, full)
    ensures Covers(answers + [r], k, full)
  {
    assert (answers + [r])[k] == answers[k];
    assert Start(answers + [r], k) == Start(answers, k);
  }

  lemma AwaitKeeps(y: System, full: string)
    requires Inv(y, full)
    ensures Inv(Step(y, Await), full)
  {
    var r := OutputSince(y.tail.buffer, y.tail.dropped, y.tail.offset);
    ReadIsSlice(y.tail.buffer, y.tail.dropped, y.tail.offset, full);
    ReadCovers(y.answers, r, full, y.tail.dropped);
    forall k | 0 <= k < |y.answers| ensures Covers(y.answers + [r], k, full) {
      EarlierReadsStay(y.answers, r, full, k);
    }
  }

  lemma StepKeeps(y: System, op: Op, full: string)
    requires Inv(y, full)
    ensures op.Chunk? ==> Inv(Step(y, op), full + op.value)
    ensures op.Line? ==> Inv(Step(y, op), FullLine(full, op.text))
    ensures op.Await? ==> Inv(Step(y, op), full)
  {
    match op {
      case Chunk(v) =>
        AppendRetains(y.tail.buffer, y.tail.dropped, v, full);
        CoversLater(y.answers, full, v);
      case Line(v) =>
        LineRetains(y.tail.buffer, y.tail.dropped, v, full);
        FullLineExtends(full, v);
        CoversLater(y.answers, full, FullLine(full, v)[|full|..]);
      case Await =>
        AwaitKeeps(y, full);
    }
  }

  lemma {:induction false} RunKeepsInv(ops: seq<Op>)
    ensures Inv(Run(ops), Full(ops))
  {
    if ops != [] {
      RunKeepsInv(ops[..|ops| - 1]);
      StepKeeps(Run(ops[..|ops| - 1]), ops[|ops| - 1], Full(ops[..|ops| - 1]));
    }
  }

  /** At any moment the buffer is the longest suffix of the output that fits. */
  lemma TailIsLongestSuffix(ops: seq<Op>)
    ensures Run(ops).tail.buffer == LastBytes(Full(ops))
    ensures Run(ops).tail.dropped + |Run(ops).tail.buffer| == |Full(ops)|
  {
    RunKeepsInv(ops);
  }

  /** Successive reads are disjoint increasing slices; what is missing between them is flagged. */
  lemma ReadsCoverOutput(ops: seq<Op>, k: nat)
    requires k < |Run(ops).answers|
    ensures Covers(Run(ops).answers, k, Full(ops))
  {
    RunKeepsInv(ops);
  }

  function Joined(answers: seq<Read>): string {
    if answers == [] then "" else Joined(answers[..|answers| - 1]) + answers[|answers| - 1].data
  }

  lemma CoversPrefix(answers: seq<Read>, k: nat, n: nat, full: string)
    requires k < n <= |answers| && Covers(answers, k, full)
    ensures Covers(answers[..n], k, full)
  {
    assert answers[..n][k] == answers[k];
    assert Start(answers[..n], k) == Start(answers, k);
  }

  lemma SliceJoins(full: string, a: int, b: int)
    requires 0 <= a <= b <= |full|
    ensures full[..a] + full[a..b] == full[..b]
  {
  }

  lemma {:induction false} JoinedCovers(answers: seq<Read>, full: string)
    requires forall k :: 0 <= k < |answers| ==> Covers(answers, k, full) && !answers[k].prefixDropped
    ensures 0 <= Start(answers, |answers|) <= |full| && Joined(answers) == full[..Start(answers, |answers|)]
  {
    if answers != [] {
      var n := |answers| - 1;
      var before := answers[..n];
      forall k | 0 <= k < n ensures Covers(before, k, full) && !before[k].prefixDropped {
        CoversPrefix(answers, k, n, full);
        assert before[k] == answers[k];
      }
      JoinedCovers(before, full);
      assert Start(before, n) == Start(answers, n);
      assert Covers(answers, n, full);
      SliceJoins(full, Start(answers, n), answers[n].end);
    }
  }

  /** While no flag is raised, the reads together are the output up to the last one. */
  lemma UnflaggedReadsAreWhole(ops: seq<Op>)
    requires forall k :: 0 <= k < |Run(ops).answers| ==> !Run(ops).answers[k].prefixDropped
    ensures 0 <= Run(ops).tail.offset <= |Full(ops)|
    ensures Joined(Run(ops).answers) == Full(ops)[..Run(ops).tail.offset]
  {
    RunKeepsInv(ops);
    JoinedCovers(Run(ops).answers, Full(ops));
  }

  // ---- In place ----

  /** One output stream of a background shell. */
  class ShellOutput {
    var buffer: string
    var dropped: int
    var awaitOffset: int

    function View(): Tail
      reads this
    {
      Tail(buffer, dropped, awaitOffset)
    }

    constructor ()
      ensures View() == Tail("", 0, 0)
    {
      buffer, dropped, awaitOffset := "", 0, 0;
    }

    method AppendBoundedShellTail(value: string)
      modifies this
      ensures View() == Step(System(old(View()), []), Chunk(value)).tail
      ensures forall full :: old(Retains(buffer, dropped, full)) ==> Retains(buffer, dropped, full + value)
    {
      forall full | Retains(buffer, dropped, full)
        ensures var (c, d) := AppendTail(buffer, dropped, value); Retains(c, d, full + value)
      {
        AppendRetains(buffer, dropped, value, full);
      }
      if |value| == 0 {
        return;
      }
      if |value| >= TAIL_LIMIT {
        dropped := dropped + (|buffer| + |value| - TAIL_LIMIT);
        buffer := value[|value| - TAIL_LIMIT..];
        return;
      }
      buffer := buffer + value;
      if |buffer| <= TAIL_LIMIT {
        return;
      }
      var drop := |buffer| - TAIL_LIMIT;
      buffer := buffer[drop..];
      dropped := dropped + drop;
    }

    method AppendBackgroundShellBuffer(value: string)
      modifies this
      ensures View() == Step(System(old(View()), []), Line(value)).tail
    {
      var trimmed := Trim(value);
      if trimmed == "" {
        return;
      }
      if |buffer| > 0 && buffer[|buffer| - 1] != '\n' {
        AppendBoundedShellTail("\n");
      }
      AppendBoundedShellTail(trimmed);
    }

    /** shellOutputSince, and the offset update of awaitShellSnapshot. */
    method ReadSince() returns (data: string, end: int, prefixDropped: bool)
      modifies this
      ensures System(View(), [Read(data, end, prefixDropped)]) == Step(System(old(View()), []), Await)
    {
      var base := dropped;
      if base < 0 {
        base := 0;
      }
      end := base + |buffer|;
      var offset := awaitOffset;
      if offset < 0 {
        offset := 0;
      }
      prefixDropped := offset < base;
      if offset < base {
        offset := base;
      }
      if offset > end {
        offset := end;
      }
      data := buffer[offset - base..];
      awaitOffset := end;
    }
  }
}
