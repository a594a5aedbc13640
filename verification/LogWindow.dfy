/**
 The log file that keeps only its last lines (internal/logger/logger.go). Only the
 newline byte matters, so bytes are characters. File errors are left out; a write
 may still stop early.
 */
module LogWindow {
  import opened Base

  function Newlines(s: string): nat {
    if s == "" then 0 else Newlines(s[..|s| - 1]) + (if s[|s| - 1] == '\n' then 1 else 0)
  }

  /** The text stops in the middle of a line. */
  predicate Open(s: string) {
    s != "" && s[|s| - 1] != '\n'
  }

  function Lines(s: string): nat {
    Newlines(s) + (if Open(s) then 1 else 0)
  }

  /** How many lines the writer expects a payload to add. */
  function Incoming(open: bool, payload: string): int {
    if payload == "" then 0
    else
      var delta := Newlines(payload)
                   + (if open && !Open(payload) then -1 else if !open && Open(payload) then 1 else 0);
      if delta < 0 then 0 else delta
  }

  predicate Suffix(t: string, s: string) {
    |t| <= |s| && s[|s| - |t|..] == t
  }

  /** `t` is the longest suffix of `s` that has at most `n` lines. */
  predicate LongestWithin(t: string, s: string, n: nat) {
    && Suffix(t, s) && Lines(t) <= n
    && forall k: nat | k < |s| - |t| :: Lines(s[k..]) > n
  }

  // ---- Counting ----

  lemma {:induction false} NewlinesConcat(a: string, b: string)
    ensures Newlines(a + b) == Newlines(a) + Newlines(b)
  {
    if b == "" {
      assert a + b == a;
    } else {
      var c := b[..|b| - 1];
      NewlinesConcat(a, c);
      assert (a + b)[..|a + b| - 1] == a + c;
    }
  }

  /** The incremental count is the recount, and the clamp at zero never acts. */
  lemma CountIsIncremental(file: string, payload: string)
    ensures Lines(file + payload) == Lines(file) + Incoming(Open(file), payload)
    ensures payload != "" ==> Open(file + payload) == Open(payload)
    ensures payload == "" ==> file + payload == file
  {
    NewlinesConcat(file, payload);
    if payload == "" {
      assert file + payload == file;
    } else {
      assert (file + payload)[|file + payload| - 1] == payload[|payload| - 1];
    }
  }

  lemma PrefixHasFewerLines(a: string, b: string)
    ensures Lines(a) <= Lines(a + b)
  {
    CountIsIncremental(a, b);
  }

  /** Every longer suffix has at least as many lines; past a newline it has more. */
  lemma SuffixLines(s: string, k: nat, m: nat)
    requires k <= m <= |s|
    ensures Lines(s[m..]) <= Lines(s[k..])
    ensures k < m < |s| && s[m - 1] == '\n' ==> Lines(s[m..]) < Lines(s[k..])
  {
    var a, b := s[k..m], s[m..];
    assert s[k..] == a + b;
    NewlinesConcat(a, b);
    CountIsIncremental(a, b);
    if b == "" {
    } else if k < m && s[m - 1] == '\n' {
      assert a[|a| - 1] == '\n';
      assert Newlines(a) >= 1;
    }
  }

  // ---- lastLinesBytes ----

  /** A line: not empty, and its newline, if it has one, is its last byte. */
  predicate IsLine(l: string) {
    l != "" && forall i :: 0 <= i < |l| - 1 ==> l[i] != '\n'
  }

  function Joined(lines: seq<string>): string {
    if lines == [] then "" else Joined(lines[..|lines| - 1]) + lines[|lines| - 1]
  }

  /** The text cut into lines, of which only the last may lack its newline. */
  predicate IsSplit(lines: seq<string>, s: string) {
    && Joined(lines) == s
    && (forall i :: 0 <= i < |lines| ==> IsLine(lines[i]))
    && (forall i :: 0 <= i < |lines| - 1 ==> !Open(lines[i]))
  }

  lemma {:induction false} NoNewlines(s: string)
    requires forall i :: 0 <= i < |s| ==> s[i] != '\n'
    ensures Newlines(s) == 0
  {
    if s != "" {
      NoNewlines(s[..|s| - 1]);
    }
  }

  lemma LineIsOne(l: string)
    requires IsLine(l)
    ensures Lines(l) == 1
  {
    NoNewlines(l[..|l| - 1]);
  }

  /** However a text is cut into lines, there are as many as counted. */
  lemma {:induction false} SplitCount(lines: seq<string>, s: string)
    requires IsSplit(lines, s)
    ensures |lines| == Lines(s)
    ensures lines != [] ==> s != "" && Open(s) == Open(lines[|lines| - 1])
  {
    if lines != [] {
      var n := |lines| - 1;
      var before, last := lines[..n], lines[n];
      SplitCount(before, Joined(before));
      LineIsOne(last);
      CountIsIncremental(Joined(before), last);
    }
  }

  method CountBytesLines(payload: string) returns (count: nat)
    ensures count == Lines(payload)
    ensures forall lines :: IsSplit(lines, payload) ==> count == |lines|
  {
    forall lines | IsSplit(lines, payload) ensures |lines| == Lines(payload) {
      SplitCount(lines, payload);
    }
    if payload == "" {
      return 0;
    }
    count := Newlines(payload);
    if payload[|payload| - 1] != '\n' {
      count := count + 1;
    }
  }

  /** Every text can be cut so. */
  lemma {:induction false} SplitExists(s: string) returns (lines: seq<string>)
    ensures IsSplit(lines, s)
  {
    if s == "" {
      lines := [];
    } else {
      var init, c := s[..|s| - 1], s[|s| - 1];
      assert s == init + [c];
      lines := SplitExists(init);
      lines := AddByte(lines, init, c);
    }
  }

  lemma AddByte(lines: seq<string>, s: string, c: char) returns (more: seq<string>)
    requires IsSplit(lines, s)
    ensures IsSplit(more, s + [c])
  {
    if lines == [] || !Open(lines[|lines| - 1]) {
      more := lines + [[c]];
      assert more[..|more| - 1] == lines;
    } else {
      var n := |lines| - 1;
      more := lines[..n] + [lines[n] + [c]];
      assert more[..n] == lines[..n];
      assert Joined(lines[..n]) + lines[n] + [c] == Joined(lines[..n]) + (lines[n] + [c]);
    }
  }

  /** bytes.IndexByte for the newline. */
  method IndexNewline(s: string) returns (at: int)
    ensures -1 <= at < |s|
    ensures at == -1 ==> Newlines(s) == 0
    ensures at >= 0 ==> s[at] == '\n' && Newlines(s[..at + 1]) == 1
  {
    at := 0;
    while at < |s|
      invariant 0 <= at <= |s|
      invariant Newlines(s[..at]) == 0
    {
      assert s[..at + 1][..at] == s[..at];
      if s[at] == '\n' {
        return;
      }
      at := at + 1;
    }
    assert s[..at] == s;
    at := -1;
  }

  lemma LongestAtBoundary(s: string, k: nat, n: nat)
    requires k <= |s| && Lines(s[k..]) == n && (k == 0 || (k < |s| && s[k - 1] == '\n'))
    ensures LongestWithin(s[k..], s, n)
  {
    forall m: nat | m < k ensures Lines(s[m..]) > n {
      SuffixLines(s, m, k);
    }
  }

  lemma NothingWithin(s: string)
    ensures LongestWithin("", s, 0)
  {
    forall k: nat | k < |s| ensures Lines(s[k..]) > 0 {
      var t := s[k..];
      assert t != "";
    }
  }

  /** One dropped line: the rest keeps all other newlines. */
  lemma DropOneLine(payload: string, offset: nat, next: nat, dropped: nat)
    requires offset + next < |payload| && Newlines(payload[..offset]) == dropped
    requires Newlines(payload[offset..][..next + 1]) == 1
    ensures Newlines(payload[..offset + next + 1]) == dropped + 1
  {
    assert payload[..offset + next + 1] == payload[..offset] + payload[offset..][..next + 1];
    NewlinesConcat(payload[..offset], payload[offset..][..next + 1]);
  }

  /** The position behind the first `drop` newlines; it gives up exactly when there are fewer. */
  method SkipLines(payload: string, drop: nat) returns (offset: nat, gaveUp: bool)
    ensures gaveUp <==> Newlines(payload) < drop
    ensures !gaveUp ==> offset <= |payload| && Newlines(payload[..offset]) == drop
    ensures !gaveUp ==> if drop == 0 then offset == 0 else offset > 0 && payload[offset - 1] == '\n'
  {
    offset, gaveUp := 0, false;
    var i := 0;
    while i < drop
      invariant 0 <= i <= drop && offset <= |payload|
      invariant Newlines(payload[..offset]) == i
      invariant if i == 0 then offset == 0 else offset > 0 && payload[offset - 1] == '\n'
    {
      assert payload == payload[..offset] + payload[offset..];
      NewlinesConcat(payload[..offset], payload[offset..]);
      var next := IndexNewline(payload[offset..]);
      if next < 0 {
        gaveUp := true;
        return;
      }
      DropOneLine(payload, offset, next, i);
      offset := offset + next + 1;
      i := i + 1;
    }
    assert payload == payload[..offset] + payload[offset..];
    NewlinesConcat(payload[..offset], payload[offset..]);
  }

  lemma RestIsLongest(payload: string, offset: nat, target: nat)
    requires offset <= |payload| && target > 0 && Newlines(payload[..offset]) == Lines(payload) - target
    requires 0 < offset && payload[offset - 1] == '\n'
    ensures LongestWithin(payload[offset..], payload, target) && Lines(payload[offset..]) == target
  {
    assert payload == payload[..offset] + payload[offset..];
    CountIsIncremental(payload[..offset], payload[offset..]);
    LongestAtBoundary(payload, offset, target);
  }

  /** `gaveUp` tells that the branch for a missing newline was taken: it never is. */
  method LastLinesBytes(payload: string, target: int) returns (kept: string, count: nat, gaveUp: bool)
    ensures !gaveUp
    ensures LongestWithin(kept, payload, Max(target, 0)) && count == Lines(kept) == Min(Max(target, 0), Lines(payload))
  {
    kept, count, gaveUp := "", 0, false;
    NothingWithin(payload);
    if payload == "" || target <= 0 {
      return;
    }
    var lineCount := CountBytesLines(payload);
    if lineCount <= target {
      assert payload[0..] == payload;
      return payload, lineCount, false;
    }
    var offset;
    offset, gaveUp := SkipLines(payload, lineCount - target);
    if gaveUp {
      return;
    }
    RestIsLongest(payload, offset, target);
    kept := payload[offset..];
    count := CountBytesLines(kept);
  }

  // ---- The writer as a value ----

  datatype Config = Config(maxLines: int, trimReserve: nat)

  datatype Writer = Writer(file: string, lineCount: int, openLine: bool)

  /** The longest suffix within `n` lines, as a function. */
  function LastLines(s: string, n: nat): string
    decreases |s|
  {
    if Lines(s) <= n || s == "" then s else LastLines(s[1..], n)
  }

  lemma {:induction false} LastLinesLongest(s: string, n: nat)
    ensures LongestWithin(LastLines(s, n), s, n)
  {
    if Lines(s) <= n || s == "" {
      assert s[0..] == s;
    } else {
      var t := LastLines(s[1..], n);
      LastLinesLongest(s[1..], n);
      assert s[1..][|s| - 1 - |t|..] == s[|s| - |t|..];
      forall k: nat | k < |s| - |t| ensures Lines(s[k..]) > n {
        if k > 0 {
          assert s[k..] == s[1..][k - 1..];
        } else {
          assert s[0..] == s;
        }
      }
    }
  }

  lemma LongestIsUnique(t: string, u: string, s: string, n: nat)
    requires LongestWithin(t, s, n) && LongestWithin(u, s, n)
    ensures t == u
  {
    NotLonger(t, u, s, n);
    NotLonger(u, t, s, n);
  }

  lemma NotLonger(t: string, u: string, s: string, n: nat)
    requires LongestWithin(t, s, n) && Suffix(u, s) && Lines(u) <= n
    ensures |u| <= |t|
  {
    var k: nat := |s| - |u|;
    assert s[k..] == u;
  }

  function TrimTo(w: Writer, target: int): Writer {
    var kept := LastLines(w.file, Max(target, 0));
    Writer(kept, Lines(kept), Open(kept))
  }

  function Target(c: Config, newLines: int): int {
    var target := c.maxLines - newLines - c.trimReserve;
    var target := if target < 0 then c.maxLines - newLines else target;
    if target < 0 then 0 else target
  }

  predicate MustTrim(c: Config, w: Writer, newLines: int) {
    c.maxLines > 0 && newLines > 0 && w.lineCount + newLines > c.maxLines
  }

  function Room(c: Config, w: Writer, payload: string): Writer {
    var newLines := Incoming(w.openLine, payload);
    if MustTrim(c, w, newLines) then TrimTo(w, Target(c, newLines)) else w
  }

  function Put(w: Writer, part: string): Writer {
    Writer(w.file + part, w.lineCount + Incoming(w.openLine, part), if part != "" then Open(part) else w.openLine)
  }

  function Reopen(c: Config, file: string): Writer {
    var w := Writer(file, Lines(file), Open(file));
    if c.maxLines > 0 && w.lineCount > c.maxLines then TrimTo(w, c.maxLines) else w
  }

  predicate Counted(w: Writer) {
    w.lineCount == Lines(w.file) && w.openLine == Open(w.file)
  }

  // ---- Runs ----

  /** A write that stored only `part` of its payload, or a new process on the same file. */
  datatype Op = Write(payload: string, written: nat) | Restart

  function Part(op: Op): string
    requires op.Write?
  {
    op.payload[..Min(op.written, |op.payload|)]
  }

  function Step(c: Config, w: Writer, op: Op): Writer {
    match op
    case Write(payload, _) => Put(Room(c, w, payload), Part(op))
    case Restart => Reopen(c, w.file)
  }

  function Run(c: Config, start: string, ops: seq<Op>): Writer {
    if ops == [] then Reopen(c, start) else Step(c, Run(c, start, ops[..|ops| - 1]), ops[|ops| - 1])
  }

  /** Everything that ever reached the file. */
  function Written(start: string, ops: seq<Op>): string {
    if ops == [] then start
    else
      var before := Written(start, ops[..|ops| - 1]);
      var op := ops[|ops| - 1];
      if op.Write? then before + Part(op) else before
  }

  function LargestPayload(ops: seq<Op>): nat {
    if ops == [] then 0
    else
      var op := ops[|ops| - 1];
      Max(LargestPayload(ops[..|ops| - 1]), if op.Write? then Lines(op.payload) else 0)
  }

  predicate AllFull(ops: seq<Op>) {
    forall i :: 0 <= i < |ops| ==> ops[i].Write? ==> ops[i].written >= |ops[i].payload|
  }

  lemma SuffixTrans(a: string, b: string, s: string)
    requires Suffix(a, b) && Suffix(b, s)
    ensures Suffix(a, s)
  {
    assert s[|s| - |a|..] == s[|s| - |b|..][|b| - |a|..];
  }

  lemma SuffixExtend(a: string, s: string, part: string)
    requires Suffix(a, s)
    ensures Suffix(a + part, s + part)
  {
    assert (s + part)[|s| - |a|..] == s[|s| - |a|..] + part;
  }

  lemma SuffixEnd(a: string, s: string)
    requires Suffix(a, s) && a != ""
    ensures Open(a) == Open(s)
  {
    assert a[|a| - 1] == s[|s| - 1];
  }

  /** What trimming leaves of a file. */
  lemma TrimLeaves(w: Writer, target: int)
    requires Counted(w)
    ensures var t := TrimTo(w, target);
            && Counted(t) && Suffix(t.file, w.file) && Lines(t.file) == Min(Max(target, 0), Lines(w.file))
            && (t.file == "" || Open(t.file) == Open(w.file))
  {
    var n := Max(target, 0);
    var t := LastLines(w.file, n);
    LastLinesLongest(w.file, n);
    KeepsAllItMay(t, w.file, n);
    if t != "" {
      SuffixEnd(t, w.file);
    }
  }

  /** The longest suffix within n lines has n lines, unless there are fewer. */
  lemma KeepsAllItMay(t: string, s: string, n: nat)
    requires LongestWithin(t, s, n)
    ensures Lines(t) == Min(n, Lines(s))
  {
    var k := |s| - |t|;
    SuffixLines(s, 0, k);
    assert s[0..] == s;
    if k > 0 {
      assert Lines(s[k - 1..]) > n;
      var a := [s[k - 1]];
      assert s[k - 1..] == a + t;
      CountIsIncremental(a, t);
      NewlinesConcat(a, t);
      assert a[..0] == "";
      assert Newlines(a) <= 1;
    }
  }

  lemma RoomLeaves(c: Config, w: Writer, payload: string)
    requires Counted(w)
    ensures var r := Room(c, w, payload);
            && Counted(r) && Suffix(r.file, w.file) && (r.file == "" || Open(r.file) == Open(w.file))
  {
    var newLines := Incoming(w.openLine, payload);
    if MustTrim(c, w, newLines) {
      TrimLeaves(w, Target(c, newLines));
    } else {
      assert w.file[0..] == w.file;
    }
  }

  lemma PutCounts(w: Writer, part: string)
    requires Counted(w)
    ensures Counted(Put(w, part))
  {
    CountIsIncremental(w.file, part);
  }

  lemma StepKeeps(c: Config, w: Writer, op: Op, all: string)
    requires Counted(w) && Suffix(w.file, all)
    ensures Counted(Step(c, w, op))
    ensures Suffix(Step(c, w, op).file, if op.Write? then all + Part(op) else all)
  {
    match op {
      case Write(payload, _) =>
        RoomLeaves(c, w, payload);
        var r := Room(c, w, payload);
        PutCounts(r, Part(op));
        SuffixTrans(r.file, w.file, all);
        SuffixExtend(r.file, all, Part(op));
      case Restart =>
        ReopenKeeps(c, w.file);
        SuffixTrans(Reopen(c, w.file).file, w.file, all);
    }
  }

  lemma ReopenKeeps(c: Config, file: string)
    ensures var w := Reopen(c, file);
            && Counted(w) && Suffix(w.file, file) && (c.maxLines > 0 ==> Lines(w.file) == Min(c.maxLines, Lines(file)))
            && (c.maxLines <= 0 ==> w.file == file)
            && (w.file == "" ==> file == "")
  {
    var w := Writer(file, Lines(file), Open(file));
    assert file[0..] == file;
    TrimLeaves(w, c.maxLines);
  }

  /** The file is a suffix of everything written, and the two counters are a recount of it. */
  lemma {:induction false} FileIsSuffix(c: Config, start: string, ops: seq<Op>)
    ensures Suffix(Run(c, start, ops).file, Written(start, ops))
    ensures Run(c, start, ops).lineCount == Lines(Run(c, start, ops).file)
    ensures Run(c, start, ops).openLine == Open(Run(c, start, ops).file)
  {
    if ops == [] {
      ReopenKeeps(c, start);
    } else {
      var before := ops[..|ops| - 1];
      FileIsSuffix(c, start, before);
      StepKeeps(c, Run(c, start, before), ops[|ops| - 1], Written(start, before));
    }
  }

  // ---- How many lines ----

  /** A write that adds a line leaves at most maxLines lines, or the lines of its own payload. */
  lemma WriteIsBounded(c: Config, w: Writer, payload: string, written: nat)
    requires Counted(w) && c.maxLines > 0
    ensures Incoming(w.openLine, payload) > 0 ==>
              Lines(Step(c, w, Write(payload, written)).file) <= Max(c.maxLines, Lines(payload))
    ensures Incoming(w.openLine, payload) == 0 ==> Lines(Step(c, w, Write(payload, written)).file) <= Lines(w.file)
  {
    var r := Room(c, w, payload);
    WholeWrite(c, w, payload);
    PartHasFewerLines(r.file, payload, Min(written, |payload|));
  }

  lemma PartHasFewerLines(file: string, payload: string, n: nat)
    requires n <= |payload|
    ensures Lines(file + payload[..n]) <= Lines(file + payload)
  {
    assert file + payload == file + payload[..n] + payload[n..];
    PrefixHasFewerLines(file + payload[..n], payload[n..]);
  }

  /** The number of lines after a complete write. */
  lemma WholeWrite(c: Config, w: Writer, payload: string)
    requires Counted(w) && c.maxLines > 0
    ensures var n := Incoming(w.openLine, payload); var after := Lines(Room(c, w, payload).file + payload);
            && (!MustTrim(c, w, n) ==> after == Lines(w.file) + n)
            && (MustTrim(c, w, n) ==> after <= Max(c.maxLines, Lines(payload)) && after >= c.maxLines - c.trimReserve)
  {
    var n := Incoming(w.openLine, payload);
    var r := Room(c, w, payload);
    RoomLeaves(c, w, payload);
    CountIsIncremental(r.file, payload);
    CountIsIncremental("", payload);
    assert "" + payload == payload;
    if MustTrim(c, w, n) {
      TrimLeaves(w, Target(c, n));
      assert Incoming(false, payload) >= n;
    }
  }

  /** While the file and the payload fit together, or the payload adds no line, nothing is trimmed. */
  lemma NothingTrimmedNeedlessly(c: Config, w: Writer, payload: string, written: nat)
    requires Counted(w)
    requires c.maxLines <= 0 || Lines(w.file + payload) <= c.maxLines || Lines(w.file + payload) == Lines(w.file)
    ensures Step(c, w, Write(payload, written)).file == w.file + payload[..Min(written, |payload|)]
  {
    CountIsIncremental(w.file, payload);
  }

  /**
   Otherwise the file is cut to its longest suffix that leaves room for the payload and for
   the reserve; without the reserve if that is too much, and to nothing if even so.
   */
  lemma TrimmedToReserve(c: Config, w: Writer, payload: string, written: nat, adds: int)
    requires Counted(w) && c.maxLines > 0 && adds == Lines(w.file + payload) - Lines(w.file)
    requires adds > 0 && Lines(w.file + payload) > c.maxLines
    ensures var room: nat := if adds + c.trimReserve <= c.maxLines then c.maxLines - adds - c.trimReserve
                             else if adds <= c.maxLines then c.maxLines - adds else 0;
            exists kept :: LongestWithin(kept, w.file, room)
                           && Step(c, w, Write(payload, written)).file == kept + payload[..Min(written, |payload|)]
  {
    CountIsIncremental(w.file, payload);
    var room := Target(c, adds);
    LastLinesLongest(w.file, room);
    var kept := LastLines(w.file, room);
    assert Step(c, w, Write(payload, written)).file == kept + payload[..Min(written, |payload|)];
  }

  /** At any moment the file has at most maxLines lines, or those of the largest payload written. */
  lemma {:induction false} FileIsBounded(c: Config, start: string, ops: seq<Op>)
    requires c.maxLines > 0
    ensures Lines(Run(c, start, ops).file) <= Max(c.maxLines, LargestPayload(ops))
  {
    if ops == [] {
      ReopenKeeps(c, start);
    } else {
      var before := ops[..|ops| - 1];
      var w := Run(c, start, before);
      var op := ops[|ops| - 1];
      FileIsBounded(c, start, before);
      FileIsSuffix(c, start, before);
      match op {
        case Write(payload, written) =>
          WriteIsBounded(c, w, payload, written);
          assert Incoming(w.openLine, payload) >= 0;
        case Restart =>
          ReopenKeeps(c, w.file);
      }
    }
  }

  predicate Retains(c: Config, w: Writer, all: string) {
    && Lines(w.file) >= Min(Lines(all), c.maxLines - c.trimReserve)
    && (w.file == "" ==> all == "")
  }

  lemma StepRetains(c: Config, w: Writer, op: Op, all: string)
    requires c.maxLines > 0 && Counted(w) && Suffix(w.file, all) && Retains(c, w, all)
    requires op.Write? ==> op.written >= |op.payload|
    ensures Retains(c, Step(c, w, op), if op.Write? then all + Part(op) else all)
  {
    match op {
      case Write(payload, _) =>
        assert Part(op) == payload;
        var n := Incoming(w.openLine, payload);
        if w.file != "" {
          SuffixEnd(w.file, all);
        }
        CountIsIncremental(all, payload);
        WholeWrite(c, w, payload);
      case Restart =>
        ReopenKeeps(c, w.file);
    }
  }

  /** With complete writes the last maxLines - trimReserve lines ever logged are always on disk. */
  lemma {:induction false} RecentLinesOnDisk(c: Config, start: string, ops: seq<Op>)
    requires c.maxLines > 0 && AllFull(ops)
    ensures Suffix(Run(c, start, ops).file, Written(start, ops))
    ensures Retains(c, Run(c, start, ops), Written(start, ops))
  {
    if ops == [] {
      ReopenKeeps(c, start);
    } else {
      var before := ops[..|ops| - 1];
      RecentLinesOnDisk(c, start, before);
      FileIsSuffix(c, start, before);
      FileIsSuffix(c, start, ops);
      StepRetains(c, Run(c, start, before), ops[|ops| - 1], Written(start, before));
    }
  }

  // ---- The writer in place ----

  class LineWindowWriter {
    var file: string
    var lineCount: int
    var openLine: bool
    const maxLines: int
    const trimReserve: nat

    function View(): Writer
      reads this
    {
      Writer(file, lineCount, openLine)
    }

    function Limits(): Config {
      Config(maxLines, trimReserve)
    }

    constructor (existing: string, maxLines: int, trimReserve: nat)
      ensures Limits() == Config(maxLines, trimReserve)
      ensures View() == Reopen(Limits(), existing) && Counted(View())
    {
      this.maxLines := maxLines;
      this.trimReserve := trimReserve;
      file := existing;
      new;
      lineCount := CountBytesLines(existing);
      openLine := existing != "" && existing[|existing| - 1] != '\n';
      ReopenKeeps(Limits(), existing);
      assert View() == Writer(existing, Lines(existing), Open(existing));
      if maxLines > 0 && lineCount > maxLines {
        TrimToLastLines(maxLines);
      }
    }

    method TrimToLastLines(target: int)
      modifies this
      ensures View() == TrimTo(old(View()), target)
    {
      var trimmed, count, gaveUp := LastLinesBytes(file, target);
      LastLinesLongest(file, Max(target, 0));
      LongestIsUnique(trimmed, LastLines(file, Max(target, 0)), file, Max(target, 0));
      file := trimmed;
      lineCount := count;
      openLine := |trimmed| > 0 && trimmed[|trimmed| - 1] != '\n';
    }

    method CountIncomingLines(payload: string) returns (delta: int)
      ensures delta == Incoming(openLine, payload)
      ensures Counted(View()) ==> Lines(file + payload) == Lines(file) + delta
    {
      CountIsIncremental(file, payload);
      if |payload| == 0 {
        return 0;
      }
      var endsWithNewline := payload[|payload| - 1] == '\n';
      delta := Newlines(payload);
      if openLine && endsWithNewline {
        delta := delta - 1;
      } else if !openLine && !endsWithNewline {
        delta := delta + 1;
      }
      if delta < 0 {
        return 0;
      }
    }

    /** `stored` is how much the operating system takes of the payload. */
    method WritePayload(payload: string, stored: nat) returns (written: nat)
      modifies this
      ensures written == Min(stored, |payload|)
      ensures View() == Step(Limits(), old(View()), Write(payload, stored))
    {
      MakeRoom(payload);
      written := if stored <= |payload| then stored else |payload|;
      AppendPart(payload[..written]);
    }

    method MakeRoom(payload: string)
      modifies this
      ensures View() == Room(Limits(), old(View()), payload)
    {
      var newLines := CountIncomingLines(payload);
      if maxLines > 0 && newLines > 0 && lineCount + newLines > maxLines {
        var target := maxLines - newLines - trimReserve;
        if target < 0 {
          target := maxLines - newLines;
        }
        if target < 0 {
          target := 0;
        }
        TrimToLastLines(target);
      }
    }

    method AppendPart(part: string)
      modifies this
      ensures View() == Put(old(View()), part)
    {
      var delta := CountIncomingLines(part);
      file := file + part;
      lineCount := lineCount + delta;
      if |part| > 0 {
        openLine := part[|part| - 1] != '\n';
      }
    }
  }
}
