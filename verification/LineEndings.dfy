/**
 Line endings of edited files (internal/backend/forwarder/edit_result_helpers.go):
 the scanner that normalises to LF and remembers original offsets, the two-pass
 replacement, and the choice of the ending for replacement text.
 */
module LineEndings {

  const LF: string := "\n"
  const CRLF: string := "\r\n"
  const CR: string := "\r"

  /** How many bytes the scanner consumes for its next output byte. */
  function StepAt(s: string): nat
    requires s != ""
  {
    if s[0] == '\r' && |s| > 1 && s[1] == '\n' then 2 else 1
  }

  function Normal(s: string): string {
    if s == "" then "" else [if s[0] == '\r' then '\n' else s[0]] + Normal(s[StepAt(s)..])
  }

  /**
   Where each normalised byte of `s` begins, and the end of `s`, when `s` itself
   begins at position `base` of the original.
   */
  function OffsetsFrom(s: string, base: nat): (r: seq<nat>)
    ensures r != [] && r[0] == base
  {
    if s == "" then [base] else [base] + OffsetsFrom(s[StepAt(s)..], base + StepAt(s))
  }

  /** strings.ReplaceAll: leftmost, without overlap. */
  function ReplaceAll(s: string, old_: string, new_: string): string
    requires old_ != ""
  {
    if |s| < |old_| then s
    else if s[..|old_|] == old_ then new_ + ReplaceAll(s[|old_|..], old_, new_)
    else [s[0]] + ReplaceAll(s[1..], old_, new_)
  }

  predicate HasBreak(s: string) {
    '\r' in s || '\n' in s
  }

  function NormalizeToLF(s: string): string {
    if !HasBreak(s) then s else ReplaceAll(ReplaceAll(s, CRLF, LF), CR, LF)
  }

  function NormalizeReplacement(s: string, ending: string): string {
    if !HasBreak(s) then s
    else if ending == CRLF then ReplaceAll(NormalizeToLF(s), LF, CRLF)
    else if ending == CR then ReplaceAll(NormalizeToLF(s), LF, CR)
    else NormalizeToLF(s)
  }

  /** The line breaks of a text, in order. */
  function Breaks(s: string): seq<string> {
    if s == "" then []
    else
      var rest := Breaks(s[StepAt(s)..]);
      if StepAt(s) == 2 then [CRLF] + rest else if s[0] == '\r' then [CR] + rest else if s[0] == '\n' then [LF] + rest else rest
  }

  // ---- The offset table ----

  lemma {:induction false} OffsetsOrdered(s: string, base: nat)
    ensures |OffsetsFrom(s, base)| == |Normal(s)| + 1
    ensures OffsetsFrom(s, base)[|Normal(s)|] == base + |s|
    ensures forall i, j :: 0 <= i < j < |OffsetsFrom(s, base)| ==> OffsetsFrom(s, base)[i] < OffsetsFrom(s, base)[j]
    ensures forall i :: 0 <= i < |OffsetsFrom(s, base)| ==> base <= OffsetsFrom(s, base)[i] <= base + |s|
  {
    if s != "" {
      OffsetsOrdered(s[StepAt(s)..], base + StepAt(s));
    }
  }

  lemma OffsetsOrderedAt(s: string, base: nat, i: nat, j: nat)
    requires i <= j < |OffsetsFrom(s, base)|
    ensures j <= |Normal(s)| && base <= OffsetsFrom(s, base)[i] <= OffsetsFrom(s, base)[j] <= base + |s|
  {
    OffsetsOrdered(s, base);
  }

  lemma OffsetsTail(s: string, base: nat, i: nat)
    requires 0 < i < |OffsetsFrom(s, base)|
    ensures s != "" && i - 1 < |OffsetsFrom(s[StepAt(s)..], base + StepAt(s))|
    ensures OffsetsFrom(s, base)[i] == OffsetsFrom(s[StepAt(s)..], base + StepAt(s))[i - 1]
  {
  }

  lemma TakeCons(c: char, t: string, j: nat)
    requires 0 < j <= |t| + 1
    ensures ([c] + t)[..j] == [c] + t[..j - 1]
  {
  }

  /** A prefix beyond the first step has the same first step. */
  lemma PrefixStep(s: string, o: nat)
    requires s != "" && StepAt(s) <= o <= |s|
    ensures s[..o] != "" && StepAt(s[..o]) == StepAt(s) && s[..o][StepAt(s)..] == s[StepAt(s)..][..o - StepAt(s)]
    ensures Normal(s[..o]) == [if s[0] == '\r' then '\n' else s[0]] + Normal(s[StepAt(s)..][..o - StepAt(s)])
  {
    assert s[..o][0] == s[0];
    assert s[..o][StepAt(s)..] == s[StepAt(s)..][..o - StepAt(s)];
  }

  /** Normalising a prefix that ends at an offset gives the prefix of the normalised text. */
  lemma {:induction false} PrefixIsNormal(s: string, base: nat, j: nat)
    requires j < |OffsetsFrom(s, base)|
    ensures j <= |Normal(s)| && base <= OffsetsFrom(s, base)[j] <= base + |s|
    ensures Normal(s[..OffsetsFrom(s, base)[j] - base]) == Normal(s)[..j]
  {
    OffsetsOrderedAt(s, base, j, j);
    if j > 0 {
      OffsetsTail(s, base, j);
      var k := StepAt(s);
      PrefixIsNormal(s[k..], base + k, j - 1);
      PrefixStep(s, OffsetsFrom(s, base)[j] - base);
      TakeCons(if s[0] == '\r' then '\n' else s[0], Normal(s[k..]), j);
    }
  }

  /** From position `o` of `s` on, text and table are those behind output byte `i`. */
  predicate SuffixAgrees(s: string, base: nat, i: nat, o: nat) {
    && o <= |s| && i <= |Normal(s)| && i < |OffsetsFrom(s, base)|
    && Normal(s[o..]) == Normal(s)[i..]
    && OffsetsFrom(s[o..], base + o) == OffsetsFrom(s, base)[i..]
  }

  lemma SuffixStep(s: string, tail: string, base: nat, i: nat, o: nat, k: nat)
    requires s != "" && k == StepAt(s) && tail == s[k..]
    requires i > 0 && o >= k && SuffixAgrees(tail, base + k, i - 1, o - k)
    ensures SuffixAgrees(s, base, i, o)
  {
    assert s[o..] == tail[o - k..];
    var text, offsets := Normal(tail), OffsetsFrom(tail, base + k);
    var c: seq<char> := [if s[0] == '\r' then '\n' else s[0]];
    assert (c + text)[i..] == text[i - 1..];
    assert ([base] + offsets)[i..] == offsets[i - 1..];
  }

  lemma SuffixStart(s: string, base: nat)
    ensures SuffixAgrees(s, base, 0, 0)
  {
    assert s[0..] == s;
    assert Normal(s)[0..] == Normal(s);
    assert OffsetsFrom(s, base)[0..] == OffsetsFrom(s, base);
  }

  lemma {:induction false} SuffixIsNormal(s: string, base: nat, i: nat, o: nat)
    requires i < |OffsetsFrom(s, base)| && base + o == OffsetsFrom(s, base)[i]
    ensures SuffixAgrees(s, base, i, o)
  {
    if i == 0 {
      assert o == 0;
      SuffixStart(s, base);
    } else {
      OffsetsTail(s, base, i);
      var k := StepAt(s);
      var tail := s[k..];
      OffsetsOrderedAt(tail, base + k, i - 1, i - 1);
      assert o >= k;
      SuffixIsNormal(tail, base + k, i - 1, o - k);
      SuffixStep(s, tail, base, i, o, k);
    }
  }

  /** Two offsets delimit original bytes whose normal form is the text between the two positions. */
  predicate SliceAgrees(content: string, text: string, from: nat, to: nat, i: nat, j: nat) {
    from <= to <= |content| && i <= j <= |text| && NormalizeToLF(content[from..to]) == text[i..j]
  }

  lemma SliceFromRest(s: string, text: string, o: nat, p: nat, i: nat, j: nat)
    requires o <= p <= |s| && i <= j <= |text| && Normal(s[o..][..p - o]) == text[i..][..j - i]
    ensures SliceAgrees(s, text, o, p, i, j)
  {
    assert s[o..][..p - o] == s[o..p];
    assert text[i..][..j - i] == text[i..j];
    TwoPassIsScan(s[o..p]);
  }

  lemma SliceIsNormal(s: string, offsets: seq<nat>, i: nat, j: nat)
    requires i <= j < |offsets| && offsets == OffsetsFrom(s, 0)
    ensures SliceAgrees(s, Normal(s), offsets[i], offsets[j], i, j)
  {
    var o := offsets[i];
    SuffixIsNormal(s, 0, i, o);
    OffsetsOrderedAt(s, 0, i, j);
    var rest := s[o..];
    assert OffsetsFrom(rest, o) == offsets[i..];
    PrefixIsNormal(rest, o, j - i);
    SliceFromRest(s, Normal(s), o, offsets[j], i, j);
  }

  /** What the scanner promises about a text and its offset table. */
  predicate Describes(content: string, text: string, offsets: seq<nat>) {
    && |offsets| == |text| + 1 && offsets[0] == 0 && offsets[|text|] == |content|
    && (forall i, j :: 0 <= i < j < |offsets| ==> offsets[i] < offsets[j])
    && (forall i, j :: 0 <= i <= j < |offsets| ==> SliceAgrees(content, text, offsets[i], offsets[j], i, j))
  }

  lemma ScanDescribes(content: string, offsets: seq<nat>)
    requires offsets == OffsetsFrom(content, 0)
    ensures Describes(content, Normal(content), offsets)
  {
    OffsetsOrdered(content, 0);
    forall i, j | 0 <= i <= j < |offsets|
      ensures SliceAgrees(content, Normal(content), offsets[i], offsets[j], i, j)
    {
      SliceIsNormal(content, offsets, i, j);
    }
  }

  /** The next output byte and the next offset, where the scanner stands before output byte `n`. */
  lemma ScanStep(content: string, n: nat, index: nat, k: nat, c: char)
    requires index < |content| && n < |OffsetsFrom(content, 0)| && OffsetsFrom(content, 0)[n] == index
    requires k == if content[index] == '\r' && index + 1 < |content| && content[index + 1] == '\n' then 2 else 1
    requires c == if content[index] == '\r' then '\n' else content[index]
    ensures n < |Normal(content)| && Normal(content)[n] == c
    ensures n + 1 < |OffsetsFrom(content, 0)| && OffsetsFrom(content, 0)[n + 1] == index + k
  {
    SuffixIsNormal(content, 0, n, index);
    var rest := content[index..];
    FirstStep(rest, index, k, c);
    assert Normal(content)[n] == Normal(content)[n..][0];
    assert OffsetsFrom(content, 0)[n + 1] == OffsetsFrom(content, 0)[n..][1];
  }

  lemma FirstStep(s: string, base: nat, k: nat, c: char)
    requires s != "" && k == StepAt(s) && c == if s[0] == '\r' then '\n' else s[0]
    ensures Normal(s) != "" && Normal(s)[0] == c
    ensures |OffsetsFrom(s, base)| > 1 && OffsetsFrom(s, base)[1] == base + k
  {
  }

  /** At the end of the original the text and the table are complete. */
  lemma ScanEnds(content: string, n: nat)
    requires n < |OffsetsFrom(content, 0)| && OffsetsFrom(content, 0)[n] == |content|
    ensures n == |Normal(content)| && n + 1 == |OffsetsFrom(content, 0)|
    ensures Normal(content) == NormalizeToLF(content) && Describes(content, Normal(content), OffsetsFrom(content, 0))
  {
    OffsetsOrdered(content, 0);
    TwoPassIsScan(content);
    ScanDescribes(content, OffsetsFrom(content, 0));
  }

  method NormalizeEditContent(content: string) returns (text: string, offsets: seq<nat>)
    ensures text == NormalizeToLF(content)
    ensures Describes(content, text, offsets)
  {
    ghost var wholeText, wholeTable := Normal(content), OffsetsFrom(content, 0);
    text, offsets := "", [0];
    var index := 0;
    while index < |content|
      invariant 0 <= index <= |content|
      invariant |text| < |wholeTable| && wholeTable[|text|] == index
      invariant text <= wholeText && offsets <= wholeTable && |offsets| == |text| + 1
    {
      var c, k := content[index], 1;
      if c == '\r' && index + 1 < |content| && content[index + 1] == '\n' {
        c, k := '\n', 2;
      } else if c == '\r' {
        c := '\n';
      }
      ScanStep(content, |text|, index, k, c);
      text := text + [c];
      index := index + k;
      offsets := offsets + [index];
    }
    ScanEnds(content, |text|);
  }

  // ---- Scanning and replacing agree ----

  lemma {:induction false} NoBreakIsNormal(s: string)
    requires !HasBreak(s)
    ensures Normal(s) == s
  {
    if s != "" {
      NoBreakIsNormal(s[1..]);
    }
  }

  lemma {:induction false} ReplaceTwice(s: string)
    ensures ReplaceAll(ReplaceAll(s, CRLF, LF), CR, LF) == Normal(s)
  {
    if s != "" {
      var k := StepAt(s);
      ReplaceTwice(s[k..]);
      var once := ReplaceAll(s[k..], CRLF, LF);
      if k == 2 {
        assert s[..2] == CRLF;
        assert (LF + once)[1..] == once;
        assert (LF + once)[..1] != CR;
      } else {
        if |s| == 1 {
          assert s[1..] == "" && s == [s[0]] + "";
        } else {
          assert s[..2][0] == s[0] && s[..2][1] == s[1];
        }
        assert ReplaceAll(s, CRLF, LF) == [s[0]] + once;
        var t := [s[0]] + once;
        assert t[1..] == once && t[..1] == [s[0]];
      }
    }
  }

  /** The one-pass scanner and the two-pass replacement compute the same text. */
  lemma TwoPassIsScan(s: string)
    ensures NormalizeToLF(s) == Normal(s)
  {
    ReplaceTwice(s);
    if !HasBreak(s) {
      NoBreakIsNormal(s);
    }
  }

  // ---- Replacement text ----

  predicate IsEnding(e: string) {
    e == LF || e == CRLF || e == CR
  }

  function Repeat(e: string, n: nat): seq<string> {
    seq(n, _ => e)
  }

  /** Rewriting the breaks of a normalised text changes nothing but the breaks. */
  lemma {:induction false} RewriteBreaks(s: string, e: string)
    requires IsEnding(e) && '\r' !in s
    ensures Normal(ReplaceAll(s, LF, e)) == s
    ensures Breaks(ReplaceAll(s, LF, e)) == Repeat(e, |Breaks(s)|)
    ensures ReplaceAll(s, LF, e) != "" ==> s != "" && ReplaceAll(s, LF, e)[0] == (if s[0] == '\n' then e[0] else s[0])
  {
    if s != "" {
      RewriteBreaks(s[1..], e);
      var rest := ReplaceAll(s[1..], LF, e);
      var r := ReplaceAll(s, LF, e);
      assert StepAt(s) == 1;
      if s[0] == '\n' {
        assert s[..1] == LF && r == e + rest;
        if e == CR && rest != "" {
          assert rest[0] != '\n';
        }
        assert StepAt(r) == |e| && r[|e|..] == rest;
        assert Repeat(e, |Breaks(s)|) == [e] + Repeat(e, |Breaks(s[1..])|);
      } else {
        assert s[..1] != LF by { assert s[..1][0] == s[0]; }
        assert r == [s[0]] + rest;
        assert StepAt(r) == 1 && r[1..] == rest;
      }
    }
  }

  lemma {:induction false} NormalHasNoCR(s: string)
    ensures '\r' !in Normal(s)
    ensures |Breaks(Normal(s))| == |Breaks(s)|
  {
    if s != "" {
      NormalHasNoCR(s[StepAt(s)..]);
      var n := Normal(s);
      assert StepAt(n) == 1 && n[1..] == Normal(s[StepAt(s)..]);
    }
  }

  lemma {:induction false} NoBreaks(s: string)
    ensures !HasBreak(s) <==> Breaks(s) == []
  {
    if s != "" {
      NoBreaks(s[StepAt(s)..]);
      assert s == s[..StepAt(s)] + s[StepAt(s)..];
    }
  }

  lemma {:induction false} ReplaceItself(s: string)
    ensures ReplaceAll(s, LF, LF) == s
  {
    if s != "" {
      ReplaceItself(s[1..]);
      assert s == [s[0]] + s[1..];
      if s[..1] == LF {
        assert s[0] == s[..1][0];
      }
    }
  }

  /** Replacement text keeps its content, and every one of its breaks becomes the given ending. */
  lemma ReplacementUsesEnding(s: string, e: string)
    requires IsEnding(e)
    ensures NormalizeToLF(NormalizeReplacement(s, e)) == NormalizeToLF(s)
    ensures Breaks(NormalizeReplacement(s, e)) == Repeat(e, |Breaks(s)|)
  {
    TwoPassIsScan(s);
    TwoPassIsScan(NormalizeReplacement(s, e));
    NoBreaks(s);
    NormalHasNoCR(s);
    RewriteBreaks(Normal(s), e);
    ReplaceItself(Normal(s));
  }

  /** A file with one kind of line break is restored exactly from its normalised text. */
  lemma {:induction false} UniformRoundTrip(s: string, e: string)
    requires IsEnding(e) && forall i :: 0 <= i < |Breaks(s)| ==> Breaks(s)[i] == e
    ensures ReplaceAll(Normal(s), LF, e) == s
  {
    if s != "" {
      var k := StepAt(s);
      var rest := Breaks(s[k..]);
      forall i | 0 <= i < |rest| ensures rest[i] == e {
        assert rest[i] == Breaks(s)[i + (|Breaks(s)| - |rest|)];
      }
      UniformRoundTrip(s[k..], e);
      var n := Normal(s);
      assert n[1..] == Normal(s[k..]);
      assert n[..1] == [n[0]];
      if n[0] == '\n' {
        assert Breaks(s)[0] == e;
        assert s == e + s[k..];
      } else {
        assert s == [s[0]] + s[1..];
      }
    }
  }

  // ---- The dominant ending ----

  function CountOf(breaks: seq<string>, e: string): nat {
    if breaks == [] then 0 else CountOf(breaks[1..], e) + (if breaks[0] == e then 1 else 0)
  }

  /** `r` occurs most often; on a tie the first break of the text wins, then CRLF before LF before CR. */
  predicate IsDominant(breaks: seq<string>, r: string) {
    && breaks != []
    && IsEnding(r)
    && (forall e | e in [CRLF, LF, CR] :: CountOf(breaks, e) <= CountOf(breaks, r))
    && (CountOf(breaks, breaks[0]) == CountOf(breaks, r) ==> r == breaks[0])
    && (CountOf(breaks, breaks[0]) < CountOf(breaks, r) ==>
          (r != CRLF ==> CountOf(breaks, CRLF) < CountOf(breaks, r))
          && (r == CR ==> CountOf(breaks, LF) < CountOf(breaks, r)))
  }

  /** The counters and the first break seen agree with the breaks before the unread rest. */
  predicate Tally(all: seq<string>, rest: seq<string>, crlf: nat, lf: nat, cr: nat, first: string) {
    && crlf + CountOf(rest, CRLF) == CountOf(all, CRLF)
    && lf + CountOf(rest, LF) == CountOf(all, LF)
    && cr + CountOf(rest, CR) == CountOf(all, CR)
    && (first == "" ==> rest == all)
    && (first != "" ==> all != [] && first == all[0])
  }

  lemma TallyStep(all: seq<string>, rest: seq<string>, crlf: nat, lf: nat, cr: nat, first: string)
    requires rest != [] && IsEnding(rest[0]) && Tally(all, rest, crlf, lf, cr, first)
    ensures Tally(all, rest[1..], crlf + (if rest[0] == CRLF then 1 else 0), lf + (if rest[0] == LF then 1 else 0),
                  cr + (if rest[0] == CR then 1 else 0), if first == "" then rest[0] else first)
  {
  }

  method CountLineEndings(content: string) returns (crlf: nat, lf: nat, cr: nat, first: string)
    ensures Tally(Breaks(content), [], crlf, lf, cr, first)
  {
    crlf, lf, cr, first := 0, 0, 0, "";
    var index := 0;
    assert content[0..] == content;
    while index < |content|
      invariant 0 <= index <= |content|
      invariant Tally(Breaks(content), Breaks(content[index..]), crlf, lf, cr, first)
    {
      ghost var rest := content[index..];
      ghost var found := Breaks(rest);
      if found != [] && HasBreak([rest[0]]) {
        TallyStep(Breaks(content), found, crlf, lf, cr, first);
        assert found[1..] == Breaks(rest[StepAt(rest)..]);
      }
      if content[index] == '\r' && index + 1 < |content| && content[index + 1] == '\n' {
        assert rest[2..] == content[index + 2..];
        crlf := crlf + 1;
        first := if first == "" then CRLF else first;
        index := index + 2;
      } else {
        assert rest[1..] == content[index + 1..];
        if content[index] == '\r' {
          cr := cr + 1;
          first := if first == "" then CR else first;
        } else if content[index] == '\n' {
          lf := lf + 1;
          first := if first == "" then LF else first;
        }
        index := index + 1;
      }
    }
    assert content[index..] == "";
  }

  lemma {:induction false} BreaksAreEndings(s: string)
    ensures forall i :: 0 <= i < |Breaks(s)| ==> IsEnding(Breaks(s)[i])
  {
    if s != "" {
      BreaksAreEndings(s[StepAt(s)..]);
    }
  }

  method DominantLineEnding(content: string, fallback: string) returns (r: string)
    ensures Breaks(content) == [] ==> r == if fallback == "" then LF else fallback
    ensures Breaks(content) != [] ==> IsDominant(Breaks(content), r)
  {
    var default := if fallback == "" then LF else fallback;
    var crlf, lf, cr, first := CountLineEndings(content);
    ghost var breaks := Breaks(content);
    BreaksAreEndings(content);
    assert breaks != [] ==> CountOf(breaks, breaks[0]) > 0;
    var best, bestCount := "", 0;
    if crlf > bestCount {
      best, bestCount := CRLF, crlf;
    }
    if lf > bestCount {
      best, bestCount := LF, lf;
    }
    if cr > bestCount {
      best, bestCount := CR, cr;
    }
    if bestCount == 0 {
      return default;
    }
    if (crlf == bestCount && CRLF == first) || (lf == bestCount && LF == first) || (cr == bestCount && CR == first) {
      return first;
    }
    r := best;
  }
}
