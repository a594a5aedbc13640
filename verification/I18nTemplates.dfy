/**
 The build-time rewrite of template literals into numbered messages
 (frontend/plugins/static-i18n-plugin.js) and their run-time interpolation
 (frontend/src/i18n/runtime.js).
 */
module I18nTemplates {
  import opened Base

  /** A JavaScript value as these functions see it: absent, or what String(value) prints. */
  datatype Value = Null | Undefined | Text(text: string)

  predicate AllPresent(args: seq<Value>) {
    forall i :: 0 <= i < |args| ==> args[i].Text?
  }

  // ---- interpolateMessage ----

  function DigitRun(s: string): (n: nat)
    ensures n <= |s| && AllDigits(s[..n])
    ensures n < |s| ==> !IsDigit(s[n])
  {
    if s == "" || !IsDigit(s[0]) then 0 else DigitRun(s[1..]) + 1
  }

  /** Length of a `{digits}` slot at the head of `s`; 0 when there is none. */
  function SlotLength(s: string): (m: nat)
    ensures m > 0 ==> 3 <= m <= |s| && AllDigits(s[1..m - 1])
  {
    if s == "" || s[0] != '{' then 0
    else
      var d := DigitRun(s[1..]);
      assert s[1..][..d] == s[1..1 + d];
      if d > 0 && 1 + d < |s| && s[1 + d] == '}' then d + 2 else 0
  }

  function ArgText(args: seq<Value>, index: nat): string {
    if index < |args| && args[index].Text? then args[index].text else ""
  }

  /** Left to right, every slot is replaced and the inserted text is not read again. */
  function Interpolate(s: string, args: seq<Value>): string {
    if s == "" then ""
    else
      var m := SlotLength(s);
      if m > 0 then ArgText(args, Number(s[1..m - 1])) + Interpolate(s[m..], args)
      else [s[0]] + Interpolate(s[1..], args)
  }

  predicate NoSlot(s: string) {
    forall k :: 0 <= k < |s| ==> SlotLength(s[k..]) == 0
  }

  /** A slot at the head is an opening brace, some digits, and a closing brace. */
  lemma SlotIff(s: string)
    ensures SlotLength(s) > 0 ==> s[0] == '{' && s[SlotLength(s) - 1] == '}' && SlotLength(s) >= 3 && AllDigits(s[1..SlotLength(s) - 1])
    ensures forall d: string :: d != "" && AllDigits(d) && "{" + d + "}" <= s ==> SlotLength(s) == |d| + 2
  {
    forall d: string | d != "" && AllDigits(d) && "{" + d + "}" <= s ensures SlotLength(s) == |d| + 2 {
      var rest := s[|d| + 2..];
      assert s == "{" + d + "}" + rest;
      BracedIsSlot(d, rest, s);
    }
  }

  /** An argument that is absent or was not given prints as nothing, any other one as its text. */
  lemma ArgTextIs(args: seq<Value>, i: nat)
    ensures i >= |args| ==> ArgText(args, i) == ""
    ensures i < |args| ==> ArgText(args, i) == match args[i] case Null => "" case Undefined => "" case Text(t) => t
  {
  }

  // ---- Messages ----

  function Slot(i: nat): string {
    "{" + Decimal(i) + "}"
  }

  /** Literal parts with numbered slots between them; a translation may reorder or repeat slots. */
  function Message(literals: seq<string>, slots: seq<nat>): string
    requires |literals| == |slots| + 1
  {
    if slots == [] then literals[0] else literals[0] + Slot(slots[0]) + Message(literals[1..], slots[1..])
  }

  function Numbers(n: nat): seq<nat> {
    seq(n, i requires 0 <= i < n => i)
  }

  function Canonical(literals: seq<string>): string
    requires literals != []
  {
    Message(literals, Numbers(|literals| - 1))
  }

  /** The JavaScript meaning of the template literal, and of a message that uses its slots in another order. */
  function Evaluate(literals: seq<string>, slots: seq<nat>, args: seq<Value>): string
    requires |literals| == |slots| + 1
  {
    if slots == [] then literals[0]
    else literals[0] + Printed(args, slots[0]) + Evaluate(literals[1..], slots[1..], args)
  }

  function Printed(args: seq<Value>, i: nat): string {
    if i >= |args| then "undefined"
    else match args[i] case Null => "null" case Undefined => "undefined" case Text(t) => t
  }

  function EvaluateTemplate(literals: seq<string>, args: seq<Value>): string
    requires |literals| == |args| + 1
  {
    Evaluate(literals, Numbers(|args|), args)
  }

  /** What the rewritten program shows: interpolation happens only when there are arguments. */
  function Shown(literals: seq<string>, args: seq<Value>): string
    requires |literals| == |args| + 1
  {
    if args == [] then Canonical(literals) else Interpolate(Canonical(literals), args)
  }

  // ---- Interpolation splits at the generated slots ----

  lemma {:induction false} DigitRunLocal(q: string, rest: string)
    requires rest == "" || !IsDigit(rest[0])
    ensures DigitRun(q + rest) == DigitRun(q)
  {
    if q == "" {
      assert q + rest == rest;
    } else if IsDigit(q[0]) {
      DigitRunLocal(q[1..], rest);
      assert (q + rest)[1..] == q[1..] + rest;
    }
  }

  lemma SlotLocal(q: string, rest: string)
    requires q != "" && (rest == "" || rest[0] == '{')
    ensures SlotLength(q + rest) == SlotLength(q)
    ensures SlotLength(q) > 0 ==> (q + rest)[1..SlotLength(q) - 1] == q[1..SlotLength(q) - 1]
  {
    DigitRunLocal(q[1..], rest);
    assert (q + rest)[1..] == q[1..] + rest;
  }

  /** What the head of a text contributes, and how long it is. */
  function HeadLength(s: string): nat {
    if SlotLength(s) > 0 then SlotLength(s) else 1
  }

  function HeadText(s: string, args: seq<Value>): string
    requires s != ""
  {
    var m := SlotLength(s);
    if m > 0 then ArgText(args, Number(s[1..m - 1])) else [s[0]]
  }

  lemma InterpolateStep(s: string, rest: string, args: seq<Value>)
    requires s != "" && HeadLength(s) <= |s| && rest == s[HeadLength(s)..]
    ensures Interpolate(s, args) == HeadText(s, args) + Interpolate(rest, args)
  {
  }

  lemma HeadLocal(q: string, rest: string, args: seq<Value>)
    requires q != "" && (rest == "" || rest[0] == '{')
    ensures HeadLength(q + rest) == HeadLength(q) <= |q| && HeadText(q + rest, args) == HeadText(q, args)
    ensures (q + rest)[HeadLength(q)..] == q[HeadLength(q)..] + rest
  {
    SlotLocal(q, rest);
  }

  lemma {:induction false} InterpolateConcat(q: string, rest: string, args: seq<Value>)
    requires rest == "" || rest[0] == '{'
    ensures Interpolate(q + rest, args) == Interpolate(q, args) + Interpolate(rest, args)
  {
    if q == "" {
      assert q + rest == rest;
    } else {
      var tail := q[HeadLength(q)..];
      HeadLocal(q, rest, args);
      InterpolateStep(q + rest, tail + rest, args);
      InterpolateStep(q, tail, args);
      InterpolateConcat(tail, rest, args);
      ConcatAssociates(HeadText(q, args), Interpolate(tail, args), Interpolate(rest, args));
    }
  }

  lemma {:induction false} DigitRunOf(s: string, rest: string)
    requires AllDigits(s) && (rest == "" || !IsDigit(rest[0]))
    ensures DigitRun(s + rest) == |s|
  {
    if s == "" {
      assert s + rest == rest;
    } else {
      DigitRunOf(s[1..], rest);
      assert (s + rest)[1..] == s[1..] + rest;
    }
  }

  lemma BracedIsSlot(d: string, rest: string, s: string)
    requires AllDigits(d) && d != "" && s == "{" + d + "}" + rest
    ensures SlotLength(s) == |d| + 2 <= |s|
    ensures s[1..|d| + 1] == d && s[|d| + 2..] == rest
  {
    assert s[1..] == d + ("}" + rest);
    DigitRunOf(d, "}" + rest);
    assert s[1 + |d|] == '}';
  }

  lemma InterpolateSlot(i: nat, rest: string, args: seq<Value>)
    ensures Interpolate(Slot(i) + rest, args) == ArgText(args, i) + Interpolate(rest, args)
  {
    DecimalRoundTrip(i);
    BracedIsSlot(Decimal(i), rest, Slot(i) + rest);
    InterpolateStep(Slot(i) + rest, rest, args);
  }

  /** Interpolating piece by piece. */
  function Pieces(literals: seq<string>, slots: seq<nat>, args: seq<Value>): string
    requires |literals| == |slots| + 1
  {
    if slots == [] then Interpolate(literals[0], args)
    else Interpolate(literals[0], args) + ArgText(args, slots[0]) + Pieces(literals[1..], slots[1..], args)
  }

  /** No slot can straddle a literal and a generated slot, whatever braces or digits the literal ends with. */
  lemma {:induction false} InterpolateMessage(literals: seq<string>, slots: seq<nat>, args: seq<Value>)
    requires |literals| == |slots| + 1
    ensures Interpolate(Message(literals, slots), args) == Pieces(literals, slots, args)
  {
    if slots != [] {
      InterpolateMessage(literals[1..], slots[1..], args);
      InterpolatePiece(literals[0], slots[0], Message(literals[1..], slots[1..]), args);
    }
  }

  lemma InterpolatePiece(q: string, i: nat, rest: string, args: seq<Value>)
    ensures Interpolate(q + Slot(i) + rest, args) == Interpolate(q, args) + ArgText(args, i) + Interpolate(rest, args)
  {
    InterpolateSlot(i, rest, args);
    InterpolateConcat(q, Slot(i) + rest, args);
    ConcatAssociates(q, Slot(i), rest);
    ConcatAssociates(Interpolate(q, args), ArgText(args, i), Interpolate(rest, args));
  }

  lemma {:induction false} NoSlotUnchanged(q: string, args: seq<Value>)
    requires NoSlot(q)
    ensures Interpolate(q, args) == q
  {
    if q != "" {
      assert q[0..] == q;
      forall k | 0 <= k < |q| - 1 ensures SlotLength(q[1..][k..]) == 0 {
        assert q[1..][k..] == q[k + 1..];
      }
      NoSlotUnchanged(q[1..], args);
    }
  }

  predicate NoSlots(literals: seq<string>) {
    forall i :: 0 <= i < |literals| ==> NoSlot(literals[i])
  }

  predicate InRange(slots: seq<nat>, n: nat) {
    forall i :: 0 <= i < |slots| ==> slots[i] < n
  }

  /** Any message over the template's slots, the canonical one or a translation, shows what it means. */
  lemma {:induction false} MessageMeaning(literals: seq<string>, slots: seq<nat>, args: seq<Value>)
    requires |literals| == |slots| + 1 && NoSlots(literals) && InRange(slots, |args|) && AllPresent(args)
    ensures Interpolate(Message(literals, slots), args) == Evaluate(literals, slots, args)
  {
    InterpolateMessage(literals, slots, args);
    PiecesMeaning(literals, slots, args);
  }

  lemma {:induction false} PiecesMeaning(literals: seq<string>, slots: seq<nat>, args: seq<Value>)
    requires |literals| == |slots| + 1 && NoSlots(literals) && InRange(slots, |args|) && AllPresent(args)
    ensures Pieces(literals, slots, args) == Evaluate(literals, slots, args)
  {
    NoSlotUnchanged(literals[0], args);
    if slots != [] {
      PiecesMeaning(literals[1..], slots[1..], args);
    }
  }

  // ---- Exactly when the rewrite preserves meaning ----

  function Blank(n: nat): seq<Value> {
    seq(n, _ => Text(""))
  }

  /** With empty arguments, interpolation only removes text: nothing exactly when there is no slot. */
  lemma {:induction false} BlankShrinks(q: string, n: nat)
    ensures |Interpolate(q, Blank(n))| <= |q|
    ensures !NoSlot(q) ==> |Interpolate(q, Blank(n))| < |q|
  {
    if q != "" {
      var m := SlotLength(q);
      assert q[0..] == q;
      if m > 0 {
        BlankShrinks(q[m..], n);
      } else {
        BlankShrinks(q[1..], n);
        if !NoSlot(q) {
          var k :| 0 <= k < |q| && SlotLength(q[k..]) != 0;
          assert q[k..] == q[1..][k - 1..];
        }
      }
    }
  }

  lemma NoSlotsTail(literals: seq<string>)
    requires literals != []
    ensures NoSlots(literals) <==> NoSlot(literals[0]) && NoSlots(literals[1..])
  {
    if !NoSlots(literals) && NoSlot(literals[0]) {
      var i :| 0 <= i < |literals| && !NoSlot(literals[i]);
      assert literals[1..][i - 1] == literals[i];
    }
    if NoSlots(literals) {
      forall i | 0 <= i < |literals[1..]| ensures NoSlot(literals[1..][i]) {
        assert literals[1..][i] == literals[i + 1];
      }
    }
  }

  lemma {:induction false} BlankPieces(literals: seq<string>, slots: seq<nat>, n: nat)
    requires |literals| == |slots| + 1 && InRange(slots, n)
    ensures |Pieces(literals, slots, Blank(n))| <= |Evaluate(literals, slots, Blank(n))|
    ensures !NoSlots(literals) ==> |Pieces(literals, slots, Blank(n))| < |Evaluate(literals, slots, Blank(n))|
  {
    BlankShrinks(literals[0], n);
    NoSlotsTail(literals);
    if slots != [] {
      BlankPieces(literals[1..], slots[1..], n);
    }
  }

  ghost predicate AlwaysPreserved(literals: seq<string>, n: nat)
    requires |literals| == n + 1
  {
    forall args: seq<Value> | |args| == n && AllPresent(args) ::
      Shown(literals, args) == EvaluateTemplate(literals, args)
  }

  lemma ShownMeaning(literals: seq<string>, args: seq<Value>)
    requires |literals| == |args| + 1 && AllPresent(args) && (args == [] || NoSlots(literals))
    ensures Shown(literals, args) == EvaluateTemplate(literals, args)
  {
    if args == [] {
      assert Numbers(0) == [];
    } else {
      MessageMeaning(literals, Numbers(|args|), args);
    }
  }

  lemma SlotIsLost(literals: seq<string>, n: nat)
    requires |literals| == n + 1 && n > 0 && !NoSlots(literals)
    ensures Shown(literals, Blank(n)) != EvaluateTemplate(literals, Blank(n))
  {
    InterpolateMessage(literals, Numbers(n), Blank(n));
    BlankPieces(literals, Numbers(n), n);
  }

  /**
   The rewrite shows the original text for all present arguments if and only if the
   template has no expression, or none of its literal parts contains a slot of its own.
   */
  lemma RewritePreservesIff(literals: seq<string>, n: nat)
    requires |literals| == n + 1
    ensures AlwaysPreserved(literals, n) <==> n == 0 || NoSlots(literals)
  {
    if n == 0 || NoSlots(literals) {
      forall args: seq<Value> | |args| == n && AllPresent(args)
        ensures Shown(literals, args) == EvaluateTemplate(literals, args)
      {
        ShownMeaning(literals, args);
      }
    } else {
      SlotIsLost(literals, n);
    }
  }

  /** Absent arguments print as nothing, where the template literal prints their names. */
  lemma {:induction false} AbsentIsLost(literals: seq<string>, slots: seq<nat>, args: seq<Value>)
    requires |literals| == |slots| + 1 && NoSlots(literals) && InRange(slots, |args|)
    ensures |Pieces(literals, slots, args)| <= |Evaluate(literals, slots, args)|
    ensures UsesAbsent(slots, args) ==> |Pieces(literals, slots, args)| < |Evaluate(literals, slots, args)|
  {
    NoSlotUnchanged(literals[0], args);
    if slots != [] {
      AbsentIsLost(literals[1..], slots[1..], args);
      UsesAbsentTail(slots, args);
    }
  }

  predicate UsesAbsent(slots: seq<nat>, args: seq<Value>)
    requires InRange(slots, |args|)
  {
    exists i :: 0 <= i < |slots| && !args[slots[i]].Text?
  }

  lemma UsesAbsentTail(slots: seq<nat>, args: seq<Value>)
    requires slots != [] && InRange(slots, |args|)
    ensures UsesAbsent(slots, args) ==> !args[slots[0]].Text? || UsesAbsent(slots[1..], args)
  {
    if i :| 0 < i < |slots| && !args[slots[i]].Text? {
      assert slots[1..][i - 1] == slots[i];
    }
  }

  lemma AbsentShows(literals: seq<string>, slots: seq<nat>, args: seq<Value>, i: nat)
    requires |literals| == |args| + 1 && NoSlots(literals) && i < |args| && !args[i].Text? && slots == Numbers(|args|)
    ensures Interpolate(Message(literals, slots), args) != Evaluate(literals, slots, args)
  {
    assert slots[i] == i;
    AbsentIsLost(literals, slots, args);
    InterpolateMessage(literals, slots, args);
  }

  /** Where the literal parts hold no slot, the shown text is the original one if and only if no argument is absent. */
  lemma ShownIffPresent(literals: seq<string>, args: seq<Value>)
    requires |literals| == |args| + 1 && NoSlots(literals)
    ensures Shown(literals, args) == EvaluateTemplate(literals, args) <==> AllPresent(args)
  {
    if AllPresent(args) {
      ShownMeaning(literals, args);
    } else {
      var i :| 0 <= i < |args| && !args[i].Text?;
      AbsentShows(literals, Numbers(|args|), args, i);
    }
  }

  // ---- createTemplateCanonical ----

  function Join(parts: seq<string>): string {
    if parts == [] then "" else Join(parts[..|parts| - 1]) + parts[|parts| - 1]
  }

  lemma JoinTwo(parts: seq<string>, a: string, b: string)
    ensures Join(parts + [a]) == Join(parts) + a
    ensures Join(parts + [a] + [b]) == Join(parts) + a + b
  {
    assert (parts + [a])[..|parts|] == parts;
    assert (parts + [a] + [b])[..|parts| + 1] == parts + [a];
  }

  /** The parts pushed before literal `index`, followed by the rest of the message, are the whole message. */
  predicate Continues(parts: seq<string>, quasis: seq<string>, slots: seq<nat>, index: nat) {
    && |quasis| == |slots| + 1 && index <= |quasis|
    && Join(parts) + (if index < |quasis| then Message(quasis[index..], slots[index..]) else "") == Message(quasis, slots)
  }

  lemma MessageHead(quasis: seq<string>, slots: seq<nat>, index: nat)
    requires |quasis| == |slots| + 1 && index < |slots|
    ensures Message(quasis[index..], slots[index..])
         == quasis[index] + Slot(slots[index]) + Message(quasis[index + 1..], slots[index + 1..])
  {
    assert quasis[index..][1..] == quasis[index + 1..] && slots[index..][1..] == slots[index + 1..];
  }

  lemma Regroup(a: string, b: string, c: string, d: string)
    ensures a + (b + c + d) == a + b + c + d
  {
  }

  lemma ContinuesSlot(parts: seq<string>, quasis: seq<string>, slots: seq<nat>, index: nat, next: seq<string>)
    requires Continues(parts, quasis, slots, index) && index < |slots|
    requires next == parts + [quasis[index]] + [Slot(slots[index])]
    ensures Continues(next, quasis, slots, index + 1)
  {
    JoinTwo(parts, quasis[index], Slot(slots[index]));
    MessageHead(quasis, slots, index);
    Regroup(Join(parts), quasis[index], Slot(slots[index]), Message(quasis[index + 1..], slots[index + 1..]));
  }

  lemma ContinuesLast(parts: seq<string>, quasis: seq<string>, slots: seq<nat>)
    requires Continues(parts, quasis, slots, |slots|)
    ensures Continues(parts + [quasis[|slots|]], quasis, slots, |slots| + 1)
  {
    JoinTwo(parts, quasis[|slots|], "");
  }

  method CreateTemplateCanonical(quasis: seq<string>, expressions: nat) returns (canonical: string)
    requires |quasis| == expressions + 1
    ensures canonical == Canonical(quasis)
  {
    var parts: seq<string> := [];
    var index := 0;
    ghost var slots := Numbers(expressions);
    assert quasis[0..] == quasis && slots[0..] == slots;
    while index < |quasis|
      invariant 0 <= index <= |quasis|
      invariant Continues(parts, quasis, slots, index)
    {
      ghost var before := parts;
      parts := parts + [quasis[index]];
      if index < expressions {
        parts := parts + [Slot(index)];
        ContinuesSlot(before, quasis, slots, index, parts);
      } else {
        ContinuesLast(before, quasis, slots);
      }
      index := index + 1;
    }
    canonical := Join(parts);
  }
}
