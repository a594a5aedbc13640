/**
 The names the fields and methods of a generated proto package print, and what they
 stand for by protobuf's scoping (proto/ext_tool/extractor.go).
 */
module ProtoNames {
  import opened Base
  import opened ProtoCopy

  datatype Printed = Short(name: string) | Relative(name: string) | Qualified(pkg: string, name: string) | Fallback(text: string)

  predicate Nested(parent: string, short: string) {
    parent != "" && parent + "." <= short
  }

  /** `parent` is the path of the enclosing message, empty for a method. */
  function PrintRef(w: World, pkg: string, recorded: map<string, TypeName>, parent: string, u: Use): Printed {
    match w.resolve(u)
    case None => Fallback(u.ref.text)
    case Some(t) =>
      if Nested(parent, t.short) then Relative(t.short[|parent| + 1..])
      else if t.pkg == pkg || t.pkg == "" then Short(t.short)
      else if t.short in recorded then Short(t.short)
      else Qualified(t.pkg, t.short)
  }

  // ---- Which names are foreign ----

  /** No reference of the package prints the name of another generated package, under any parent. */
  ghost predicate PrintsLocally(w: World, pkg: string, r: Package, recorded: map<string, TypeName>) {
    forall u, parent :: UsedIn(r, u) ==>
      !PrintRef(w, pkg, recorded, parent, u).Qualified? || IsGoogle(PrintRef(w, pkg, recorded, parent, u).pkg)
  }

  /** Closure is exactly what emission needs. */
  lemma PrintsLocallyIffClosed(w: World, pkg: string, r: Package, recorded: map<string, TypeName>)
    ensures PrintsLocally(w, pkg, r, recorded) <==> Closed(w, pkg, r, recorded)
  {
    if PrintsLocally(w, pkg, r, recorded) {
      forall t | t in Externals(w, pkg, Uses(r)) ensures t.short in recorded {
        var u :| u in Uses(r) && External(w, pkg, u) == Some(t);
        UsesIff(r, u);
        assert !PrintRef(w, pkg, recorded, "", u).Qualified? || IsGoogle(PrintRef(w, pkg, recorded, "", u).pkg);
      }
    }
    if Closed(w, pkg, r, recorded) {
      forall u, parent | UsedIn(r, u)
        ensures !PrintRef(w, pkg, recorded, parent, u).Qualified? || IsGoogle(PrintRef(w, pkg, recorded, parent, u).pkg)
      {
        UsesIff(r, u);
        if External(w, pkg, u).Some? {
          assert External(w, pkg, u).value in Externals(w, pkg, Uses(r));
        }
      }
    }
  }

  // ---- What a name stands for ----

  /** The part of a dotted name that scoping looks up. */
  function FirstPart(name: string): string {
    if name == "" || name[0] == '.' then "" else [name[0]] + FirstPart(name[1..])
  }

  /** Some definition carries the name or is nested under it. */
  ghost predicate Declares(defs: iset<TypeName>, name: string) {
    exists d :: d in defs && (d.short == name || name + "." <= d.short)
  }

  /** An enclosing message, the given one or one around it, declares the name inside itself. */
  ghost predicate Hidden(defs: iset<TypeName>, parent: string, first: string) {
    exists i :: 0 < i <= |parent| && (i == |parent| || parent[i] == '.') && Declares(defs, parent[..i] + "." + first)
  }

  /** The definition under the short name of `t` is that of `t`. */
  ghost predicate Means(defs: iset<TypeName>, t: TypeName) {
    t in defs && forall d :: d in defs && d.short == t.short ==> d == t
  }

  /**
   The printed name stands for `t`: a local name leads to the definition of `t` and is
   not hidden by a nested one; a qualified name has its first part hidden by nothing.
   */
  ghost predicate StandsFor(defs: iset<TypeName>, parent: string, printed: Printed, t: TypeName) {
    match printed
    case Short(name) => name == t.short && Means(defs, t) && !Hidden(defs, parent, FirstPart(name))
    case Relative(name) => parent + "." + name == t.short && Means(defs, t)
    case Qualified(pkg, name) => TypeName(pkg, name) == t && !Hidden(defs, parent, FirstPart(pkg)) && !Declares(defs, FirstPart(pkg))
    case Fallback(_) => false
  }

  ghost function Defined(r: Package): iset<TypeName> {
    iset t | IsLocal(r, t)
  }

  /** A reference and the path of the message it stands in, empty for a method. */
  ghost predicate UseIn(p: Package, parent: string, u: Use) {
    || (exists i :: 0 <= i < |p.messages| && parent == p.messages[i].name.short && Refers(p.messages[i].fields, p.messages[i].site, u))
    || (parent == "" && exists i :: 0 <= i < |p.services| && Serves(p.services[i].methods, p.services[i].site, u))
  }

  /** Every resolved reference prints a name that stands for the type referred to. */
  ghost predicate Faithful(w: World, pkg: string, r: Package, recorded: map<string, TypeName>) {
    forall parent, u :: UseIn(r, parent, u) && w.resolve(u).Some? ==>
      StandsFor(Defined(r), parent, PrintRef(w, pkg, recorded, parent, u), w.resolve(u).value)
  }

  // ---- The same, told on the input ----

  predicate Extracted(w: World, t: TypeName) {
    t in w.messages || t in w.enums
  }

  /** The types of the package and those it reaches. */
  ghost predicate InClosure(w: World, pkg: string, p: Package, t: TypeName) {
    IsLocal(p, t) || Reached(w, pkg, p, t)
  }

  /** Those of them that were extracted, so that they can be defined. */
  ghost function Known(w: World, pkg: string, p: Package): iset<TypeName> {
    iset t | IsLocal(p, t) || (Reached(w, pkg, p, t) && Extracted(w, t))
  }

  /** A reference of the package or of an extracted message it reaches. */
  ghost predicate ReachedUse(w: World, pkg: string, p: Package, parent: string, u: Use) {
    || UseIn(p, parent, u)
    || exists x :: Reached(w, pkg, p, x) && x in w.messages && parent == x.short && Refers(w.messages[x].fields, w.messages[x].site, u)
  }

  /**
   A Google type shares its short name with nothing in the closure, is not nested by name
   under the message that refers to it, and nothing is called like its package. Any other
   type is known, is alone with its short name, and is not hidden by a type nested in a
   message around the reference.
   */
  ghost predicate Clear(w: World, pkg: string, p: Package, parent: string, t: TypeName) {
    if IsGoogle(t.pkg) && t.pkg != pkg then
      && !Nested(parent, t.short)
      && (forall x :: InClosure(w, pkg, p, x) ==> x.short != t.short)
      && !Hidden(Known(w, pkg, p), parent, FirstPart(t.pkg)) && !Declares(Known(w, pkg, p), FirstPart(t.pkg))
    else
      && Means(Known(w, pkg, p), t)
      && (Nested(parent, t.short) || !Hidden(Known(w, pkg, p), parent, FirstPart(t.short)))
  }

  ghost predicate ClosureClear(w: World, pkg: string, p: Package) {
    forall parent, u :: ReachedUse(w, pkg, p, parent, u) && w.resolve(u).Some? ==> Clear(w, pkg, p, parent, w.resolve(u).value)
  }

  // ---- Copying in full ----

  /** Every external type referred to is recorded under its short name. */
  predicate RecordedAsItself(w: World, pkg: string, r: Package, recorded: map<string, TypeName>) {
    forall t :: t in Externals(w, pkg, Uses(r)) ==> t.short in recorded && recorded[t.short] == t
  }

  lemma UsesHaveParents(p: Package, u: Use) returns (parent: string)
    requires u in Uses(p)
    ensures UseIn(p, parent, u)
  {
    ServiceUsesIff(p.services, u);
    MessageUsesIff(p.messages, u);
    if u in ServiceUses(p.services) {
      parent := "";
    } else {
      var i :| 0 <= i < |p.messages| && Refers(p.messages[i].fields, p.messages[i].site, u);
      parent := p.messages[i].name.short;
    }
  }

  lemma UseInUses(p: Package, parent: string, u: Use)
    requires UseIn(p, parent, u)
    ensures u in Uses(p)
  {
    UsesIff(p, u);
  }

  lemma {:induction false} PrefixUses(a: seq<Message>, b: seq<Message>)
    requires a <= b
    ensures MessageUses(a) <= MessageUses(b)
  {
    if |a| < |b| {
      PrefixUses(a, b[..|b| - 1]);
    } else {
      assert a == b;
    }
  }

  /** When every external type is recorded as itself, everything the package reaches is referred to. */
  lemma {:induction false} ReachIsReferred(w: World, pkg: string, start: Package, r: Package, recorded: map<string, TypeName>, n: nat)
    requires Copying(w, pkg, start, r, recorded) && RecordedAsItself(w, pkg, r, recorded)
    ensures Reach(w, pkg, start, n) <= Externals(w, pkg, Uses(r))
  {
    if n == 0 {
      PrefixUses(start.messages, r.messages);
      ExternalsGrow(w, pkg, Uses(start), Uses(r));
    } else {
      ReachIsReferred(w, pkg, start, r, recorded, n - 1);
      forall u | u in UsesOf(w, Reach(w, pkg, start, n - 1)) ensures u in Uses(r) {
        var x :| x in Reach(w, pkg, start, n - 1) && x in w.messages && u in FieldUses(w.messages[x].fields, w.messages[x].site);
        assert x in Externals(w, pkg, Uses(r));
        var i := ReferredIsCopied(w, pkg, start, r, recorded, x);
        MessageUsesMember(r.messages, i);
      }
      ExternalsGrow(w, pkg, UsesOf(w, Reach(w, pkg, start, n - 1)), Uses(r));
    }
  }

  lemma ReferredIsCopied(w: World, pkg: string, start: Package, r: Package, recorded: map<string, TypeName>, x: TypeName) returns (i: nat)
    requires Copying(w, pkg, start, r, recorded) && RecordedAsItself(w, pkg, r, recorded)
    requires x in Externals(w, pkg, Uses(r)) && x in w.messages
    ensures i < |r.messages| && r.messages[i] == w.messages[x]
  {
    assert recorded[x.short] == x && x.pkg != pkg;
    assert Present(w, pkg, r, x);
    i :| 0 <= i < |r.messages| && r.messages[i] == w.messages[x];
  }

  lemma ReachedIsReferred(w: World, pkg: string, start: Package, r: Package, recorded: map<string, TypeName>, t: TypeName)
    requires Copying(w, pkg, start, r, recorded) && RecordedAsItself(w, pkg, r, recorded) && Reached(w, pkg, start, t)
    ensures t in Externals(w, pkg, Uses(r)) && t.short in recorded && recorded[t.short] == t && t.pkg != pkg
  {
    var n: nat :| t in Reach(w, pkg, start, n);
    ReachIsReferred(w, pkg, start, r, recorded, n);
  }

  /** A definition of the result is one of the package, or a copy recorded as itself. */
  lemma DefinedIsRecorded(w: World, pkg: string, start: Package, r: Package, recorded: map<string, TypeName>, t: TypeName)
    requires WellFormed(w, pkg, start) && Copying(w, pkg, start, r, recorded) && IsLocal(r, t)
    ensures t.short in recorded && recorded[t.short] == t
    ensures IsLocal(start, t) || (Reached(w, pkg, start, t) && Extracted(w, t) && t.pkg != pkg)
  {
    if t in r.enums {
      var i :| 0 <= i < |r.enums| && r.enums[i] == t;
      if i < |start.enums| {
        assert start.enums[i] == t;
      } else {
        assert CopiedEnum(w, pkg, recorded, r.enums[i]);
        assert !IsLocal(start, t);
      }
    } else {
      var i :| 0 <= i < |r.messages| && r.messages[i].name == t;
      if i < |start.messages| {
        assert start.messages[i] == r.messages[i];
      } else {
        assert CopiedMessage(w, pkg, recorded, r.messages[i]);
        assert !IsLocal(start, t);
      }
    }
  }

  lemma KnownIsDefined(w: World, pkg: string, start: Package, r: Package, recorded: map<string, TypeName>, t: TypeName)
    requires WellFormed(w, pkg, start) && Copying(w, pkg, start, r, recorded) && RecordedAsItself(w, pkg, r, recorded)
    requires t in Known(w, pkg, start)
    ensures IsLocal(r, t)
  {
    if IsLocal(start, t) {
      if t in start.enums {
        var i :| 0 <= i < |start.enums| && start.enums[i] == t;
        assert r.enums[i] == t;
      } else {
        var i :| 0 <= i < |start.messages| && start.messages[i].name == t;
        assert r.messages[i] == start.messages[i];
      }
    } else {
      ReachedIsReferred(w, pkg, start, r, recorded, t);
      assert Present(w, pkg, r, t);
      if t in w.messages {
        var i := ReferredIsCopied(w, pkg, start, r, recorded, t);
      }
    }
  }

  /** Then the definitions of the result are exactly the known types of the input. */
  lemma DefinedAreKnown(w: World, pkg: string, start: Package, r: Package, recorded: map<string, TypeName>)
    requires WellFormed(w, pkg, start) && Copying(w, pkg, start, r, recorded) && RecordedAsItself(w, pkg, r, recorded)
    ensures Defined(r) == Known(w, pkg, start)
  {
    forall t ensures t in Defined(r) <==> t in Known(w, pkg, start) {
      if t in Defined(r) {
        DefinedIsRecorded(w, pkg, start, r, recorded, t);
      }
      if t in Known(w, pkg, start) {
        KnownIsDefined(w, pkg, start, r, recorded, t);
      }
    }
  }

  lemma UseIsReached(w: World, pkg: string, start: Package, r: Package, recorded: map<string, TypeName>, parent: string, u: Use)
    requires WellFormed(w, pkg, start) && Copying(w, pkg, start, r, recorded) && UseIn(r, parent, u)
    ensures ReachedUse(w, pkg, start, parent, u)
  {
    if i :| 0 <= i < |r.messages| && parent == r.messages[i].name.short && Refers(r.messages[i].fields, r.messages[i].site, u) {
      if i < |start.messages| {
        assert start.messages[i] == r.messages[i];
      } else {
        var x := r.messages[i].name;
        assert CopiedMessage(w, pkg, recorded, r.messages[i]);
        assert IsLocal(r, x);
        DefinedIsRecorded(w, pkg, start, r, recorded, x);
        assert !IsLocal(start, x);
      }
    }
  }

  lemma ReachedIsUse(w: World, pkg: string, start: Package, r: Package, recorded: map<string, TypeName>, parent: string, u: Use)
    requires WellFormed(w, pkg, start) && Copying(w, pkg, start, r, recorded) && RecordedAsItself(w, pkg, r, recorded)
    requires ReachedUse(w, pkg, start, parent, u)
    ensures UseIn(r, parent, u)
  {
    if UseIn(start, parent, u) {
      if i :| 0 <= i < |start.messages| && parent == start.messages[i].name.short && Refers(start.messages[i].fields, start.messages[i].site, u) {
        assert r.messages[i] == start.messages[i];
      }
    } else {
      var x :| Reached(w, pkg, start, x) && x in w.messages && parent == x.short && Refers(w.messages[x].fields, w.messages[x].site, u);
      ReachedIsReferred(w, pkg, start, r, recorded, x);
      var i := ReferredIsCopied(w, pkg, start, r, recorded, x);
    }
  }

  /** Which short names are recorded. */
  lemma RecordedNames(w: World, pkg: string, start: Package, r: Package, recorded: map<string, TypeName>, s: string)
    requires WellFormed(w, pkg, start) && Copying(w, pkg, start, r, recorded) && RecordedAsItself(w, pkg, r, recorded)
    ensures s in recorded <==> exists x :: InClosure(w, pkg, start, x) && x.short == s
  {
    if s in recorded {
      assert InClosure(w, pkg, start, recorded[s]) && recorded[s].short == s;
    }
    if x :| InClosure(w, pkg, start, x) && x.short == s {
      if !IsLocal(start, x) {
        ReachedIsReferred(w, pkg, start, r, recorded, x);
      }
    }
  }

  // ---- The two conditions agree ----

  /** A relative name, put behind its parent, is the short name again. */
  lemma RelativeName(parent: string, short: string)
    requires Nested(parent, short)
    ensures |parent| + 1 <= |short| && parent + "." + short[|parent| + 1..] == short
  {
  }

  /** What is printed, and what it has to mean. */
  lemma PrintedStandsFor(w: World, pkg: string, recorded: map<string, TypeName>, defs: iset<TypeName>, parent: string, u: Use, t: TypeName)
    requires w.resolve(u) == Some(t)
    ensures var stands := StandsFor(defs, parent, PrintRef(w, pkg, recorded, parent, u), t);
            if Nested(parent, t.short) then stands <==> Means(defs, t)
            else if t.pkg == pkg || t.pkg == "" || t.short in recorded then stands <==> Means(defs, t) && !Hidden(defs, parent, FirstPart(t.short))
            else stands <==> !Hidden(defs, parent, FirstPart(t.pkg)) && !Declares(defs, FirstPart(t.pkg))
  {
    if Nested(parent, t.short) {
      RelativeName(parent, t.short);
    }
  }

  /** One reference: what it prints stands for its type exactly when the input is clear about it. */
  lemma StandsForIffClear(w: World, pkg: string, start: Package, r: Package, recorded: map<string, TypeName>, parent: string, u: Use, t: TypeName)
    requires WellFormed(w, pkg, start) && Copying(w, pkg, start, r, recorded) && RecordedAsItself(w, pkg, r, recorded)
    requires UseIn(r, parent, u) && w.resolve(u) == Some(t)
    ensures StandsFor(Defined(r), parent, PrintRef(w, pkg, recorded, parent, u), t) <==> Clear(w, pkg, start, parent, t)
  {
    DefinedAreKnown(w, pkg, start, r, recorded);
    PrintedStandsFor(w, pkg, recorded, Defined(r), parent, u, t);
    if IsGoogle(t.pkg) && t.pkg != pkg {
      RecordedNames(w, pkg, start, r, recorded, t.short);
      GoogleIsUnknown(w, pkg, start, t);
    } else if External(w, pkg, u).Some? {
      UseInUses(r, parent, u);
      assert t in Externals(w, pkg, Uses(r));
    }
  }

  lemma GoogleIsUnknown(w: World, pkg: string, p: Package, t: TypeName)
    requires WellFormed(w, pkg, p) && IsGoogle(t.pkg) && t.pkg != pkg
    ensures t !in Known(w, pkg, p)
  {
    if Reached(w, pkg, p, t) {
      var n: nat :| t in Reach(w, pkg, p, n);
      ReachIsExternal(w, pkg, p, n, t);
      assert false;
    }
  }

  lemma {:induction false} ReachIsExternal(w: World, pkg: string, p: Package, n: nat, t: TypeName)
    requires t in Reach(w, pkg, p, n)
    ensures t.pkg != "" && t.pkg != pkg && !IsGoogle(t.pkg)
  {
    if n > 0 && t in Reach(w, pkg, p, n - 1) {
      ReachIsExternal(w, pkg, p, n - 1, t);
    }
  }

  /** A faithful package has every external type recorded as itself. */
  lemma FaithfulRecords(w: World, pkg: string, start: Package, r: Package, recorded: map<string, TypeName>)
    requires WellFormed(w, pkg, start) && Copying(w, pkg, start, r, recorded) && Closed(w, pkg, r, recorded)
    requires Faithful(w, pkg, r, recorded)
    ensures RecordedAsItself(w, pkg, r, recorded)
  {
    forall t | t in Externals(w, pkg, Uses(r)) ensures t.short in recorded && recorded[t.short] == t {
      var u :| u in Uses(r) && External(w, pkg, u) == Some(t);
      var parent := UsesHaveParents(r, u);
      assert StandsFor(Defined(r), parent, PrintRef(w, pkg, recorded, parent, u), t);
      assert t in Defined(r);
      DefinedIsRecorded(w, pkg, start, r, recorded, t);
    }
  }

  /** Every type reached is what some reference resolves to. */
  lemma {:induction false} ReachedHasUse(w: World, pkg: string, p: Package, n: nat, t: TypeName) returns (parent: string, u: Use)
    requires t in Reach(w, pkg, p, n)
    ensures ReachedUse(w, pkg, p, parent, u) && w.resolve(u) == Some(t)
  {
    if n == 0 {
      u :| u in Uses(p) && External(w, pkg, u) == Some(t);
      parent := UsesHaveParents(p, u);
    } else if t in Reach(w, pkg, p, n - 1) {
      parent, u := ReachedHasUse(w, pkg, p, n - 1, t);
    } else {
      u :| u in UsesOf(w, Reach(w, pkg, p, n - 1)) && External(w, pkg, u) == Some(t);
      var x :| x in Reach(w, pkg, p, n - 1) && x in w.messages && u in FieldUses(w.messages[x].fields, w.messages[x].site);
      assert Reached(w, pkg, p, x);
      RefersIff(w.messages[x].fields, w.messages[x].site, u);
      parent := x.short;
    }
  }

  /** In a clear closure every type reached is known and alone with its short name. */
  lemma ClearIsKnown(w: World, pkg: string, p: Package, t: TypeName)
    requires ClosureClear(w, pkg, p) && Reached(w, pkg, p, t)
    ensures Means(Known(w, pkg, p), t)
  {
    var n: nat :| t in Reach(w, pkg, p, n);
    var parent, u := ReachedHasUse(w, pkg, p, n, t);
    ReachIsExternal(w, pkg, p, n, t);
    assert Clear(w, pkg, p, parent, t);
  }

  lemma ClearRecords(w: World, pkg: string, start: Package, r: Package, recorded: map<string, TypeName>)
    requires WellFormed(w, pkg, start) && Copying(w, pkg, start, r, recorded) && Closed(w, pkg, r, recorded)
    requires ClosureClear(w, pkg, start)
    ensures RecordedAsItself(w, pkg, r, recorded)
  {
    forall t | t in Externals(w, pkg, Uses(r)) ensures t.short in recorded && recorded[t.short] == t {
      ReferencesAreReached(w, pkg, start, r, recorded, t);
      ClearIsKnown(w, pkg, start, t);
      var x := recorded[t.short];
      if !IsLocal(start, x) {
        assert Reached(w, pkg, start, x);
        ClearIsKnown(w, pkg, start, x);
      }
      assert x in Known(w, pkg, start) && x.short == t.short;
    }
  }

  /**
   In a closed package every reference prints a name that stands for its type if and only
   if the closure of the input is clear.
   */
  lemma FaithfulIffClear(w: World, pkg: string, start: Package, r: Package, recorded: map<string, TypeName>)
    requires WellFormed(w, pkg, start) && Copying(w, pkg, start, r, recorded) && Closed(w, pkg, r, recorded)
    ensures Faithful(w, pkg, r, recorded) <==> ClosureClear(w, pkg, start)
  {
    if ClosureClear(w, pkg, start) {
      ClearRecords(w, pkg, start, r, recorded);
      forall parent, u | UseIn(r, parent, u) && w.resolve(u).Some?
        ensures StandsFor(Defined(r), parent, PrintRef(w, pkg, recorded, parent, u), w.resolve(u).value)
      {
        UseIsReached(w, pkg, start, r, recorded, parent, u);
        StandsForIffClear(w, pkg, start, r, recorded, parent, u, w.resolve(u).value);
      }
    }
    if Faithful(w, pkg, r, recorded) {
      FaithfulRecords(w, pkg, start, r, recorded);
      forall parent, u | ReachedUse(w, pkg, start, parent, u) && w.resolve(u).Some?
        ensures Clear(w, pkg, start, parent, w.resolve(u).value)
      {
        ReachedIsUse(w, pkg, start, r, recorded, parent, u);
        StandsForIffClear(w, pkg, start, r, recorded, parent, u, w.resolve(u).value);
      }
    }
  }

  /** `capped` tells that the rounds ended at the round limit. */
  method CopyAllExternalTypes(w: World, pkg: string, p: Package)
    returns (r: Package, recorded: map<string, TypeName>, capped: bool)
    requires WellFormed(w, pkg, p)
    ensures Copying(w, pkg, p, r, recorded)
    ensures !capped ==> PrintsLocally(w, pkg, r, recorded)
    ensures !capped ==> NamesRecorded(w, pkg, r, recorded)
    ensures !capped ==> (Faithful(w, pkg, r, recorded) <==> ClosureClear(w, pkg, p))
    ensures capped ==> Size(r) >= Size(p) + 21
  {
    r := p;
    recorded := RecordLocal(p);
    StartCopies(w, pkg, p, recorded);
    capped := false;
    var round := 1;
    while true
      invariant 1 <= round <= 21
      invariant Copying(w, pkg, p, r, recorded)
      invariant Size(r) >= Size(p) + round - 1
      decreases 21 - round
    {
      var needed := CollectNeeded(w, pkg, r, recorded.Keys);
      var copied;
      r, recorded, copied := CopyRound(w, pkg, p, r, recorded, needed);
      if copied == 0 {
        FaithfulIffClear(w, pkg, p, r, recorded);
        PrintsLocallyIffClosed(w, pkg, r, recorded);
        ClosedNames(w, pkg, r, recorded);
        return;
      }
      if round > 20 {
        capped := true;
        return;
      }
      round := round + 1;
    }
  }

  /** Whatever a field or a method refers to in another generated package has a local short name. */
  ghost predicate NamesRecorded(w: World, pkg: string, r: Package, recorded: map<string, TypeName>) {
    forall u, t ::
      UsedIn(r, u) && w.resolve(u) == Some(t) && t.pkg != "" && t.pkg != pkg && !IsGoogle(t.pkg) ==> t.short in recorded
  }

  lemma ClosedNames(w: World, pkg: string, r: Package, recorded: map<string, TypeName>)
    requires Closed(w, pkg, r, recorded)
    ensures NamesRecorded(w, pkg, r, recorded)
  {
    forall u, t | UsedIn(r, u) && w.resolve(u) == Some(t) && t.pkg != "" && t.pkg != pkg && !IsGoogle(t.pkg) ensures t.short in recorded {
      UsesIff(r, u);
      assert External(w, pkg, u) == Some(t);
      assert t in Externals(w, pkg, Uses(r));
    }
  }

  // ---- Names that stand for the wrong type ----

  /**
   A reference to a Foo of another package, Google's and the unpackaged included, out of a
   package with a Foo of its own prints Foo, which is the wrong one.
   */
  lemma ShortNameIsCaptured(w: World, p: Package, recorded: map<string, TypeName>, u: Use, foreign: string)
    requires foreign != "a.v1"
    requires w == World(_ => Some(TypeName(foreign, "Foo")), map[], {}) && u == Use(Ref("x", "message"), Site(0, 0))
    requires p == Package([Message(TypeName("a.v1", "Foo"), Site(0, 0), [Named(Ref("x", "message"))])], [], [])
    requires recorded == map["Foo" := TypeName("a.v1", "Foo")]
    ensures WellFormed(w, "a.v1", p) && Copying(w, "a.v1", p, p, recorded) && Closed(w, "a.v1", p, recorded)
    ensures UseIn(p, "Foo", u) && PrintRef(w, "a.v1", recorded, "Foo", u) == Short("Foo")
    ensures !Faithful(w, "a.v1", p, recorded)
  {
    var m := p.messages[0];
    assert Mentions(m.fields[0], u.ref);
    assert UseIn(p, "Foo", u);
    assert IsLocal(p, m.name);
    StartCopies(w, "a.v1", p, recorded);
    assert TypeName(foreign, "Foo") !in Defined(p);
  }

  /** A type nested in the message that holds the reference hides a type of the package with the same name. */
  lemma NestedNameHides(w: World, p: Package, recorded: map<string, TypeName>, u: Use)
    requires w == World(_ => Some(TypeName("a.v1", "Foo")), map[], {}) && u == Use(Ref("x", "message"), Site(0, 0))
    requires p == Package([Message(TypeName("a.v1", "Outer"), Site(0, 0), [Named(Ref("x", "message"))])],
                          [TypeName("a.v1", "Foo"), TypeName("a.v1", "Outer.Foo")], [])
    ensures UseIn(p, "Outer", u) && PrintRef(w, "a.v1", recorded, "Outer", u) == Short("Foo")
    ensures Means(Defined(p), TypeName("a.v1", "Foo")) && !Faithful(w, "a.v1", p, recorded)
  {
    var m := p.messages[0];
    assert Mentions(m.fields[0], u.ref);
    assert UseIn(p, "Outer", u);
    var defs := Defined(p);
    assert TypeName("a.v1", "Foo") == p.enums[0] && TypeName("a.v1", "Outer.Foo") == p.enums[1];
    assert FirstPart("Foo") == "Foo";
    assert "Outer"[..5] + "." + "Foo" == "Outer.Foo";
    assert Declares(defs, "Outer"[..5] + "." + FirstPart("Foo"));
    assert Hidden(defs, "Outer", FirstPart("Foo"));
  }
}
