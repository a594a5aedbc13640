/**
 Copying the types a generated proto package refers to into that package
 (proto/ext_tool/extractor.go). Type names are already split into package and short
 name; resolving a reference is a parameter.
 */
module ProtoCopy {
  import opened Base

  datatype TypeName = TypeName(pkg: string, short: string)

  datatype Ref = Ref(text: string, kind: string)

  /** Where a reference stands; resolution depends on it. */
  datatype Site = Site(pos: int, moduleStart: int)

  datatype Use = Use(ref: Ref, site: Site)

  datatype Field = Scalar | Named(ref: Ref) | MapTo(value: Option<Ref>)

  datatype Message = Message(name: TypeName, site: Site, fields: seq<Field>)

  datatype Method = Method(input: string, output: string)

  datatype Service = Service(site: Site, methods: seq<Method>)

  datatype Package = Package(messages: seq<Message>, enums: seq<TypeName>, services: seq<Service>)

  /** The resolver for one package, and every extracted type that is not Google's. */
  datatype World = World(resolve: Use -> Option<TypeName>, messages: map<TypeName, Message>, enums: set<TypeName>)

  predicate IsGoogle(pkg: string) {
    pkg == "google.protobuf" || pkg == "google.rpc"
  }

  function FieldRef(f: Field): Option<Ref> {
    match f
    case Scalar => None
    case Named(r) => Some(r)
    case MapTo(v) => v
  }

  // ---- The references of a package ----

  function FieldUses(fields: seq<Field>, site: Site): set<Use> {
    if fields == [] then {}
    else
      var last := FieldRef(fields[|fields| - 1]);
      FieldUses(fields[..|fields| - 1], site) + (if last.Some? then {Use(last.value, site)} else {})
  }

  function MessageUses(messages: seq<Message>): set<Use> {
    if messages == [] then {}
    else
      var last := messages[|messages| - 1];
      MessageUses(messages[..|messages| - 1]) + FieldUses(last.fields, last.site)
  }

  function MethodUse(text: string, site: Site): Use {
    Use(Ref(text, "message"), site)
  }

  function MethodUses(methods: seq<Method>, site: Site): set<Use> {
    if methods == [] then {}
    else
      var last := methods[|methods| - 1];
      MethodUses(methods[..|methods| - 1], site) + {MethodUse(last.input, site), MethodUse(last.output, site)}
  }

  function ServiceUses(services: seq<Service>): set<Use> {
    if services == [] then {}
    else
      var last := services[|services| - 1];
      ServiceUses(services[..|services| - 1]) + MethodUses(last.methods, last.site)
  }

  function Uses(p: Package): set<Use> {
    MessageUses(p.messages) + ServiceUses(p.services)
  }

  /** A field refers to a type by itself or as the value of a map. */
  predicate Mentions(f: Field, r: Ref) {
    f == Named(r) || f == MapTo(Some(r))
  }

  /** Some of the fields, standing at the site, mentions the reference. */
  predicate Refers(fields: seq<Field>, site: Site, u: Use) {
    u.site == site && exists j :: 0 <= j < |fields| && Mentions(fields[j], u.ref)
  }

  /** The reference is the input or the output of some of the methods. */
  predicate Serves(methods: seq<Method>, site: Site, u: Use) {
    u.site == site && u.ref.kind == "message" && exists j :: 0 <= j < |methods| && u.ref.text in {methods[j].input, methods[j].output}
  }

  /** A field of a message mentions the reference, or a method of a service takes or returns it. */
  predicate UsedIn(p: Package, u: Use) {
    || (exists i :: 0 <= i < |p.messages| && Refers(p.messages[i].fields, p.messages[i].site, u))
    || (exists i :: 0 <= i < |p.services| && Serves(p.services[i].methods, p.services[i].site, u))
  }

  lemma {:induction false} RefersIff(fields: seq<Field>, site: Site, u: Use)
    ensures u in FieldUses(fields, site) <==> Refers(fields, site, u)
  {
    if fields != [] {
      var n := |fields| - 1;
      RefersIff(fields[..n], site, u);
      assert forall j :: 0 <= j < n ==> fields[j] == fields[..n][j];
      assert FieldRef(fields[n]) == Some(u.ref) <==> Mentions(fields[n], u.ref);
      if Refers(fields[..n], site, u) {
        var j :| 0 <= j < n && Mentions(fields[..n][j], u.ref);
        assert Mentions(fields[j], u.ref);
      }
      if j :| 0 <= j < n && Mentions(fields[j], u.ref) {
        assert Mentions(fields[..n][j], u.ref);
      }
    }
  }

  lemma {:induction false} ServesIff(methods: seq<Method>, site: Site, u: Use)
    ensures u in MethodUses(methods, site) <==> Serves(methods, site, u)
  {
    if methods != [] {
      var n := |methods| - 1;
      ServesIff(methods[..n], site, u);
      assert forall j :: 0 <= j < n ==> methods[j] == methods[..n][j];
      if Serves(methods[..n], site, u) {
        var j :| 0 <= j < n && u.ref.text in {methods[..n][j].input, methods[..n][j].output};
        assert u.ref.text in {methods[j].input, methods[j].output};
      }
      if j :| 0 <= j < n && u.ref.text in {methods[j].input, methods[j].output} {
        assert u.ref.text in {methods[..n][j].input, methods[..n][j].output};
      }
    }
  }

  lemma {:induction false} MessageUsesIff(messages: seq<Message>, u: Use)
    ensures u in MessageUses(messages) <==> exists i :: 0 <= i < |messages| && Refers(messages[i].fields, messages[i].site, u)
  {
    if messages != [] {
      var n := |messages| - 1;
      MessageUsesIff(messages[..n], u);
      RefersIff(messages[n].fields, messages[n].site, u);
      assert forall i :: 0 <= i < n ==> messages[i] == messages[..n][i];
      if i :| 0 <= i < n && Refers(messages[i].fields, messages[i].site, u) {
        assert Refers(messages[..n][i].fields, messages[..n][i].site, u);
      }
      if i :| 0 <= i < n && Refers(messages[..n][i].fields, messages[..n][i].site, u) {
        assert Refers(messages[i].fields, messages[i].site, u);
      }
    }
  }

  lemma {:induction false} ServiceUsesIff(services: seq<Service>, u: Use)
    ensures u in ServiceUses(services) <==> exists i :: 0 <= i < |services| && Serves(services[i].methods, services[i].site, u)
  {
    if services != [] {
      var n := |services| - 1;
      ServiceUsesIff(services[..n], u);
      ServesIff(services[n].methods, services[n].site, u);
      assert forall i :: 0 <= i < n ==> services[i] == services[..n][i];
      if i :| 0 <= i < n && Serves(services[i].methods, services[i].site, u) {
        assert Serves(services[..n][i].methods, services[..n][i].site, u);
      }
      if i :| 0 <= i < n && Serves(services[..n][i].methods, services[..n][i].site, u) {
        assert Serves(services[i].methods, services[i].site, u);
      }
    }
  }

  /** What is collected from a package is exactly what its fields and methods refer to. */
  lemma UsesIff(p: Package, u: Use)
    ensures u in Uses(p) <==> UsedIn(p, u)
  {
    MessageUsesIff(p.messages, u);
    ServiceUsesIff(p.services, u);
  }

  /** The type behind a reference, when it lies in another package that is generated too. */
  function External(w: World, pkg: string, u: Use): Option<TypeName> {
    var t := w.resolve(u);
    if t.Some? && t.value.pkg != "" && t.value.pkg != pkg && !IsGoogle(t.value.pkg) then t else None
  }

  function Externals(w: World, pkg: string, uses: set<Use>): set<TypeName> {
    set u | u in uses && External(w, pkg, u).Some? :: External(w, pkg, u).value
  }

  function Needed(w: World, pkg: string, uses: set<Use>, local: set<string>): set<TypeName> {
    set t | t in Externals(w, pkg, uses) && t.short !in local :: t
  }

  // ---- Collecting ----

  method CollectRef(w: World, pkg: string, u: Use, needed: set<TypeName>, local: set<string>) returns (r: set<TypeName>)
    ensures r == needed + Needed(w, pkg, {u}, local)
  {
    r := needed;
    var t := w.resolve(u);
    if t.None? {
      return;
    }
    if t.value.pkg == "" || t.value.pkg == pkg || IsGoogle(t.value.pkg) {
      return;
    }
    if t.value.short in local {
      return;
    }
    r := needed + {t.value};
  }

  lemma NeededUnion(w: World, pkg: string, a: set<Use>, b: set<Use>, local: set<string>)
    ensures Needed(w, pkg, a + b, local) == Needed(w, pkg, a, local) + Needed(w, pkg, b, local)
  {
  }

  method CollectFields(w: World, pkg: string, m: Message, needed: set<TypeName>, local: set<string>)
    returns (r: set<TypeName>)
    ensures r == needed + Needed(w, pkg, FieldUses(m.fields, m.site), local)
  {
    r := needed;
    for i := 0 to |m.fields|
      invariant r == needed + Needed(w, pkg, FieldUses(m.fields[..i], m.site), local)
    {
      assert m.fields[..i + 1][..i] == m.fields[..i];
      var ref := FieldRef(m.fields[i]);
      if ref.Some? {
        r := CollectRef(w, pkg, Use(ref.value, m.site), r, local);
        NeededUnion(w, pkg, FieldUses(m.fields[..i], m.site), {Use(ref.value, m.site)}, local);
      }
    }
    assert m.fields[..|m.fields|] == m.fields;
  }

  method CollectMethods(w: World, pkg: string, s: Service, needed: set<TypeName>, local: set<string>)
    returns (r: set<TypeName>)
    ensures r == needed + Needed(w, pkg, MethodUses(s.methods, s.site), local)
  {
    r := needed;
    for i := 0 to |s.methods|
      invariant r == needed + Needed(w, pkg, MethodUses(s.methods[..i], s.site), local)
    {
      assert s.methods[..i + 1][..i] == s.methods[..i];
      var before := MethodUses(s.methods[..i], s.site);
      var input, output := MethodUse(s.methods[i].input, s.site), MethodUse(s.methods[i].output, s.site);
      r := CollectRef(w, pkg, input, r, local);
      r := CollectRef(w, pkg, output, r, local);
      NeededUnion(w, pkg, before, {input, output}, local);
      NeededUnion(w, pkg, {input}, {output}, local);
      assert {input} + {output} == {input, output};
    }
    assert s.methods[..|s.methods|] == s.methods;
  }

  method CollectMessages(w: World, pkg: string, messages: seq<Message>, local: set<string>) returns (needed: set<TypeName>)
    ensures needed == Needed(w, pkg, MessageUses(messages), local)
  {
    needed := {};
    for i := 0 to |messages|
      invariant needed == Needed(w, pkg, MessageUses(messages[..i]), local)
    {
      assert messages[..i + 1][..i] == messages[..i];
      needed := CollectFields(w, pkg, messages[i], needed, local);
      NeededUnion(w, pkg, MessageUses(messages[..i]), FieldUses(messages[i].fields, messages[i].site), local);
    }
    assert messages[..|messages|] == messages;
  }

  method CollectServices(w: World, pkg: string, services: seq<Service>, before: set<TypeName>, local: set<string>)
    returns (needed: set<TypeName>)
    ensures needed == before + Needed(w, pkg, ServiceUses(services), local)
  {
    needed := before;
    for i := 0 to |services|
      invariant needed == before + Needed(w, pkg, ServiceUses(services[..i]), local)
    {
      assert services[..i + 1][..i] == services[..i];
      needed := CollectMethods(w, pkg, services[i], needed, local);
      NeededUnion(w, pkg, ServiceUses(services[..i]), MethodUses(services[i].methods, services[i].site), local);
    }
    assert services[..|services|] == services;
  }

  lemma NeededIff(w: World, pkg: string, p: Package, local: set<string>)
    ensures forall t :: t in Needed(w, pkg, Uses(p), local) <==>
              t.pkg != "" && t.pkg != pkg && !IsGoogle(t.pkg) && t.short !in local && exists u :: UsedIn(p, u) && w.resolve(u) == Some(t)
  {
    forall t ensures t in Externals(w, pkg, Uses(p)) <==>
                       t.pkg != "" && t.pkg != pkg && !IsGoogle(t.pkg) && exists u :: UsedIn(p, u) && w.resolve(u) == Some(t) {
      if t in Externals(w, pkg, Uses(p)) {
        var u :| u in Uses(p) && External(w, pkg, u) == Some(t);
        UsesIff(p, u);
      }
      if u :| UsedIn(p, u) && w.resolve(u) == Some(t) {
        UsesIff(p, u);
        if t.pkg != "" && t.pkg != pkg && !IsGoogle(t.pkg) {
          assert External(w, pkg, u) == Some(t);
        }
      }
    }
  }

  method CollectNeeded(w: World, pkg: string, p: Package, local: set<string>) returns (needed: set<TypeName>)
    ensures needed == Needed(w, pkg, Uses(p), local)
    ensures forall t :: t in needed <==>
              t.pkg != "" && t.pkg != pkg && !IsGoogle(t.pkg) && t.short !in local && exists u :: UsedIn(p, u) && w.resolve(u) == Some(t)
  {
    NeededIff(w, pkg, p, local);
    needed := CollectMessages(w, pkg, p.messages, local);
    needed := CollectServices(w, pkg, p.services, needed, local);
    NeededUnion(w, pkg, MessageUses(p.messages), ServiceUses(p.services), local);
  }

  // ---- The types a package reaches ----

  /** The uses in the extracted messages of the given names. */
  function UsesOf(w: World, types: set<TypeName>): set<Use> {
    set t, u | t in types && t in w.messages && u in FieldUses(w.messages[t].fields, w.messages[t].site) :: u
  }

  /** The external types reached from the package through at most `n` extracted messages. */
  function Reach(w: World, pkg: string, p: Package, n: nat): set<TypeName> {
    if n == 0 then Externals(w, pkg, Uses(p))
    else Reach(w, pkg, p, n - 1) + Externals(w, pkg, UsesOf(w, Reach(w, pkg, p, n - 1)))
  }

  ghost predicate Reached(w: World, pkg: string, p: Package, t: TypeName) {
    exists n: nat :: t in Reach(w, pkg, p, n)
  }

  lemma ReachedFromPackage(w: World, pkg: string, p: Package, t: TypeName)
    requires t in Externals(w, pkg, Uses(p))
    ensures Reached(w, pkg, p, t)
  {
    assert t in Reach(w, pkg, p, 0);
  }

  lemma ReachedFromMessage(w: World, pkg: string, p: Package, x: TypeName, t: TypeName)
    requires Reached(w, pkg, p, x) && x in w.messages
    requires t in Externals(w, pkg, FieldUses(w.messages[x].fields, w.messages[x].site))
    ensures Reached(w, pkg, p, t)
  {
    var n: nat :| x in Reach(w, pkg, p, n);
    ExternalsGrow(w, pkg, FieldUses(w.messages[x].fields, w.messages[x].site), UsesOf(w, Reach(w, pkg, p, n)));
    assert t in Reach(w, pkg, p, n + 1);
  }

  // ---- What copying keeps ----

  /** Every type of the package carries the package's own name, and the tables are keyed by type name. */
  predicate WellFormed(w: World, pkg: string, p: Package) {
    && (forall i :: 0 <= i < |p.messages| ==> p.messages[i].name.pkg == pkg)
    && (forall i :: 0 <= i < |p.enums| ==> p.enums[i].pkg == pkg)
    && (forall t :: t in w.messages ==> w.messages[t].name == t)
  }

  predicate IsLocal(p: Package, t: TypeName) {
    (exists i :: 0 <= i < |p.messages| && p.messages[i].name == t) || t in p.enums
  }

  /**
   `recorded` says which type each short name stands for: one of the package's own, or
   an external one that something in the package refers to. A recorded external
   message or enum has been copied, and nothing else has been.
   */
  ghost predicate Copying(w: World, pkg: string, start: Package, r: Package, recorded: map<string, TypeName>) {
    && Recorded(w, pkg, start, r, recorded)
    && OnlyReached(w, pkg, start, recorded)
    && Copies(w, pkg, start, r, recorded)
    && (forall s :: s in recorded ==> Present(w, pkg, r, recorded[s]))
  }

  ghost predicate Recorded(w: World, pkg: string, start: Package, r: Package, recorded: map<string, TypeName>) {
    && (forall s :: s in recorded ==> recorded[s].short == s)
    && (forall s :: s in recorded ==> IsLocal(start, recorded[s]) || recorded[s] in Externals(w, pkg, Uses(r)))
    && (forall t :: IsLocal(start, t) ==> t.short in recorded && recorded[t.short] == t)
  }

  /** Only types of the package and types it reaches are ever recorded. */
  ghost predicate OnlyReached(w: World, pkg: string, start: Package, recorded: map<string, TypeName>) {
    forall s :: s in recorded ==> IsLocal(start, recorded[s]) || Reached(w, pkg, start, recorded[s])
  }

  /** The result is the package followed by copies, each copied once. */
  predicate Copies(w: World, pkg: string, start: Package, r: Package, recorded: map<string, TypeName>) {
    && start.messages <= r.messages && start.enums <= r.enums && r.services == start.services
    && (forall i :: |start.messages| <= i < |r.messages| ==> CopiedMessage(w, pkg, recorded, r.messages[i]))
    && (forall i :: |start.enums| <= i < |r.enums| ==> CopiedEnum(w, pkg, recorded, r.enums[i]))
    && (forall i, j :: |start.messages| <= i < j < |r.messages| ==> r.messages[i].name != r.messages[j].name)
  }

  predicate CopiedMessage(w: World, pkg: string, recorded: map<string, TypeName>, m: Message) {
    m.name in w.messages && w.messages[m.name] == m && m.name.pkg != pkg && m.name.short in recorded && recorded[m.name.short] == m.name
  }

  predicate CopiedEnum(w: World, pkg: string, recorded: map<string, TypeName>, e: TypeName) {
    e in w.enums && e.pkg != pkg && e.short in recorded && recorded[e.short] == e
  }

  predicate Present(w: World, pkg: string, r: Package, t: TypeName) {
    t.pkg != pkg ==>
      && (t in w.messages ==> exists i :: 0 <= i < |r.messages| && r.messages[i] == w.messages[t])
      && (t !in w.messages && t in w.enums ==> t in r.enums)
  }

  /** Every reference to another generated package has a local short name. */
  predicate Closed(w: World, pkg: string, r: Package, recorded: map<string, TypeName>) {
    forall t :: t in Externals(w, pkg, Uses(r)) ==> t.short in recorded
  }

  lemma UsesGrow(r: Package, m: Message)
    ensures Uses(r) <= Uses(r.(messages := r.messages + [m]))
  {
    assert (r.messages + [m])[..|r.messages|] == r.messages;
  }

  lemma ExternalsGrow(w: World, pkg: string, a: set<Use>, b: set<Use>)
    requires a <= b
    ensures Externals(w, pkg, a) <= Externals(w, pkg, b)
  {
  }

  /** What one iteration of the copying loop adds. */
  function CopyOne(w: World, r: Package, t: TypeName): Package {
    if t in w.messages then r.(messages := r.messages + [w.messages[t]])
    else if t in w.enums then r.(enums := r.enums + [t])
    else r
  }

  function Size(p: Package): nat {
    |p.messages| + |p.enums|
  }

  lemma CopyOneGrows(w: World, pkg: string, r: Package, t: TypeName)
    ensures Uses(r) <= Uses(CopyOne(w, r, t))
    ensures Externals(w, pkg, Uses(r)) <= Externals(w, pkg, Uses(CopyOne(w, r, t)))
    ensures Size(CopyOne(w, r, t)) == Size(r) + (if t in w.messages || t in w.enums then 1 else 0)
  {
    if t in w.messages {
      UsesGrow(r, w.messages[t]);
    }
    ExternalsGrow(w, pkg, Uses(r), Uses(CopyOne(w, r, t)));
  }

  lemma PresentStays(w: World, pkg: string, r: Package, t: TypeName, u: TypeName)
    requires Present(w, pkg, r, u)
    ensures Present(w, pkg, CopyOne(w, r, t), u)
  {
    var q := CopyOne(w, r, t);
    if u.pkg != pkg && u in w.messages {
      var i :| 0 <= i < |r.messages| && r.messages[i] == w.messages[u];
      assert q.messages[i] == w.messages[u];
    }
  }

  lemma PresentNow(w: World, pkg: string, r: Package, t: TypeName)
    ensures Present(w, pkg, CopyOne(w, r, t), t)
  {
    var q := CopyOne(w, r, t);
    if t in w.messages {
      assert q.messages[|r.messages|] == w.messages[t];
    }
  }

  lemma CopyOneRecords(w: World, pkg: string, start: Package, r: Package, recorded: map<string, TypeName>, t: TypeName)
    requires Recorded(w, pkg, start, r, recorded) && t in Externals(w, pkg, Uses(r)) && t.short !in recorded
    ensures Recorded(w, pkg, start, CopyOne(w, r, t), recorded[t.short := t])
  {
    CopyOneGrows(w, pkg, r, t);
    var more := recorded[t.short := t];
    forall u | IsLocal(start, u) ensures u.short in more && more[u.short] == u {
      assert u.short in recorded;
    }
  }

  lemma CopyMessage(w: World, pkg: string, start: Package, r: Package, recorded: map<string, TypeName>, t: TypeName)
    requires Copies(w, pkg, start, r, recorded) && t in w.messages && w.messages[t].name == t
    requires t.pkg != pkg && t.short !in recorded
    ensures Copies(w, pkg, start, CopyOne(w, r, t), recorded[t.short := t])
  {
    var q := CopyOne(w, r, t);
    var more := recorded[t.short := t];
    forall i | |start.messages| <= i < |q.messages| ensures CopiedMessage(w, pkg, more, q.messages[i]) {
      if i < |r.messages| {
        assert CopiedMessage(w, pkg, recorded, r.messages[i]);
      }
    }
    forall i, j | |start.messages| <= i < j < |q.messages| ensures q.messages[i].name != q.messages[j].name {
      assert CopiedMessage(w, pkg, recorded, r.messages[i]);
    }
    forall i | |start.enums| <= i < |q.enums| ensures CopiedEnum(w, pkg, more, q.enums[i]) {
      assert CopiedEnum(w, pkg, recorded, r.enums[i]);
    }
  }

  lemma CopyEnum(w: World, pkg: string, start: Package, r: Package, recorded: map<string, TypeName>, t: TypeName)
    requires Copies(w, pkg, start, r, recorded) && t !in w.messages
    requires t.pkg != pkg && t.short !in recorded
    ensures Copies(w, pkg, start, CopyOne(w, r, t), recorded[t.short := t])
  {
    var q := CopyOne(w, r, t);
    var more := recorded[t.short := t];
    forall i | |start.messages| <= i < |q.messages| ensures CopiedMessage(w, pkg, more, q.messages[i]) {
      assert CopiedMessage(w, pkg, recorded, r.messages[i]);
    }
    forall i | |start.enums| <= i < |q.enums| ensures CopiedEnum(w, pkg, more, q.enums[i]) {
      if i < |r.enums| {
        assert CopiedEnum(w, pkg, recorded, r.enums[i]);
      }
    }
  }

  lemma {:induction false} MessageUsesMember(messages: seq<Message>, i: nat)
    requires i < |messages|
    ensures FieldUses(messages[i].fields, messages[i].site) <= MessageUses(messages)
  {
    var n := |messages| - 1;
    if i < n {
      MessageUsesMember(messages[..n], i);
      assert messages[..n][i] == messages[i];
    }
  }

  lemma {:induction false} MessageUseIsSomewhere(messages: seq<Message>, u: Use) returns (i: nat)
    requires u in MessageUses(messages)
    ensures i < |messages| && u in FieldUses(messages[i].fields, messages[i].site)
  {
    var n := |messages| - 1;
    if u in FieldUses(messages[n].fields, messages[n].site) {
      i := n;
    } else {
      i := MessageUseIsSomewhere(messages[..n], u);
    }
  }

  /** Whatever the package with its copies refers to, the package reaches. */
  lemma ReferencesAreReached(w: World, pkg: string, start: Package, r: Package, recorded: map<string, TypeName>, t: TypeName)
    requires WellFormed(w, pkg, start) && Copies(w, pkg, start, r, recorded) && OnlyReached(w, pkg, start, recorded)
    requires t in Externals(w, pkg, Uses(r))
    ensures Reached(w, pkg, start, t)
  {
    var u :| u in Uses(r) && External(w, pkg, u) == Some(t);
    if u in ServiceUses(r.services) {
      assert u in Uses(start) && t in Externals(w, pkg, Uses(start));
      ReachedFromPackage(w, pkg, start, t);
    } else {
      var i := MessageUseIsSomewhere(r.messages, u);
      MessageIsReached(w, pkg, start, r, recorded, i, u, t);
    }
  }

  lemma MessageIsReached(w: World, pkg: string, start: Package, r: Package, recorded: map<string, TypeName>, i: nat, u: Use, t: TypeName)
    requires WellFormed(w, pkg, start) && Copies(w, pkg, start, r, recorded) && OnlyReached(w, pkg, start, recorded)
    requires i < |r.messages| && u in FieldUses(r.messages[i].fields, r.messages[i].site) && External(w, pkg, u) == Some(t)
    ensures Reached(w, pkg, start, t)
  {
    if i < |start.messages| {
      assert r.messages[i] == start.messages[i];
      MessageUsesMember(start.messages, i);
      assert u in Uses(start) && t in Externals(w, pkg, Uses(start));
      ReachedFromPackage(w, pkg, start, t);
    } else {
      var x := r.messages[i].name;
      assert CopiedMessage(w, pkg, recorded, r.messages[i]);
      assert recorded[x.short] == x && x.pkg != pkg;
      assert !IsLocal(start, x);
      assert t in Externals(w, pkg, FieldUses(w.messages[x].fields, w.messages[x].site));
      ReachedFromMessage(w, pkg, start, x, t);
    }
  }

  lemma CopyOneKeeps(w: World, pkg: string, start: Package, r: Package, recorded: map<string, TypeName>, t: TypeName)
    requires WellFormed(w, pkg, start) && Copying(w, pkg, start, r, recorded)
    requires t in Externals(w, pkg, Uses(r)) && t.short !in recorded
    ensures Copying(w, pkg, start, CopyOne(w, r, t), recorded[t.short := t])
  {
    CopyOneRecords(w, pkg, start, r, recorded, t);
    ReferencesAreReached(w, pkg, start, r, recorded, t);
    if t in w.messages {
      CopyMessage(w, pkg, start, r, recorded, t);
    } else {
      CopyEnum(w, pkg, start, r, recorded, t);
    }
    var more := recorded[t.short := t];
    forall s | s in more ensures Present(w, pkg, CopyOne(w, r, t), more[s]) {
      if s == t.short {
        PresentNow(w, pkg, r, t);
      } else {
        PresentStays(w, pkg, r, t, more[s]);
      }
    }
  }

  // ---- copyAllExternalTypes ----

  method RecordLocal(p: Package) returns (recorded: map<string, TypeName>)
    ensures forall s :: s in recorded ==> recorded[s].short == s && IsLocal(p, recorded[s])
    ensures forall t :: IsLocal(p, t) ==> t.short in recorded
  {
    recorded := map[];
    for i := 0 to |p.messages|
      invariant forall s :: s in recorded ==> recorded[s].short == s && IsLocal(p, recorded[s])
      invariant forall j :: 0 <= j < i ==> p.messages[j].name.short in recorded
    {
      var t := p.messages[i].name;
      if t.short !in recorded {
        recorded := recorded[t.short := t];
      }
    }
    for i := 0 to |p.enums|
      invariant forall s :: s in recorded ==> recorded[s].short == s && IsLocal(p, recorded[s])
      invariant forall j :: 0 <= j < |p.messages| ==> p.messages[j].name.short in recorded
      invariant forall j :: 0 <= j < i ==> p.enums[j].short in recorded
    {
      var t := p.enums[i];
      if t.short !in recorded {
        recorded := recorded[t.short := t];
      }
    }
  }

  /** In the middle of a round that began with `r`: the needed types outside `todo` have their names. */
  ghost predicate InRound(w: World, pkg: string, start: Package, r: Package, needed: set<TypeName>,
                          q: Package, names: map<string, TypeName>, todo: set<TypeName>) {
    && Copying(w, pkg, start, q, names) && todo <= needed && Uses(r) <= Uses(q)
    && (forall t :: t in Externals(w, pkg, Uses(r)) && t !in needed ==> t.short in names)
    && (forall t :: t in needed && t !in todo ==> t.short in names)
  }

  lemma RoundSkips(w: World, pkg: string, start: Package, r: Package, needed: set<TypeName>,
                   q: Package, names: map<string, TypeName>, todo: set<TypeName>, t: TypeName)
    requires InRound(w, pkg, start, r, needed, q, names, todo) && t.short in names
    ensures InRound(w, pkg, start, r, needed, q, names, todo - {t})
  {
  }

  lemma RoundCopies(w: World, pkg: string, start: Package, r: Package, needed: set<TypeName>,
                    q: Package, names: map<string, TypeName>, todo: set<TypeName>, t: TypeName)
    requires WellFormed(w, pkg, start) && InRound(w, pkg, start, r, needed, q, names, todo) && t.short !in names
    requires t in todo && needed <= Externals(w, pkg, Uses(r))
    ensures InRound(w, pkg, start, r, needed, CopyOne(w, q, t), names[t.short := t], todo - {t})
  {
    ExternalsGrow(w, pkg, Uses(r), Uses(q));
    CopyOneKeeps(w, pkg, start, q, names, t);
    CopyOneGrows(w, pkg, q, t);
  }

  /** One round over the needed types, visited in any order. */
  method CopyRound(w: World, pkg: string, ghost start: Package, r: Package, recorded: map<string, TypeName>, needed: set<TypeName>)
    returns (q: Package, names: map<string, TypeName>, copied: nat)
    requires WellFormed(w, pkg, start) && Copying(w, pkg, start, r, recorded)
    requires needed == Needed(w, pkg, Uses(r), recorded.Keys)
    ensures Copying(w, pkg, start, q, names)
    ensures copied == 0 ==> q == r && Closed(w, pkg, q, names)
    ensures Size(q) == Size(r) + copied
  {
    q, names, copied := r, recorded, 0;
    var todo := needed;
    while todo != {}
      invariant InRound(w, pkg, start, r, needed, q, names, todo)
      invariant copied == 0 ==> q == r
      invariant Size(q) == Size(r) + copied
      decreases todo
    {
      var t :| t in todo;
      if t.short in names {
        RoundSkips(w, pkg, start, r, needed, q, names, todo, t);
      } else {
        RoundCopies(w, pkg, start, r, needed, q, names, todo, t);
        CopyOneGrows(w, pkg, q, t);
        q := CopyOne(w, q, t);
        names := names[t.short := t];
        copied := copied + (if t in w.messages || t in w.enums then 1 else 0);
      }
      todo := todo - {t};
    }
  }

  lemma StartCopies(w: World, pkg: string, p: Package, recorded: map<string, TypeName>)
    requires WellFormed(w, pkg, p)
    requires forall s :: s in recorded ==> recorded[s].short == s && IsLocal(p, recorded[s])
    requires forall t :: IsLocal(p, t) ==> t.short in recorded
    ensures Copying(w, pkg, p, p, recorded)
  {
  }

  // ---- Aliases ----

  /** The symbol after following `n` aliases; a symbol without alias stays. */
  function Follow(direct: map<string, string>, symbol: string, n: nat): string {
    if n == 0 then symbol
    else
      var s := Follow(direct, symbol, n - 1);
      if s in direct then direct[s] else s
  }

  /** A chain that comes back to an earlier symbol never leaves the aliases. */
  lemma {:induction false} CycleNeverEnds(direct: map<string, string>, symbol: string, i: nat, n: nat, k: nat)
    requires i < n && Follow(direct, symbol, i) == Follow(direct, symbol, n)
    requires forall j :: 0 <= j < n ==> Follow(direct, symbol, j) in direct
    ensures exists j :: 0 <= j < n && Follow(direct, symbol, j) == Follow(direct, symbol, k)
  {
    if k >= n {
      CycleNeverEnds(direct, symbol, i, n, k - 1);
      var j :| 0 <= j < n && Follow(direct, symbol, j) == Follow(direct, symbol, k - 1);
      assert Follow(direct, symbol, j + 1) == Follow(direct, symbol, k);
      if j + 1 == n {
        assert Follow(direct, symbol, i) == Follow(direct, symbol, k);
      }
    }
  }

  /**
   The end of the alias chain, or the symbol itself when the chain has no end. The
   index of aliases holds no empty names, so an empty lookup is a missing key.
   */
  method ResolveRoot(direct: map<string, string>, symbol: string) returns (root: string)
    ensures (exists n: nat :: root == Follow(direct, symbol, n) && root !in direct)
         || (root == symbol && forall n: nat :: Follow(direct, symbol, n) in direct)
  {
    var seen: set<string> := {};
    var current := symbol;
    ghost var n: nat := 0;
    while true
      invariant Walked(direct, symbol, n, current, seen)
      decreases direct.Keys - seen
    {
      if current in seen {
        WalkCycles(direct, symbol, n, current, seen);
        return symbol;
      }
      if current !in direct {
        assert current == Follow(direct, symbol, n);
        return current;
      }
      WalkOn(direct, symbol, n, current, seen);
      seen := seen + {current};
      current := direct[current];
      n := n + 1;
    }
  }

  /** After `n` steps the walk stands at `current` and has seen exactly the symbols before it. */
  predicate Walked(direct: map<string, string>, symbol: string, n: nat, current: string, seen: set<string>) {
    && current == Follow(direct, symbol, n)
    && seen <= direct.Keys
    && (forall j :: 0 <= j < n ==> Follow(direct, symbol, j) in seen)
    && (forall s :: s in seen ==> exists j :: 0 <= j < n && Follow(direct, symbol, j) == s)
  }

  lemma WalkOn(direct: map<string, string>, symbol: string, n: nat, current: string, seen: set<string>)
    requires Walked(direct, symbol, n, current, seen) && current in direct
    ensures Walked(direct, symbol, n + 1, direct[current], seen + {current})
  {
    var more := seen + {current};
    forall s | s in more ensures exists j :: 0 <= j < n + 1 && Follow(direct, symbol, j) == s {
      if s == current {
        assert Follow(direct, symbol, n) == s;
      } else {
        var j :| 0 <= j < n && Follow(direct, symbol, j) == s;
        assert 0 <= j < n + 1;
      }
    }
  }

  lemma WalkCycles(direct: map<string, string>, symbol: string, n: nat, current: string, seen: set<string>)
    requires Walked(direct, symbol, n, current, seen) && current in seen
    ensures forall k: nat :: Follow(direct, symbol, k) in direct
  {
    var i :| 0 <= i < n && Follow(direct, symbol, i) == current;
    forall k: nat ensures Follow(direct, symbol, k) in direct {
      CycleNeverEnds(direct, symbol, i, n, k);
    }
  }
}
