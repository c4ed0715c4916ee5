/** Severity of a change between two tool definitions, read off their JSON schemas
    (services/gateway/drift_detector.py, _classify_schema and classify). */
module DriftClassifier {
  import opened Values

  /** Raised stands for the TypeError on an unhashable `required` entry. */
  datatype Drift = Same | Low | Medium | High | Critical | Raised

  function Rank(d: Drift): nat {
    match d case Same => 0 case Low => 1 case Medium => 2 case High => 3 case Critical => 4 case Raised => 5
  }

  function Max(a: Drift, b: Drift): Drift {
    if Rank(a) < Rank(b) then b else a
  }

  predicate Blocks(d: Drift) {
    Rank(d) >= Rank(High)
  }

  // ----- the parts of a schema node -----

  predicate Falsy(j: Json) {
    j in {Null, Bool(false), Str(""), Arr([]), Obj(map[])} || (j.Num? && j.digits == 0)
  }

  function Or(j: Json, fallback: Json): Json {
    if Falsy(j) then fallback else j
  }

  function Properties(o: Object): Json {
    Or(Get(o, "properties"), Obj(map[]))
  }

  function Required(o: Object): Json {
    Or(Get(o, "required"), Arr([]))
  }

  function Elements(j: Json): set<Json> {
    if j.Arr? then set x | x in j.items else {}
  }

  predicate Hashable(j: Json) {
    !j.Arr? && !j.Obj?
  }

  predicate AllHashable(j: Json) {
    j.Arr? ==> forall x :: x in j.items ==> Hashable(x)
  }

  const HANDLED := {"type", "description", "properties", "required", "items"}

  function Rest(o: Object, handled: set<string>): Object {
    o - handled
  }

  // ----- one node -----

  predicate BothLists(o: Object, n: Object) {
    Required(o).Arr? && Required(n).Arr?
  }

  /** The entries of `required` that are compared by name: none unless both are lists. */
  function RequiredNames(o: Object, n: Object): (set<Json>, set<Json>) {
    if BothLists(o, n) then (Elements(Required(o)), Elements(Required(n))) else ({}, {})
  }

  predicate BothDeclare(o: Object, n: Object) {
    Properties(o).Obj? && Properties(n).Obj?
  }

  function Added(o: Object, n: Object): set<string> {
    if BothDeclare(o, n) then Properties(n).members.Keys - Properties(o).members.Keys else {}
  }

  function Removed(o: Object, n: Object): set<string> {
    Added(n, o)
  }

  function Kept(o: Object, n: Object): set<string> {
    if BothDeclare(o, n) then Properties(n).members.Keys * Properties(o).members.Keys else {}
  }

  predicate Requires(names: set<Json>, property: string) {
    Str(property) in names
  }

  /** A type change, a new property that is required, or a property that became required
      or optional. */
  predicate CriticalChange(o: Object, n: Object) {
    var (was, now) := RequiredNames(o, n);
    || Get(o, "type") != Get(n, "type")
    || (exists p :: p in Added(o, n) && Requires(now, p))
    || (exists p :: p in Kept(o, n) && Requires(was, p) != Requires(now, p))
  }

  /** A required entry that differs and names no declared property. */
  predicate StrayRequirement(o: Object, n: Object) {
    var (was, now) := RequiredNames(o, n);
    BothDeclare(o, n) && exists x :: x in (was - now) + (now - was) && !(x.Str? && x.s in Added(o, n) + Removed(o, n) + Kept(o, n))
  }

  predicate HighChange(o: Object, n: Object) {
    || Removed(o, n) != {}
    || StrayRequirement(o, n)
    || (!BothLists(o, n) && Required(o) != Required(n))
    || (!BothDeclare(o, n) && Properties(o) != Properties(n))
    || (!(Get(o, "items").Obj? && Get(n, "items").Obj?) && Get(o, "items") != Get(n, "items"))
    || Rest(o, HANDLED) != Rest(n, HANDLED)
  }

  predicate Unhashable(o: Object, n: Object) {
    BothLists(o, n) && !(AllHashable(Required(o)) && AllHashable(Required(n)))
  }

  /** The severity of what changed at one node, its children apart. */
  function NodeDrift(before: Json, after: Json): Drift {
    if before == after then Same
    else if !before.Obj? || !after.Obj? then High
    else
      var o, n := before.members, after.members;
      if Unhashable(o, n) then Raised
      else if CriticalChange(o, n) then Critical
      else if HighChange(o, n) then High
      else if Added(o, n) != {} then Medium
      else if Get(o, "description") != Get(n, "description") then Low
      else Same
  }

  // ----- all the nodes that two schemas share -----

  datatype Hop = Property(name: string) | Items

  function Child(j: Json, hop: Hop): Option<Json> {
    if !j.Obj? then None
    else match hop
      case Property(name) =>
        var ps := Properties(j.members);
        if ps.Obj? && name in ps.members then Some(ps.members[name]) else None
      case Items =>
        var it := Get(j.members, "items");
        if it.Obj? then Some(it) else None
  }

  function NodeAt(j: Json, path: seq<Hop>): Option<Json> {
    if |path| == 0 then Some(j)
    else
      var c := Child(j, path[0]);
      if c.None? then None else NodeAt(c.value, path[1..])
  }

  /** Both schemas have a node there. */
  predicate SharedPath(o: Json, n: Json, path: seq<Hop>) {
    NodeAt(o, path).Some? && NodeAt(n, path).Some?
  }

  function DriftAt(o: Json, n: Json, path: seq<Hop>): Drift
    requires SharedPath(o, n, path)
  {
    NodeDrift(NodeAt(o, path).value, NodeAt(n, path).value)
  }

  ghost predicate AtMost(o: Json, n: Json, d: Drift) {
    forall path :: SharedPath(o, n, path) ==> Rank(DriftAt(o, n, path)) <= Rank(d)
  }

  /** The worst change at any shared node. */
  ghost predicate IsWorst(o: Json, n: Json, d: Drift) {
    AtMost(o, n, d) && exists path :: SharedPath(o, n, path) && DriftAt(o, n, path) == d
  }

  ghost predicate Attains(o: Json, n: Json, d: Drift) {
    exists path :: SharedPath(o, n, path) && DriftAt(o, n, path) == d
  }

  ghost function Worst(o: Json, n: Json): Drift {
    if Attains(o, n, Raised) then Raised
    else if Attains(o, n, Critical) then Critical
    else if Attains(o, n, High) then High
    else if Attains(o, n, Medium) then Medium
    else if Attains(o, n, Low) then Low
    else Same
  }

  lemma WorstIsTheWorst(o: Json, n: Json, d: Drift)
    ensures IsWorst(o, n, d) <==> d == Worst(o, n)
  {
    var w := Worst(o, n);
    assert SharedPath(o, n, []);
    forall path | SharedPath(o, n, path) ensures Rank(DriftAt(o, n, path)) <= Rank(w) {
      assert Attains(o, n, DriftAt(o, n, path));
    }
    assert AtMost(o, n, w);
    assert Attains(o, n, w) by { assert Attains(o, n, DriftAt(o, n, [])); }
  }

  lemma {:induction false} NothingBelowEqualNodes(j: Json, path: seq<Hop>)
    requires SharedPath(j, j, path)
    ensures DriftAt(j, j, path) == Same
  {
  }

  lemma Beneath(o: Json, n: Json, hop: Hop, path: seq<Hop>)
    requires Child(o, hop).Some? && Child(n, hop).Some?
    ensures SharedPath(o, n, [hop] + path) <==> SharedPath(Child(o, hop).value, Child(n, hop).value, path)
    ensures SharedPath(o, n, [hop] + path) ==>
      DriftAt(o, n, [hop] + path) == DriftAt(Child(o, hop).value, Child(n, hop).value, path)
  {
    assert ([hop] + path)[1..] == path;
  }

  method AddedRules(added: set<string>, now: set<Json>) returns (worst: Drift)
    ensures worst == if exists p :: p in added && Requires(now, p) then Critical
                     else if added != {} then Medium else Same
  {
    worst := Same;
    var todo := added;
    while todo != {}
      invariant todo <= added
      invariant worst == if exists p :: p in added - todo && Requires(now, p) then Critical
                         else if added - todo != {} then Medium else Same
      decreases |todo|
    {
      var p :| p in todo;
      assert added - (todo - {p}) == (added - todo) + {p};
      todo := todo - {p};
      worst := Max(worst, if Requires(now, p) then Critical else Medium);
    }
    assert added - {} == added;
  }

  /** What the property rules come to. */
  function PropertyDrift(o: Object, n: Object): Drift {
    var (was, now) := RequiredNames(o, n);
    if !BothDeclare(o, n) then (if Properties(o) != Properties(n) then High else Same)
    else if (exists p :: p in Added(o, n) && Requires(now, p))
      || (exists p :: p in Kept(o, n) && Requires(was, p) != Requires(now, p)) then Critical
    else if Removed(o, n) != {} || StrayRequirement(o, n) then High
    else if Added(o, n) != {} then Medium else Same
  }

  /** The rules on properties and on what is required of them. */
  method PropertyRules(o: Object, n: Object, was: set<Json>, now: set<Json>) returns (worst: Drift)
    requires BothDeclare(o, n) && RequiredNames(o, n) == (was, now)
    ensures worst == PropertyDrift(o, n)
  {
    var added, removed, kept := Added(o, n), Removed(o, n), Kept(o, n);
    var changed := (was - now) + (now - was);
    worst := AddedRules(added, now);
    if removed != {} { worst := Max(worst, High); }
    assert forall p :: Requires(changed, p) <==> Requires(was, p) != Requires(now, p);
    if exists p :: p in kept && Requires(changed, p) { worst := Max(worst, Critical); }
    if exists x :: x in changed && !(x.Str? && x.s in added + removed + kept) { worst := Max(worst, High); }
  }

  function If(fires: bool, d: Drift): Drift {
    if fires then d else Same
  }

  predicate ItemsChange(o: Object, n: Object) {
    !(Get(o, "items").Obj? && Get(n, "items").Obj?) && Get(o, "items") != Get(n, "items")
  }

  /** A node's severity is the worst of its rules. */
  lemma NodeDriftIsWorstRule(o: Object, n: Object)
    requires o != n && !Unhashable(o, n)
    ensures NodeDrift(Obj(o), Obj(n)) ==
      Max(Max(Max(Max(Max(
        If(Get(o, "type") != Get(n, "type"), Critical),
        If(Get(o, "description") != Get(n, "description"), Low)),
        If(!BothLists(o, n) && Required(o) != Required(n), High)),
        PropertyDrift(o, n)),
        If(ItemsChange(o, n), High)),
        If(Rest(o, HANDLED) != Rest(n, HANDLED), High))
  {
    hide Required, Properties, Elements, AllHashable, Rest, Requires;
  }

  /** The rules of one node: every rule that fires adds its severity, and the worst counts; an
      unhashable `required` entry raises whatever else fires. */
  method NodeRules(o: Object, n: Object) returns (worst: Drift)
    requires o != n
    ensures worst == NodeDrift(Obj(o), Obj(n))
  {
    if Unhashable(o, n) {
      return Raised;
    }
    NodeDriftIsWorstRule(o, n);
    hide NodeDrift, PropertyDrift, Required, Properties, Elements, Rest, Unhashable;
    var was, now: set<Json> := {}, {};
    worst := Same;
    if Get(o, "type") != Get(n, "type") { worst := Max(worst, Critical); }
    if Get(o, "description") != Get(n, "description") { worst := Max(worst, Low); }
    if BothLists(o, n) {
      was, now := Elements(Required(o)), Elements(Required(n));
    } else if Required(o) != Required(n) {
      worst := Max(worst, High);
    }
    var more := High;
    if BothDeclare(o, n) {
      more := PropertyRules(o, n, was, now);
    } else if Properties(o) == Properties(n) {
      more := Same;
    }
    UndeclaredDrift(o, n);
    worst := Max(worst, more);
    if ItemsChange(o, n) { worst := Max(worst, High); }
    if Rest(o, HANDLED) != Rest(n, HANDLED) { worst := Max(worst, High); }
  }

  lemma UndeclaredDrift(o: Object, n: Object)
    ensures !BothDeclare(o, n) ==> PropertyDrift(o, n) == if Properties(o) != Properties(n) then High else Same
  {
  }

  /** Every shared path of two objects is empty or goes through a shared child. */
  lemma FirstHop(o: Object, n: Object, path: seq<Hop>)
    requires SharedPath(Obj(o), Obj(n), path) && |path| > 0
    ensures Child(Obj(o), path[0]).Some? && Child(Obj(n), path[0]).Some?
    ensures path[0].Property? ==> path[0].name in Kept(o, n)
    ensures path == [path[0]] + path[1..]
  {
  }

  /** _classify_schema: the worst change at any node that both schemas share. */
  method ClassifySchema(before: Json, after: Json) returns (worst: Drift)
    ensures IsWorst(before, after, worst)
    decreases before
  {
    if before == after {
      forall path | SharedPath(before, after, path) ensures DriftAt(before, after, path) == Same {
        NothingBelowEqualNodes(before, path);
      }
      assert SharedPath(before, after, []) && DriftAt(before, after, []) == Same;
      return Same;
    }
    if !before.Obj? || !after.Obj? {
      assert SharedPath(before, after, []) && DriftAt(before, after, []) == High;
      return High;
    }
    var o, n := before.members, after.members;
    worst := NodeRules(o, n);
    ghost var place: seq<Hop> := [];
    assert SharedPath(before, after, place) && DriftAt(before, after, place) == worst;
    if worst == Raised {
      return;
    }
    var todo := Kept(o, n);
    while todo != {}
      invariant todo <= Kept(o, n)
      invariant SharedPath(before, after, place) && DriftAt(before, after, place) == worst
      invariant Rank(NodeDrift(before, after)) <= Rank(worst)
      invariant forall p :: p in Kept(o, n) - todo ==> Settled(before, after, Property(p), worst)
      decreases |todo|
    {
      var p :| p in todo;
      todo := todo - {p};
      var below := ClassifySchema(Properties(o).members[p], Properties(n).members[p]);
      place := WorseOf(before, after, Property(p), worst, below, place);
      ghost var prior := worst;
      worst := Max(worst, below);
      forall q | q in Kept(o, n) - todo ensures Settled(before, after, Property(q), worst) {
        if q != p { SettledGrows(before, after, Property(q), prior, worst); }
      }
    }
    if Get(o, "items").Obj? && Get(n, "items").Obj? {
      var below := ClassifySchema(Get(o, "items"), Get(n, "items"));
      place := WorseOf(before, after, Items, worst, below, place);
      ghost var prior := worst;
      worst := Max(worst, below);
      forall p | p in Kept(o, n) ensures Settled(before, after, Property(p), worst) {
        SettledGrows(before, after, Property(p), prior, worst);
      }
    }
    forall path | SharedPath(before, after, path) ensures Rank(DriftAt(before, after, path)) <= Rank(worst) {
      if |path| > 0 {
        FirstHop(o, n, path);
        Beneath(before, after, path[0], path[1..]);
        assert Settled(before, after, path[0], worst);
      }
    }
  }

  /** Everything below the hop is known to be at most `d`. */
  ghost predicate Settled(o: Json, n: Json, hop: Hop, d: Drift) {
    Child(o, hop).Some? && Child(n, hop).Some? && AtMost(Child(o, hop).value, Child(n, hop).value, d)
  }

  lemma SettledGrows(o: Json, n: Json, hop: Hop, d: Drift, e: Drift)
    requires Settled(o, n, hop, d) && Rank(d) <= Rank(e)
    ensures Settled(o, n, hop, e)
  {
    var a, b := Child(o, hop).value, Child(n, hop).value;
    forall path | SharedPath(a, b, path) ensures Rank(DriftAt(a, b, path)) <= Rank(e) {
      assert Rank(DriftAt(a, b, path)) <= Rank(d);
    }
  }

  /** Where the worse of what is known and what a child brings is found. */
  lemma WorseOf(o: Json, n: Json, hop: Hop, worst: Drift, below: Drift, known: seq<Hop>) returns (path: seq<Hop>)
    requires Child(o, hop).Some? && Child(n, hop).Some?
    requires IsWorst(Child(o, hop).value, Child(n, hop).value, below)
    requires SharedPath(o, n, known) && DriftAt(o, n, known) == worst
    ensures SharedPath(o, n, path) && DriftAt(o, n, path) == Max(worst, below)
    ensures Settled(o, n, hop, Max(worst, below))
  {
    var a, b := Child(o, hop).value, Child(n, hop).value;
    assert Settled(o, n, hop, below);
    SettledGrows(o, n, hop, below, Max(worst, below));
    path := known;
    if Rank(worst) < Rank(below) {
      var inner :| SharedPath(a, b, inner) && DriftAt(a, b, inner) == below;
      Beneath(o, n, hop, inner);
      path := [hop] + inner;
    }
  }

  // ----- what the severities mean -----

  /** The new node extends the old one: same type and other keywords, no declared property
      taken away, nothing newly required, and nothing dropped from `required` but names
      that the old schema never declared. Where either side's `properties` or `required`
      is of another shape, those must be equal, and `required` lists beside unreadable
      `properties` are not compared at all. */
  predicate NodeExtends(before: Json, after: Json) {
    || before == after
    || (before.Obj? && after.Obj? && Extends(before.members, after.members))
  }

  predicate Extends(o: Object, n: Object) {
    && Get(o, "type") == Get(n, "type")
    && Rest(o, HANDLED) == Rest(n, HANDLED)
    && (Get(o, "items") == Get(n, "items") || (Get(o, "items").Obj? && Get(n, "items").Obj?))
    && (if BothDeclare(o, n) then Properties(o).members.Keys <= Properties(n).members.Keys else Properties(o) == Properties(n))
    && (if BothLists(o, n) then AllHashable(Required(o)) && AllHashable(Required(n)) && (BothDeclare(o, n) ==> RequiresNoMore(o, n))
        else Required(o) == Required(n))
  }

  predicate RequiresNoMore(o: Object, n: Object) {
    var was, now := Elements(Required(o)), Elements(Required(n));
    && now <= was
    && (forall x :: x in was && x !in now ==> x.Str? && x.s in Added(o, n))
    && (forall p :: p in Added(o, n) ==> !Requires(now, p))
  }

  lemma StrayMeansNotAdded(o: Object, n: Object)
    requires BothDeclare(o, n) && Removed(o, n) == {} && BothLists(o, n)
    ensures RequiresNoMore(o, n) <==>
      && !StrayRequirement(o, n)
      && (forall p :: p in Added(o, n) ==> !Requires(Elements(Required(n)), p))
      && (forall p :: p in Kept(o, n) ==> Requires(Elements(Required(o)), p) == Requires(Elements(Required(n)), p))
  {
    var was, now := Elements(Required(o)), Elements(Required(n));
    if RequiresNoMore(o, n) {
      forall x | x in (was - now) + (now - was) ensures x.Str? && x.s in Added(o, n) {}
    } else if !StrayRequirement(o, n) {
      forall x | x in (was - now) + (now - was) ensures x.Str? && x.s in Added(o, n) + Kept(o, n) {}
      if x :| x in now && x !in was {
        assert Requires(now, x.s) && !Requires(was, x.s);
      } else if x :| x in was && x !in now && !(x.Str? && x.s in Added(o, n)) {
        assert !Requires(now, x.s) && Requires(was, x.s);
      }
    }
  }

  lemma NodeIsMildExactlyWhenItExtends(before: Json, after: Json)
    ensures !Blocks(NodeDrift(before, after)) <==> NodeExtends(before, after)
  {
    if before != after && before.Obj? && after.Obj? {
      var o, n := before.members, after.members;
      if BothDeclare(o, n) {
        assert Removed(o, n) == Properties(o).members.Keys - Properties(n).members.Keys;
        assert Removed(o, n) == {} ==> forall p :: p in Properties(o).members ==> p !in Removed(o, n);
      }
      if BothDeclare(o, n) && BothLists(o, n) && Removed(o, n) == {} {
        StrayMeansNotAdded(o, n);
      }
    }
  }

  /** A change does not block exactly when the new schema extends the old one at every
      node they share. */
  lemma MildExactlyWhenExtendsEverywhere(o: Json, n: Json, d: Drift)
    requires IsWorst(o, n, d)
    ensures !Blocks(d) <==> forall path :: SharedPath(o, n, path) ==> NodeExtends(NodeAt(o, path).value, NodeAt(n, path).value)
  {
    forall path | SharedPath(o, n, path)
      ensures !Blocks(DriftAt(o, n, path)) <==> NodeExtends(NodeAt(o, path).value, NodeAt(n, path).value)
    {
      NodeIsMildExactlyWhenItExtends(NodeAt(o, path).value, NodeAt(n, path).value);
    }
  }

  /** A type change at any depth that properties or items lead to makes the whole change
      critical, or raises where some shared node has an unhashable `required`. */
  lemma TypeChangeIsCritical(o: Json, n: Json, path: seq<Hop>, d: Drift)
    requires IsWorst(o, n, d) && SharedPath(o, n, path)
    requires NodeAt(o, path).value.Obj? && NodeAt(n, path).value.Obj?
    requires Get(NodeAt(o, path).value.members, "type") != Get(NodeAt(n, path).value.members, "type")
    ensures d in {Critical, Raised}
    ensures d == Raised <==> exists q :: SharedPath(o, n, q) && DriftAt(o, n, q) == Raised
  {
    assert Rank(DriftAt(o, n, path)) >= Rank(Critical);
  }

  // ----- the whole tool definition -----

  const TOOL_HANDLED := {"description", "inputSchema"}

  function InputSchema(tool: Object): Json {
    Or(Get(tool, "inputSchema"), Obj(map[]))
  }

  /** The severity of the whole change, given the worst of its input schema. */
  function Combined(hash: Object -> string, textual: Drift, o: Object, n: Object, schema: Drift): Drift {
    if schema == Raised then Raised
    else
      var text := if Get(o, "description") != Get(n, "description") then textual else Same;
      var other := if Rest(o, TOOL_HANDLED) != Rest(n, TOOL_HANDLED) then High else Same;
      var d := Max(Max(text, schema), other);
      if d == Same && hash(o) != hash(n) then High else d
  }

  /** The severity of the whole change. */
  ghost function ToolDrift(hash: Object -> string, textual: Drift, o: Object, n: Object): Drift {
    Combined(hash, textual, o, n, Worst(InputSchema(o), InputSchema(n)))
  }

  /** The configured severity of a description change. */
  ghost predicate Configured(textual: Drift) {
    textual != Same && textual != Raised
  }

  ghost predicate Injective(hash: Object -> string) {
    forall a, b :: hash(a) == hash(b) ==> a == b
  }

  /** classify */
  method Classify(hash: Object -> string, textual: Drift, o: Object, n: Object) returns (d: Drift)
    ensures d == ToolDrift(hash, textual, o, n)
  {
    var schema := ClassifySchema(InputSchema(o), InputSchema(n));
    WorstIsTheWorst(InputSchema(o), InputSchema(n), schema);
    if schema == Raised {
      return Raised;
    }
    var worst := Same;
    if Get(o, "description") != Get(n, "description") { worst := Max(worst, textual); }
    worst := Max(worst, schema);
    if Rest(o, TOOL_HANDLED) != Rest(n, TOOL_HANDLED) { worst := Max(worst, High); }
    d := worst;
    if worst == Same && hash(o) != hash(n) {
      d := High;
    }
  }

  /** No drift is reported exactly between equal definitions. */
  lemma NoDriftExactlyWhenEqual(hash: Object -> string, textual: Drift, o: Object, n: Object)
    requires Injective(hash) && Configured(textual)
    ensures ToolDrift(hash, textual, o, n) == Same <==> o == n
  {
    if o == n {
      var schema := InputSchema(o);
      WorstIsTheWorst(schema, schema, Worst(schema, schema));
      var path :| SharedPath(schema, schema, path) && DriftAt(schema, schema, path) == Worst(schema, schema);
      NothingBelowEqualNodes(schema, path);
    }
  }

  /** The input schema extends the old one at every node they share. */
  ghost predicate SchemaExtends(o: Object, n: Object) {
    forall path :: SharedPath(InputSchema(o), InputSchema(n), path) ==>
      NodeExtends(NodeAt(InputSchema(o), path).value, NodeAt(InputSchema(n), path).value)
  }

  /** Some severity is named: the description, or something the schema rules look at. */
  ghost predicate SomethingNamed(o: Object, n: Object) {
    || Get(o, "description") != Get(n, "description")
    || exists path :: SharedPath(InputSchema(o), InputSchema(n), path) && DriftAt(InputSchema(o), InputSchema(n), path) != Same
  }

  /** A change of definition does not block exactly when its description is unchanged or
      configured not to block, its other fields are unchanged, its schema extends the old
      one, and the change is one that the rules name. */
  lemma ToolIsMildExactlyWhen(hash: Object -> string, textual: Drift, o: Object, n: Object)
    requires Injective(hash) && Configured(textual)
    ensures !Blocks(ToolDrift(hash, textual, o, n)) <==>
      || o == n
      || (&& (Get(o, "description") == Get(n, "description") || !Blocks(textual))
          && o - {"description", "inputSchema"} == n - {"description", "inputSchema"}
          && SchemaExtends(o, n) && SomethingNamed(o, n))
  {
    var a, b := InputSchema(o), InputSchema(n);
    var schema := Worst(a, b);
    WorstIsTheWorst(a, b, schema);
    MildExactlyWhenExtendsEverywhere(a, b, schema);
    NoDriftExactlyWhenEqual(hash, textual, o, n);
    assert schema == Same <==> forall path :: SharedPath(a, b, path) ==> DriftAt(a, b, path) == Same;
  }

  const ONCE: Object := map["required" := Arr([Str("a"), Str("b")])]
  const SWAPPED: Object := map["required" := Arr([Str("b"), Str("a")])]
  const SWAPPED_AND_MORE: Object := map["required" := Arr([Str("b"), Str("a")]), "properties" := Obj(map["c" := Obj(map[])])]

  function Tool(schema: Object): Object {
    map["inputSchema" := Obj(schema)]
  }

  lemma SwappedNodes()
    ensures NodeDrift(Obj(ONCE), Obj(SWAPPED)) == Same
    ensures NodeDrift(Obj(ONCE), Obj(SWAPPED_AND_MORE)) == Medium
  {
    assert Elements(Required(ONCE)) == Elements(Required(SWAPPED)) == Elements(Required(SWAPPED_AND_MORE));
    assert Rest(ONCE, HANDLED) == map[] == Rest(SWAPPED, HANDLED) == Rest(SWAPPED_AND_MORE, HANDLED);
    assert Added(ONCE, SWAPPED_AND_MORE) == {"c"};
  }

  // ----- the table, edit by edit -----

  /** Setting one key of a tool, the schema apart, to a value it did not have: a new
      description counts as configured, anything else is HIGH. */
  lemma ToolEdit(hash: Object -> string, textual: Drift, o: Object, k: string, x: Json)
    requires Configured(textual) && Get(o, k) != x && (k !in o ==> x != Null) && k != "inputSchema"
    ensures ToolDrift(hash, textual, o, o[k := x]) == if k == "description" then textual else High
  {
    var n, schema := o[k := x], InputSchema(o);
    assert InputSchema(n) == schema;
    AllSame(schema);
    if k == "description" {
      assert Rest(o, TOOL_HANDLED) == Rest(n, TOOL_HANDLED);
    } else {
      assert k in Rest(n, TOOL_HANDLED) && Rest(n, TOOL_HANDLED)[k] == x;
      assert Get(o, "description") == Get(n, "description");
    }
  }

  /** The node requires the named properties and no others, as text. */
  predicate Lists(o: Object, names: seq<string>) {
    "required" in o && o["required"].Arr? && |o["required"].items| == |names|
    && forall i :: 0 <= i < |names| ==> o["required"].items[i] == Str(names[i])
  }

  lemma ListedNames(o: Object, names: seq<string>)
    requires Lists(o, names)
    ensures Required(o).Arr? && AllHashable(Required(o))
    ensures forall x :: x in Elements(Required(o)) <==> x.Str? && x.s in names
  {
    forall x: Json | x.Str? && x.s in names ensures x in o["required"].items {
      var i :| 0 <= i < |names| && names[i] == x.s;
      assert o["required"].items[i] == x;
    }
  }

  /** A list or an object among the required entries of both nodes makes a change raise. */
  lemma UnhashableEntry(o: Object, k: string, x: Json, i: nat)
    requires "required" in o && o["required"].Arr? && i < |o["required"].items|
    requires o["required"].items[i].Arr? || o["required"].items[i].Obj?
    requires Get(o, k) != x && (k !in o ==> x != Null) && k != "required"
    ensures NodeDrift(Obj(o), Obj(o[k := x])) == Raised
  {
    var n := o[k := x];
    assert Obj(n).members[k] == x && n["required"] == o["required"];
    assert Required(o) == o["required"] && Required(n) == o["required"];
    assert o["required"].items[i] in Required(o).items && !Hashable(o["required"].items[i]);
    assert Unhashable(o, n);
  }

  /** A part that is absent, null, false, zero or empty counts as the default. */
  lemma EmptyPartsCountAsDefault(o: Object, j: Json)
    ensures
      var empty := match j case Null => true case Bool(v) => !v case Num(digits, _) => digits == 0
                           case Str(text) => text == "" case Arr(items) => items == [] case Obj(members) => members == map[];
      && Properties(o["properties" := j]) == (if empty then Obj(map[]) else j)
      && Required(o["required" := j]) == (if empty then Arr([]) else j)
      && InputSchema(o["inputSchema" := j]) == (if empty then Obj(map[]) else j)
  {
  }

  /** Setting one key, properties and required apart, to a value it did not have. */
  lemma KeyEdit(o: Object, names: seq<string>, k: string, x: Json)
    requires Lists(o, names) && Get(o, k) != x && (k !in o ==> x != Null)
    requires k != "properties" && k != "required"
    ensures NodeDrift(Obj(o), Obj(o[k := x])) ==
      if k == "type" then Critical
      else if k == "description" then Low
      else if k == "items" && k in o && o[k].Obj? && x.Obj? then Same
      else High
  {
    var n := o[k := x];
    ListedNames(o, names);
    assert n["required"] == o["required"];
    ListedNames(n, names);
    assert Obj(o) != Obj(n) by { assert Obj(n).members[k] == x; }
    assert Properties(o) == Properties(n) && Required(o) == Required(n);
    assert Added(o, n) == {} && Removed(o, n) == {};
    if k in {"type", "description", "items"} {
      assert Rest(o, HANDLED) == Rest(n, HANDLED);
    } else {
      assert k in Rest(n, HANDLED) && Rest(n, HANDLED)[k] == x;
    }
  }

  lemma PropertyAdded(o: Object, names: seq<string>, p: string, x: Json)
    requires Lists(o, names) && names != [] && "properties" in o && o["properties"].Obj?
    requires p !in o["properties"].members && p !in names
    ensures
      var more := o["properties" := Obj(o["properties"].members[p := x])];
      && NodeDrift(Obj(o), Obj(more)) == Medium
      && NodeDrift(Obj(o), Obj(more["required" := Arr(o["required"].items + [Str(p)])])) == Critical
  {
    var ps := o["properties"].members;
    var more := o["properties" := Obj(ps[p := x])];
    var strict := more["required" := Arr(o["required"].items + [Str(p)])];
    ListedNames(o, names);
    ListedNames(more, names);
    ListedNames(strict, names + [p]);
    DeclaredAre(o, ps);
    DeclaredAre(more, ps[p := x]);
    DeclaredAre(strict, ps[p := x]);
    assert Obj(more) != Obj(o) && Obj(strict) != Obj(o) by {
      assert Obj(more).members["properties"] != o["properties"] by { assert p in ps[p := x]; }
    }
    assert Rest(o, HANDLED) == Rest(more, HANDLED);
    assert Added(o, more) == {p} && Removed(o, more) == {} && Kept(o, more) == ps.Keys;
    assert p in Added(o, strict) && Requires(Elements(Required(strict)), p);
  }

  lemma PropertyRemoved(o: Object, names: seq<string>, p: string)
    requires Lists(o, names) && names != [] && "properties" in o && o["properties"].Obj? && p in o["properties"].members
    ensures NodeDrift(Obj(o), Obj(o["properties" := Obj(o["properties"].members - {p})])) == High
  {
    var ps := o["properties"].members;
    var less := o["properties" := Obj(ps - {p})];
    ListedNames(o, names);
    ListedNames(less, names);
    DeclaredAre(o, ps);
    DeclaredAre(less, ps - {p});
    assert Obj(less) != Obj(o) by { assert p !in ps - {p}; }
    assert p in Removed(o, less) && Added(o, less) == {};
  }

  lemma PropertyRequired(o: Object, names: seq<string>, p: string)
    requires Lists(o, names) && names != [] && "properties" in o && o["properties"].Obj?
    requires p in o["properties"].members && p !in names
    ensures NodeDrift(Obj(o), Obj(o["required" := Arr(o["required"].items + [Str(p)])])) == Critical
  {
    var ps := o["properties"].members;
    var strict := o["required" := Arr(o["required"].items + [Str(p)])];
    ListedNames(o, names);
    ListedNames(strict, names + [p]);
    DeclaredAre(o, ps);
    DeclaredAre(strict, ps);
    assert Obj(strict) != Obj(o) by { assert Str(p) in strict["required"].items && Str(p) !in o["required"].items; }
    assert p in Kept(o, strict);
  }

  lemma DeclaredAre(o: Object, ps: Object)
    requires "properties" in o && o["properties"] == Obj(ps)
    ensures Properties(o) == Obj(ps)
  {
  }

  /** What changed below one hop, and nowhere else, is what counts. */
  lemma OnlyBelow(before: Json, after: Json, hop: Hop, a: Json, b: Json)
    requires NodeDrift(before, after) == Same
    requires Child(before, hop) == Some(a) && Child(after, hop) == Some(b)
    requires forall h :: h != hop ==> Child(before, h) == Child(after, h)
    ensures Worst(before, after) == Worst(a, b)
  {
    hide NodeDrift, Child, Worst;
    var w := Worst(a, b);
    WorstIsTheWorst(a, b, w);
    forall path | SharedPath(before, after, path) ensures Rank(DriftAt(before, after, path)) <= Rank(w) {
      if path != [] {
        var h, rest := path[0], path[1..];
        assert path == [h] + rest;
        Beneath(before, after, h, rest);
        if h != hop { NothingBelowEqualNodes(Child(before, h).value, rest); }
      }
    }
    var place :| SharedPath(a, b, place) && DriftAt(a, b, place) == w;
    Beneath(before, after, hop, place);
    assert SharedPath(before, after, [hop] + place);
    WorstIsTheWorst(before, after, w);
  }

  /** Changing the schema of one property, or of the items, counts as that change does. */
  lemma NestedEdit(o: Object, names: seq<string>, p: string, x: Json)
    requires Lists(o, names) && names != []
    ensures "properties" in o && o["properties"].Obj? && p in o["properties"].members ==>
      var ps := o["properties"].members;
      Worst(Obj(o), Obj(o["properties" := Obj(ps[p := x])])) == Worst(ps[p], x)
    ensures "items" in o && o["items"].Obj? && x.Obj? ==>
      Worst(Obj(o), Obj(o["items" := x])) == Worst(o["items"], x)
  {
    hide Worst;
    if "properties" in o && o["properties"].Obj? && p in o["properties"].members {
      PropertyNested(o, names, p, x);
    }
    if "items" in o && o["items"].Obj? && x.Obj? {
      ItemsNested(o, names, x);
    }
  }

  lemma PropertyNested(o: Object, names: seq<string>, p: string, x: Json)
    requires Lists(o, names) && names != [] && "properties" in o && o["properties"].Obj? && p in o["properties"].members
    ensures
      var ps := o["properties"].members;
      Worst(Obj(o), Obj(o["properties" := Obj(ps[p := x])])) == Worst(ps[p], x)
  {
    hide Worst;
    var ps := o["properties"].members;
    var n := o["properties" := Obj(ps[p := x])];
    ListedNames(o, names);
    ListedNames(n, names);
    DeclaredAre(o, ps);
    DeclaredAre(n, ps[p := x]);
    assert Required(o) == Required(n) && Rest(o, HANDLED) == Rest(n, HANDLED);
    assert Added(o, n) == {} && Removed(o, n) == {} && ps[p := x].Keys == ps.Keys;
    assert NodeDrift(Obj(o), Obj(n)) == Same;
    forall h | h != Property(p) ensures Child(Obj(o), h) == Child(Obj(n), h) {
      match h case Property(q) => case Items => assert Get(o, "items") == Get(n, "items");
    }
    OnlyBelow(Obj(o), Obj(n), Property(p), ps[p], x);
  }

  lemma ItemsNested(o: Object, names: seq<string>, x: Json)
    requires Lists(o, names) && names != [] && "items" in o && o["items"].Obj? && x.Obj?
    ensures Worst(Obj(o), Obj(o["items" := x])) == Worst(o["items"], x)
  {
    hide Worst;
    var n := o["items" := x];
    if x == o["items"] {
      assert n == o;
      AllSame(Obj(o));
      AllSame(x);
    } else {
      KeyEdit(o, names, "items", x);
      assert Properties(o) == Properties(n);
      OnlyBelow(Obj(o), Obj(n), Items, o["items"], x);
    }
  }

  lemma AllSame(j: Json)
    ensures Worst(j, j) == Same
  {
    WorstIsTheWorst(j, j, Worst(j, j));
    var path :| SharedPath(j, j, path) && DriftAt(j, j, path) == Worst(j, j);
    NothingBelowEqualNodes(j, path);
  }

  /** Declaring one more property, removing one, or requiring one more of the declared. */
  lemma PropertyEdit(o: Object, names: seq<string>, p: string, x: Json)
    requires Lists(o, names) && names != [] && "properties" in o && o["properties"].Obj?
    ensures
      var ps := o["properties"].members;
      var more := o["properties" := Obj(ps[p := x])];
      && (p !in ps && p !in names ==>
            && NodeDrift(Obj(o), Obj(more)) == Medium
            && NodeDrift(Obj(o), Obj(more["required" := Arr(o["required"].items + [Str(p)])])) == Critical)
      && (p in ps ==> NodeDrift(Obj(o), Obj(o["properties" := Obj(ps - {p})])) == High)
      && (p in ps && p !in names ==> NodeDrift(Obj(o), Obj(o["required" := Arr(o["required"].items + [Str(p)])])) == Critical)
  {
    hide NodeDrift;
    var ps := o["properties"].members;
    if p !in ps && p !in names { PropertyAdded(o, names, p, x); }
    if p in ps { PropertyRemoved(o, names, p); }
    if p in ps && p !in names { PropertyRequired(o, names, p); }
  }

  /** Severity does not grow with the change: reordering `required` is nothing the rules
      name, so alone it blocks as unclassifiable, but beside a new optional property it
      does not. */
  lemma ReorderingBlocksOnlyAlone(hash: Object -> string, textual: Drift)
    requires Injective(hash)
    ensures ToolDrift(hash, textual, Tool(ONCE), Tool(SWAPPED)) == High
    ensures ToolDrift(hash, textual, Tool(ONCE), Tool(SWAPPED_AND_MORE)) == Medium
  {
    SwappedNodes();
    ReorderedIsAnotherTool();
    RootOnlySchemas();
    ToolOfTheRoot(hash, textual, ONCE, SWAPPED);
    ToolOfTheRoot(hash, textual, ONCE, SWAPPED_AND_MORE);
  }

  lemma ReorderedIsAnotherTool()
    ensures Tool(ONCE) != Tool(SWAPPED) && ONCE != map[] && SWAPPED != map[] && SWAPPED_AND_MORE != map[]
  {
    assert Str("a") != Str("b");
    assert Arr([Str("a"), Str("b")]).items[0] != Arr([Str("b"), Str("a")]).items[0];
    assert ONCE["required"] != SWAPPED["required"];
    assert Tool(ONCE)["inputSchema"] != Tool(SWAPPED)["inputSchema"];
    assert "required" in SWAPPED_AND_MORE;
  }

  lemma RootOnlySchemas()
    ensures forall path :: SharedPath(Obj(ONCE), Obj(SWAPPED), path) ==> path == []
    ensures forall path :: SharedPath(Obj(ONCE), Obj(SWAPPED_AND_MORE), path) ==> path == []
  {
    OnlyTheRoot(ONCE, SWAPPED);
    OnlyTheRoot(ONCE, SWAPPED_AND_MORE);
  }

  lemma ToolOfTheRoot(hash: Object -> string, textual: Drift, o: Object, n: Object)
    requires o != map[] && n != map[]
    requires forall path :: SharedPath(Obj(o), Obj(n), path) ==> path == []
    ensures ToolDrift(hash, textual, Tool(o), Tool(n)) == Combined(hash, textual, Tool(o), Tool(n), NodeDrift(Obj(o), Obj(n)))
    ensures Rest(Tool(o), TOOL_HANDLED) == Rest(Tool(n), TOOL_HANDLED)
    ensures Get(Tool(o), "description") == Get(Tool(n), "description")
  {
    assert InputSchema(Tool(o)) == Obj(o) && InputSchema(Tool(n)) == Obj(n);
    assert Rest(Tool(o), TOOL_HANDLED) == map[] == Rest(Tool(n), TOOL_HANDLED);
    WorstIsTheWorst(Obj(o), Obj(n), Worst(Obj(o), Obj(n)));
    assert SharedPath(Obj(o), Obj(n), []);
  }

  lemma OnlyTheRoot(o: Object, n: Object)
    requires Properties(o) == Obj(map[]) && !Get(o, "items").Obj?
    ensures forall path :: SharedPath(Obj(o), Obj(n), path) ==> path == []
  {
    forall path | SharedPath(Obj(o), Obj(n), path) ensures path == [] {
      if |path| > 0 { FirstHop(o, n, path); }
    }
  }
}
