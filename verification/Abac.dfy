/** The condition compiler's validator and the evaluator of validated conditions
    (services/gateway/abac.py). */
module Abac {
  import opened Values

  datatype AttrValue = Text(s: string) | Number(n: real) | Flag(b: bool)

  type Attributes = map<string, AttrValue>

  datatype CmpOp = Eq | NotEq | Lt | Gt | LtE | GtE | OtherOp

  /** The nodes of a parsed Python expression; everything the grammar has no use for
      is Unsupported, and a literal that is neither string, number nor bool is Constant(None). */
  datatype Node =
    | And(values: seq<Node>)
    | Or(values: seq<Node>)
    | Not(operand: Node)
    | Compare(left: Node, links: seq<Link>)
    | Attribute(value: Node, attr: string)
    | Name(id: string)
    | Constant(literal: Option<AttrValue>)
    | Unsupported

  /** One further step of a chained comparison. */
  datatype Link = Link(op: CmpOp, right: Node)

  const ATTRIBUTE_ROOTS := {"identity", "tool", "context", "risk"}

  function Path(root: string, attr: string): string {
    root + "." + attr
  }

  // ----- validation -----

  predicate IsPath(node: Node) {
    node.Attribute? && node.value.Name? && node.value.id in ATTRIBUTE_ROOTS
  }

  predicate IsOperand(node: Node) {
    IsPath(node) || (node.Constant? && node.literal.Some?)
  }

  /** The whitelisted grammar. */
  predicate Valid(node: Node) {
    match node
    case And(values) => forall i :: 0 <= i < |values| ==> Valid(values[i])
    case Or(values) => forall i :: 0 <= i < |values| ==> Valid(values[i])
    case Not(operand) => Valid(operand)
    case Compare(left, links) =>
      IsOperand(left) && forall i :: 0 <= i < |links| ==> links[i].op != OtherOp && IsOperand(links[i].right)
    case _ => false
  }

  predicate NamedBy(path: string, operand: Node) {
    IsPath(operand) && path == Path(operand.value.id, operand.attr)
  }

  /** `path` is written somewhere in the expression, under any nesting. */
  predicate Occurs(path: string, node: Node) {
    match node
    case And(values) => exists i :: 0 <= i < |values| && Occurs(path, values[i])
    case Or(values) => exists i :: 0 <= i < |values| && Occurs(path, values[i])
    case Not(operand) => Occurs(path, operand)
    case Compare(left, links) =>
      NamedBy(path, left) || exists i :: 0 <= i < |links| && NamedBy(path, links[i].right)
    case _ => false
  }

  /** _validate: None stands for ValueError; otherwise the collected attribute paths. */
  method Validate(node: Node, paths: set<string>) returns (res: Option<set<string>>)
    ensures res.Some? <==> Valid(node)
    ensures res.Some? ==> forall p :: p in res.value <==> p in paths || Occurs(p, node)
    decreases node
  {
    match node {
      case And(values) => res := ValidateAll(values, paths);
      case Or(values) => res := ValidateAll(values, paths);
      case Not(operand) => res := Validate(operand, paths);
      case Compare(left, links) =>
        for i := 0 to |links|
          invariant forall j :: 0 <= j < i ==> links[j].op != OtherOp
        {
          if links[i].op == OtherOp { return None; }
        }
        var found := ValidateOperand(left, paths);
        if found.None? { return None; }
        for i := 0 to |links|
          invariant found.Some?
          invariant forall j :: 0 <= j < i ==> IsOperand(links[j].right)
          invariant forall p :: p in found.value <==>
              p in paths || NamedBy(p, left) || exists j :: 0 <= j < i && NamedBy(p, links[j].right)
        {
          found := ValidateOperand(links[i].right, found.value);
          if found.None? { return None; }
        }
        res := found;
      case _ => res := None;
    }
  }

  method ValidateAll(values: seq<Node>, paths: set<string>) returns (res: Option<set<string>>)
    ensures res.Some? <==> forall i :: 0 <= i < |values| ==> Valid(values[i])
    ensures res.Some? ==> forall p :: p in res.value <==>
        p in paths || exists i :: 0 <= i < |values| && Occurs(p, values[i])
    decreases values
  {
    var found := paths;
    for i := 0 to |values|
      invariant forall j :: 0 <= j < i ==> Valid(values[j])
      invariant forall p :: p in found <==> p in paths || exists j :: 0 <= j < i && Occurs(p, values[j])
    {
      var one := Validate(values[i], found);
      if one.None? { return None; }
      found := one.value;
    }
    return Some(found);
  }

  method ValidateOperand(node: Node, paths: set<string>) returns (res: Option<set<string>>)
    ensures res.Some? <==> IsOperand(node)
    ensures res.Some? ==> forall p :: p in res.value <==> p in paths || NamedBy(p, node)
  {
    if node.Attribute? {
      if !node.value.Name? { return None; }
      if node.value.id !in ATTRIBUTE_ROOTS { return None; }
      return Some(paths + {Path(node.value.id, node.attr)});
    } else if node.Constant? {
      return if node.literal.Some? then Some(paths) else None;
    } else {
      return None;
    }
  }

  // ----- evaluation -----

  /** What evaluating an expression comes to; Raises is a type-mismatch comparison. */
  datatype Verdict = Holds | Fails | Raises

  function Truth(b: bool): Verdict {
    if b then Holds else Fails
  }

  function Negate(v: Verdict): Verdict {
    match v case Holds => Fails case Fails => Holds case Raises => Raises
  }

  /** Python's numeric view: bool is an int subclass. */
  function AsNumber(v: AttrValue): Option<real> {
    match v
    case Number(n) => Some(n)
    case Flag(b) => Some(if b then 1.0 else 0.0)
    case Text(_) => None
  }

  function TextLess(a: string, b: string): bool {
    if b == "" then false
    else if a == "" then true
    else a[0] < b[0] || (a[0] == b[0] && TextLess(a[1..], b[1..]))
  }

  function SameValue(l: AttrValue, r: AttrValue): bool {
    if l.Text? && r.Text? then l.s == r.s
    else AsNumber(l).Some? && AsNumber(r).Some? && AsNumber(l) == AsNumber(r)
  }

  datatype Order = Before | Level | After | Clash

  /** How two values order; Clash where Python raises TypeError. */
  function Ordering(l: AttrValue, r: AttrValue): Order {
    if l.Text? && r.Text? then
      if TextLess(l.s, r.s) then Before else if l.s == r.s then Level else After
    else if AsNumber(l).Some? && AsNumber(r).Some? then
      if AsNumber(l).value < AsNumber(r).value then Before else if AsNumber(l) == AsNumber(r) then Level else After
    else Clash
  }

  function CompareValues(op: CmpOp, l: AttrValue, r: AttrValue): Verdict {
    if op == Eq then Truth(SameValue(l, r))
    else if op == NotEq then Truth(!SameValue(l, r))
    else
      var o := Ordering(l, r);
      if o == Clash then Raises
      else if op == Lt then Truth(o == Before)
      else if op == Gt then Truth(o == After)
      else if op == LtE then Truth(o != After)
      else Truth(o != Before)
  }

  /** The first place where the texts differ decides, and a text comes after its beginnings. */
  ghost predicate Precedes(a: string, b: string) {
    exists k :: PrecedesAt(a, b, k)
  }

  predicate PrecedesAt(a: string, b: string, k: int) {
    0 <= k <= |a| && k < |b| && a[..k] == b[..k] && (k == |a| || a[k] < b[k])
  }

  lemma {:induction false} TextLessMeans(a: string, b: string)
    ensures TextLess(a, b) <==> Precedes(a, b)
  {
    if b == "" {
    } else if a == "" {
      assert PrecedesAt(a, b, 0);
    } else if a[0] != b[0] {
      assert a[0] < b[0] ==> PrecedesAt(a, b, 0);
      assert forall k :: 0 < k <= |a| && k < |b| ==> a[..k][0] == a[0] && b[..k][0] == b[0];
    } else {
      TextLessMeans(a[1..], b[1..]);
      if k :| PrecedesAt(a[1..], b[1..], k) {
        assert a[..k + 1] == [a[0]] + a[1..][..k] && b[..k + 1] == [b[0]] + b[1..][..k];
        assert PrecedesAt(a, b, k + 1);
      }
      if k :| PrecedesAt(a, b, k) {
        assert a[..k][1..] == a[1..][..k - 1] && b[..k][1..] == b[1..][..k - 1];
        assert PrecedesAt(a[1..], b[1..], k - 1);
      }
    }
  }

  /** What one comparison says: numbers and texts compare as such, a bool as 0 or 1, and a
      text with anything else is unequal and cannot be ordered. */
  lemma ComparisonMeans(l: AttrValue, r: AttrValue)
    ensures l.Number? && r.Number? ==>
      && (CompareValues(Eq, l, r) == Holds <==> l.n == r.n) && (CompareValues(NotEq, l, r) == Holds <==> l.n != r.n)
      && (CompareValues(Lt, l, r) == Holds <==> l.n < r.n) && (CompareValues(LtE, l, r) == Holds <==> l.n <= r.n)
      && (CompareValues(Gt, l, r) == Holds <==> l.n > r.n) && (CompareValues(GtE, l, r) == Holds <==> l.n >= r.n)
    ensures l.Text? && r.Text? ==>
      && (CompareValues(Eq, l, r) == Holds <==> l.s == r.s) && (CompareValues(NotEq, l, r) == Holds <==> l.s != r.s)
      && (CompareValues(Lt, l, r) == Holds <==> Precedes(l.s, r.s))
      && (CompareValues(LtE, l, r) == Holds <==> Precedes(l.s, r.s) || l.s == r.s)
      && (CompareValues(Gt, l, r) == Holds <==> !Precedes(l.s, r.s) && l.s != r.s)
      && (CompareValues(GtE, l, r) == Holds <==> !Precedes(l.s, r.s))
    ensures forall op :: CompareValues(op, l, r) == Raises <==> l.Text? != r.Text? && op != Eq && op != NotEq
    ensures l.Text? != r.Text? ==> CompareValues(Eq, l, r) == Fails && CompareValues(NotEq, l, r) == Holds
    ensures l.Flag? ==> forall op :: CompareValues(op, l, r) == CompareValues(op, Number(if l.b then 1.0 else 0.0), r)
    ensures r.Flag? ==> forall op :: CompareValues(op, l, r) == CompareValues(op, l, Number(if r.b then 1.0 else 0.0))
  {
    if l.Text? && r.Text? {
      TextLessMeans(l.s, r.s);
      NotBeforeItself(l.s);
    }
  }

  lemma {:induction false} NotBeforeItself(a: string)
    ensures !TextLess(a, a)
  {
    if a != "" { NotBeforeItself(a[1..]); }
  }

  /** All paths of the expression are bound. */
  ghost predicate Bound(node: Node, attrs: Attributes) {
    forall p :: Occurs(p, node) ==> p in attrs
  }

  function OperandValue(node: Node, attrs: Attributes): AttrValue
    requires Readable(node, attrs)
  {
    if node.Attribute? then
      assert NamedBy(Path(node.value.id, node.attr), node);
      attrs[Path(node.value.id, node.attr)]
    else node.literal.value
  }

  function LeftOf(node: Node, i: nat): Node
    requires node.Compare? && i <= |node.links|
  {
    if i == 0 then node.left else node.links[i - 1].right
  }

  ghost predicate Readable(operand: Node, attrs: Attributes) {
    IsOperand(operand) && forall p :: NamedBy(p, operand) ==> p in attrs
  }

  lemma OperandsAreReadable(node: Node, attrs: Attributes)
    requires node.Compare? && Valid(node) && Bound(node, attrs)
    ensures Readable(node.left, attrs)
    ensures forall i :: 0 <= i < |node.links| ==> Readable(node.links[i].right, attrs)
  {
    assert forall p :: NamedBy(p, node.left) ==> Occurs(p, node);
    assert forall p, j :: 0 <= j < |node.links| && NamedBy(p, node.links[j].right) ==> Occurs(p, node);
  }

  /** The i-th adjacent pair of a comparison chain, evaluated on its own. */
  function PairVerdict(node: Node, attrs: Attributes, i: nat): Verdict
    requires node.Compare? && Valid(node) && Bound(node, attrs) && i < |node.links|
  {
    OperandsAreReadable(node, attrs);
    CompareValues(node.links[i].op, OperandValue(LeftOf(node, i), attrs), OperandValue(node.links[i].right, attrs))
  }

  /** The meaning of a validated expression. Conjunctions, disjunctions and chains are
      decided by their first part that does not let evaluation go on. */
  ghost function Meaning(node: Node, attrs: Attributes): Verdict
    requires Valid(node) && Bound(node, attrs)
  {
    match node
    case And(values) =>
      assert forall p, i :: 0 <= i < |values| && Occurs(p, values[i]) ==> Occurs(p, node);
      FirstOther(seq(|values|, i requires 0 <= i < |values| => Meaning(values[i], attrs)), Holds)
    case Or(values) =>
      assert forall p, i :: 0 <= i < |values| && Occurs(p, values[i]) ==> Occurs(p, node);
      FirstOther(seq(|values|, i requires 0 <= i < |values| => Meaning(values[i], attrs)), Fails)
    case Not(operand) => Negate(Meaning(operand, attrs))
    case Compare(left, links) =>
      FirstOther(seq(|links|, i requires 0 <= i < |links| => PairVerdict(node, attrs, i)), Holds)
  }

  /** The first verdict that differs from `neutral`, or `neutral` itself. */
  function FirstOther(vs: seq<Verdict>, neutral: Verdict): Verdict {
    if |vs| == 0 then neutral
    else if vs[0] != neutral then vs[0]
    else FirstOther(vs[1..], neutral)
  }

  lemma {:induction false} FirstOtherIs(vs: seq<Verdict>, neutral: Verdict, i: nat)
    requires i <= |vs| && forall j :: 0 <= j < i ==> vs[j] == neutral
    ensures i < |vs| && vs[i] != neutral ==> FirstOther(vs, neutral) == vs[i]
    ensures i == |vs| ==> FirstOther(vs, neutral) == neutral
  {
    if i > 0 {
      FirstOtherIs(vs[1..], neutral, i - 1);
    }
  }

  /** _eval: the walk over the validated tree. Every attribute it reads is bound. */
  method Eval(node: Node, attrs: Attributes) returns (res: Verdict)
    requires Valid(node) && Bound(node, attrs)
    ensures res == Meaning(node, attrs)
    decreases node
  {
    hide CompareValues, Negate, FirstOther, NamedBy, OperandValue;
    match node {
      case And(values) =>
        ghost var vs := seq(|values|, i requires 0 <= i < |values| => Meaning(values[i], attrs));
        for i := 0 to |values|
          invariant forall j :: 0 <= j < i ==> vs[j] == Holds
        {
          res := Eval(values[i], attrs);
          FirstOtherIs(vs, Holds, i);
          if res != Holds { return; }
        }
        FirstOtherIs(vs, Holds, |vs|);
        res := Holds;
      case Or(values) =>
        ghost var vs := seq(|values|, i requires 0 <= i < |values| => Meaning(values[i], attrs));
        for i := 0 to |values|
          invariant forall j :: 0 <= j < i ==> vs[j] == Fails
        {
          res := Eval(values[i], attrs);
          FirstOtherIs(vs, Fails, i);
          if res != Fails { return; }
        }
        FirstOtherIs(vs, Fails, |vs|);
        res := Fails;
      case Not(operand) =>
        res := Eval(operand, attrs);
        res := Negate(res);
      case Compare(left, links) =>
        ghost var vs := seq(|links|, i requires 0 <= i < |links| => PairVerdict(node, attrs, i));
        OperandsAreReadable(node, attrs);
        var current := OperandValue(left, attrs);
        for i := 0 to |links|
          invariant forall j :: 0 <= j < i ==> vs[j] == Holds
          invariant current == OperandValue(LeftOf(node, i), attrs)
        {
          var right := OperandValue(links[i].right, attrs);
          res := CompareValues(links[i].op, current, right);
          FirstOtherIs(vs, Holds, i);
          if res != Holds { return; }
          current := right;
        }
        FirstOtherIs(vs, Holds, |vs|);
        res := Holds;
    }
  }

  // ----- conditions -----

  datatype Condition = Condition(source: string, tree: Node, paths: set<string>)

  const MAX_CONDITION_LENGTH := 500

  ghost predicate Compiled(c: Condition) {
    Valid(c.tree) && forall p :: p in c.paths <==> Occurs(p, c.tree)
  }

  /** compile_condition: `tree` is what the parser made of the source, if it could. */
  method CompileCondition(source: string, tree: Option<Node>) returns (res: Option<Condition>)
    ensures res.Some? <==> |source| <= 500 && tree.Some? && Valid(tree.value)
    ensures res.Some? ==> Compiled(res.value) && res.value.source == source && res.value.tree == tree.value
  {
    if |source| > MAX_CONDITION_LENGTH || tree.None? { return None; }
    var paths := Validate(tree.value, {});
    if paths.None? { return None; }
    return Some(Condition(source, tree.value, paths.value));
  }

  predicate ReferencesRisk(c: Condition) {
    exists p :: p in c.paths && "risk." <= p
  }

  /** A condition holds when every path it names is bound and its expression holds. */
  ghost predicate Satisfied(c: Condition, attrs: Attributes)
    requires Compiled(c)
  {
    c.paths <= attrs.Keys && Meaning(c.tree, attrs) == Holds
  }

  /** evaluate: with a path missing nothing is evaluated; a raised TypeError is the
      caller's to treat as not satisfied. */
  method Evaluate(c: Condition, attrs: Attributes) returns (verdict: Verdict, missing: set<string>)
    requires Compiled(c)
    ensures missing == c.paths - attrs.Keys
    ensures !(c.paths <= attrs.Keys) ==> verdict == Fails
    ensures c.paths <= attrs.Keys ==> verdict == Meaning(c.tree, attrs)
    ensures verdict == Holds <==> Satisfied(c, attrs)
  {
    missing := set p | p in c.paths && p !in attrs;
    if missing != {} {
      assert exists p :: p in missing;
      return Fails, missing;
    }
    assert forall p :: p in c.paths ==> p in attrs || p in missing;
    verdict := Eval(c.tree, attrs);
  }

  /** The condition `root.attr == x`. */
  function PathIs(source: string, root: string, attr: string, x: AttrValue): (c: Condition)
    requires root in ATTRIBUTE_ROOTS
    ensures Compiled(c)
  {
    assert NamedBy(Path(root, attr), Attribute(Name(root), attr));
    Condition(source, Compare(Attribute(Name(root), attr), [Link(Eq, Constant(Some(x)))]), {Path(root, attr)})
  }

  /** Such a condition is satisfied exactly when the path is bound to a value equal to x. */
  lemma PathIsMeans(source: string, root: string, attr: string, x: AttrValue, attrs: Attributes)
    requires root in ATTRIBUTE_ROOTS
    ensures Satisfied(PathIs(source, root, attr, x), attrs)
        <==> Path(root, attr) in attrs && CompareValues(Eq, attrs[Path(root, attr)], x) == Holds
  {
    var c := PathIs(source, root, attr, x);
    assert forall p :: Occurs(p, c.tree) <==> p == Path(root, attr);
    if Path(root, attr) in attrs {
      ChainIsConjunction(c.tree, attrs);
      assert LeftOf(c.tree, 0) == c.tree.left;
      assert PairVerdict(c.tree, attrs, 0) == CompareValues(Eq, attrs[Path(root, attr)], x);
    }
  }

  /** `sub` is `node` or stands somewhere inside it. */
  predicate Inside(sub: Node, node: Node) {
    sub == node ||
    match node
    case And(values) => exists i :: 0 <= i < |values| && Inside(sub, values[i])
    case Or(values) => exists i :: 0 <= i < |values| && Inside(sub, values[i])
    case Not(operand) => Inside(sub, operand)
    case _ => false
  }

  lemma {:induction false} OccursFromInside(path: string, sub: Node, node: Node)
    requires Inside(sub, node) && Occurs(path, sub)
    ensures Occurs(path, node)
    decreases node
  {
    if sub != node {
      match node {
        case And(values) =>
          var i :| 0 <= i < |values| && Inside(sub, values[i]);
          OccursFromInside(path, sub, values[i]);
        case Or(values) =>
          var i :| 0 <= i < |values| && Inside(sub, values[i]);
          OccursFromInside(path, sub, values[i]);
        case Not(operand) => OccursFromInside(path, sub, operand);
      }
    }
  }

  /** A path that is not bound denies, however deep under not/and/or it stands. */
  lemma MissingPathDenies(c: Condition, attrs: Attributes, path: string, sub: Node)
    requires Compiled(c) && Inside(sub, c.tree) && Occurs(path, sub) && path !in attrs
    ensures !Satisfied(c, attrs)
  {
    OccursFromInside(path, sub, c.tree);
    assert path in c.paths;
  }

  /** Evaluation depends on nothing but the paths the expression names. */
  lemma {:induction false} DependsOnlyOnPaths(node: Node, a: Attributes, b: Attributes)
    requires Valid(node) && Bound(node, a) && Bound(node, b)
    requires forall p :: Occurs(p, node) ==> a[p] == b[p]
    ensures Meaning(node, a) == Meaning(node, b)
    decreases node
  {
    match node {
      case And(values) =>
        PartsAgree(node, values, a, b);
      case Or(values) =>
        PartsAgree(node, values, a, b);
      case Not(operand) =>
        DependsOnlyOnPaths(operand, a, b);
      case Compare(left, links) =>
        OperandsAreReadable(node, a);
        assert forall p :: NamedBy(p, left) ==> Occurs(p, node);
        assert forall p, j :: 0 <= j < |links| && NamedBy(p, links[j].right) ==> Occurs(p, node);
        forall i | 0 <= i < |links| ensures PairVerdict(node, a, i) == PairVerdict(node, b, i) {
          SameOperand(LeftOf(node, i), a, b);
          SameOperand(links[i].right, a, b);
        }
        assert seq(|links|, i requires 0 <= i < |links| => PairVerdict(node, a, i))
            == seq(|links|, i requires 0 <= i < |links| => PairVerdict(node, b, i));
    }
  }

  lemma SameOperand(operand: Node, a: Attributes, b: Attributes)
    requires Readable(operand, a) && Readable(operand, b)
    requires forall p :: NamedBy(p, operand) ==> a[p] == b[p]
    ensures OperandValue(operand, a) == OperandValue(operand, b)
  {
    if operand.Attribute? {
      assert NamedBy(Path(operand.value.id, operand.attr), operand);
    }
  }

  lemma PartsAgree(node: Node, values: seq<Node>, a: Attributes, b: Attributes)
    requires node == And(values) || node == Or(values)
    requires Valid(node) && Bound(node, a) && Bound(node, b)
    requires forall p :: Occurs(p, node) ==> a[p] == b[p]
    ensures Meaning(node, a) == Meaning(node, b)
    decreases node, 0
  {
    assert forall p, i :: 0 <= i < |values| && Occurs(p, values[i]) ==> Occurs(p, node);
    forall i | 0 <= i < |values| ensures Meaning(values[i], a) == Meaning(values[i], b) {
      DependsOnlyOnPaths(values[i], a, b);
    }
    assert seq(|values|, i requires 0 <= i < |values| => Meaning(values[i], a))
        == seq(|values|, i requires 0 <= i < |values| => Meaning(values[i], b));
  }

  /** A chained comparison is the conjunction of its adjacent pairs: it holds exactly
      when all of them do, and where no pair raises it fails exactly when one fails. */
  lemma ChainIsConjunction(node: Node, attrs: Attributes)
    requires node.Compare? && Valid(node) && Bound(node, attrs)
    ensures Meaning(node, attrs) == Holds <==>
        forall i :: 0 <= i < |node.links| ==> PairVerdict(node, attrs, i) == Holds
    ensures (forall i :: 0 <= i < |node.links| ==> PairVerdict(node, attrs, i) != Raises) ==>
        Meaning(node, attrs) != Raises
  {
    var vs := seq(|node.links|, i requires 0 <= i < |node.links| => PairVerdict(node, attrs, i));
    assert forall i :: 0 <= i < |vs| ==> vs[i] == PairVerdict(node, attrs, i);
    if i :| 0 <= i < |vs| && vs[i] != Holds {
      var first := FirstIndex(vs, i);
      FirstOtherIs(vs, Holds, first);
    } else {
      FirstOtherIs(vs, Holds, |vs|);
    }
  }

  lemma {:induction false} FirstOtherMeans(vs: seq<Verdict>, neutral: Verdict, v: Verdict)
    requires v != neutral
    ensures FirstOther(vs, neutral) == v <==> exists i :: Decisive(vs, neutral, v, i)
    ensures FirstOther(vs, neutral) == neutral <==> forall i :: 0 <= i < |vs| ==> vs[i] == neutral
  {
    if |vs| > 0 && vs[0] == neutral {
      FirstOtherMeans(vs[1..], neutral, v);
      if i :| Decisive(vs[1..], neutral, v, i) {
        assert Decisive(vs, neutral, v, i + 1);
      }
      if i :| Decisive(vs, neutral, v, i) {
        assert Decisive(vs[1..], neutral, v, i - 1);
      }
      if FirstOther(vs, neutral) == neutral {
        assert forall i :: 0 <= i < |vs| ==> i == 0 || vs[i] == vs[1..][i - 1];
      }
      if forall i :: 0 <= i < |vs| ==> vs[i] == neutral {
        assert forall i :: 0 <= i < |vs[1..]| ==> vs[1..][i] == vs[i + 1];
      }
    } else if |vs| > 0 {
      assert Decisive(vs, neutral, vs[0], 0);
    }
  }

  predicate Decisive(vs: seq<Verdict>, neutral: Verdict, v: Verdict, i: int) {
    0 <= i < |vs| && vs[i] == v && forall j :: 0 <= j < i ==> vs[j] == neutral
  }

  /** A conjunction holds exactly when every part does, a disjunction exactly when some part
      holds after parts that fail, and a negation exactly when its operand fails. A part
      that raises counts only where the parts before it let evaluation go on. */
  lemma ConnectivesMean(parts: seq<Node>, attrs: Attributes)
    requires Valid(And(parts)) && Bound(And(parts), attrs)
    ensures Valid(Or(parts)) && Bound(Or(parts), attrs)
    ensures forall i :: 0 <= i < |parts| ==> Valid(parts[i]) && Bound(parts[i], attrs)
    ensures
      var vs := seq(|parts|, i requires 0 <= i < |parts| => Meaning(parts[i], attrs));
      && (Meaning(And(parts), attrs) == Holds <==> forall i :: 0 <= i < |vs| ==> vs[i] == Holds)
      && (Meaning(And(parts), attrs) == Raises <==> exists i :: Decisive(vs, Holds, Raises, i))
      && (Meaning(Or(parts), attrs) == Holds <==> exists i :: Decisive(vs, Fails, Holds, i))
      && (Meaning(Or(parts), attrs) == Raises <==> exists i :: Decisive(vs, Fails, Raises, i))
  {
    assert forall p, i :: 0 <= i < |parts| && Occurs(p, parts[i]) ==> Occurs(p, And(parts));
    assert forall p :: Occurs(p, Or(parts)) <==> Occurs(p, And(parts));
    assert forall i :: 0 <= i < |parts| ==> Bound(parts[i], attrs);
    var vs := seq(|parts|, i requires 0 <= i < |parts| => Meaning(parts[i], attrs));
    FirstOtherMeans(vs, Holds, Raises);
    FirstOtherMeans(vs, Fails, Holds);
    FirstOtherMeans(vs, Fails, Raises);
  }

  lemma NegationMeans(operand: Node, attrs: Attributes)
    requires Valid(operand) && Bound(operand, attrs)
    ensures Valid(Not(operand)) && Bound(Not(operand), attrs)
    ensures Meaning(Not(operand), attrs) == Holds <==> Meaning(operand, attrs) == Fails
    ensures Meaning(Not(operand), attrs) == Raises <==> Meaning(operand, attrs) == Raises
  {
    assert forall p :: Occurs(p, Not(operand)) <==> Occurs(p, operand);
  }

  lemma FirstIndex(vs: seq<Verdict>, i: nat) returns (first: nat)
    requires i < |vs| && vs[i] != Holds
    ensures first <= i && vs[first] != Holds && forall j :: 0 <= j < first ==> vs[j] == Holds
  {
    first := 0;
    while vs[first] == Holds
      invariant first <= i && forall j :: 0 <= j < first ==> vs[j] == Holds
      decreases i - first
    {
      first := first + 1;
    }
  }

  /** Checking the conditions that do not mention risk before a score exists and the
      others once it does gives the verdict of one pass with the score bound. */
  lemma TwoPhasesEqualOnePass(conditions: seq<Condition>, attrs: Attributes, score: AttrValue)
    requires forall c :: c in conditions ==> Compiled(c)
    ensures
      var scored := attrs["risk.score" := score];
      (&& (forall c :: c in conditions && !ReferencesRisk(c) ==> Satisfied(c, attrs))
       && (forall c :: c in conditions && ReferencesRisk(c) ==> Satisfied(c, scored)))
      <==> forall c :: c in conditions ==> Satisfied(c, scored)
  {
    var scored := attrs["risk.score" := score];
    forall c | c in conditions && !ReferencesRisk(c)
      ensures Satisfied(c, attrs) <==> Satisfied(c, scored)
    {
      assert "risk." <= "risk.score";
      assert "risk.score" !in c.paths;
      assert c.paths <= attrs.Keys <==> c.paths <= scored.Keys;
      if c.paths <= attrs.Keys {
        DependsOnlyOnPaths(c.tree, attrs, scored);
      }
    }
  }

  /** A validated path starts with "risk." exactly when its root is risk. */
  lemma RiskPathsAreRootedInRisk(root: string, attr: string)
    requires root in ATTRIBUTE_ROOTS
    ensures "risk." <= Path(root, attr) <==> root == "risk"
  {
    var path := Path(root, attr);
    if root == "risk" {
      assert path[..5] == "risk.";
    } else {
      assert path[0] == root[0];
    }
  }
}
