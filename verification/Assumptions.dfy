/** The assumptions about hashes, keys and signatures can be met: JSON values and texts can
    be written one-to-one as texts, so collision-free digests exist, and so do the rest. */
module Assumptions {
  import opened Values
  import opened AuditRecords
  import Classifier = DriftClassifier
  import Detector = DriftDetector
  import Keys = AuditKeys
  import Activation = PolicyActivation

  // ----- a one-to-one writing, each part announcing its own end -----

  function Unary(n: nat): string {
    if n == 0 then "." else "1" + Unary(n - 1)
  }

  function Signed(i: int): string {
    if i < 0 then "-" + Unary(-i) else "+" + Unary(i)
  }

  function Quoted(s: string): string {
    Unary(|s|) + s
  }

  ghost function Written(j: Json): string
    decreases j, 1
  {
    match j
    case Null => "n"
    case Bool(b) => if b then "t" else "f"
    case Num(digits, scale) => "i" + (Signed(digits) + Unary(scale))
    case Str(s) => "s" + Quoted(s)
    case Arr(items) => "a" + (Unary(|items|) + WrittenItems(items, j))
    case Obj(members) => "o" + (Unary(|members|) + WrittenMembers(members, j))
  }

  ghost function WrittenItems(items: seq<Json>, whole: Json): string
    requires forall i :: 0 <= i < |items| ==> items[i] < whole
    decreases whole, 0, |items|
  {
    if items == [] then "" else Written(items[0]) + WrittenItems(items[1..], whole)
  }

  /** The members in the order in which they happen to be picked. */
  ghost function WrittenMembers(members: Object, whole: Json): string
    requires forall k :: k in members ==> members[k] < whole
    decreases whole, 0, |members|
  {
    if members == map[] then ""
    else
      var k := Pick(members);
      Quoted(k) + (Written(members[k]) + WrittenMembers(members - {k}, whole))
  }

  ghost function Pick(members: Object): (k: string)
    requires members != map[]
    ensures k in members
  {
    assert members.Keys != {};
    var k :| k in members;
    k
  }

  // ----- what was written can be told apart, whatever follows -----

  lemma {:induction false} UnaryTells(m: nat, n: nat, x: string, y: string)
    requires Unary(m) + x == Unary(n) + y
    ensures m == n && x == y
  {
    Heads(Unary(m), x, Unary(n), y);
    if m > 0 && n > 0 {
      assert Unary(m) + x == "1" + (Unary(m - 1) + x) && Unary(n) + y == "1" + (Unary(n - 1) + y);
      Tails("1", Unary(m - 1) + x, Unary(n - 1) + y);
      UnaryTells(m - 1, n - 1, x, y);
    } else if m == 0 && n == 0 {
      Tails(".", x, y);
    }
  }

  lemma Heads(a: string, x: string, b: string, y: string)
    requires a != "" && b != "" && a + x == b + y
    ensures a[0] == b[0]
  {
    assert (a + x)[0] == (b + y)[0];
  }

  lemma Tails(a: string, x: string, y: string)
    requires a + x == a + y
    ensures x == y
  {
    assert (a + x)[|a|..] == x && (a + y)[|a|..] == y;
  }

  lemma Regroup(a: string, b: string, c: string)
    ensures (a + b) + c == a + (b + c)
  {
  }

  lemma SignedTells(i: int, j: int, x: string, y: string)
    requires Signed(i) + x == Signed(j) + y
    ensures i == j && x == y
  {
    Heads(Signed(i), x, Signed(j), y);
    var sign := if i < 0 then "-" else "+";
    var m, n := if i < 0 then -i else i, if j < 0 then -j else j;
    Regroup(sign, Unary(m), x);
    Regroup(sign, Unary(n), y);
    Tails(sign, Unary(m) + x, Unary(n) + y);
    UnaryTells(m, n, x, y);
  }

  lemma QuotedTells(s: string, t: string, x: string, y: string)
    requires Quoted(s) + x == Quoted(t) + y
    ensures s == t && x == y
  {
    Regroup(Unary(|s|), s, x);
    Regroup(Unary(|t|), t, y);
    UnaryTells(|s|, |t|, s + x, t + y);
    assert s == (s + x)[..|s|] == (t + y)[..|t|] == t;
    Tails(s, x, y);
  }

  lemma {:induction false} WrittenTells(a: Json, b: Json, x: string, y: string)
    requires Written(a) + x == Written(b) + y
    ensures a == b && x == y
    decreases a, 1
  {
    Heads(Written(a), x, Written(b), y);
    match a {
      case Null => Tails("n", x, y);
      case Bool(v) => Tails(Written(a), x, y);
      case Num(digits, scale) =>
        Regroup("i", Signed(digits) + Unary(scale), x);
        Regroup("i", Signed(b.digits) + Unary(b.scale), y);
        Tails("i", Signed(digits) + Unary(scale) + x, Signed(b.digits) + Unary(b.scale) + y);
        Regroup(Signed(digits), Unary(scale), x);
        Regroup(Signed(b.digits), Unary(b.scale), y);
        SignedTells(digits, b.digits, Unary(scale) + x, Unary(b.scale) + y);
        UnaryTells(scale, b.scale, x, y);
      case Str(s) =>
        Regroup("s", Quoted(s), x);
        Regroup("s", Quoted(b.s), y);
        Tails("s", Quoted(s) + x, Quoted(b.s) + y);
        QuotedTells(s, b.s, x, y);
      case Arr(items) =>
        var u, v := WrittenItems(items, a), WrittenItems(b.items, b);
        Counted("a", |items|, |b.items|, u, v, x, y);
        ItemsTell(items, a, b.items, b, x, y);
      case Obj(members) =>
        var u, v := WrittenMembers(members, a), WrittenMembers(b.members, b);
        Counted("o", |members|, |b.members|, u, v, x, y);
        MembersTell(members, a, b.members, b, x, y);
    }
  }

  lemma Counted(tag: string, m: nat, n: nat, u: string, v: string, x: string, y: string)
    requires tag + (Unary(m) + u) + x == tag + (Unary(n) + v) + y
    ensures m == n && u + x == v + y
  {
    Regroup(tag, Unary(m) + u, x);
    Regroup(tag, Unary(n) + v, y);
    Tails(tag, Unary(m) + u + x, Unary(n) + v + y);
    Regroup(Unary(m), u, x);
    Regroup(Unary(n), v, y);
    UnaryTells(m, n, u + x, v + y);
  }

  lemma {:induction false} ItemsTell(a: seq<Json>, wholeA: Json, b: seq<Json>, wholeB: Json, x: string, y: string)
    requires (forall i :: 0 <= i < |a| ==> a[i] < wholeA) && (forall i :: 0 <= i < |b| ==> b[i] < wholeB)
    requires |a| == |b| && WrittenItems(a, wholeA) + x == WrittenItems(b, wholeB) + y
    ensures a == b && x == y
    decreases wholeA, 0, |a|
  {
    if a != [] {
      var u, v := WrittenItems(a[1..], wholeA) + x, WrittenItems(b[1..], wholeB) + y;
      Regroup(Written(a[0]), WrittenItems(a[1..], wholeA), x);
      Regroup(Written(b[0]), WrittenItems(b[1..], wholeB), y);
      WrittenTells(a[0], b[0], u, v);
      ItemsTell(a[1..], wholeA, b[1..], wholeB, x, y);
      assert a == [a[0]] + a[1..] && b == [b[0]] + b[1..];
    } else {
      assert "" + x == x && "" + y == y;
    }
  }

  lemma {:induction false} MembersTell(a: Object, wholeA: Json, b: Object, wholeB: Json, x: string, y: string)
    requires (forall k :: k in a ==> a[k] < wholeA) && (forall k :: k in b ==> b[k] < wholeB)
    requires |a| == |b| && WrittenMembers(a, wholeA) + x == WrittenMembers(b, wholeB) + y
    ensures a == b && x == y
    decreases wholeA, 0, |a|
  {
    if a == map[] {
      assert b == map[] && "" + x == x && "" + y == y;
    } else {
      var k, l := Pick(a), Pick(b);
      var u, v := WrittenMembers(a - {k}, wholeA), WrittenMembers(b - {l}, wholeB);
      Regroup(Quoted(k), Written(a[k]) + u, x);
      Regroup(Quoted(l), Written(b[l]) + v, y);
      QuotedTells(k, l, Written(a[k]) + u + x, Written(b[l]) + v + y);
      Regroup(Written(a[k]), u, x);
      Regroup(Written(b[l]), v, y);
      WrittenTells(a[k], b[l], u + x, v + y);
      MembersTell(a - {k}, wholeA, b - {l}, wholeB, x, y);
      assert a == (a - {k})[k := a[k]] && b == (b - {l})[l := b[l]];
    }
  }

  lemma OneToOne(a: Object, b: Object)
    ensures Written(Obj(a)) + "!" == Written(Obj(b)) + "!" ==> a == b
  {
    if Written(Obj(a)) + "!" == Written(Obj(b)) + "!" {
      WrittenTells(Obj(a), Obj(b), "!", "!");
    }
  }

  // ----- the assumptions are met -----

  ghost function DigestOf(prev: string, payload: Object): string {
    Quoted(prev) + (Written(Obj(payload)) + "!")
  }

  lemma DigestsDiffer(p: string, m: Object, q: string, n: Object)
    requires DigestOf(p, m) == DigestOf(q, n)
    ensures p == q && m == n
  {
    QuotedTells(p, q, Written(Obj(m)) + "!", Written(Obj(n)) + "!");
    OneToOne(m, n);
  }

  /** Collision-free digests, checking signatures and distinct fingerprints exist together. */
  lemma CryptoExists() returns (c: Crypto)
    ensures CollisionFree(c) && SignaturesCheck(c) && Keys.DistinctKeys(c)
  {
    c := Crypto((p, m) => DigestOf(p, m), k => k, (k: PublicKey) => Unary(k), (k, h) => k, (k, s, h) => s == k);
    forall p, m, q, n | c.digest(p, m) == c.digest(q, n) ensures p == q && m == n {
      DigestsDiffer(p, m, q, n);
    }
    forall p, m ensures c.digest(p, m) != GENESIS_HASH {
      var d := c.digest(p, m);
      assert d[|d| - 1] == '!' && GENESIS_HASH[|GENESIS_HASH| - 1] == '0';
    }
    forall j, k | Keys.KeyIdOf(c, j) == Keys.KeyIdOf(c, k) ensures j == k {
      UnaryTells(j, k, "", "");
    }
  }

  /** Settings with a one-to-one hash exist, for every shape, name, heuristic and severity. */
  lemma SettingsExist(shape: Object -> string, name: Object -> string, suspicious: Object -> bool, textual: Classifier.Drift)
    returns (st: Detector.Settings)
    requires Classifier.Configured(textual)
    ensures Detector.Sensible(st) && st.shape == shape && st.name == name && st.suspicious == suspicious && st.textual == textual
  {
    var hash := (o: Object) => Written(Obj(o)) + "!";
    st := Detector.Settings(hash, shape, name, suspicious, textual);
    forall a, b | hash(a) == hash(b) ensures a == b {
      OneToOne(a, b);
    }
    forall t ensures st.hash(t) != Detector.SENTINEL {
      var h := st.hash(t);
      assert h[|h| - 1] == '!' && Detector.SENTINEL[|Detector.SENTINEL| - 1] == '-';
    }
  }

  lemma ReadingExists(version: string -> int) returns (p: Activation.Reading)
    ensures Activation.HashInjective(p) && p.version == version
  {
    p := Activation.Reading(s => s, version);
  }
}
