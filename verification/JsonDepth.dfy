/** The one-pass depth limit on JSON-RPC bodies, against the JSON grammar
    (_parse_mcp_body in services/gateway/main.py; RFC 8259, sections 2, 4, 5 and 7). */
module JsonDepth {
  import opened Values

  // ----- JSON texts -----

  /** One character of a string as written. */
  datatype Piece = Plain(c: char) | Escape(c: char) | Unicode(digits: string)

  datatype Value =
    | Literal(token: string)
    | Text(pieces: seq<Piece>)
    | Array(items: seq<Padded>, empty: string)
    | Object(members: seq<Member>, empty: string)

  /** A value with the whitespace around it. */
  datatype Padded = Padded(left: string, value: Value, right: string)

  datatype Member = Member(left: string, name: seq<Piece>, right: string, value: Padded)

  predicate IsSpace(s: string) {
    forall c :: c in s ==> c in {' ', '\t', '\n', '\r'}
  }

  predicate IsPiece(p: Piece) {
    match p
    case Plain(c) => c >= ' ' && c != '"' && c != '\\'
    case Escape(c) => c in {'"', '\\', '/', 'b', 'f', 'n', 'r', 't'}
    case Unicode(digits) => |digits| == 4 && forall c :: c in digits ==> c in "0123456789abcdefABCDEF"
  }

  predicate IsToken(t: string) {
    t in {"true", "false", "null"} || forall c :: c in t ==> c in "0123456789+-.eE"
  }

  predicate Legal(v: Value) {
    match v
    case Literal(token) => IsToken(token)
    case Text(pieces) => forall p :: p in pieces ==> IsPiece(p)
    case Array(items, empty) => IsSpace(empty) && forall i :: i in items ==> LegalPadded(i)
    case Object(members, empty) =>
      IsSpace(empty)
      && forall m :: m in members ==>
           IsSpace(m.left) && (forall p :: p in m.name ==> IsPiece(p)) && IsSpace(m.right) && LegalPadded(m.value)
  }

  predicate LegalPadded(p: Padded) {
    IsSpace(p.left) && Legal(p.value) && IsSpace(p.right)
  }

  /** How deeply arrays and objects are nested. */
  function Depth(v: Value): nat {
    match v
    case Literal(_) => 0
    case Text(_) => 0
    case Array(items, _) => 1 + DeepestItem(items)
    case Object(members, _) => 1 + DeepestMember(members)
  }

  function Max(a: nat, b: nat): nat {
    if a < b then b else a
  }

  function DeepestItem(items: seq<Padded>): nat {
    if |items| == 0 then 0 else Max(Depth(items[0].value), DeepestItem(items[1..]))
  }

  function DeepestMember(members: seq<Member>): nat {
    if |members| == 0 then 0 else Max(Depth(members[0].value.value), DeepestMember(members[1..]))
  }

  // ----- how they are written -----

  function WritePiece(p: Piece): string {
    match p
    case Plain(c) => [c]
    case Escape(c) => ['\\', c]
    case Unicode(digits) => ['\\', 'u'] + digits
  }

  function WritePieces(pieces: seq<Piece>): string {
    if |pieces| == 0 then "" else WritePiece(pieces[0]) + WritePieces(pieces[1..])
  }

  function WriteText(pieces: seq<Piece>): string {
    "\"" + WritePieces(pieces) + "\""
  }

  function Write(v: Value): string {
    match v
    case Literal(token) => token
    case Text(pieces) => WriteText(pieces)
    case Array(items, empty) => "[" + (if |items| == 0 then empty else WriteItems(items)) + "]"
    case Object(members, empty) => "{" + (if |members| == 0 then empty else WriteMembers(members)) + "}"
  }

  function WritePadded(p: Padded): string {
    p.left + Write(p.value) + p.right
  }

  function WriteItems(items: seq<Padded>): string
    requires |items| > 0
  {
    if |items| == 1 then WritePadded(items[0]) else WritePadded(items[0]) + ("," + WriteItems(items[1..]))
  }

  function WriteMember(m: Member): string {
    m.left + (WriteText(m.name) + (m.right + (":" + WritePadded(m.value))))
  }

  function WriteMembers(members: seq<Member>): string
    requires |members| > 0
  {
    if |members| == 1 then WriteMember(members[0]) else WriteMember(members[0]) + ("," + WriteMembers(members[1..]))
  }

  // ----- the scan -----

  datatype Scanner = Scanner(depth: int, inString: bool, escaped: bool)

  /** One character; None where the body is refused. */
  function Step(s: Scanner, c: char, limit: nat): Option<Scanner> {
    if s.inString then
      Some(if s.escaped then s.(escaped := false)
           else if c == '\\' then s.(escaped := true)
           else if c == '"' then s.(inString := false)
           else s)
    else if c == '"' then Some(s.(inString := true))
    else if c in "[{" then (if s.depth + 1 > limit then None else Some(s.(depth := s.depth + 1)))
    else if c in "]}" then Some(s.(depth := s.depth - 1))
    else Some(s)
  }

  function Scan(s: Scanner, text: string, limit: nat): Option<Scanner>
    decreases |text|
  {
    if |text| == 0 then Some(s)
    else
      var next := Step(s, text[0], limit);
      if next.None? then None else Scan(next.value, text[1..], limit)
  }

  /** A scan that goes on where another ended. */
  function Onward(s: Option<Scanner>, text: string, limit: nat): Option<Scanner> {
    if s.None? then None else Scan(s.value, text, limit)
  }

  function Outside(depth: int): Scanner {
    Scanner(depth, false, false)
  }

  lemma {:induction false} ScanConcat(s: Scanner, a: string, b: string, limit: nat)
    ensures Scan(s, a + b, limit) == Onward(Scan(s, a, limit), b, limit)
    decreases |a|
  {
    if |a| == 0 {
      assert a + b == b;
    } else {
      assert (a + b)[1..] == a[1..] + b;
      var next := Step(s, a[0], limit);
      if next.Some? { ScanConcat(next.value, a[1..], b, limit); }
    }
  }

  lemma ScanFirst(s: Scanner, c: char, rest: string, limit: nat)
    ensures Scan(s, [c] + rest, limit) == Onward(Step(s, c, limit), rest, limit)
    ensures Scan(s, [c], limit) == Step(s, c, limit)
  {
    assert ([c] + rest)[1..] == rest;
    assert [c][1..] == [];
  }

  /** Characters that mean nothing outside a string. */
  lemma {:induction false} ScanPlain(d: int, text: string, limit: nat)
    requires forall c :: c in text ==> c !in {'"', '[', '{', ']', '}'}
    ensures Scan(Outside(d), text, limit) == Some(Outside(d))
  {
    if |text| > 0 {
      assert text[0] in text && forall c :: c in text[1..] ==> c in text;
      ScanPlain(d, text[1..], limit);
    }
  }

  lemma {:induction false} ScanHex(d: int, digits: string, limit: nat)
    requires forall c :: c in digits ==> c != '"' && c != '\\'
    ensures Scan(Scanner(d, true, false), digits, limit) == Some(Scanner(d, true, false))
  {
    if |digits| > 0 {
      assert digits[0] in digits && forall c :: c in digits[1..] ==> c in digits;
      ScanHex(d, digits[1..], limit);
    }
  }

  lemma ScanEscape(d: int, c: char, limit: nat)
    ensures Scan(Scanner(d, true, false), ['\\', c], limit) == Some(Scanner(d, true, false))
  {
    ScanFirst(Scanner(d, true, false), '\\', [c], limit);
    ScanFirst(Scanner(d, true, true), c, [], limit);
    assert ['\\', c] == ['\\'] + [c];
  }

  lemma ScanPiece(d: int, p: Piece, limit: nat)
    requires IsPiece(p)
    ensures Scan(Scanner(d, true, false), WritePiece(p), limit) == Some(Scanner(d, true, false))
  {
    hide Scan;
    match p {
      case Plain(c) =>
        ScanFirst(Scanner(d, true, false), c, "", limit);
      case Escape(c) =>
        ScanEscape(d, c, limit);
      case Unicode(digits) =>
        ScanConcat(Scanner(d, true, false), ['\\', 'u'], digits, limit);
        ScanEscape(d, 'u', limit);
        ScanHex(d, digits, limit);
    }
  }

  /** Nothing a string is written with is taken for structure. */
  lemma {:induction false} ScanPieces(d: int, pieces: seq<Piece>, limit: nat)
    requires forall p :: p in pieces ==> IsPiece(p)
    ensures Scan(Scanner(d, true, false), WritePieces(pieces), limit) == Some(Scanner(d, true, false))
  {
    if |pieces| > 0 {
      ScanConcat(Scanner(d, true, false), WritePiece(pieces[0]), WritePieces(pieces[1..]), limit);
      ScanPiece(d, pieces[0], limit);
      ScanPieces(d, pieces[1..], limit);
    }
  }

  lemma ScanText(d: int, pieces: seq<Piece>, limit: nat)
    requires forall p :: p in pieces ==> IsPiece(p)
    ensures Scan(Outside(d), WriteText(pieces), limit) == Some(Outside(d))
  {
    var body := WritePieces(pieces) + "\"";
    assert WriteText(pieces) == ['"'] + body;
    ScanFirst(Outside(d), '"', body, limit);
    ScanFirst(Scanner(d, true, false), '"', "", limit);
    ScanConcat(Scanner(d, true, false), WritePieces(pieces), "\"", limit);
    ScanPieces(d, pieces, limit);
  }

  /** Where a scan of something `deep` levels deep ends when begun at depth d. */
  function Verdict(d: nat, deep: nat, limit: nat): Option<Scanner> {
    if d + deep > limit then None else Some(Outside(d))
  }

  lemma {:induction false} ScanValue(d: nat, v: Value, limit: nat)
    requires Legal(v) && d <= limit
    ensures Scan(Outside(d), Write(v), limit) == Verdict(d, Depth(v), limit)
    decreases v, 1
  {
    match v {
      case Literal(token) =>
        ScanPlain(d, token, limit);
      case Text(pieces) =>
        ScanText(d, pieces, limit);
      case Array(items, empty) =>
        var inner := if |items| == 0 then empty else WriteItems(items);
        if d + 1 <= limit {
          if |items| == 0 { ScanPlain(d + 1, empty, limit); } else { ScanItems(d + 1, items, v, limit); }
        }
        Bracketed(d, "[", inner, "]", DeepestItem(items), limit);
      case Object(members, empty) =>
        var inner := if |members| == 0 then empty else WriteMembers(members);
        if d + 1 <= limit {
          if |members| == 0 { ScanPlain(d + 1, empty, limit); } else { ScanMembers(d + 1, members, v, limit); }
        }
        Bracketed(d, "{", inner, "}", DeepestMember(members), limit);
    }
  }

  lemma Bracketed(d: nat, open: string, inner: string, close: string, deep: nat, limit: nat)
    requires open in {"[", "{"} && close in {"]", "}"} && d <= limit
    requires d + 1 <= limit ==> Scan(Outside(d + 1), inner, limit) == Verdict(d + 1, deep, limit)
    ensures Scan(Outside(d), open + inner + close, limit) == Verdict(d, 1 + deep, limit)
  {
    assert open + inner + close == [open[0]] + (inner + close) && close == [close[0]];
    ScanFirst(Outside(d), open[0], inner + close, limit);
    ScanConcat(Outside(d + 1), inner, close, limit);
    ScanFirst(Outside(d + 1), close[0], "", limit);
  }

  lemma {:induction false} ScanPadded(d: nat, p: Padded, limit: nat)
    requires LegalPadded(p) && d <= limit
    ensures Scan(Outside(d), WritePadded(p), limit) == Verdict(d, Depth(p.value), limit)
    decreases p, 0
  {
    ScanConcat(Outside(d), p.left + Write(p.value), p.right, limit);
    ScanConcat(Outside(d), p.left, Write(p.value), limit);
    ScanPlain(d, p.left, limit);
    ScanPlain(d, p.right, limit);
    ScanValue(d, p.value, limit);
  }

  lemma {:induction false} ScanItems(d: nat, items: seq<Padded>, whole: Value, limit: nat)
    requires |items| > 0 && d <= limit && forall i :: i in items ==> LegalPadded(i)
    requires forall i :: i in items ==> i < whole
    ensures Scan(Outside(d), WriteItems(items), limit) == Verdict(d, DeepestItem(items), limit)
    decreases whole, 0, |items|
  {
    assert items[0] in items && forall i :: i in items[1..] ==> i in items;
    ScanPadded(d, items[0], limit);
    if |items| > 1 {
      var rest := "," + WriteItems(items[1..]);
      ScanConcat(Outside(d), WritePadded(items[0]), rest, limit);
      assert rest[1..] == WriteItems(items[1..]);
      ScanItems(d, items[1..], whole, limit);
    }
  }

  lemma {:induction false} ScanMembers(d: nat, members: seq<Member>, whole: Value, limit: nat)
    requires |members| > 0 && d <= limit
    requires forall m :: m in members ==>
      IsSpace(m.left) && (forall p :: p in m.name ==> IsPiece(p)) && IsSpace(m.right) && LegalPadded(m.value)
    requires forall m :: m in members ==> m.value < whole
    ensures Scan(Outside(d), WriteMembers(members), limit) == Verdict(d, DeepestMember(members), limit)
    decreases whole, 0, |members|
  {
    var m := members[0];
    assert m in members && forall other :: other in members[1..] ==> other in members;
    ScanPadded(d, m.value, limit);
    ScanMember(d, m, limit);
    if |members| > 1 {
      var rest := "," + WriteMembers(members[1..]);
      ScanConcat(Outside(d), WriteMember(m), rest, limit);
      assert rest[1..] == WriteMembers(members[1..]);
      ScanMembers(d, members[1..], whole, limit);
    }
  }

  lemma ScanMember(d: nat, m: Member, limit: nat)
    requires IsSpace(m.left) && (forall p :: p in m.name ==> IsPiece(p)) && IsSpace(m.right) && d <= limit
    requires Scan(Outside(d), WritePadded(m.value), limit) == Verdict(d, Depth(m.value.value), limit)
    ensures Scan(Outside(d), WriteMember(m), limit) == Verdict(d, Depth(m.value.value), limit)
  {
    var colon := ":" + WritePadded(m.value);
    ScanConcat(Outside(d), m.left, WriteText(m.name) + (m.right + colon), limit);
    ScanConcat(Outside(d), WriteText(m.name), m.right + colon, limit);
    ScanConcat(Outside(d), m.right, colon, limit);
    assert colon[1..] == WritePadded(m.value);
    ScanPlain(d, m.left, limit);
    ScanText(d, m.name, limit);
    ScanPlain(d, m.right, limit);
  }

  /** For every JSON text - any value, any legal escapes in its strings, any whitespace
      between its tokens - the scan refuses exactly when arrays and objects are nested
      deeper than the limit. */
  lemma RefusedExactlyWhenTooDeep(p: Padded, limit: nat)
    requires LegalPadded(p)
    ensures Scan(Outside(0), WritePadded(p), limit).None? <==> Depth(p.value) > limit
  {
    ScanPadded(0, p, limit);
  }

  /** The loop over the characters of a body, as it is before the body is parsed. */
  method DepthExceeded(source: string, limit: nat) returns (exceeded: bool)
    ensures exceeded <==> Scan(Outside(0), source, limit).None?
    ensures forall p :: LegalPadded(p) && WritePadded(p) == source ==> (exceeded <==> Depth(p.value) > limit)
  {
    forall p | LegalPadded(p) && WritePadded(p) == source
      ensures Scan(Outside(0), source, limit).None? <==> Depth(p.value) > limit
    {
      RefusedExactlyWhenTooDeep(p, limit);
    }
    var depth, inString, escaped := 0, false, false;
    for i := 0 to |source|
      invariant Scan(Outside(0), source, limit) == Scan(Scanner(depth, inString, escaped), source[i..], limit)
    {
      var next := source[i];
      assert source[i..][0] == next && source[i..][1..] == source[i + 1..];
      if inString {
        if escaped {
          escaped := false;
        } else if next == '\\' {
          escaped := true;
        } else if next == '"' {
          inString := false;
        }
      } else if next == '"' {
        inString := true;
      } else if next in "[{" {
        depth := depth + 1;
        if depth > limit {
          return true;
        }
      } else if next in "]}" {
        depth := depth - 1;
      }
    }
    exceeded := false;
  }
}
