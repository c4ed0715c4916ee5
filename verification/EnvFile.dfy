/** Environment values as the quickstart prints them, and the environment file as the doctor
    reads and edits it (services/quickstart.py, _env_value; services/doctor.py, _decode_env,
    _env_file and _atomic_env_update). */
module EnvFile {
  import opened Values

  // ----- Python's string methods -----

  /** Where `splitlines` breaks a line. */
  const BREAKS: set<char> := {
    '\n', '\r', '\U{000B}', '\U{000C}', '\U{001C}', '\U{001D}', '\U{001E}', '\U{0085}', '\U{2028}', '\U{2029}'}

  /** What `strip` removes: the breaks and the other whitespace characters. */
  predicate IsSpace(c: char) {
    || c in BREAKS || c in {' ', '\t', '\U{001F}', '\U{00A0}', '\U{1680}', '\U{202F}', '\U{205F}', '\U{3000}'}
    || '\U{2000}' <= c <= '\U{200A}'
  }

  function StripLeft(s: string): string {
    if s != "" && IsSpace(s[0]) then StripLeft(s[1..]) else s
  }

  function StripRight(s: string): string {
    if s != "" && IsSpace(s[|s| - 1]) then StripRight(s[..|s| - 1]) else s
  }

  function Strip(s: string): string {
    StripRight(StripLeft(s))
  }

  /** `s.replace(x, into)` for a single character. */
  function ReplaceChar(s: string, x: char, into: string): string {
    if s == "" then "" else (if s[0] == x then into else [s[0]]) + ReplaceChar(s[1..], x, into)
  }

  /** `s.replace(x + y, into)`: left to right, without overlaps. */
  function ReplacePair(s: string, x: char, y: char, into: char): string {
    if |s| < 2 then s
    else if s[0] == x && s[1] == y then [into] + ReplacePair(s[2..], x, y, into)
    else [s[0]] + ReplacePair(s[1..], x, y, into)
  }

  // ----- one value -----

  /** _env_value; None where it refuses the value. */
  function Quoted(v: string): Option<string> {
    if '\0' in v || '\n' in v || '\r' in v then None
    else Some("'" + ReplaceChar(ReplaceChar(v, '\\', "\\\\"), '\'', "\\'") + "'")
  }

  function Unquoted(body: string): string {
    ReplacePair(ReplacePair(body, '\\', '\'', '\''), '\\', '\\', '\\')
  }

  /** _decode_env; None where it raises. `loads` reads a JSON string. */
  function Decode(loads: string -> Option<string>, raw: string): Option<string> {
    var value := Strip(raw);
    if |value| >= 2 && value[0] == value[|value| - 1] == '\'' then Some(Unquoted(value[1..|value| - 1]))
    else if |value| >= 2 && value[0] == value[|value| - 1] == '"' then loads(value)
    else Some(value)
  }

  /** A value as it stands between the quotes, character by character. */
  function Escaped(v: string): string {
    if v == "" then ""
    else (if v[0] == '\\' then "\\\\" else if v[0] == '\'' then "\\'" else [v[0]]) + Escaped(v[1..])
  }

  /** The same with the quotes already restored. */
  function Doubled(v: string): string {
    ReplaceChar(v, '\\', "\\\\")
  }

  lemma {:induction false} ReplaceCharConcat(a: string, b: string, x: char, into: string)
    ensures ReplaceChar(a + b, x, into) == ReplaceChar(a, x, into) + ReplaceChar(b, x, into)
  {
    if a == "" {
      assert a + b == b;
    } else {
      assert (a + b)[1..] == a[1..] + b;
      ReplaceCharConcat(a[1..], b, x, into);
    }
  }

  lemma {:induction false} QuotedIsEscaped(v: string)
    ensures ReplaceChar(Doubled(v), '\'', "\\'") == Escaped(v)
  {
    if v != "" {
      var head := if v[0] == '\\' then "\\\\" else [v[0]];
      ReplaceCharConcat(head, Doubled(v[1..]), '\'', "\\'");
      QuotedIsEscaped(v[1..]);
      if v[0] == '\\' {
        assert "\\\\"[1..] == "\\" && "\\"[1..] == "";
      } else {
        assert [v[0]][1..] == "";
      }
    }
  }

  /** No escaped value begins with a bare quote. */
  lemma EscapedStart(v: string)
    ensures |Escaped(v)| > 0 ==> Escaped(v)[0] != '\''
  {
  }

  lemma PairKept(c: char, rest: string, x: char, y: char, into: char)
    requires !(c == x && rest != "" && rest[0] == y)
    ensures ReplacePair([c] + rest, x, y, into) == [c] + ReplacePair(rest, x, y, into)
  {
    assert ([c] + rest)[1..] == rest;
  }

  lemma PairReplaced(rest: string, x: char, y: char, into: char)
    ensures ReplacePair([x, y] + rest, x, y, into) == [into] + ReplacePair(rest, x, y, into)
  {
    assert ([x, y] + rest)[2..] == rest;
  }

  /** The first replacement restores the quotes and leaves every doubled backslash. */
  lemma {:induction false} QuotesRestored(v: string)
    ensures ReplacePair(Escaped(v), '\\', '\'', '\'') == Doubled(v)
  {
    if v != "" {
      var rest := Escaped(v[1..]);
      QuotesRestored(v[1..]);
      EscapedStart(v[1..]);
      if v[0] == '\\' {
        assert Escaped(v) == ['\\'] + (['\\'] + rest);
        PairKept('\\', ['\\'] + rest, '\\', '\'', '\'');
        PairKept('\\', rest, '\\', '\'', '\'');
      } else if v[0] == '\'' {
        assert Escaped(v) == ['\\', '\''] + rest;
        PairReplaced(rest, '\\', '\'', '\'');
      } else {
        PairKept(v[0], rest, '\\', '\'', '\'');
      }
    }
  }

  /** The second one halves the backslashes. */
  lemma {:induction false} BackslashesHalved(v: string)
    ensures ReplacePair(Doubled(v), '\\', '\\', '\\') == v
  {
    if v != "" {
      var rest := Doubled(v[1..]);
      BackslashesHalved(v[1..]);
      if v[0] == '\\' {
        assert Doubled(v) == ['\\', '\\'] + rest;
        PairReplaced(rest, '\\', '\\', '\\');
      } else {
        PairKept(v[0], rest, '\\', '\\', '\\');
      }
    }
  }

  lemma QuotedHasNoSpaceAround(body: string)
    ensures Strip("'" + body + "'") == "'" + body + "'"
  {
  }

  /** Every value without NUL, CR or LF survives printing and reading. */
  lemma DecodeUndoesQuoted(loads: string -> Option<string>, v: string)
    ensures Quoted(v).Some? <==> '\0' !in v && '\n' !in v && '\r' !in v
    ensures Quoted(v).Some? ==> Decode(loads, Quoted(v).value) == Some(v)
  {
    if Quoted(v).None? { return; }
    QuotedIsEscaped(v);
    var body := Escaped(v);
    QuotedHasNoSpaceAround(body);
    assert ("'" + body + "'")[1..|body| + 1] == body;
    QuotesRestored(v);
    BackslashesHalved(v);
  }

  /** A value without quotes around it stands for itself, but for the space around it. */
  lemma BareValueIsItself(loads: string -> Option<string>, raw: string)
    requires Strip(raw) == "" || Strip(raw)[0] !in {'\'', '"'}
    ensures Decode(loads, raw) == Some(Strip(raw))
  {
  }

  // ----- lines -----

  predicate NoBreak(s: string) {
    forall c :: c in s ==> c !in BREAKS
  }

  /** `splitlines(keepends=True)` on text that has been read, and so has no CR. */
  function Keep(s: string): (lines: seq<string>)
    ensures Join(lines) == s
  {
    if s == "" then []
    else
      var tail := Keep(s[1..]);
      if s[0] in BREAKS || tail == [] then [[s[0]]] + tail
      else [[s[0]] + tail[0]] + tail[1..]
  }

  function Join(lines: seq<string>): string {
    if lines == [] then "" else lines[0] + Join(lines[1..])
  }

  /** A line without its break. */
  function Content(line: string): string {
    if line != "" && line[|line| - 1] in BREAKS then line[..|line| - 1] else line
  }

  function Contents(lines: seq<string>): seq<string> {
    seq(|lines|, i requires 0 <= i < |lines| => Content(lines[i]))
  }

  predicate Ended(line: string) {
    line != "" && line[|line| - 1] in BREAKS && NoBreak(line[..|line| - 1])
  }

  /** Lines as `splitlines` makes them: all ended, but perhaps the last. */
  predicate AreLines(lines: seq<string>) {
    forall i :: 0 <= i < |lines| ==> Ended(lines[i]) || (i == |lines| - 1 && lines[i] != "" && NoBreak(lines[i]))
  }

  lemma {:induction false} KeepMakesLines(s: string)
    ensures AreLines(Keep(s))
  {
    if s != "" {
      KeepMakesLines(s[1..]);
      var tail := Keep(s[1..]);
      if s[0] in BREAKS || tail == [] {
        assert [s[0]][..0] == "";
      } else {
        var first := [s[0]] + tail[0];
        assert first[..|first| - 1] == [s[0]] + tail[0][..|tail[0]| - 1];
        assert forall i :: 1 <= i < |tail| ==> tail[i] == tail[1..][i - 1];
      }
    }
  }

  /** An ended line splits off. */
  lemma {:induction false} KeepEnded(body: string, end: char, rest: string)
    requires NoBreak(body) && end in BREAKS
    ensures Keep(body + [end] + rest) == [body + [end]] + Keep(rest)
  {
    var text := body + [end] + rest;
    if body == "" {
      assert text[0] == end && text[1..] == rest;
    } else {
      assert body[0] in body && forall i :: 0 <= i < |body[1..]| ==> body[1..][i] in body;
      assert text[0] == body[0] && text[1..] == body[1..] + [end] + rest;
      KeepEnded(body[1..], end, rest);
      assert body + [end] == [body[0]] + (body[1..] + [end]);
    }
  }

  lemma {:induction false} KeepUnended(body: string)
    requires NoBreak(body) && body != ""
    ensures Keep(body) == [body]
  {
    assert body[0] in body && forall i :: 0 <= i < |body[1..]| ==> body[1..][i] in body;
    assert body == [body[0]] + body[1..];
    if |body| > 1 {
      KeepUnended(body[1..]);
      assert Keep(body) == [[body[0]] + body[1..]] + [];
    } else {
      assert body[1..] == "" && body == [body[0]];
      assert Keep(body) == [[body[0]]] + [];
    }
  }

  /** Lines are what splitting their concatenation gives back. */
  lemma {:induction false} SplitOfJoin(lines: seq<string>)
    requires AreLines(lines)
    ensures Keep(Join(lines)) == lines
  {
    if lines != [] {
      var line, rest := lines[0], lines[1..];
      assert AreLines(rest) by { assert forall i :: 0 <= i < |rest| ==> rest[i] == lines[i + 1]; }
      SplitOfJoin(rest);
      if Ended(line) {
        var body := line[..|line| - 1];
        assert line == body + [line[|line| - 1]];
        KeepEnded(body, line[|line| - 1], Join(rest));
      } else {
        assert rest == [] && line + "" == line;
        KeepUnended(line);
      }
      assert lines == [line] + rest;
    }
  }

  // ----- reading the file -----

  /** Text mode turns CR LF and CR into LF. */
  function Universal(s: string): (t: string)
    ensures '\r' !in t
    ensures '\r' !in s ==> t == s
  {
    if s == "" then ""
    else if s[0] == '\r' then
      "\n" + Universal(if |s| > 1 && s[1] == '\n' then s[2..] else s[1..])
    else [s[0]] + Universal(s[1..])
  }

  lemma {:induction false} UniversalKeepsText(a: string, b: string)
    requires '\r' !in a
    ensures Universal(a + b) == a + Universal(b)
  {
    if a == "" {
      assert a + b == b;
    } else {
      var rest := a[1..];
      UniversalKeepsText(rest, b);
      assert (a + b)[0] == a[0] != '\r' && (a + b)[1..] == rest + b;
      assert Universal(a + b) == [a[0]] + Universal(rest + b);
      assert [a[0]] + (rest + Universal(b)) == a + Universal(b);
    }
  }

  /** Each of CR LF, CR and LF ends up as one LF, and nothing else changes. */
  lemma UniversalMeans(a: string, b: string)
    requires '\r' !in a
    ensures Universal(a + ("\r\n" + b)) == a + ("\n" + Universal(b))
    ensures b == "" || b[0] != '\n' ==> Universal(a + ("\r" + b)) == a + ("\n" + Universal(b))
  {
    UniversalKeepsText(a, "\r\n" + b);
    UniversalKeepsText(a, "\r" + b);
    assert ("\r\n" + b)[2..] == b && ("\r" + b)[1..] == b;
  }

  predicate IsKeyStart(c: char) {
    'A' <= c <= 'Z' || 'a' <= c <= 'z' || c == '_'
  }

  predicate IsKey(s: string) {
    s != "" && IsKeyStart(s[0]) && forall c :: c in s ==> IsKeyStart(c) || '0' <= c <= '9'
  }

  function Equals(s: string): (k: nat)
    ensures k <= |s| && '=' !in s[..k] && (k < |s| ==> s[k] == '=')
  {
    if s == "" || s[0] == '=' then 0
    else
      assert s[..1 + Equals(s[1..])] == [s[0]] + s[1..][..Equals(s[1..])];
      1 + Equals(s[1..])
  }

  /** `KEY=VALUE`, or None. */
  function Assignment(line: string): Option<(string, string)> {
    var k := Equals(line);
    if k < |line| && IsKey(line[..k]) then Some((line[..k], line[k + 1..])) else None
  }

  predicate Assigns(line: string, key: string) {
    var a := Assignment(Strip(line));
    a.Some? && a.value.0 == key
  }

  datatype Env = Env(values: map<string, string>, duplicates: set<string>)

  predicate Blank(line: string) {
    Strip(line) == "" || Strip(line)[0] == '#'
  }

  /** One line; None where the file is refused. */
  function ReadLine(loads: string -> Option<string>, e: Env, line: string): Option<Env> {
    if Blank(line) then Some(e)
    else
      var a := Assignment(Strip(line));
      if a.None? then None
      else
        var (key, raw) := a.value;
        var v := Decode(loads, raw);
        if v.None? then None
        else Some(Env(e.values[key := v.value], if key in e.values then e.duplicates + {key} else e.duplicates))
  }

  const EMPTY := Env(map[], {})

  function ReadLines(loads: string -> Option<string>, lines: seq<string>): Option<Env> {
    if lines == [] then Some(EMPTY)
    else
      var e := ReadLines(loads, lines[..|lines| - 1]);
      if e.None? then None else ReadLine(loads, e.value, lines[|lines| - 1])
  }

  function Read(loads: string -> Option<string>, file: string): Option<Env> {
    ReadLines(loads, Contents(Keep(Universal(file))))
  }

  /** _env_file */
  method EnvFileOf(loads: string -> Option<string>, file: string) returns (res: Option<Env>)
    ensures res == Read(loads, file)
  {
    hide Decode, Strip, Universal, Keep, Assignment;
    var lines := Contents(Keep(Universal(file)));
    var values: map<string, string>, duplicates: set<string> := map[], {};
    for i := 0 to |lines|
      invariant ReadLines(loads, lines[..i]) == Some(Env(values, duplicates))
    {
      assert lines[..i + 1][..i] == lines[..i];
      LaterFailure(loads, lines, i + 1);
      var stripped := Strip(lines[i]);
      if stripped != "" && stripped[0] != '#' {
        var assignment := Assignment(stripped);
        if assignment.None? {
          return None;
        }
        var (key, raw) := assignment.value;
        var value := Decode(loads, raw);
        if value.None? {
          return None;
        }
        if key in values { duplicates := duplicates + {key}; }
        values := values[key := value.value];
      }
    }
    assert lines[..|lines|] == lines;
    res := Some(Env(values, duplicates));
  }

  /** A refused line refuses the file. */
  lemma {:induction false} LaterFailure(loads: string -> Option<string>, lines: seq<string>, n: nat)
    requires n <= |lines|
    ensures ReadLines(loads, lines[..n]).None? ==> ReadLines(loads, lines).None?
    decreases |lines|
  {
    if n < |lines| {
      assert lines[..|lines| - 1][..n] == lines[..n];
      LaterFailure(loads, lines[..|lines| - 1], n);
    } else {
      assert lines[..n] == lines;
    }
  }

  // ----- editing the file -----

  /** The places where the key is assigned. */
  function Places(lines: seq<string>, key: string): (places: seq<nat>)
    ensures forall k :: 0 <= k < |places| ==> places[k] < |lines|
  {
    if lines == [] then []
    else
      var n := |lines| - 1;
      Places(lines[..n], key) + if Assigns(lines[n], key) then [n] else []
  }

  lemma {:induction false} PlacesHold(lines: seq<string>, key: string, i: nat)
    requires i < |lines| && Assigns(lines[i], key)
    ensures i in Places(lines, key)
  {
    if i < |lines| - 1 {
      PlacesHold(lines[..|lines| - 1], key, i);
    }
  }

  function Edited(lines: seq<string>, key: string, value: string): seq<string>
    requires |Places(lines, key)| <= 1
  {
    var replacement := key + "=" + value + "\n";
    var places := Places(lines, key);
    var n := |lines|;
    if |places| == 1 then lines[places[0] := replacement]
    else if n > 0 && !EndsInNewline(lines[n - 1]) then lines[n - 1 := lines[n - 1] + "\n"] + [replacement]
    else lines + [replacement]
  }

  predicate EndsInNewline(line: string) {
    line != "" && line[|line| - 1] in {'\n', '\r'}
  }

  method FindPlaces(lines: seq<string>, key: string) returns (indexes: seq<nat>)
    ensures indexes == Places(lines, key)
  {
    indexes := [];
    for i := 0 to |lines|
      invariant indexes == Places(lines[..i], key)
    {
      assert lines[..i + 1][..i] == lines[..i];
      if Assigns(lines[i], key) { indexes := indexes + [i]; }
    }
    assert lines[..|lines|] == lines;
  }

  method EditLines(original: seq<string>, key: string, value: string, indexes: seq<nat>) returns (lines: seq<string>)
    requires indexes == Places(original, key) && |indexes| <= 1
    ensures lines == Edited(original, key, value)
  {
    hide Assigns;
    lines := original;
    var replacement := key + "=" + value + "\n";
    if |indexes| == 1 {
      lines := lines[indexes[0] := replacement];
    } else {
      if |lines| > 0 && !EndsInNewline(lines[|lines| - 1]) {
        lines := lines[|lines| - 1 := lines[|lines| - 1] + "\n"];
      }
      lines := lines + [replacement];
    }
  }

  /** _atomic_env_update: the new text, or None where it raises. */
  method UpdateEnv(file: string, key: string, value: string) returns (res: Option<string>)
    ensures
      var lines := Keep(Universal(file));
      && (res.None? <==> |Places(lines, key)| > 1)
      && (res.Some? ==> res.value == Join(Edited(lines, key, value)))
  {
    var lines := Keep(Universal(file));
    var indexes := FindPlaces(lines, key);
    if |indexes| > 1 {
      return None;
    }
    lines := EditLines(lines, key, value, indexes);
    res := Some(Join(lines));
  }

  // ----- stripping -----

  lemma {:induction false} StripEnd(body: string, end: char)
    requires IsSpace(end)
    ensures Strip(body + [end]) == Strip(body)
  {
    var text := body + [end];
    if body == "" {
      assert text == [end] && [end][1..] == "";
    } else if IsSpace(body[0]) {
      assert text[1..] == body[1..] + [end];
      StripEnd(body[1..], end);
    } else {
      assert text[..|text| - 1] == body;
    }
  }

  lemma {:induction false} StripRightStops(a: string, c: char, b: string)
    requires !IsSpace(c)
    ensures StripRight(a + [c] + b) == a + [c] + StripRight(b)
    decreases |b|
  {
    var text := a + [c] + b;
    if b == "" {
      assert text == a + [c];
    } else {
      assert text[..|text| - 1] == a + [c] + b[..|b| - 1];
      StripRightStops(a, c, b[..|b| - 1]);
    }
  }

  lemma {:induction false} StripOfStripRight(x: string)
    ensures Strip(StripRight(x)) == Strip(x)
    decreases |x|
  {
    if x != "" && IsSpace(x[|x| - 1]) {
      StripOfStripRight(x[..|x| - 1]);
      assert x == x[..|x| - 1] + [x[|x| - 1]];
      StripEnd(x[..|x| - 1], x[|x| - 1]);
    }
  }

  /** The line assigns the value to the key. */
  predicate Gives(loads: string -> Option<string>, line: string, key: string, v: string) {
    var a := Assignment(Strip(line));
    !Blank(line) && a.Some? && a.value.0 == key && Decode(loads, a.value.1) == Some(v)
  }

  lemma {:induction false} EqualsAfterKey(key: string, rest: string)
    requires '=' !in key
    ensures Equals(key + "=" + rest) == |key|
  {
    var text := key + "=" + rest;
    if key != "" {
      assert text[1..] == key[1..] + "=" + rest;
      EqualsAfterKey(key[1..], rest);
    }
  }

  lemma AssignmentRead(key: string, raw: string)
    requires IsKey(key)
    ensures Assignment(key + "=" + raw) == Some((key, raw))
  {
    var text := key + "=" + raw;
    EqualsAfterKey(key, raw);
    assert text[..|key|] == key && text[|key| + 1..] == raw;
  }

  lemma StrippedSetting(key: string, value: string)
    requires IsKey(key)
    ensures Strip(key + "=" + value) == key + "=" + StripRight(value)
  {
    var line := key + "=" + value;
    assert line[0] == key[0] && key[0] in key;
    assert !IsSpace(key[0]) && !IsSpace('=');
    hide IsSpace;
    assert StripLeft(line) == line;
    assert key + ['='] + value == line;
    StripRightStops(key, '=', value);
  }

  lemma AssignmentLine(loads: string -> Option<string>, key: string, value: string)
    requires IsKey(key)
    ensures Assignment(Strip(key + "=" + value)) == Some((key, StripRight(value))) && !Blank(key + "=" + value)
    ensures Decode(loads, StripRight(value)) == Decode(loads, value)
  {
    StrippedSetting(key, value);
    AssignmentRead(key, StripRight(value));
    StrippedValue(loads, value);
    hide Equals, Assignment, Decode, Strip;
    assert (key + "=" + StripRight(value))[0] == key[0] && key[0] in key;
  }

  lemma StrippedValue(loads: string -> Option<string>, value: string)
    ensures Decode(loads, StripRight(value)) == Decode(loads, value)
  {
    StripOfStripRight(value);
    hide Strip, StripRight, Unquoted;
  }

  lemma LineWithBreak(loads: string -> Option<string>, e: Env, line: string, end: char)
    requires end in BREAKS
    ensures ReadLine(loads, e, line + [end]) == ReadLine(loads, e, line)
    ensures forall key :: Assigns(line + [end], key) <==> Assigns(line, key)
  {
    StripEnd(line, end);
  }

  /** Line breaks make no difference to what is read. */
  lemma {:induction false} BreaksDoNotMatter(loads: string -> Option<string>, lines: seq<string>)
    ensures ReadLines(loads, Contents(lines)) == ReadLines(loads, lines)
  {
    if lines != [] {
      var n := |lines| - 1;
      assert Contents(lines)[..n] == Contents(lines[..n]);
      BreaksDoNotMatter(loads, lines[..n]);
      var line, e := lines[n], ReadLines(loads, lines[..n]);
      if e.Some? && Content(line) != line {
        LineWithBreak(loads, e.value, Content(line), line[|line| - 1]);
        assert Content(line) + [line[|line| - 1]] == line;
      }
    }
  }

  // ----- what the read map says about the lines -----

  /** A key is in the map exactly when it is assigned, and a duplicate exactly when it is
      assigned twice or more. */
  lemma {:induction false} Counting(loads: string -> Option<string>, lines: seq<string>, key: string)
    requires ReadLines(loads, lines).Some?
    ensures key in ReadLines(loads, lines).value.values <==> |Places(lines, key)| >= 1
    ensures key in ReadLines(loads, lines).value.duplicates <==> |Places(lines, key)| >= 2
  {
    if lines != [] {
      var n := |lines| - 1;
      Counting(loads, lines[..n], key);
      if Assigns(lines[n], key) {
        NoKeyIsBlank(lines[n], key);
      }
    }
  }

  lemma NoKeyIsBlank(line: string, key: string)
    requires Assigns(line, key)
    ensures !Blank(line)
  {
    var text := Strip(line);
    var k := Equals(text);
    assert key == text[..k] && text[0] == key[0];
  }

  /** A line about another key reads the same beside any value of this one. */
  lemma OtherLine(loads: string -> Option<string>, e: Env, line: string, key: string, v: string)
    requires !Assigns(line, key) && ReadLine(loads, e, line).Some?
    ensures
      var after := ReadLine(loads, e, line).value;
      ReadLine(loads, Env(e.values[key := v], e.duplicates), line) == Some(Env(after.values[key := v], after.duplicates))
  {
    if !Blank(line) {
      var (other, raw) := Assignment(Strip(line)).value;
      var w := Decode(loads, raw).value;
      assert e.values[key := v][other := w] == e.values[other := w][key := v];
    }
  }

  lemma OnlyPlace(lines: seq<string>, i: nat, key: string)
    requires i < |lines| && Places(lines, key) == [i]
    ensures
      var n := |lines| - 1;
      if i == n then Assigns(lines[n], key) && Places(lines[..n], key) == []
      else !Assigns(lines[n], key) && Places(lines[..n], key) == [i]
  {
    var n := |lines| - 1;
    PlacesSplit(lines, key);
    hide Assigns, Places;
    var front := Places(lines[..n], key);
    if Assigns(lines[n], key) {
      LastOf(front, n, [i]);
    } else {
      assert front[0] == i;
    }
  }

  lemma PlacesSplit(lines: seq<string>, key: string)
    requires lines != []
    ensures
      var n := |lines| - 1;
      var front := Places(lines[..n], key);
      Places(lines, key) == if Assigns(lines[n], key) then front + [n] else front
  {
    hide Assigns;
    assert Places(lines[..|lines| - 1], key) + [] == Places(lines[..|lines| - 1], key);
  }

  lemma LastOf(front: seq<nat>, n: nat, all: seq<nat>)
    requires front + [n] == all
    ensures all[|all| - 1] == n && all[..|all| - 1] == front
  {
  }

  lemma {:induction false} ReplaceOne(loads: string -> Option<string>, lines: seq<string>, i: nat, line: string, key: string, v: string)
    requires ReadLines(loads, lines).Some? && i < |lines| && Places(lines, key) == [i] && Gives(loads, line, key, v)
    ensures
      var e := ReadLines(loads, lines).value;
      ReadLines(loads, lines[i := line]) == Some(Env(e.values[key := v], e.duplicates))
  {
    hide Gives, ReadLine, Assigns, Places;
    var n := |lines| - 1;
    var front := lines[..n];
    OnlyPlace(lines, i, key);
    if i == n {
      assert lines[i := line][..n] == front;
      Counting(loads, front, key);
      LastLine(loads, ReadLines(loads, front).value, lines[n], line, key, v);
    } else {
      assert lines[i := line][..n] == front[i := line];
      ReplaceOne(loads, front, i, line, key, v);
      OtherLine(loads, ReadLines(loads, front).value, lines[n], key, v);
    }
  }

  /** One assignment in place of another. */
  lemma LastLine(loads: string -> Option<string>, e: Env, previous: string, line: string, key: string, v: string)
    requires Assigns(previous, key) && ReadLine(loads, e, previous).Some? && Gives(loads, line, key, v) && key !in e.values
    ensures
      var after := ReadLine(loads, e, previous).value;
      ReadLine(loads, e, line) == Some(Env(after.values[key := v], after.duplicates))
  {
    NoKeyIsBlank(previous, key);
    hide Strip, Decode;
    var (k, raw) := Assignment(Strip(previous)).value;
    assert e.values[key := Decode(loads, raw).value][key := v] == e.values[key := v];
  }

  lemma AppendOne(loads: string -> Option<string>, lines: seq<string>, line: string, key: string, v: string)
    requires ReadLines(loads, lines).Some? && Places(lines, key) == [] && Gives(loads, line, key, v)
    ensures
      var e := ReadLines(loads, lines).value;
      ReadLines(loads, lines + [line]) == Some(Env(e.values[key := v], e.duplicates))
  {
    Counting(loads, lines, key);
    assert (lines + [line])[..|lines|] == lines;
  }

  // ----- characters -----

  lemma {:induction false} JoinConcat(a: seq<string>, b: seq<string>)
    ensures Join(a + b) == Join(a) + Join(b)
  {
    if a == [] {
      assert a + b == b;
    } else {
      assert (a + b)[1..] == a[1..] + b;
      JoinConcat(a[1..], b);
    }
  }

  predicate NoCr(s: string) {
    '\r' !in s
  }

  lemma {:induction false} NoCrInJoin(lines: seq<string>)
    ensures NoCr(Join(lines)) <==> forall i :: 0 <= i < |lines| ==> NoCr(lines[i])
  {
    if lines != [] {
      NoCrInJoin(lines[1..]);
      assert forall i :: 1 <= i < |lines| ==> lines[i] == lines[1..][i - 1];
      assert NoCr(Join(lines)) <==> NoCr(lines[0]) && NoCr(Join(lines[1..]));
    }
  }

  /** Text made of lines without CR is read back as those lines. */
  lemma ReadBack(loads: string -> Option<string>, lines: seq<string>)
    requires AreLines(lines) && forall i :: 0 <= i < |lines| ==> NoCr(lines[i])
    ensures Read(loads, Join(lines)) == ReadLines(loads, lines)
  {
    NoCrInJoin(lines);
    SplitOfJoin(lines);
    BreaksDoNotMatter(loads, lines);
  }

  // ----- the update changes one key -----

  lemma Replacement(loads: string -> Option<string>, key: string, value: string, v: string)
    requires IsKey(key) && NoBreak(value) && Decode(loads, value) == Some(v)
    ensures
      var line := key + "=" + value + "\n";
      Gives(loads, line, key, v) && Ended(line) && NoCr(line)
  {
    hide Assignment, Strip, Decode;
    var body := key + "=" + value;
    var line := body + "\n";
    AssignmentLine(loads, key, value);
    StripEnd(body, '\n');
    assert line[..|line| - 1] == body;
    assert forall c :: c in body ==> c in key || c == '=' || c in value;
  }

  lemma LinesOfFile(file: string)
    ensures
      var lines := Keep(Universal(file));
      AreLines(lines) && AllNoCr(lines)
  {
    KeepMakesLines(Universal(file));
    NoCrInJoin(Keep(Universal(file)));
  }

  predicate AllNoCr(lines: seq<string>) {
    forall i :: 0 <= i < |lines| ==> NoCr(lines[i])
  }

  /** Appending a line to lines whose last one has its break. */
  lemma AppendToEnded(loads: string -> Option<string>, lines: seq<string>, line: string, key: string, v: string)
    requires AreLines(lines) && AllNoCr(lines) && (lines != [] ==> Ended(lines[|lines| - 1]))
    requires ReadLines(loads, lines).Some? && Places(lines, key) == []
    requires Gives(loads, line, key, v) && Ended(line) && NoCr(line)
    ensures
      var e := ReadLines(loads, lines).value;
      Read(loads, Join(lines + [line])) == Some(Env(e.values[key := v], e.duplicates))
  {
    hide Gives, Assigns, Universal;
    AppendOne(loads, lines, line, key, v);
    ReadBack(loads, lines + [line]);
  }

  lemma JoinAppend(lines: seq<string>, line: string)
    ensures Join(lines + [line]) == Join(lines) + line
  {
    JoinConcat(lines, [line]);
    assert Join([line]) == line + "";
  }

  /** A newline added to the last line and one more line read as the same text. */
  lemma AddedNewline(lines: seq<string>, line: string)
    requires lines != []
    ensures
      var n := |lines| - 1;
      Join(lines[n := lines[n] + "\n"] + [line]) == Join(lines + ["\n"] + [line])
  {
    hide Join;
    var n := |lines| - 1;
    var front, last := lines[..n], lines[n];
    assert lines == front + [last] && lines[n := last + "\n"] == front + [last + "\n"];
    JoinAppend(front + [last + "\n"], line);
    JoinAppend(front, last + "\n");
    JoinAppend(lines + ["\n"], line);
    JoinAppend(lines, "\n");
    JoinAppend(front, last);
    assert Join(front) + (last + "\n") == Join(front) + last + "\n";
  }

  /** Appending to lines that may lack their last newline. */
  lemma AppendReadsBack(loads: string -> Option<string>, lines: seq<string>, line: string, key: string, v: string)
    requires AreLines(lines) && AllNoCr(lines)
    requires ReadLines(loads, lines).Some? && Places(lines, key) == []
    requires Gives(loads, line, key, v) && Ended(line) && NoCr(line)
    ensures
      var e := ReadLines(loads, lines).value;
      var n := |lines|;
      var before := if n > 0 && !EndsInNewline(lines[n - 1]) then lines[n - 1 := lines[n - 1] + "\n"] else lines;
      Read(loads, Join(before + [line])) == Some(Env(e.values[key := v], e.duplicates))
  {
    hide Gives, ReadLine, Assigns, Universal, Read, Join;
    var n := |lines|;
    if n > 0 && !EndsInNewline(lines[n - 1]) {
      var last := lines[n - 1];
      if Ended(last) {
        BlankLine(loads, lines, "\n", key);
        AddedNewline(lines, line);
        AppendToEnded(loads, lines + ["\n"], line, key, v);
      } else {
        assert (last + "\n")[..|last|] == last;
        NewlineChangesNothing(loads, lines, key);
        AppendToEnded(loads, lines[n - 1 := last + "\n"], line, key, v);
      }
    } else {
      AppendToEnded(loads, lines, line, key, v);
    }
  }

  lemma BlankLine(loads: string -> Option<string>, lines: seq<string>, line: string, key: string)
    requires line == "\n"
    ensures ReadLines(loads, lines + [line]) == ReadLines(loads, lines)
    ensures Places(lines + [line], key) == Places(lines, key)
  {
    assert (lines + [line])[..|lines|] == lines;
    StripEnd("", '\n');
    assert "" + ['\n'] == line;
    assert Strip(line) == "";
    assert !Assigns(line, key) by { if Assigns(line, key) { NoKeyIsBlank(line, key); } }
  }

  lemma NewlineChangesNothing(loads: string -> Option<string>, lines: seq<string>, key: string)
    requires lines != []
    ensures
      var n := |lines| - 1;
      var ended := lines[n := lines[n] + "\n"];
      ReadLines(loads, ended) == ReadLines(loads, lines) && Places(ended, key) == Places(lines, key)
  {
    var n := |lines| - 1;
    assert lines[n := lines[n] + "\n"][..n] == lines[..n];
    LineWithBreak(loads, EMPTY, lines[n], '\n');
    var e := ReadLines(loads, lines[..n]);
    if e.Some? { LineWithBreak(loads, e.value, lines[n], '\n'); }
  }

  lemma EditedReadsBack(loads: string -> Option<string>, lines: seq<string>, key: string, value: string, v: string)
    requires AreLines(lines) && AllNoCr(lines) && ReadLines(loads, lines).Some? && |Places(lines, key)| <= 1
    requires IsKey(key) && NoBreak(value) && Decode(loads, value) == Some(v)
    ensures
      var e := ReadLines(loads, lines).value;
      Read(loads, Join(Edited(lines, key, value))) == Some(Env(e.values[key := v], e.duplicates))
  {
    hide Gives, ReadLine, Assigns, Read, Join, Decode, IsKey, NoBreak;
    Replacement(loads, key, value, v);
    var line := key + "=" + value + "\n";
    var places := Places(lines, key);
    if |places| == 1 {
      var i := places[0];
      assert places == [i];
      ReplaceOne(loads, lines, i, line, key, v);
      ReadBack(loads, lines[i := line]);
    } else {
      AppendReadsBack(loads, lines, line, key, v);
    }
  }

  /** Updating a key that the file does not assign twice never raises, and reading the new
      text gives the old map with exactly that key changed, wherever the key stood and
      however the file's last line ends. */
  lemma UpdateChangesOneKey(loads: string -> Option<string>, file: string, key: string, value: string, v: string)
    requires Read(loads, file).Some? && key !in Read(loads, file).value.duplicates
    requires IsKey(key) && NoBreak(value) && Decode(loads, value) == Some(v)
    ensures
      var e := Read(loads, file).value;
      var lines := Keep(Universal(file));
      && |Places(lines, key)| <= 1
      && Read(loads, Join(Edited(lines, key, value))) == Some(Env(e.values[key := v], e.duplicates))
  {
    hide ReadLines, ReadLine, Universal, Keep, Decode, Join, Edited, IsKey, NoBreak, AreLines, AllNoCr, Places, Contents;
    var lines := Keep(Universal(file));
    LinesOfFile(file);
    BreaksDoNotMatter(loads, lines);
    Counting(loads, lines, key);
    EditedReadsBack(loads, lines, key, value, v);
  }

  /** The update is refused exactly for a key that reading reports as a duplicate. */
  lemma RefusedExactlyForDuplicates(loads: string -> Option<string>, file: string, key: string)
    requires Read(loads, file).Some?
    ensures |Places(Keep(Universal(file)), key)| > 1 <==> key in Read(loads, file).value.duplicates
  {
    BreaksDoNotMatter(loads, Keep(Universal(file)));
    Counting(loads, Keep(Universal(file)), key);
  }

  // ----- a printed value in a file -----

  lemma {:induction false} StripChars(s: string, c: char)
    ensures c in StripLeft(s) ==> c in s
    ensures c in StripRight(s) ==> c in s
  {
    if s != "" {
      if IsSpace(s[0]) { StripLeftChars(s, c); }
      if IsSpace(s[|s| - 1]) { StripRightChars(s, c); }
    }
  }

  lemma {:induction false} StripLeftChars(s: string, c: char)
    ensures c in StripLeft(s) ==> c in s
  {
    if s != "" && IsSpace(s[0]) { StripLeftChars(s[1..], c); }
  }

  lemma {:induction false} StripRightChars(s: string, c: char)
    ensures c in StripRight(s) ==> c in s
    decreases |s|
  {
    if s != "" && IsSpace(s[|s| - 1]) { StripRightChars(s[..|s| - 1], c); }
  }

  lemma {:induction false} PairChars(s: string, x: char, y: char, c: char)
    ensures c in ReplacePair(s, x, y, y) ==> c in s
    decreases |s|
  {
    if |s| >= 2 {
      if s[0] == x && s[1] == y { PairChars(s[2..], x, y, c); } else { PairChars(s[1..], x, y, c); }
    }
  }

  /** A value that is not read as a JSON string has no character that was not written. */
  lemma DecodedChars(loads: string -> Option<string>, raw: string, c: char)
    requires Strip(raw) == "" || Strip(raw)[0] != '"'
    requires Decode(loads, raw).Some?
    ensures c in Decode(loads, raw).value ==> c in raw
  {
    var value := Strip(raw);
    StripChars(raw, c);
    StripChars(StripLeft(raw), c);
    if |value| >= 2 && value[0] == value[|value| - 1] == '\'' {
      var body := value[1..|value| - 1];
      PairChars(body, '\\', '\'', c);
      PairChars(ReplacePair(body, '\\', '\'', '\''), '\\', '\\', c);
    }
  }

  function Setting(key: string, quoted: string): string {
    key + "=" + quoted + "\n"
  }

  lemma {:induction false} EscapedChars(v: string, c: char)
    ensures c in Escaped(v) ==> c in v || c == '\\' || c == '\''
    ensures c in v ==> c in Escaped(v)
  {
    if v != "" { EscapedChars(v[1..], c); }
  }

  lemma QuotedHasNoBreak(v: string)
    requires NoBreak(v) && Quoted(v).Some?
    ensures NoBreak(Quoted(v).value)
  {
    var q := Quoted(v).value;
    QuotedIsEscaped(v);
    forall c | c in q ensures c !in BREAKS {
      EscapedChars(v, c);
    }
  }

  /** A printed value without line breaks of any kind is read back from its file. */
  lemma PrintedLineIsReadBack(loads: string -> Option<string>, key: string, v: string)
    requires IsKey(key) && NoBreak(v) && Quoted(v).Some?
    ensures Read(loads, Setting(key, Quoted(v).value)) == Some(Env(map[key := v], {}))
  {
    DecodeUndoesQuoted(loads, v);
    QuotedHasNoBreak(v);
    hide Decode, Universal, Gives, IsKey, NoBreak, Quoted, Read, ReadLine;
    var line := Setting(key, Quoted(v).value);
    Replacement(loads, key, Quoted(v).value, v);
    AppendOne(loads, [], line, key, v);
    assert [] + [line] == [line];
    ReadBack(loads, [line]);
    assert Join([line]) == line;
  }

  lemma {:induction false} FirstBreak(s: string) returns (a: string, b: char, c: string)
    requires !NoBreak(s)
    ensures s == a + [b] + c && NoBreak(a) && b in BREAKS
  {
    if s[0] in BREAKS {
      a, b, c := "", s[0], s[1..];
    } else {
      assert forall i :: 1 <= i < |s| ==> s[i] == s[1..][i - 1];
      a, b, c := FirstBreak(s[1..]);
      a := [s[0]] + a;
    }
  }

  /** The one line that assigns a key decides its value. */
  lemma FirstLineDecides(loads: string -> Option<string>, lines: seq<string>, key: string, raw: string)
    requires ReadLines(loads, lines).Some? && lines != [] && Places(lines, key) == [0]
    requires Assignment(Strip(lines[0])) == Some((key, raw))
    ensures key in ReadLines(loads, lines).value.values
    ensures Decode(loads, raw) == Some(ReadLines(loads, lines).value.values[key])
  {
    LaterFailure(loads, lines, 1);
    assert lines[..1] == [lines[0]] && [lines[0]][..0] == [];
    NoKeyIsBlank(lines[0], key);
    var w := Decode(loads, raw).value;
    ReplaceOne(loads, lines, 0, lines[0], key, w);
    assert lines[0 := lines[0]] == lines;
    Counting(loads, lines, key);
  }

  /** Where a printed line with a break in its value is torn. */
  lemma Torn(key: string, v: string) returns (a: string, b: char, c: string)
    requires IsKey(key) && !NoBreak(v) && Quoted(v).Some?
    ensures Setting(key, Quoted(v).value) == key + "=" + a + [b] + c
    ensures NoBreak(key + "=" + a) && b in BREAKS && a != "" && a[0] == '\''
  {
    var q := Quoted(v).value;
    QuotedIsEscaped(v);
    hide Escaped;
    assert q == "'" + Escaped(v) + "'";
    var x :| x in v && x in BREAKS;
    EscapedChars(v, x);
    a, b, c := FirstBreak(q);
    assert q[0] == '\'' && '\'' !in BREAKS;
    assert q[0] == (a + [b] + c)[0] == if a == "" then b else a[0];
    c := c + "\n";
  }

  lemma SettingHasNoCr(key: string, v: string)
    requires IsKey(key) && Quoted(v).Some?
    ensures NoCr(Setting(key, Quoted(v).value))
  {
    QuotedIsEscaped(v);
    EscapedChars(v, '\r');
    assert forall c :: c in Setting(key, Quoted(v).value) ==> c in key || c in Quoted(v).value || c == '=' || c == '\n';
  }

  lemma QuoteStays(a: string)
    requires a != "" && a[0] == '\''
    ensures Strip(a) != "" && Strip(a)[0] == '\''
  {
    assert a == "" + ['\''] + a[1..];
    StripRightStops("", '\'', a[1..]);
  }

  /** A torn first line decides the key's value, and that value has no break. */
  lemma TornLinesReadOtherwise(loads: string -> Option<string>, lines: seq<string>, key: string, a: string, b: char, v: string)
    requires lines != [] && lines[0] == key + "=" + a + [b] && IsKey(key)
    requires NoBreak(key + "=" + a) && b in BREAKS && a != "" && a[0] == '\'' && !NoBreak(v)
    ensures ReadLines(loads, lines) != Some(Env(map[key := v], {}))
  {
    hide Decode, Gives, Blank, Strip, Assignment, ReadLines, Places;
    AssignmentLine(loads, key, a);
    FirstLineAssigns(lines, key, a, b);
    assert forall c :: c in a ==> c in key + "=" + a;
    if ReadLines(loads, lines) == Some(Env(map[key := v], {})) {
      Counting(loads, lines, key);
      assert Places(lines, key) == [0];
      FirstLineDecides(loads, lines, key, StripRight(a));
      QuoteStays(a);
      var x :| x in v && x in BREAKS;
      DecodedChars(loads, a, x);
    }
  }

  lemma BrokenLineIsNotReadBack(loads: string -> Option<string>, key: string, v: string)
    requires IsKey(key) && !NoBreak(v) && Quoted(v).Some?
    ensures Read(loads, Setting(key, Quoted(v).value)) != Some(Env(map[key := v], {}))
  {
    hide ReadLines, Quoted, Setting, IsKey, NoBreak, Contents;
    var text := Setting(key, Quoted(v).value);
    var a, b, c := Torn(key, v);
    SettingHasNoCr(key, v);
    TornKeep(key, a, b, c);
    BreaksDoNotMatter(loads, Keep(text));
    TornLinesReadOtherwise(loads, Keep(text), key, a, b, v);
  }

  lemma TornKeep(key: string, a: string, b: char, c: string)
    requires NoBreak(key + "=" + a) && b in BREAKS
    ensures Keep(key + "=" + a + [b] + c) != [] && Keep(key + "=" + a + [b] + c)[0] == key + "=" + a + [b]
  {
    KeepEnded(key + "=" + a, b, c);
  }

  lemma FirstLineAssigns(lines: seq<string>, key: string, a: string, b: char)
    requires lines != [] && lines[0] == key + "=" + a + [b] && b in BREAKS
    requires Assignment(Strip(key + "=" + a)) == Some((key, StripRight(a)))
    ensures Assignment(Strip(lines[0])) == Some((key, StripRight(a))) && 0 in Places(lines, key)
  {
    StripEnd(key + "=" + a, b);
    PlacesHold(lines, key, 0);
  }

  lemma OtherBreaks(v: string)
    requires '\n' !in v && '\r' !in v
    ensures NoBreak(v) <==> forall c :: c in v ==> c !in {
      '\U{000B}', '\U{000C}', '\U{001C}', '\U{001D}', '\U{001E}', '\U{0085}', '\U{2028}', '\U{2029}'}
  {
  }

  /** At the level of the file a printed value comes back exactly when it has none of the
      other characters that break lines: the printer refuses only NUL, CR and LF. */
  lemma PrintedLineIsReadBackExactlyWhen(loads: string -> Option<string>, key: string, v: string)
    requires IsKey(key) && Quoted(v).Some?
    ensures Read(loads, Setting(key, Quoted(v).value)) == Some(Env(map[key := v], {})) <==>
      forall c :: c in v ==> c !in {
        '\U{000B}', '\U{000C}', '\U{001C}', '\U{001D}', '\U{001E}', '\U{0085}', '\U{2028}', '\U{2029}'}
  {
    DecodeUndoesQuoted(loads, v);
    OtherBreaks(v);
    if NoBreak(v) {
      PrintedLineIsReadBack(loads, key, v);
    } else {
      BrokenLineIsNotReadBack(loads, key, v);
    }
  }
}
