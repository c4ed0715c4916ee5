/** Range export of the chain and the offline checker of its files
    (services/gateway/audit_export.py). */
module AuditExport {
  import opened Values
  import opened AuditRecords

  datatype Manifest = Manifest(
    fromSeq: Option<int>,
    toSeq: Option<int>,
    rowCount: int,
    genesisAnchored: bool,
    publicKeys: Keyring)

  /** A line after the manifest: a row, or text that does not parse as one. */
  datatype Line = Row(record: AuditRecord) | Malformed

  /** An export file: its first line (None when it is no manifest), whether the
      manifest names the supported format, and the lines that follow. */
  datatype File = File(manifest: Option<Manifest>, supported: bool, lines: seq<Line>)

  datatype ExportError =
    | BadBounds
    | BadRange(seqNo: int)
    | Unverified(seqNo: int, failure: Failure)
    | Incomplete
    | NoManifest
    | Unsupported
    | BadRow(after: nat)
    | WrongCount
    | WrongEnd
    | WrongKeys

  /** SELECT ... WHERE seq BETWEEN lo AND hi ORDER BY seq. */
  function Select(rows: seq<AuditRecord>, lo: int, hi: int): seq<AuditRecord> {
    if |rows| == 0 then []
    else (if lo <= rows[0].seqNo <= hi then [rows[0]] else []) + Select(rows[1..], lo, hi)
  }

  /** The hash a walk over a range starts from: genesis for a range that starts at
      row 1, otherwise whatever the first row claims. */
  function AnchorOf(rows: seq<AuditRecord>, start: int): string {
    if start == 1 || |rows| == 0 then GENESIS_HASH else rows[0].prevHash
  }

  ghost predicate GapFree(rows: seq<AuditRecord>, start: int) {
    forall i :: 0 <= i < |rows| ==> rows[i].seqNo == start + i
  }

  /** A gap-free, linked and signed run of rows numbered from `start`. */
  ghost predicate SoundRange(c: Crypto, rows: seq<AuditRecord>, start: int, ring: Keyring) {
    GapFree(rows, start) && Accepted(c, rows, AnchorOf(rows, start), ring, None)
  }

  function UsedKeys(rows: seq<AuditRecord>): set<string> {
    set r | r in rows && r.keyId.Some? :: r.keyId.value
  }

  /** The manifest that describes `rows` exactly, with just the keys they name. */
  ghost predicate Describes(m: Manifest, rows: seq<AuditRecord>, start: int, end: int, ring: Keyring) {
    && m.fromSeq == Some(start) && m.toSeq == Some(end)
    && m.rowCount == |rows| == end - start + 1
    && m.genesisAnchored == (start == 1)
    && UsedKeys(rows) <= ring.Keys
    && m.publicKeys == map id | id in UsedKeys(rows) :: ring[id]
  }

  /** The walk that prepare and verify_file share: rows[i] must be numbered start + i
      and verify against its predecessor. `next` rows pass; `used` are their key ids. */
  method WalkRange(c: Crypto, rows: seq<AuditRecord>, start: int, ring: Keyring)
    returns (next: nat, used: set<string>, error: Option<ExportError>)
    ensures next <= |rows|
    ensures SoundRange(c, rows[..next], start, ring)
    ensures used == UsedKeys(rows[..next])
    ensures error.None? <==> next == |rows|
    ensures error.Some? ==> !SoundRange(c, rows[..next + 1], start, ring)
  {
    var prev: Option<string> := if start == 1 then Some(GENESIS_HASH) else None;
    var expected := start;
    next, used := 0, {};
    while next < |rows|
      invariant next <= |rows| && expected == start + next
      invariant SoundRange(c, rows[..next], start, ring)
      invariant used == UsedKeys(rows[..next])
      invariant prev == if next == 0 then (if start == 1 then Some(GENESIS_HASH) else None) else Some(rows[next - 1].currHash)
    {
      var record := rows[next];
      var grown := rows[..next + 1];
      assert grown[..next] == rows[..next] && grown[next] == record;
      if record.seqNo != expected {
        assert !GapFree(grown, start);
        return next, used, Some(BadRange(record.seqNo));
      }
      if prev.None? {
        prev := Some(record.prevHash);
      }
      assert prev.value == PrevOf(grown, next, AnchorOf(grown, start));
      var checked := VerifyRecord(c, record, prev.value, ring, None);
      if checked.Err? {
        assert !GoodAt(c, grown, next, AnchorOf(grown, start), ring, None);
        return next, used, Some(Unverified(record.seqNo, checked.error));
      }
      ExtendRange(c, rows, next, start, ring);
      used := used + {record.keyId.value};
      prev := Some(checked.value);
      expected := expected + 1;
      next := next + 1;
    }
    assert rows[..next] == rows;
    error := None;
  }

  lemma OneMoreKey(rows: seq<AuditRecord>, next: AuditRecord)
    requires next.keyId.Some?
    ensures UsedKeys(rows + [next]) == UsedKeys(rows) + {next.keyId.value}
  {
  }

  lemma ExtendRange(c: Crypto, rows: seq<AuditRecord>, n: nat, start: int, ring: Keyring)
    requires n < |rows| && SoundRange(c, rows[..n], start, ring)
    requires rows[n].seqNo == start + n
    requires GoodAt(c, rows[..n + 1], n, AnchorOf(rows[..n + 1], start), ring, None)
    ensures SoundRange(c, rows[..n + 1], start, ring)
    ensures rows[n].keyId.Some?
    ensures UsedKeys(rows[..n + 1]) == UsedKeys(rows[..n]) + {rows[n].keyId.value}
  {
    assert rows[n].keyId.Some?;
    hide Genuine;
    var a, b := rows[..n], rows[..n + 1];
    assert b == a + [rows[n]];
    OneMoreKey(a, rows[n]);
    hide UsedKeys;
    forall i | 0 <= i < n + 1 ensures GoodAt(c, b, i, AnchorOf(b, start), ring, None) {
      if i < n {
        assert GoodAt(c, a, i, AnchorOf(a, start), ring, None);
        assert a[i] == b[i] && PrevOf(a, i, AnchorOf(a, start)) == PrevOf(b, i, AnchorOf(b, start));
      }
    }
  }

  /** Verifies a range of the live chain and builds its manifest; None when the log is empty. */
  method Prepare(c: Crypto, rows: seq<AuditRecord>, ring: Keyring, fromSeq: Option<int>, toSeq: Option<int>)
    returns (res: Result<Manifest, ExportError>)
    requires Ordered(rows)
    ensures (fromSeq.Some? && fromSeq.value <= 0) || (toSeq.Some? && toSeq.value <= 0) ==> res == Err(BadBounds)
    ensures res.Ok? && rows == [] ==> res.value == Manifest(None, None, 0, true, map[])
    ensures res.Ok? && rows != [] ==>
        var start := if fromSeq.Some? then fromSeq.value else rows[0].seqNo;
        var end := if toSeq.Some? then toSeq.value else rows[|rows| - 1].seqNo;
        && start <= end
        && SoundRange(c, Select(rows, start, end), start, ring)
        && Describes(res.value, Select(rows, start, end), start, end, ring)
    ensures res.Err? && (fromSeq.Some? ==> fromSeq.value > 0) && (toSeq.Some? ==> toSeq.value > 0) ==>
        && rows != []
        && var start := if fromSeq.Some? then fromSeq.value else rows[0].seqNo;
           var end := if toSeq.Some? then toSeq.value else rows[|rows| - 1].seqNo;
           start > end || |Select(rows, start, end)| != end - start + 1
           || !SoundRange(c, Select(rows, start, end), start, ring)
  {
    if (fromSeq.Some? && fromSeq.value <= 0) || (toSeq.Some? && toSeq.value <= 0) {
      return Err(BadBounds);
    }
    if |rows| == 0 {
      return Ok(Manifest(None, None, 0, true, map[]));
    }
    var start := if fromSeq.Some? then fromSeq.value else rows[0].seqNo;
    var end := if toSeq.Some? then toSeq.value else rows[|rows| - 1].seqNo;
    if start > end {
      return Err(BadBounds);
    }
    var range := Select(rows, start, end);
    var count, used, error := WalkRange(c, range, start, ring);
    if error.Some? {
      if SoundRange(c, range, start, ring) {
        ShorterRange(c, range, count + 1, start, ring);
      }
      return Err(error.value);
    }
    assert range[..count] == range;
    if count != end - start + 1 {
      return Err(Incomplete);
    }
    UsedKeysAreInRing(c, range, start, ring);
    res := Ok(Manifest(Some(start), Some(end), count, start == 1, map id | id in used :: ring[id]));
  }

  lemma ShorterRange(c: Crypto, rows: seq<AuditRecord>, n: nat, start: int, ring: Keyring)
    requires n <= |rows| && SoundRange(c, rows, start, ring)
    ensures SoundRange(c, rows[..n], start, ring)
  {
    forall i | 0 <= i < n ensures GoodAt(c, rows[..n], i, AnchorOf(rows[..n], start), ring, None) {
      assert GoodAt(c, rows, i, AnchorOf(rows, start), ring, None);
    }
  }

  lemma UsedKeysAreInRing(c: Crypto, rows: seq<AuditRecord>, start: int, ring: Keyring)
    requires SoundRange(c, rows, start, ring)
    ensures UsedKeys(rows) <= ring.Keys
    ensures forall i :: 0 <= i < |rows| ==> rows[i].keyId.Some? && rows[i].keyId.value in UsedKeys(rows)
  {
    forall i | 0 <= i < |rows| ensures rows[i].keyId.Some? && rows[i].keyId.value in ring {
      assert GoodAt(c, rows, i, AnchorOf(rows, start), ring, None);
    }
  }

  /** The lines that stream emits after the manifest, from the log as it is by then. */
  method Stream(rows: seq<AuditRecord>, m: Manifest) returns (file: File)
    ensures file.manifest == Some(m) && file.supported
    ensures m.fromSeq.None? || m.toSeq.None? ==> file.lines == []
    ensures m.fromSeq.Some? && m.toSeq.Some? ==>
        file.lines == AsLines(Select(rows, m.fromSeq.value, m.toSeq.value))
  {
    var lines: seq<Line> := [];
    if m.fromSeq.Some? && m.toSeq.Some? {
      var selected := Select(rows, m.fromSeq.value, m.toSeq.value);
      for i := 0 to |selected|
        invariant lines == AsLines(selected[..i])
      {
        lines := lines + [Row(selected[i])];
        assert selected[..i + 1] == selected[..i] + [selected[i]];
      }
      assert selected[..|selected|] == selected;
    }
    return File(Some(m), true, lines);
  }

  function AsLines(rows: seq<AuditRecord>): (lines: seq<Line>)
    ensures |lines| == |rows| && forall i :: 0 <= i < |rows| ==> lines[i] == Row(rows[i])
  {
    seq(|rows|, i requires 0 <= i < |rows| => Row(rows[i]))
  }

  /** What the checker accepts, for every file whatever its origin: a gap-free, linked
      and signed range from the declared first row to the declared last one, whose
      keys are exactly the bundled ones. The genesis flag is not part of it. */
  ghost predicate GoodFile(c: Crypto, file: File, rows: seq<AuditRecord>) {
    && file.manifest.Some? && file.supported
    && file.lines == AsLines(rows)
    && var m := file.manifest.value;
       && (rows != [] ==>
            && m.fromSeq.Some?
            && SoundRange(c, rows, m.fromSeq.value, m.publicKeys)
            && m.toSeq == Some(m.fromSeq.value + |rows| - 1))
       && m.rowCount == |rows|
       && UsedKeys(rows) == m.publicKeys.Keys
  }

  method VerifyFile(c: Crypto, file: File) returns (res: Result<(nat, bool), ExportError>)
    ensures res.Ok? <==> exists rows :: GoodFile(c, file, rows)
    ensures res.Ok? ==> res.value.0 == |file.lines| && res.value.1 == file.manifest.value.genesisAnchored
  {
    if file.manifest.None? {
      return Err(NoManifest);
    }
    if !file.supported {
      return Err(Unsupported);
    }
    var m := file.manifest.value;
    var rows, parsed := ParseLines(file.lines);
    if m.fromSeq.None? && |file.lines| > 0 {
      return Err(if |rows| == 0 then BadRow(0) else BadRange(rows[0].seqNo));
    }
    var start := if m.fromSeq.Some? then m.fromSeq.value else 0;
    var count, used, error := WalkRange(c, rows, start, m.publicKeys);
    if error.Some? {
      forall r | GoodFile(c, file, r) ensures false {
        LinesDetermineRows(file.lines, rows, r);
        assert r[..count + 1] == rows[..count + 1];
        ShorterRange(c, r, count + 1, start, m.publicKeys);
      }
      return Err(error.value);
    }
    assert rows[..count] == rows;
    if !parsed {
      forall r | GoodFile(c, file, r) ensures false {
        assert false;
      }
      return Err(BadRow(count));
    }
    assert file.lines == AsLines(rows);
    forall r | GoodFile(c, file, r) ensures r == rows {
      LinesDetermineRows(file.lines, rows, r);
    }
    if count != m.rowCount {
      return Err(WrongCount);
    }
    if count > 0 && (m.toSeq.None? || start + count != m.toSeq.value + 1) {
      return Err(WrongEnd);
    }
    if used != m.publicKeys.Keys {
      return Err(WrongKeys);
    }
    assert GoodFile(c, file, rows);
    res := Ok((count, m.genesisAnchored));
  }

  /** No row can be left out of an export or added to it: under one manifest every accepted
      file has the same row numbers, as many as the manifest says, from its first row to its
      last without a gap. */
  lemma NothingIsLeftOut(c: Crypto, file: File, rows: seq<AuditRecord>)
    requires GoodFile(c, file, rows)
    ensures
      var m := file.manifest.value;
      && |file.lines| == |rows| == m.rowCount
      && (forall i :: 0 <= i < |rows| ==> file.lines[i] == Row(rows[i]) && rows[i].seqNo == m.fromSeq.value + i)
      && (rows != [] ==> m.toSeq == Some(rows[|rows| - 1].seqNo) && m.fromSeq == Some(rows[0].seqNo))
      && (forall r :: r in rows ==> r.keyId.Some? && r.keyId.value in m.publicKeys)
      && (forall id :: id in m.publicKeys ==> exists r :: r in rows && r.keyId == Some(id))
  {
    if rows != [] {
      UsedKeysAreInRing(c, rows, file.manifest.value.fromSeq.value, file.manifest.value.publicKeys);
    }
  }

  /** The rows up to the first malformed line. */
  method ParseLines(lines: seq<Line>) returns (rows: seq<AuditRecord>, complete: bool)
    ensures |rows| <= |lines|
    ensures forall i :: 0 <= i < |rows| ==> lines[i] == Row(rows[i])
    ensures complete <==> |rows| == |lines|
    ensures !complete ==> lines[|rows|].Malformed?
  {
    rows := [];
    while |rows| < |lines|
      invariant |rows| <= |lines|
      invariant forall i :: 0 <= i < |rows| ==> lines[i] == Row(rows[i])
      decreases |lines| - |rows|
    {
      match lines[|rows|] {
        case Malformed => return rows, false;
        case Row(r) => rows := rows + [r];
      }
    }
    complete := true;
  }

  lemma LinesDetermineRows(lines: seq<Line>, rows: seq<AuditRecord>, all: seq<AuditRecord>)
    requires |rows| <= |lines| && lines == AsLines(all)
    requires forall i :: 0 <= i < |rows| ==> lines[i] == Row(rows[i])
    ensures rows == all[..|rows|]
  {
    forall i | 0 <= i < |rows| ensures rows[i] == all[i] {
      assert lines[i] == Row(all[i]);
    }
  }

  lemma {:induction false} SelectMembers(rows: seq<AuditRecord>, lo: int, hi: int, r: AuditRecord)
    ensures r in Select(rows, lo, hi) <==> r in rows && lo <= r.seqNo <= hi
  {
    if |rows| > 0 {
      assert rows == [rows[0]] + rows[1..];
      SelectMembers(rows[1..], lo, hi, r);
    }
  }

  lemma OrderedCons(first: AuditRecord, rest: seq<AuditRecord>)
    requires Ordered(rest) && first.seqNo > 0 && forall i :: 0 <= i < |rest| ==> first.seqNo < rest[i].seqNo
    ensures Ordered([first] + rest)
  {
  }

  lemma {:induction false} SelectIsOrdered(rows: seq<AuditRecord>, lo: int, hi: int)
    requires Ordered(rows)
    ensures Ordered(Select(rows, lo, hi))
    ensures forall r :: r in Select(rows, lo, hi) <==> r in rows && lo <= r.seqNo <= hi
  {
    forall r ensures r in Select(rows, lo, hi) <==> r in rows && lo <= r.seqNo <= hi {
      SelectMembers(rows, lo, hi, r);
    }
    if |rows| > 0 {
      assert Ordered(rows[1..]) by {
        assert forall i :: 0 <= i < |rows[1..]| ==> rows[1..][i] == rows[i + 1];
      }
      SelectIsOrdered(rows[1..], lo, hi);
      var rest := Select(rows[1..], lo, hi);
      forall i | 0 <= i < |rest| ensures rows[0].seqNo < rest[i].seqNo {
        assert rest[i] in rest && rest[i] in rows[1..];
      }
      OrderedCons(rows[0], rest);
    }
  }

  /** Rows appended after prepare have larger numbers, so they never enter a range
      that was complete when it was prepared. */
  lemma {:induction false} SelectIgnoresLaterRows(rows: seq<AuditRecord>, later: seq<AuditRecord>, lo: int, hi: int)
    requires Ordered(rows + later)
    requires exists r :: r in rows && r.seqNo == hi
    ensures Select(rows + later, lo, hi) == Select(rows, lo, hi)
  {
    var r :| r in rows && r.seqNo == hi;
    var k :| 0 <= k < |rows| && rows[k] == r;
    forall j | 0 <= j < |later| ensures later[j].seqNo > hi {
      assert (rows + later)[k] == rows[k] && (rows + later)[|rows| + j] == later[j];
    }
    SelectConcat(rows, later, lo, hi);
    SelectNothing(later, lo, hi);
  }

  lemma {:induction false} SelectConcat(a: seq<AuditRecord>, b: seq<AuditRecord>, lo: int, hi: int)
    ensures Select(a + b, lo, hi) == Select(a, lo, hi) + Select(b, lo, hi)
  {
    if a == [] {
      assert a + b == b;
    } else {
      assert (a + b)[1..] == a[1..] + b;
      SelectConcat(a[1..], b, lo, hi);
    }
  }

  lemma {:induction false} SelectNothing(rows: seq<AuditRecord>, lo: int, hi: int)
    requires forall i :: 0 <= i < |rows| ==> rows[i].seqNo > hi
    ensures Select(rows, lo, hi) == []
  {
    if rows != [] {
      SelectNothing(rows[1..], lo, hi);
    }
  }

  /** A range verifies under the keys it names as well as under the whole directory. */
  lemma BundleSuffices(c: Crypto, rows: seq<AuditRecord>, start: int, end: int, ring: Keyring, m: Manifest)
    requires SoundRange(c, rows, start, ring) && Describes(m, rows, start, end, ring)
    ensures SoundRange(c, rows, start, m.publicKeys)
  {
    UsedKeysAreInRing(c, rows, start, ring);
    forall i | 0 <= i < |rows| ensures GoodAt(c, rows, i, AnchorOf(rows, start), m.publicKeys, None) {
      assert GoodAt(c, rows, i, AnchorOf(rows, start), ring, None);
    }
  }

  /** A described range, streamed from the log as it has grown since, makes a good file. */
  lemma DescribedFileIsGood(c: Crypto, rows: seq<AuditRecord>, later: seq<AuditRecord>, ring: Keyring,
                            start: int, end: int, m: Manifest)
    requires Ordered(rows + later) && start <= end
    requires SoundRange(c, Select(rows, start, end), start, ring) && Describes(m, Select(rows, start, end), start, end, ring)
    ensures GoodFile(c, File(Some(m), true, AsLines(Select(rows + later, start, end))), Select(rows, start, end))
  {
    hide Genuine, UsedKeys;
    PrefixIsOrdered(rows, later);
    var range := Select(rows, start, end);
    SelectIsOrdered(rows, start, end);
    assert range[|range| - 1].seqNo == end && range[|range| - 1] in range;
    SelectIgnoresLaterRows(rows, later, start, end);
    BundleSuffices(c, range, start, end, ring, m);
  }

  /** The export round trip: what prepare accepted, streamed from the log as it has
      grown since, is accepted by the checker, which reports the row count and
      whether the range reaches back to genesis. */
  method ExportThenVerify(c: Crypto, rows: seq<AuditRecord>, later: seq<AuditRecord>, ring: Keyring,
                          fromSeq: Option<int>, toSeq: Option<int>)
    returns (prepared: Result<Manifest, ExportError>, verdict: Result<(nat, bool), ExportError>)
    requires Ordered(rows + later)
    ensures prepared.Ok? ==> verdict.Ok?
    ensures prepared.Ok? && rows != [] ==>
        var start := if fromSeq.Some? then fromSeq.value else rows[0].seqNo;
        verdict.value == (prepared.value.rowCount, start == 1)
    ensures prepared.Ok? && rows == [] ==> verdict.value == (0, true)
  {
    hide SoundRange, Select, UsedKeys;
    assert Ordered(rows) by { PrefixIsOrdered(rows, later); }
    prepared := Prepare(c, rows, ring, fromSeq, toSeq);
    if prepared.Err? {
      return prepared, Err(NoManifest);
    }
    var m := prepared.value;
    var file := Stream(rows + later, m);
    if rows == [] {
      EmptyFileIsGood(c, file);
    } else {
      DescribedFileIsGood(c, rows, later, ring, m.fromSeq.value, m.toSeq.value, m);
    }
    verdict := VerifyFile(c, file);
  }

  lemma EmptyFileIsGood(c: Crypto, file: File)
    requires file == File(Some(Manifest(None, None, 0, true, map[])), true, [])
    ensures GoodFile(c, file, [])
  {
  }

  lemma PrefixIsOrdered(rows: seq<AuditRecord>, later: seq<AuditRecord>)
    requires Ordered(rows + later)
    ensures Ordered(rows)
  {
    assert forall i :: 0 <= i < |rows| ==> (rows + later)[i] == rows[i];
  }

  /** The rows are the beginning of the chain: row 1 on, linked to genesis. */
  ghost predicate ReachesGenesis(c: Crypto, rows: seq<AuditRecord>, ring: Keyring) {
    rows != [] && rows[0].seqNo == 1 && Accepted(c, rows, GENESIS_HASH, ring, None)
  }

  /** The checker hands back the manifest's genesis flag as it stands, so an accepted file
      may carry either. The flag is right - it says whether the rows reach back to genesis -
      exactly when it says whether the manifest's first row is row 1. */
  lemma GenesisFlagIsRightExactlyWhen(c: Crypto, file: File, rows: seq<AuditRecord>)
    requires GoodFile(c, file, rows) && rows != []
    ensures
      var m := file.manifest.value;
      && m.fromSeq == Some(rows[0].seqNo)
      && (ReachesGenesis(c, rows, m.publicKeys) <==> rows[0].seqNo == 1)
      && (m.genesisAnchored == ReachesGenesis(c, rows, m.publicKeys) <==> m.genesisAnchored == (m.fromSeq == Some(1)))
      && forall flag :: GoodFile(c, file.(manifest := Some(m.(genesisAnchored := flag))), rows)
  {
    var m := file.manifest.value;
    assert GapFree(rows, m.fromSeq.value);
    assert AnchorOf(rows, 1) == GENESIS_HASH;
  }
}
