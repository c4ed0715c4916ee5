/** The incremental verifier and the full scan it must agree with
    (services/gateway/audit_verifier.py, scripts/verify_audit_chain.py). */
module AuditVerifier {
  import opened Values
  import opened AuditRecords

  /** The checkpoint that stands for "the first n rows are verified"; 0 for none. */
  function Mark(rows: seq<AuditRecord>, n: nat): int
    requires n <= |rows|
  {
    if n == 0 then 0 else rows[n - 1].seqNo
  }

  /** A walk that starts after n0 rows stops after n: all rows between are good and
      the next one, if any, is not. */
  ghost predicate ScannedTo(c: Crypto, rows: seq<AuditRecord>, n0: nat, n: nat, ring: Keyring, legacy: Option<string>) {
    && n0 <= n <= |rows|
    && (forall i :: n0 <= i < n ==> GoodAt(c, rows, i, GENESIS_HASH, ring, legacy))
    && (n < |rows| ==> !GoodAt(c, rows, n, GENESIS_HASH, ring, legacy))
  }

  /** The longest prefix that a scan from genesis accepts has n rows. */
  ghost predicate LongestPrefix(c: Crypto, rows: seq<AuditRecord>, n: nat, ring: Keyring, legacy: Option<string>) {
    ScannedTo(c, rows, 0, n, ring, legacy)
  }

  lemma MarkIsUnique(rows: seq<AuditRecord>)
    requires Ordered(rows)
    ensures forall m, n :: 0 <= m <= |rows| && 0 <= n <= |rows| && Mark(rows, m) == Mark(rows, n) ==> m == n
  {
  }

  /** How many rows the checkpoint covers, when its row is still there. */
  method Anchor(rows: seq<AuditRecord>, mark: int) returns (start: nat, found: bool)
    requires Ordered(rows)
    ensures found ==> start <= |rows| && mark == Mark(rows, start)
    ensures !found ==> forall n :: 0 <= n <= |rows| ==> mark != Mark(rows, n)
  {
    if mark == 0 {
      return 0, true;
    }
    start := 0;
    while start < |rows| && rows[start].seqNo != mark
      invariant start <= |rows|
      invariant forall i :: 0 <= i < start ==> rows[i].seqNo != mark
    {
      start := start + 1;
    }
    found := start < |rows|;
    start := start + 1;
  }

  /** The verification loop: every row after the first `start`, up to the first failure. */
  method Walk(c: Crypto, rows: seq<AuditRecord>, start: nat, ring: Keyring, legacy: Option<string>)
    returns (next: nat, failure: Option<Trouble>)
    requires start <= |rows|
    ensures ScannedTo(c, rows, start, next, ring, legacy)
    ensures failure.None? <==> next == |rows|
    ensures failure.Some? ==> failure.value.RowRejected? && failure.value.seqNo == rows[next].seqNo
  {
    var prev := PrevOf(rows, start, GENESIS_HASH);
    next := start;
    while next < |rows|
      invariant start <= next <= |rows| && prev == PrevOf(rows, next, GENESIS_HASH)
      invariant forall i :: start <= i < next ==> GoodAt(c, rows, i, GENESIS_HASH, ring, legacy)
    {
      var checked := VerifyRecord(c, rows[next], prev, ring, legacy);
      if checked.Err? {
        return next, Some(RowRejected(rows[next].seqNo, checked.error));
      }
      prev := checked.value;
      next := next + 1;
    }
    failure := None;
  }

  datatype Trouble = CheckpointMissing | RowRejected(seqNo: int, failure: Failure)

  /** What one pass does to the checkpoint, as VerifyIncrement promises it. */
  ghost predicate Pass(c: Crypto, before: int, after: int, rows: seq<AuditRecord>, ring: Keyring, legacy: Option<string>) {
    forall n0 :: 0 <= n0 <= |rows| && before == Mark(rows, n0) ==>
      exists n :: 0 <= n <= |rows| && ScannedTo(c, rows, n0, n, ring, legacy) && after == Mark(rows, n)
  }

  class Verifier {
    var checkpoint: Option<int>

    constructor ()
      ensures checkpoint == None
    {
      checkpoint := None;
    }

    function Marked(): int
      reads this
    {
      if checkpoint.Some? then checkpoint.value else 0
    }

    /** One pass from the checkpoint forward over the rows the database holds. */
    method VerifyIncrement(c: Crypto, rows: seq<AuditRecord>, ring: Keyring, legacy: Option<string>)
      returns (verified: nat, failure: Option<Trouble>)
      requires Ordered(rows)
      modifies this
      ensures (forall n :: 0 <= n <= |rows| ==> old(Marked()) != Mark(rows, n)) ==>
          verified == 0 && failure == Some(CheckpointMissing) && checkpoint == old(checkpoint)
      ensures forall n0 :: 0 <= n0 <= |rows| && old(Marked()) == Mark(rows, n0) ==>
          && ScannedTo(c, rows, n0, n0 + verified, ring, legacy)
          && Marked() == Mark(rows, n0 + verified)
          && (failure.None? <==> n0 + verified == |rows|)
          && (failure.Some? ==> failure.value.RowRejected? && failure.value.seqNo == rows[n0 + verified].seqNo)
      ensures Pass(c, old(Marked()), Marked(), rows, ring, legacy)
      ensures verified == 0 ==> checkpoint == old(checkpoint)
    {
      var lastVerified := Marked();
      var start, found := Anchor(rows, lastVerified);
      if !found {
        return 0, Some(CheckpointMissing);
      }
      MarkIsUnique(rows);
      var next;
      next, failure := Walk(c, rows, start, ring, legacy);
      verified := next - start;
      if verified > 0 {
        checkpoint := Some(rows[next - 1].seqNo);
      }
    }
  }

  /** The operator's full scan: exit code 0 and the row count, or 1 at the first break. */
  method FullScan(c: Crypto, rows: seq<AuditRecord>, ring: Keyring) returns (exitCode: int, count: nat)
    ensures LongestPrefix(c, rows, count, ring, None)
    ensures exitCode == (if count == |rows| then 0 else 1)
    ensures exitCode == 0 <==> Accepted(c, rows, GENESIS_HASH, ring, None)
  {
    var failure;
    count, failure := Walk(c, rows, 0, ring, None);
    exitCode := if failure.None? then 0 else 1;
  }

  lemma LongestPrefixIsUnique(c: Crypto, rows: seq<AuditRecord>, m: nat, n: nat, ring: Keyring, legacy: Option<string>)
    requires LongestPrefix(c, rows, m, ring, legacy) && LongestPrefix(c, rows, n, ring, legacy)
    ensures m == n
  {
  }

  /** A row that checks out goes on checking out when rows and keys are added. */
  lemma GoodRowsStayGood(c: Crypto, rows: seq<AuditRecord>, more: seq<AuditRecord>, ring: Keyring, wider: Keyring,
                         n: nat, legacy: Option<string>)
    requires AcceptedPrefix(c, rows, n, GENESIS_HASH, ring, legacy)
    requires rows <= more
    requires forall id :: id in ring ==> id in wider && wider[id] == ring[id]
    ensures AcceptedPrefix(c, more, n, GENESIS_HASH, wider, legacy)
  {
    forall i | 0 <= i < n ensures GoodAt(c, more, i, GENESIS_HASH, wider, legacy) {
      assert GoodAt(c, rows, i, GENESIS_HASH, ring, legacy);
      assert rows[i] == more[i] && PrevOf(rows, i, GENESIS_HASH) == PrevOf(more, i, GENESIS_HASH);
    }
  }

  /** Logs are append-only and public keys are never taken away. */
  ghost predicate OnlyGrows(logs: seq<seq<AuditRecord>>, rings: seq<Keyring>)
    requires |logs| == |rings|
  {
    && (forall i :: 0 <= i < |logs| ==> Ordered(logs[i]))
    && (forall i, j :: 0 <= i < j < |logs| ==> logs[i] <= logs[j])
    && (forall i, j, id :: 0 <= i < j < |rings| && id in rings[i] ==> id in rings[j] && rings[j][id] == rings[i][id])
  }

  /** After the k-th pass of any run of passes interleaved with appends and new keys,
      the checkpoint is the last row of the longest prefix a full scan of that moment
      accepts; in particular it never moves past a failing row. */
  lemma {:induction false} IncrementalEqualsFull(c: Crypto, logs: seq<seq<AuditRecord>>, rings: seq<Keyring>,
                                                 marks: seq<int>, legacy: Option<string>, k: nat)
    returns (n: nat)
    requires |logs| == |rings| && |marks| == |logs| + 1 && OnlyGrows(logs, rings)
    requires marks[0] == 0
    requires forall i :: 0 <= i < |logs| ==> Pass(c, marks[i], marks[i + 1], logs[i], rings[i], legacy)
    requires k < |logs|
    ensures LongestPrefix(c, logs[k], n, rings[k], legacy)
    ensures marks[k + 1] == Mark(logs[k], n) && marks[k] <= marks[k + 1]
  {
    var n0 := 0;
    if k > 0 {
      n0 := IncrementalEqualsFull(c, logs, rings, marks, legacy, k - 1);
      GoodRowsStayGood(c, logs[k - 1], logs[k], rings[k - 1], rings[k], n0, legacy);
    }
    var log := logs[k];
    assert marks[k] == Mark(log, n0);
    assert Pass(c, marks[k], marks[k + 1], log, rings[k], legacy);
    n :| 0 <= n <= |log| && ScannedTo(c, log, n0, n, rings[k], legacy) && marks[k + 1] == Mark(log, n);
  }

  /** The daemon's checkpoint reaches the last row exactly when the full scan exits 0. */
  lemma CaughtUpExactlyWhenFullScanPasses(c: Crypto, logs: seq<seq<AuditRecord>>, rings: seq<Keyring>, marks: seq<int>, k: nat)
    requires |logs| == |rings| && |marks| == |logs| + 1 && OnlyGrows(logs, rings)
    requires marks[0] == 0
    requires forall i :: 0 <= i < |logs| ==> Pass(c, marks[i], marks[i + 1], logs[i], rings[i], None)
    requires k < |logs|
    ensures marks[k + 1] == Mark(logs[k], |logs[k]|) <==> Accepted(c, logs[k], GENESIS_HASH, rings[k], None)
  {
    var n := IncrementalEqualsFull(c, logs, rings, marks, None, k);
    if Accepted(c, logs[k], GENESIS_HASH, rings[k], None) {
      LongestPrefixIsUnique(c, logs[k], n, |logs[k]|, rings[k], None);
    }
  }
}
