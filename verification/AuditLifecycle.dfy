/** The writer, the signing keys and the database over the whole life of a deployment:
    writes, writes queued behind a failed rotation, rotations, crashes and restarts. */
module AuditLifecycle {
  import opened Values
  import opened AuditRecords
  import opened AuditKeys
  import Writing = AuditWriter

  /** The public keys a verifier can load: the complete files of the archive. */
  function RingOf(public: map<string, PublicFile>): Keyring {
    map id | id in public && public[id].Whole? :: public[id].key
  }

  lemma ArchivedIsInRing(c: Crypto, d: Disk, k: PrivateKey)
    ensures Archived(c, d, k) <==> Writing.InRing(c, RingOf(d.public), k)
  {
  }

  /** Rows keep verifying while the archive only grows. */
  lemma ArchiveGrowthKeepsChain(c: Crypto, before: Disk, after: Disk, log: seq<AuditRecord>)
    requires KeepsArchive(before, after)
    requires Writing.ChainMade(c, RingOf(before.public), log)
    ensures Writing.ChainMade(c, RingOf(after.public), log)
  {
    var was, now := RingOf(before.public), RingOf(after.public);
    forall i | 0 <= i < |log| ensures Writing.WellMade(c, now, log[i], PrevOf(log, i, GENESIS_HASH)) {
      assert Writing.WellMade(c, was, log[i], PrevOf(log, i, GENESIS_HASH));
      var id := log[i].keyId.value;
      assert now[id] == was[id];
    }
  }

  /** The query of both recoveries: rows of one event type whose payload names the operation. */
  function RowsNaming(log: seq<AuditRecord>, eventType: string, operationId: string): seq<int> {
    if log == [] then []
    else
      var last := log[|log| - 1];
      RowsNaming(log[..|log| - 1], eventType, operationId)
      + if Names(last, eventType, operationId) then [last.seqNo] else []
  }

  predicate Names(row: AuditRecord, eventType: string, operationId: string) {
    row.eventType == eventType && Get(row.payload, "operation_id") == Str(operationId)
  }

  /** In the stored payload the extras override the projected fields. */
  lemma ExtrasWin(c: Crypto, row: AuditRecord, req: Writing.Request, key: PrivateKey, field: string)
    requires Writing.Records(c, row, req, key) && field in req.extra
    ensures row.eventType == req.eventType
    ensures field in row.payload && row.payload[field] == req.extra[field]
  {
    var payload := Writing.PayloadOf(req, row.policyVersion, KeyIdOf(c, key));
    assert row.payload == payload;
  }

  lemma {:induction false} NamingAppend(log: seq<AuditRecord>, added: seq<AuditRecord>, eventType: string, operationId: string)
    requires forall i :: 0 <= i < |added| ==> Names(added[i], eventType, operationId)
    ensures RowsNaming(log + added, eventType, operationId) == RowsNaming(log, eventType, operationId) + Writing.SeqNos(added)
  {
    hide Names;
    if added == [] {
      assert log + added == log;
    } else {
      var n := |added| - 1;
      NamingAppend(log, added[..n], eventType, operationId);
      assert (log + added)[..|log + added| - 1] == log + added[..n];
      assert Writing.SeqNos(added) == Writing.SeqNos(added[..n]) + [added[n].seqNo];
    }
  }

  /** With a fresh operation id the query finds exactly the rows the attempt committed:
      the `rows` of its story. */
  lemma QueryFindsTheAttempt(c: Crypto, log: seq<AuditRecord>, added: seq<AuditRecord>, req: Writing.Request,
                             operationId: string, key: PrivateKey)
    requires RowsNaming(log, req.eventType, operationId) == []
    requires "operation_id" in req.extra && req.extra["operation_id"] == Str(operationId)
    requires forall i :: 0 <= i < |added| ==> Writing.Records(c, added[i], req, key)
    ensures RowsNaming(log + added, req.eventType, operationId) == Writing.SeqNos(added)
  {
    forall i | 0 <= i < |added| ensures Names(added[i], req.eventType, operationId) {
      ExtrasWin(c, added[i], req, key, "operation_id");
    }
    NamingAppend(log, added, req.eventType, operationId);
  }

  const ROTATED := "AUDIT_KEY_ROTATED"

  lemma RotationNamesItsOperation(r: Rotation)
    ensures Writing.RotationRequest(r).eventType == ROTATED
    ensures "operation_id" in Writing.RotationRequest(r).extra
    ensures Writing.RotationRequest(r).extra["operation_id"] == Str(r.operationId)
  {
  }

  /** Rotate from end to end: once the rows are in the log, however the attempt ended and
      however often recovery crashed before, recovery raises exactly when the attempt left
      it stuck, and otherwise puts in force the new key exactly when the story says so. */
  lemma RotationSettledByTheLog(c: Crypto, d: Disk, next: PrivateKey, rotation: Rotation, story: Story,
                                log: seq<AuditRecord>, added: seq<AuditRecord>, cuts: seq<nat>)
    requires DistinctKeys(c) && Settled(c, d) && Possible(story)
    requires KeyIdOf(c, next) !in d.public && rotation.newKeyId == KeyIdOf(c, next)
    requires RowsNaming(log, ROTATED, rotation.operationId) == [] && RowsOf(story) == Writing.SeqNos(added)
    requires forall i :: 0 <= i < |added| ==> Writing.Records(c, added[i], Writing.RotationRequest(rotation), d.active)
    ensures
      var found := RowsNaming(log + added, ROTATED, rotation.operationId);
      var e := Crashes(c, After(c, d, next, rotation, story), found, cuts);
      var plan := RecoverPlan(c, e, found);
      && (plan.None? <==> Stuck(story))
      && (plan.Some? ==>
            var f := Done(e, plan.value);
            && Settled(c, f) && KeepsArchive(d, f)
            && f.active == (if Promotes(story) then next else d.active)
            && (!(story.RolledBack? && story.rows != [] && story.dropped == 2) ==> (f.active == next <==> found != [])))
  {
    RotationNamesItsOperation(rotation);
    QueryFindsTheAttempt(c, log, added, Writing.RotationRequest(rotation), rotation.operationId, d.active);
    RotationIsCrashAtomic(c, d, next, rotation, story, cuts);
    if !Stuck(story) {
      LogAndKeyAgreeUnlessRolledBackAfterCommit(story);
    }
  }

  /** A rotation, whatever becomes of it, keeps the chain verifiable and the writer's key filed. */
  method RotateOnce(c: Crypto, writer: Writing.AuditWriter, keys: AuditKeyStore, approvedBy: string, operationId: string,
                    next: PrivateKey, patience: nat, calm: bool)
    returns (res: Writing.Written)
    requires SignaturesCheck(c) && DistinctKeys(c) && Archived(c, keys.State(), writer.key)
    requires Writing.Sound(c, RingOf(keys.public), writer.Snapshot())
    requires KeyIdOf(c, next) !in keys.public
    modifies writer, writer.stores, keys
    ensures Writing.Sound(c, RingOf(keys.public), writer.Snapshot())
    ensures Archived(c, keys.State(), writer.key)
    ensures calm ==> (res.Wrote? <==> old(writer.available) && old(keys.journal).None? && '\0' !in approvedBy)
    ensures res.Wrote? ==> writer.key == next == keys.active && keys.journal.None?
  {
    ghost var d, start, ring := keys.State(), writer.Snapshot(), RingOf(keys.public);
    ghost var story, steps, added;
    ArchivedIsInRing(c, d, writer.key);
    res, story, steps, added := writer.Rotate(c, ring, keys, approvedBy, operationId, next, patience, calm);
    Writing.EveryRunIsSound(c, ring, start, steps);
    ghost var e := keys.State();
    if old(writer.available) && d.journal.None? {
      AttemptKeepsArchive(c, d, next, Writing.Staged(c, operationId, d.active, next, approvedBy), story);
    } else if old(writer.available) {
      var n :| 0 <= n <= 2 && e == Upto(d, DropPlan, n);
      DropStates(d, n);
    }
    ArchiveGrowthKeepsChain(c, d, e, writer.stores.log);
  }

  /** A write, queued or not, keeps the chain verifiable. */
  method WriteOnce(c: Crypto, writer: Writing.AuditWriter, keys: AuditKeyStore, req: Writing.Request, queued: bool, patience: nat, calm: bool)
    returns (res: Writing.Written)
    requires SignaturesCheck(c) && DistinctKeys(c) && Archived(c, keys.State(), writer.key)
    requires Writing.Sound(c, RingOf(keys.public), writer.Snapshot())
    modifies writer`dirty, writer.stores
    ensures Writing.Sound(c, RingOf(keys.public), writer.Snapshot())
    ensures calm ==> (res.Wrote? <==> (queued || writer.available) && !Writing.HasNul(req))
    ensures res.Wrote? ==> |writer.stores.log| > |old(writer.stores.log)| && Writing.LastSeq(writer.stores.log) == res.seqNo
  {
    ghost var start, ring := writer.Snapshot(), RingOf(keys.public);
    ghost var steps, added, retried;
    ArchivedIsInRing(c, keys.State(), writer.key);
    if queued {
      res, steps, added, retried := writer.WriteLocked(c, ring, req, patience, calm);
    } else {
      res, steps, added := writer.Write(c, ring, req, patience, calm);
    }
    Writing.EveryRunIsSound(c, ring, start, steps);
  }

  /** The whole life of a deployment: after any number of writes, rotations, crashes at
      any durable write and recoveries, the chain is linked back to genesis and every row
      verifies under the archived key it names. */
  method Operate(c: Crypto, first: PrivateKey, turns: nat) returns (stores: Writing.Stores, keys: AuditKeyStore)
    requires SignaturesCheck(c) && DistinctKeys(c)
    ensures Writing.ChainMade(c, RingOf(keys.public), stores.log)
  {
    hide Writing.HasNul, Writing.LastSeq, RowsNaming;
    stores := new Writing.Stores();
    keys := new AuditKeyStore(Disk(first, None, None, map[KeyIdOf(c, first) := Whole(c.publicOf(first))]));
    var writer := new Writing.AuditWriter(stores, first);
    var running := true;
    for turn := 0 to turns
      invariant fresh(stores) && fresh(keys) && fresh(writer) && writer.stores == stores
      invariant Writing.Sound(c, RingOf(keys.public), writer.Snapshot())
      invariant running ==> Archived(c, keys.State(), writer.key)
    {
      var res, patience: nat, next: PrivateKey := Writing.Failed, *, *;
      var queued, rotate, crash, calm: bool := *, *, *, *;
      if running {
        if rotate && KeyIdOf(c, next) !in keys.public {
          var approvedBy, operationId: string := *, *;
          res := RotateOnce(c, writer, keys, approvedBy, operationId, next, patience, calm);
        } else {
          var req: Writing.Request := *;
          res := WriteOnce(c, writer, keys, req, queued, patience, calm);
        }
        running := !res.Died? && !crash;
      } else {
        ghost var d, log := keys.State(), stores.log;
        var rows := if keys.journal.Some? then RowsNaming(stores.log, ROTATED, keys.journal.value.operationId) else [];
        var io, key;
        ghost var written;
        io, key, written := keys.Recover(c, rows, calm);
        ArchiveGrowthKeepsChain(c, d, keys.State(), log);
        if io == Fine {
          writer := new Writing.AuditWriter(stores, key);
          running := true;
        }
      }
    }
  }
}
