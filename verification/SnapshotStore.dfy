/**
 * The two durable facts that a full reconciliation leaves behind: an attestation of a confirmed
 * snapshot (persistence.py), and a pending snapshot confirmation (snapshot_pending.py).
 */
module SnapshotStore {
  import opened Basics
  import opened Models

  const PENDING_SNAPSHOT_TTL: Instant := 3_600_000_000

  datatype Attestation = Attestation(destination: Destination, snapshot: nat, fingerprint: Fingerprint,
                                     updatedAt: Instant)
  datatype Pending = Pending(destination: Destination, baseline: nat, expected: nat, fingerprint: Fingerprint,
                             createdAt: Instant, expiresAt: Instant, readbackExact: bool)

  /** The row an attestation upsert leaves: a row that was updated later stays. */
  function Newer(row: Option<Attestation>, a: Attestation): Option<Attestation> {
    if row.None? || row.value.updatedAt <= a.updatedAt then Some(a) else row
  }

  /** The rows of one logical playlist in the SQLite store and in the pending-snapshot journal. */
  class Store {
    const faults: nat -> StoreFault
    var ops: nat
    var attestation: Option<Attestation>
    var pending: Option<Pending>

    constructor (faults: nat -> StoreFault)
      ensures this.faults == faults && ops == 0 && attestation == None && pending == None
    {
      this.faults, ops := faults, 0;
      attestation, pending := None, None;
    }

    method GetAttestation() returns (r: Result<Option<Attestation>, Error>)
      modifies this`ops
      ensures ops == old(ops) + 1
      ensures r == if faults(old(ops)).Works? then Ok(attestation) else Err(Persistence)
      ensures Reliable(faults, old(ops)) ==> Reliable(faults, ops) && r.Ok?
    {
      ops := ops + 1;
      return if faults(ops - 1).Works? then Ok(attestation) else Err(Persistence);
    }

    method GetPending() returns (r: Result<Option<Pending>, Error>)
      modifies this`ops
      ensures ops == old(ops) + 1
      ensures r == if faults(old(ops)).Works? then Ok(pending) else Err(Persistence)
      ensures Reliable(faults, old(ops)) ==> Reliable(faults, ops) && r.Ok?
    {
      ops := ops + 1;
      return if faults(ops - 1).Works? then Ok(pending) else Err(Persistence);
    }

    /** `set_playlist_attestation`: an upsert that never replaces a later row. */
    method SetAttestation(d: Destination, snapshot: nat, fingerprint: Fingerprint, updatedAt: Instant)
      returns (r: Outcome<Error>)
      modifies this`ops, this`attestation
      ensures ops == old(ops) + 1 && r == Stored(faults(old(ops)))
      ensures Reliable(faults, old(ops)) ==> Reliable(faults, ops) && r.Pass?
      ensures attestation == if r.Pass? then Newer(old(attestation), Attestation(d, snapshot, fingerprint, updatedAt))
                             else old(attestation)
    {
      ops := ops + 1;
      r := Stored(faults(ops - 1));
      if r.Fail? {
        return;
      }
      if attestation.None? || attestation.value.updatedAt <= updatedAt {
        attestation := Some(Attestation(d, snapshot, fingerprint, updatedAt));
      }
    }

    method SetPending(p: Pending) returns (r: Outcome<Error>)
      modifies this`ops, this`pending
      ensures ops == old(ops) + 1 && r == Stored(faults(old(ops)))
      ensures Reliable(faults, old(ops)) ==> Reliable(faults, ops) && r.Pass?
      ensures pending == if r.Pass? then Some(p) else old(pending)
    {
      ops := ops + 1;
      r := Stored(faults(ops - 1));
      if r.Fail? {
        return;
      }
      pending := Some(p);
    }

    method ClearPending() returns (r: Outcome<Error>)
      modifies this`ops, this`pending
      ensures ops == old(ops) + 1 && r == Stored(faults(old(ops)))
      ensures Reliable(faults, old(ops)) ==> Reliable(faults, ops) && r.Pass?
      ensures pending == if r.Pass? then None else old(pending)
    {
      ops := ops + 1;
      r := Stored(faults(ops - 1));
      if r.Fail? {
        return;
      }
      pending := None;
    }
  }
}
