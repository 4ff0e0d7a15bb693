/**
 * Full reconciliation of one logical playlist (reconciliation.py): the prewrite decision, the
 * guarded replacement, its verification, and the two durable facts it leaves behind, an
 * attestation of a confirmed snapshot and a pending snapshot confirmation.
 */
module Reconciliation {
  import opened Basics
  import opened Models
  import opened PlaylistReader
  import opened SnapshotStore
  import opened SpotifyClient

  datatype MutationOutcome = NotAttempted | Rejected | Unknown | Verified

  /** Survives an exception: what the caller may conclude about the remote afterwards. */
  class Evidence {
    var mutationOutcome: MutationOutcome

    constructor ()
      ensures mutationOutcome == NotAttempted
    {
      mutationOutcome := NotAttempted;
    }
  }

  /** The remote version with that snapshot id holds the ordered list with that fingerprint. */
  ghost predicate Attests(remote: Histories, d: Destination, snapshot: nat, fingerprint: Fingerprint) {
    d in remote && snapshot < |remote[d]| && FingerprintOf(remote[d][snapshot]) == fingerprint
  }

  /** The last thing written was this list, and a complete read since then was exact in every position. */
  ghost predicate ReadBack(client: Client, d: Destination, fingerprint: Fingerprint)
    reads client
  {
    && client.writes != []
    && Last(client.writes).Put? && Last(client.writes).destination == d && Last(client.writes).payload == fingerprint
    && exists r :: r in client.observed && r.destination == d && Exactly(r.slots, fingerprint)
                   && r.writes == |client.writes|
  }

  /** Every durable fact is true of the remote. */
  ghost predicate Truthful(client: Client, store: Store)
    reads client, store
  {
    && client.Valid()
    && (store.attestation.Some? ==>
          var a := store.attestation.value;
          Attests(client.world.remote, a.destination, a.snapshot, a.fingerprint))
    && (store.pending.Some? ==>
          var p := store.pending.value;
          && Attests(client.world.remote, p.destination, p.expected, p.fingerprint)
          && (p.readbackExact ==> ReadBack(client, p.destination, p.fingerprint)))
  }

  datatype ItemsResult = ItemsResult(wrote: bool, degraded: bool, qualified: bool, degradedQualified: bool)

  /** The prewrite phase either settles the outcome, or hands a snapshot baseline to the write. */
  datatype Prewrite = Settled(result: ItemsResult) | MustWrite(baseline: Option<nat>, skippedRead: bool)

  /** Some version that was current since `before` holds exactly the desired list. */
  ghost predicate HeldSince(before: World, after: World, d: Destination, desired: seq<Uri>) {
    && d in before.remote && d in after.remote
    && exists v: nat :: |before.remote[d]| - 1 <= v < |after.remote[d]| && after.remote[d][v] == desired
  }

  ghost predicate SawDesired(client: Client, since: nat, writes: nat, d: Destination, desired: seq<Uri>)
    reads client
  {
    exists r :: r in client.observed && r.at > since && r.writes == writes
                && r.destination == d && VisiblyMatches(r.slots, desired)
  }

  /** An unexpired confirmation of this very transition. */
  predicate Live(pending: Option<Pending>, d: Destination, desired: seq<Uri>, now: Instant) {
    && pending.Some? && pending.value.destination == d
    && pending.value.fingerprint == FingerprintOf(desired) && now < pending.value.expiresAt
  }

  /** Between these two ticks snapshot ids are reported without delay. */
  ghost predicate Prompt(script: Script, from: nat, to: nat) {
    forall k :: from <= k < to ==> script(k).lag == 0
  }

  /** No attestation of another list for this destination is stored, so the shortcut has nothing to go by. */
  predicate Harmless(attestation: Option<Attestation>, d: Destination, desired: seq<Uri>) {
    attestation.Some? && attestation.value.destination == d ==> attestation.value.fingerprint == FingerprintOf(desired)
  }

  /** Until tick `end` ids are reported without delay, everything is visible, and nothing more is published. */
  ghost predicate Settling(script: Script, from: nat, end: nat) {
    Prompt(script, from, end) && NothingHidden(script, from) && Still(script, from, end)
  }

  lemma Sooner(script: Script, from: nat, end: nat, later: nat, sooner: nat)
    requires from <= later && sooner <= end
    ensures NothingHidden(script, from) ==> NothingHidden(script, later)
    ensures Prompt(script, from, end) ==> Prompt(script, later, sooner)
    ensures Settling(script, from, end) ==>
              Settling(script, later, sooner) && NothingHidden(script, from) && Prompt(script, from, end)
  {
  }

  /**
   * The remote already holds the desired list, all of it visible, and what others publish is that
   * list again. While a confirmation is live nothing more is needed. Once none is, ids must have
   * settled up to tick `end` if another list is attested, and also, with nothing published in
   * between, if the list needs two pages.
   */
  ghost predicate Quiet(w: World, script: Script, waiting: Option<Pending>, attested: Option<Attestation>,
                        d: Destination, desired: seq<Uri>, now: Instant, end: nat) {
    && |desired| <= MAX_ITEMS && Undisturbed(w, d, script, desired) && NothingHidden(script, w.now)
    && (Live(waiting, d, desired, now) || Unwaiting(script, attested, d, desired, w.now, end))
  }

  ghost predicate Unwaiting(script: Script, attested: Option<Attestation>, d: Destination, desired: seq<Uri>,
                            from: nat, end: nat) {
    && (Harmless(attested, d, desired) || Prompt(script, from, end))
    && (|desired| <= PAGE_SIZE || Settling(script, from, end))
  }

  lemma QuietSooner(w: World, script: Script, waiting: Option<Pending>, attested: Option<Attestation>,
                    d: Destination, desired: seq<Uri>, now: Instant, end: nat, sooner: nat)
    requires sooner <= end
    ensures Quiet(w, script, waiting, attested, d, desired, now, end) ==>
              Quiet(w, script, waiting, attested, d, desired, now, sooner)
  {
    hide Undisturbed, NothingHidden, Live, Harmless, Prompt, Settling;
    Sooner(script, w.now, end, w.now, sooner);
  }

  /** From now on neither the provider nor storage fails, and nobody else publishes anything. */
  ghost predicate Fair(client: Client, store: Store, d: Destination)
    reads client, store
  {
    Smooth(client.world, d, client.script, client.limited) && Reliable(store.faults, store.ops)
  }

  lemma FairFacts(client: Client, d: Destination)
    ensures Smooth(client.world, d, client.script, client.limited) ==>
              !client.limited && d in client.world.remote && client.world.remote[d] != []
  {
  }

  /** A snapshot request; it makes no durable fact false. */
  method ReadId(client: Client, store: Store, d: Destination, closing: bool) returns (r: Result<nat, Error>)
    requires Truthful(client, store)
    modifies client`world, client`limited
    ensures Truthful(client, store) && client.Advanced() && client.Calm(d)
    ensures client.world == Serve(old(client.world), d, client.script(old(client.world.now)))
    ensures client.world.now == old(client.world.now) + 1
    ensures r == SnapshotAnswer(old(client.limited), client.script(old(client.world.now)),
                                HistoryOf(client.world, d), closing)
    ensures client.limited == LimitedAfter(old(client.limited), client.script(old(client.world.now)))
    ensures r.Ok? ==> d in client.world.remote && r.value < |client.world.remote[d]|
    ensures old(Fair(client, store, d)) ==>
              && Fair(client, store, d) && r.Ok? && client.world.remote == old(client.world.remote)
              && r.value == |client.world.remote[d]| - 1
  {
    hide Serve, SnapshotAnswer, LimitedAfter, Smooth, Reliable, TrueFates;
    r := client.Snapshot(d, closing);
  }

  /** A complete read; it makes no durable fact false. */
  method ReadList(client: Client, store: Store, d: Destination, allowUnavailable: bool)
    returns (r: Result<seq<Slot>, Error>)
    requires Truthful(client, store)
    modifies client`world, client`limited, client`observed
    ensures Truthful(client, store) && client.Advanced() && client.Calm(d)
    ensures client.world == ServeMany(old(client.world), d, client.script, client.world.now - old(client.world.now))
    ensures old(client.world.now) < client.world.now && (old(client.limited) ==> client.limited && r.Err?)
    ensures r.Err? ==> r.error.Reconciliation? || r.error.Persistence?
    ensures r == Err(Persistence) <==> Unsaved(old(client.limited), client.script(client.world.now - 1))
    ensures r.Ok? ==>
              && d in old(client.world.remote) && d in client.world.remote && client.world.remote[d] != []
              && !client.limited
              && Read(d, r.value, client.world.now, |client.writes|) in client.observed
              && (!allowUnavailable ==> AllVisible(r.value))
              && (old(client.world.remote[d]) == client.world.remote[d] ==>
                    Matches(r.value, Last(client.world.remote[d])))
              && (|r.value| <= PAGE_SIZE ==> SeenSince(r.value, d, old(client.world), client.world))
              && (NothingHidden(client.script, old(client.world.now)) ==>
                    forall c :: old(Undisturbed(client.world, d, client.script, c)) ==>
                                |c| <= MAX_ITEMS ==> Exactly(r.value, c))
    ensures old(ReadableNow(client.world, d, client.script, client.limited)) ==>
              && r.Ok? && client.world == Serve(old(client.world), d, client.script(old(client.world.now)))
              && client.world.now == old(client.world.now) + 1
              && Exactly(r.value, Last(client.world.remote[d]))
    ensures old(Fair(client, store, d)) ==>
              && Fair(client, store, d) && r.Ok? && client.world.remote == old(client.world.remote)
              && AllVisible(r.value) && Matches(r.value, Last(client.world.remote[d]))
  {
    hide Smooth, Reliable, Matches, Exactly, AllVisible, Undisturbed, NothingHidden, SeenSince, ReadableNow, Serve,
         ServeMany, LimitedAfter, Unsaved, TrueFates;
    r := client.ReadItems(d, allowUnavailable);
  }

  lemma BracketHolds(before: World, between: World, after: World, d: Destination, snapshot: nat,
                     slots: seq<Slot>, desired: seq<Uri>)
    requires d in before.remote && snapshot < |before.remote[d]|
    requires Grew(before.remote, between.remote) && Grew(between.remote, after.remote)
    requires snapshot == |after.remote[d]| - 1
    requires before.remote[d] == between.remote[d] ==> Matches(slots, Last(between.remote[d]))
    requires Exactly(slots, desired) && |desired| <= MAX_ITEMS
    ensures after.remote[d] == before.remote[d] && Last(after.remote[d]) == desired
    ensures Attests(after.remote, d, snapshot, FingerprintOf(desired))
  {
    BracketIsOneVersion(before, between, after, d, snapshot, slots);
    ReadDecidesEquality(slots, Last(after.remote[d]), desired);
  }

  /**
   * The shortcut's condition, in what is stored and what one snapshot request answers: another list
   * is attested for this destination, and the id that is reported is the attested one.
   */
  ghost predicate ReportsAttested(w: World, script: Script, limited: bool, attestation: Option<Attestation>,
                                  d: Destination, desired: seq<Uri>) {
    var tick := script(w.now);
    && !Harmless(attestation, d, desired)
    && SnapshotAnswer(limited, tick, HistoryOf(Serve(w, d, tick), d), false) == Ok(attestation.value.snapshot)
  }

  /** `_attested_prewrite_snapshot`: an attested, current baseline whose content is out of date. */
  method AttestedPrewriteSnapshot(client: Client, store: Store, d: Destination, desired: seq<Uri>)
    returns (r: Result<Option<nat>, Error>)
    requires Truthful(client, store)
    modifies client`world, client`limited, store`ops
    ensures Truthful(client, store) && client.Advanced() && client.Calm(d)
    ensures r.Err? ==> r.error == Persistence
    ensures (r.Ok? && r.value.Some?) <==>
              old(store.faults(store.ops).Works?
                  && ReportsAttested(client.world, client.script, client.limited, store.attestation, d, desired))
    ensures r.Ok? && r.value.Some? ==>
              && !Harmless(store.attestation, d, desired) && r.value.value == store.attestation.value.snapshot
              && client.world.now == old(client.world.now) + 1 && !client.limited
              && d in client.world.remote && r.value.value < |client.world.remote[d]|
              && client.world.remote[d][r.value.value] != desired
              && (client.script(old(client.world.now)).lag == 0 ==> Last(client.world.remote[d]) != desired)
    ensures old(Undisturbed(client.world, d, client.script, desired))
            && (Harmless(old(store.attestation), d, desired)
                || Prompt(client.script, old(client.world.now), client.world.now)) ==>
              r.Err? || r.value.None?
    ensures old(Fair(client, store, d)) ==>
              Fair(client, store, d) && r.Ok? && client.world.remote == old(client.world.remote)
  {
    hide Smooth, Reliable, Undisturbed, Exactly, Legit;
    ghost var start := client.world;
    var attestation := store.GetAttestation();
    if attestation.Err? || attestation.value.None? {
      return Ok(None);
    }
    var a := attestation.value.value;
    if a.destination != d || a.fingerprint == FingerprintOf(desired) {
      return Ok(None);
    }
    var current := ReadId(client, store, d, false);
    if Undisturbed(start, d, client.script, desired) && Prompt(client.script, start.now, client.world.now) {
      UndisturbedEnd(client.world, d, client.script, desired);
    }
    if current.Err? {
      return if current.error == Persistence then Err(Persistence) else Ok(None);
    }
    return Ok(if current.value == a.snapshot then Some(a.snapshot) else None);
  }

  lemma UndisturbedEnd(w: World, d: Destination, script: Script, desired: seq<Uri>)
    requires Undisturbed(w, d, script, desired)
    ensures d in w.remote && w.remote[d] != [] && w.remote[d][|w.remote[d]| - 1] == desired
  {
  }

  /** The confirmation is gone and a true attestation of the desired list has been offered in its place. */
  ghost predicate Confirmed(remote: Histories, before: Option<Attestation>, attestation: Option<Attestation>,
                            pending: Option<Pending>, d: Destination, desired: seq<Uri>, now: Instant) {
    && pending == None
    && exists id :: Attests(remote, d, id, FingerprintOf(desired))
                    && attestation == Newer(before, Attestation(d, id, FingerprintOf(desired), now))
  }

  /** Which durable fact each kind of verified write leaves behind. */
  ghost predicate WriteRecorded(result: ItemsResult, remote: Histories, before: Option<Attestation>,
                                attestation: Option<Attestation>, pending: Option<Pending>,
                                d: Destination, desired: seq<Uri>, now: Instant) {
    if result.degraded && !result.degradedQualified then
      && attestation == before
      && Live(pending, d, desired, now) && pending.value.expiresAt == now + PENDING_SNAPSHOT_TTL
      && Attests(remote, d, pending.value.expected, FingerprintOf(desired))
    else if result.qualified then
      Confirmed(remote, before, attestation, pending, d, desired, now)
    else
      true
  }

  /** A settled prewrite confirms, or keeps waiting, or rests on a read alone. */
  ghost predicate SettledRecorded(result: ItemsResult, remote: Histories, before: Option<Attestation>,
                                  waiting: Option<Pending>, attestation: Option<Attestation>, pending: Option<Pending>,
                                  d: Destination, desired: seq<Uri>, now: Instant) {
    || Confirmed(remote, before, attestation, pending, d, desired, now)
    || (attestation == before && pending == waiting && Live(waiting, d, desired, now)
        && result == ItemsResult(false, true, true, false))
    || (attestation == before && pending == None && !Live(waiting, d, desired, now))
  }

  /** Of the two rows nothing changed, or this list's confirmation went through, perhaps not to its end. */
  ghost predicate Kept(before: Option<Attestation>, waiting: Option<Pending>, attestation: Option<Attestation>,
                       pending: Option<Pending>, d: Destination, desired: seq<Uri>, now: Instant) {
    || (attestation == before && pending == waiting)
    || ((pending == waiting || pending == None)
        && exists id :: attestation == Newer(before, Attestation(d, id, FingerprintOf(desired), now)))
  }

  /** As `Kept`, or a confirmation that no longer applies was dropped. */
  ghost predicate Moved(before: Option<Attestation>, waiting: Option<Pending>, attestation: Option<Attestation>,
                        pending: Option<Pending>, d: Destination, desired: seq<Uri>, now: Instant) {
    || Kept(before, waiting, attestation, pending, d, desired, now)
    || (attestation == before && pending == None)
  }

  lemma NothingMoved(attestation: Option<Attestation>, pending: Option<Pending>, d: Destination, desired: seq<Uri>,
                     now: Instant)
    ensures Kept(attestation, pending, attestation, pending, d, desired, now)
    ensures Moved(attestation, pending, attestation, pending, d, desired, now)
  {
  }

  /** A dropped confirmation, and then whatever moved without one. */
  lemma MovedFromNone(before: Option<Attestation>, waiting: Option<Pending>, attestation: Option<Attestation>,
                      pending: Option<Pending>, d: Destination, desired: seq<Uri>, now: Instant)
    requires Moved(before, None, attestation, pending, d, desired, now)
    ensures Moved(before, waiting, attestation, pending, d, desired, now)
  {
  }

  lemma SettledFromNone(result: ItemsResult, remote: Histories, before: Option<Attestation>, waiting: Option<Pending>,
                        attestation: Option<Attestation>, pending: Option<Pending>, d: Destination,
                        desired: seq<Uri>, now: Instant)
    requires !Live(waiting, d, desired, now)
    requires SettledRecorded(result, remote, before, None, attestation, pending, d, desired, now)
    ensures SettledRecorded(result, remote, before, waiting, attestation, pending, d, desired, now)
  {
  }

  /** What a pending confirmation comes to, by the snapshot id that was seen. */
  ghost predicate ResolvedBy(seen: nat, pending: Pending, current: seq<Slot>, result: ItemsResult,
                             before: Option<Attestation>, attestation: Option<Attestation>, left: Option<Pending>,
                             d: Destination, desired: seq<Uri>, now: Instant) {
    if seen == pending.expected then
      && left == None
      && attestation == Newer(before, Attestation(d, pending.expected, FingerprintOf(desired), now))
      && result == (if AllVisible(current) then ItemsResult(false, false, true, false)
                    else ItemsResult(false, true, true, true))
    else if seen == pending.baseline then
      left == Some(pending) && attestation == before && result == ItemsResult(false, true, true, false)
    else
      && Exactly(current, desired) && left == None
      && attestation == Newer(before, Attestation(d, seen, FingerprintOf(desired), now))
      && result == ItemsResult(false, false, true, false)
  }

  /** `_resolve_pending_confirmation`; None means the transition no longer authorizes a skip. */
  method ResolvePending(client: Client, store: Store, d: Destination, desired: seq<Uri>, current: seq<Slot>,
                        now: Instant, pending: Pending, currentSnapshot: Option<nat>)
    returns (r: Result<Option<ItemsResult>, Error>, ghost seen: nat)
    requires Truthful(client, store) && |desired| <= MAX_ITEMS
    requires store.pending == Some(pending) && pending.destination == d
    requires pending.fingerprint == FingerprintOf(desired) && now < pending.expiresAt
    requires currentSnapshot.Some? ==> d in client.world.remote && currentSnapshot.value < |client.world.remote[d]|
    modifies client`world, client`limited, client`observed, store
    ensures Truthful(client, store) && client.Advanced() && client.Calm(d)
    ensures VisiblyMatches(current, desired) ==>
              r != Ok(None)
              && Kept(old(store.attestation), old(store.pending), store.attestation, store.pending, d, desired, now)
    ensures Moved(old(store.attestation), old(store.pending), store.attestation, store.pending, d, desired, now)
    ensures r == Ok(None) ==>
              && client.world == old(client.world) && !VisiblyMatches(current, desired)
              && store.pending == None && store.attestation == old(store.attestation)
    ensures r.Ok? && r.value.Some? ==>
              && VisiblyMatches(current, desired) && !r.value.value.wrote
              && (currentSnapshot.Some? ==> seen == currentSnapshot.value)
              && (currentSnapshot.None? ==>
                    var tick := old(client.script(client.world.now));
                    Ok(seen) == SnapshotAnswer(old(client.limited), tick,
                                               HistoryOf(Serve(old(client.world), d, tick), d), false))
              && ResolvedBy(seen, pending, current, r.value.value, old(store.attestation), store.attestation,
                            store.pending, d, desired, now)
              && SettledRecorded(r.value.value, client.world.remote, old(store.attestation), Some(pending),
                                 store.attestation, store.pending, d, desired, now)
              && (!r.value.value.degraded ==> exists v :: Attests(client.world.remote, d, v, FingerprintOf(desired)))
    ensures old(Fair(client, store, d)) && AllVisible(current) && Matches(current, Last(old(client.world.remote)[d]))
            && (currentSnapshot.Some? ==> currentSnapshot.value == |old(client.world.remote)[d]| - 1) ==>
              && Fair(client, store, d) && r.Ok? && client.world.remote == old(client.world.remote)
              && (r.value.Some? ==> Last(client.world.remote[d]) == desired)
  {
    hide Smooth, Reliable, Matches, Exactly, VisiblyMatches, AllVisible, Undisturbed, NothingHidden, Serve, SeenSince,
         Legit;
    seen := 0;
    if !VisiblyMatches(current, desired) {
      var cleared := store.ClearPending();
      return if cleared.Fail? then Err(cleared.error) else Ok(None), seen;
    }
    VisibleIsAll(current, desired);
    var snapshot: nat;
    if currentSnapshot.None? {
      var answer := ReadId(client, store, d, false);
      if answer.Err? {
        return Err(answer.error), seen;
      }
      snapshot := answer.value;
    } else {
      snapshot := currentSnapshot.value;
    }
    seen := snapshot;
    if snapshot == pending.expected {
      assert Attests(client.world.remote, d, pending.expected, FingerprintOf(desired));
      var confirmed := Confirm(client, store, d, desired, pending.expected, now);
      if confirmed.Fail? {
        return Err(confirmed.error), seen;
      }
      return Ok(Some(if AllVisible(current) then ItemsResult(false, false, true, false)
                     else ItemsResult(false, true, true, true))), seen;
    }
    if snapshot == pending.baseline {
      return Ok(Some(ItemsResult(false, true, true, false))), seen;
    }
    if Exactly(current, desired) {
      r := AcceptThirdSnapshot(client, store, d, desired, now, snapshot);
      return;
    }
    return Err(Reconciliation), seen;
  }

  /** Attest the id, then drop the confirmation that waited for it. */
  method Confirm(client: Client, store: Store, d: Destination, desired: seq<Uri>, id: nat, now: Instant)
    returns (o: Outcome<Error>)
    requires Truthful(client, store) && Attests(client.world.remote, d, id, FingerprintOf(desired))
    modifies store
    ensures Truthful(client, store)
    ensures Kept(old(store.attestation), old(store.pending), store.attestation, store.pending, d, desired, now)
    ensures o.Pass? ==>
              && store.pending == None
              && store.attestation == Newer(old(store.attestation), Attestation(d, id, FingerprintOf(desired), now))
    ensures o.Fail? ==> o.error == Persistence || o.error == Crashed
    ensures old(Reliable(store.faults, store.ops)) ==> Reliable(store.faults, store.ops) && o.Pass?
    ensures old(store.ops) < store.ops <= old(store.ops) + 2 && o == Stored(store.faults(store.ops - 1))
            && (o.Pass? <==> store.faults(old(store.ops)).Works? && store.faults(old(store.ops) + 1).Works?)
  {
    hide Smooth, Reliable;
    o := store.SetAttestation(d, id, FingerprintOf(desired), now);
    if o.Pass? {
      o := store.ClearPending();
    }
  }

  /** Store a confirmation that is true of the remote. */
  method Await(client: Client, store: Store, p: Pending) returns (o: Outcome<Error>)
    requires Truthful(client, store)
    requires Attests(client.world.remote, p.destination, p.expected, p.fingerprint)
    requires p.readbackExact ==> ReadBack(client, p.destination, p.fingerprint)
    modifies store`ops, store`pending
    ensures Truthful(client, store)
    ensures store.pending == if o.Pass? then Some(p) else old(store.pending)
    ensures old(Reliable(store.faults, store.ops)) ==> Reliable(store.faults, store.ops) && o.Pass?
  {
    hide Smooth, Reliable;
    o := store.SetPending(p);
  }

  /** A metadata edit moved the snapshot: attest it, if a bracketed complete read is still exact. */
  method AcceptThirdSnapshot(client: Client, store: Store, d: Destination, desired: seq<Uri>, now: Instant,
                             snapshot: nat)
    returns (r: Result<Option<ItemsResult>, Error>)
    requires Truthful(client, store) && |desired| <= MAX_ITEMS
    requires d in client.world.remote && snapshot < |client.world.remote[d]|
    modifies client`world, client`limited, client`observed, store
    ensures Truthful(client, store) && client.Advanced() && client.Calm(d)
    ensures Kept(old(store.attestation), old(store.pending), store.attestation, store.pending, d, desired, now)
    ensures r != Ok(None)
    ensures r.Ok? ==>
              && r.value == Some(ItemsResult(false, false, true, false))
              && Attests(client.world.remote, d, snapshot, FingerprintOf(desired))
              && store.pending == None
              && store.attestation == Newer(old(store.attestation),
                                            Attestation(d, snapshot, FingerprintOf(desired), now))
    ensures old(Fair(client, store, d)) && snapshot == |old(client.world.remote)[d]| - 1
            && Last(old(client.world.remote)[d]) == desired ==>
              Fair(client, store, d) && r.Ok? && client.world.remote == old(client.world.remote)
  {
    hide Smooth, Reliable, Matches, Exactly, VisiblyMatches, AllVisible, Undisturbed, NothingHidden, Serve, SeenSince,
         Legit;
    var closed :- ReadAndClose(client, store, d, desired, snapshot, false, true);
    if !closed {
      return Err(Reconciliation);
    }
    var confirmed := Confirm(client, store, d, desired, snapshot, now);
    return if confirmed.Fail? then Err(confirmed.error) else Ok(Some(ItemsResult(false, false, true, false)));
  }

  datatype Opening = Opening(live: Option<Pending>, snapshot: Option<nat>, confirmed: bool)

  /** The journal can be read, and what it holds no longer applies and can be dropped. */
  predicate NothingLive(store: Store, d: Destination, desired: seq<Uri>, now: Instant)
    reads store
  {
    && store.faults(store.ops).Works? && !Live(store.pending, d, desired, now)
    && (store.pending.Some? ==> store.faults(store.ops + 1).Works?)
  }

  /** An exact confirmation of this transition is live, and its expected id is the one that is reported. */
  ghost predicate ReportsExpected(w: World, script: Script, limited: bool, waiting: Option<Pending>, d: Destination,
                                  desired: seq<Uri>, now: Instant) {
    var tick := script(w.now);
    && Live(waiting, d, desired, now) && waiting.value.readbackExact
    && SnapshotAnswer(limited, tick, HistoryOf(Serve(w, d, tick), d), false) == Ok(waiting.value.expected)
  }

  /** Drop a confirmation that no longer applies; confirm an exact one from the snapshot alone. */
  method OpenPending(client: Client, store: Store, d: Destination, desired: seq<Uri>, now: Instant)
    returns (r: Result<Opening, Error>)
    requires Truthful(client, store)
    modifies client`world, client`limited, store
    ensures Truthful(client, store) && client.Advanced() && client.Calm(d)
    ensures Moved(old(store.attestation), old(store.pending), store.attestation, store.pending, d, desired, now)
    ensures old(Live(store.pending, d, desired, now)) ==>
              Kept(old(store.attestation), old(store.pending), store.attestation, store.pending, d, desired, now)
    ensures (r.Ok? && r.value.live.None? && !r.value.confirmed) <==> old(NothingLive(store, d, desired, now))
    ensures (r.Ok? && r.value.confirmed) <==>
              old(store.faults(store.ops).Works? && store.faults(store.ops + 1).Works?
                  && store.faults(store.ops + 2).Works?
                  && ReportsExpected(client.world, client.script, client.limited, store.pending, d, desired, now))
    ensures r.Ok? && r.value.live.None? && !r.value.confirmed ==>
              && client.world == old(client.world) && client.limited == old(client.limited)
              && store.ops == old(store.ops) + (if old(store.pending).Some? then 2 else 1)
    ensures r.Ok? ==>
              && (r.value.confirmed ==>
                    && ReadBack(client, d, FingerprintOf(desired))
                    && Confirmed(client.world.remote, old(store.attestation), store.attestation, store.pending,
                                 d, desired, now))
              && (!r.value.confirmed ==>
                    && store.attestation == old(store.attestation)
                    && store.pending == r.value.live
                    && (r.value.live.Some? ==> r.value.live == old(store.pending))
                    && (r.value.live.Some? <==> Live(old(store.pending), d, desired, now))
                    && (r.value.live.Some? ==> Live(r.value.live, d, desired, now)))
              && (r.value.snapshot.Some? ==>
                    d in client.world.remote && r.value.snapshot.value < |client.world.remote[d]|)
    ensures old(Fair(client, store, d)) ==>
              && Fair(client, store, d) && r.Ok? && client.world.remote == old(client.world.remote)
              && (r.value.confirmed ==> Last(client.world.remote[d]) == desired)
              && (r.value.snapshot.Some? ==> r.value.snapshot.value == |client.world.remote[d]| - 1)
  {
    hide Smooth, Reliable, Exactly, Undisturbed, Serve, Legit, ReadBack, LimitedAfter;
    var pending :- store.GetPending();
    if pending.None? {
      return Ok(Opening(None, None, false));
    }
    if !Live(pending, d, desired, now) {
      :- store.ClearPending();
      return Ok(Opening(None, None, false));
    }
    if !pending.value.readbackExact {
      return Ok(Opening(pending, None, false));
    }
    var snapshot :- ReadId(client, store, d, false);
    if snapshot != pending.value.expected {
      return Ok(Opening(pending, Some(snapshot), false));
    }
    assert Attests(client.world.remote, d, snapshot, FingerprintOf(desired));
    :- Confirm(client, store, d, desired, snapshot, now);
    return Ok(Opening(None, None, true));
  }

  /**
   * What a complete prewrite read has to show for the destination to be kept: the desired list, or
   * its visible part under a matching attestation.
   */
  predicate ReadMayKeep(slots: seq<Slot>, desired: seq<Uri>, d: Destination, attestation: Option<Attestation>) {
    || Exactly(slots, desired)
    || (VisiblyMatches(slots, desired) && attestation.Some? && attestation.value.destination == d
        && attestation.value.fingerprint == FingerprintOf(desired))
  }

  /** No complete read of what is on the remote now would let the destination be kept. */
  ghost predicate FullReadWouldWrite(client: Client, store: Store, d: Destination, desired: seq<Uri>)
    reads client, store
  {
    && d in client.world.remote && client.world.remote[d] != []
    && forall slots :: Matches(slots, Last(client.world.remote[d])) ==>
                         !ReadMayKeep(slots, desired, d, store.attestation)
  }

  /** The shortcut skips the read only where the read would have decided to write as well. */
  lemma ShortcutRefinesFullRead(slots: seq<Slot>, content: seq<Uri>, desired: seq<Uri>, d: Destination,
                                attestation: Attestation)
    requires content != desired && attestation.fingerprint != FingerprintOf(desired) && |desired| <= MAX_ITEMS
    requires Matches(slots, content)
    ensures !ReadMayKeep(slots, desired, d, Some(attestation))
  {
    if Exactly(slots, desired) {
      ReadDecidesEquality(slots, content, desired);
    }
  }

  /**
   * Where the shortcut fires, a complete read would decide to write exactly when the current
   * version is not the desired list.
   */
  lemma SkippingIsSound(client: Client, store: Store, d: Destination, desired: seq<Uri>)
    requires d in client.world.remote && client.world.remote[d] != []
    requires !Harmless(store.attestation, d, desired) && |desired| <= MAX_ITEMS
    ensures FullReadWouldWrite(client, store, d, desired) <==> Last(client.world.remote[d]) != desired
  {
    var content := Last(client.world.remote[d]);
    if content != desired {
      forall slots | Matches(slots, content)
        ensures !ReadMayKeep(slots, desired, d, store.attestation)
      {
        ShortcutRefinesFullRead(slots, content, desired, d, store.attestation.value);
      }
    } else {
      var slots: seq<Slot> := seq(|desired|, i requires 0 <= i < |desired| => Some(desired[i]));
      assert Matches(slots, content) && ReadMayKeep(slots, desired, d, store.attestation);
    }
  }

  /** The decision of a complete prewrite read that no pending confirmation settles. */
  method DecideFromRead(client: Client, store: Store, d: Destination, desired: seq<Uri>, current: seq<Slot>,
                        ghost since: World)
    returns (r: Result<Prewrite, Error>)
    requires Truthful(client, store) && |desired| <= MAX_ITEMS
    requires Legit(since) && d in since.remote && Grew(since.remote, client.world.remote)
    requires |current| <= PAGE_SIZE ==> SeenSince(current, d, since, client.world)
    modifies client`world, client`limited, client`observed, store`ops
    ensures Truthful(client, store) && client.Advanced() && client.Calm(d)
    ensures r.Ok? && r.value.Settled? ==>
              && !r.value.result.wrote && ReadMayKeep(current, desired, d, old(store.attestation))
              && (!r.value.result.degraded ==> HeldSince(since, client.world, d, desired))
    ensures r.Ok? && r.value.MustWrite? ==> !r.value.skippedRead
    ensures !Exactly(current, desired) && AllVisible(current) ==>
              && r == Ok(MustWrite(None, false))
              && client.world == old(client.world) && client.limited == old(client.limited)
    ensures Exactly(current, desired) && |desired| <= PAGE_SIZE ==> r.Ok? && r.value.Settled?
    ensures Exactly(current, desired) && old(Undisturbed(client.world, d, client.script, desired))
            && Settling(client.script, old(client.world.now), client.world.now) ==>
              r.Err? || r.value.Settled?
    ensures old(Fair(client, store, d)) && AllVisible(current)
            && Matches(current, Last(old(client.world.remote)[d])) ==>
              && Fair(client, store, d) && r.Ok? && client.world.remote == old(client.world.remote)
              && (r.value.Settled? ==> Last(client.world.remote[d]) == desired)
  {
    if Exactly(current, desired) {
      if |current| <= PAGE_SIZE {
        return Ok(Settled(ItemsResult(false, false, true, false)));
      }
      var stable :- BracketedRead(client, store, d, desired, true, true);
      if stable.Some? {
        assert client.world.remote[d][stable.value] == desired;
        return Ok(Settled(ItemsResult(false, false, true, false)));
      }
    }
    hide Matches, Exactly, VisiblyMatches, Undisturbed, NothingHidden, Serve, SeenSince, Legit, Settling;
    if AllVisible(current) || !VisiblyMatches(current, desired) {
      return Ok(MustWrite(None, false));
    }
    var attestation :- store.GetAttestation();
    if attestation.Some? && attestation.value.destination == d
       && attestation.value.fingerprint == FingerprintOf(desired) {
      var snapshot :- ReadId(client, store, d, false);
      if snapshot == attestation.value.snapshot {
        return Ok(Settled(ItemsResult(false, true, true, true)));
      }
      return Ok(MustWrite(Some(snapshot), false));
    }
    var baseline :- WriteBaseline(client, store, d);
    return Ok(MustWrite(baseline, false));
  }

  /** A snapshot read whose failure only means that no baseline is known, unless storage caused it. */
  method WriteBaseline(client: Client, store: Store, d: Destination) returns (r: Result<Option<nat>, Error>)
    requires Truthful(client, store)
    modifies client`world, client`limited
    ensures Truthful(client, store) && client.Advanced() && client.Calm(d)
    ensures client.world.now == old(client.world.now) + 1
    ensures client.limited == LimitedAfter(old(client.limited), client.script(old(client.world.now)))
    ensures var tick := client.script(old(client.world.now));
            var answer := SnapshotAnswer(old(client.limited), tick, HistoryOf(client.world, d), false);
            r == if answer.Ok? then Ok(Some(answer.value))
                 else if answer.error == Persistence then Err(Persistence) else Ok(None)
    ensures old(Fair(client, store, d)) ==>
              && Fair(client, store, d) && client.world.remote == old(client.world.remote)
              && r == Ok(Some(|client.world.remote[d]| - 1))
  {
    hide Smooth, Reliable;
    var snapshot := ReadId(client, store, d, false);
    if snapshot.Err? {
      return if snapshot.error == Persistence then Err(Persistence) else Ok(None);
    }
    return Ok(Some(snapshot.value));
  }

  /** A one-page read of the desired list, and then a snapshot request that answers this id. */
  ghost predicate CloseSees(w: World, d: Destination, script: Script, limited: bool, desired: seq<Uri>, timely: bool,
                            id: nat) {
    var second := Serve(w, d, script(w.now));
    var third := Serve(second, d, script(second.now));
    && ReadableNow(w, d, script, limited) && Last(second.remote[d]) == desired
    && SnapshotAnswer(false, script(second.now), HistoryOf(third, d), timely) == Ok(id)
  }

  /** The three requests of a bracket around a one-page read of the desired list answer the same id twice. */
  ghost predicate BracketSees(w: World, d: Destination, script: Script, limited: bool, desired: seq<Uri>,
                              timely: bool, id: nat) {
    var first := Serve(w, d, script(w.now));
    && SnapshotAnswer(limited, script(w.now), HistoryOf(first, d), false) == Ok(id)
    && CloseSees(first, d, script, false, desired, timely, id)
  }

  /**
   * A complete read and a snapshot id after it: whether the list is the desired one, and the id is still
   * this one. Where that id is `timely`, it then attests.
   */
  method ReadAndClose(client: Client, store: Store, d: Destination, desired: seq<Uri>, id: nat,
                      allowUnavailable: bool, timely: bool)
    returns (r: Result<bool, Error>)
    requires Truthful(client, store) && |desired| <= MAX_ITEMS
    requires d in client.world.remote && id < |client.world.remote[d]|
    modifies client`world, client`limited, client`observed
    ensures Truthful(client, store) && client.Advanced() && client.Calm(d)
    ensures old(client.world.now) < client.world.now
    ensures r == Err(Persistence) <==> Unsaved(old(client.limited), client.script(client.world.now - 1))
    ensures r == Ok(true) && timely ==>
              && Attests(client.world.remote, d, id, FingerprintOf(desired)) && id == |client.world.remote[d]| - 1
    ensures timely && id == |old(client.world.remote)[d]| - 1
            && old(Undisturbed(client.world, d, client.script, desired))
            && Settling(client.script, old(client.world.now), client.world.now) ==>
              r != Ok(false)
    ensures old(CloseSees(client.world, d, client.script, client.limited, desired, timely, id)) ==> r == Ok(true)
    ensures old(Fair(client, store, d)) ==>
              && Fair(client, store, d) && r.Ok? && client.world.remote == old(client.world.remote)
              && (timely && !allowUnavailable && id == |client.world.remote[d]| - 1
                  && Last(client.world.remote[d]) == desired ==>
                    r.value)
  {
    hide Smooth, Reliable, Undisturbed, Exactly, Matches, AllVisible, NothingHidden, ReadableNow, Serve, ServeMany,
         Truthful, Settling, Legit, Attests, Grew, CalmBetween, SnapshotAnswer, LimitedAfter, Unsaved, Prompt;
    ghost var start := client.world;
    var stable := ReadList(client, store, d, allowUnavailable);
    ghost var between := client.world;
    if stable.Err? {
      return Err(stable.error);
    }
    ReadsExactly(stable.value, desired);
    ExactIsUnique(stable.value);
    AnswerMeans(client.limited, client.script(between.now), HistoryOf(Serve(between, d, client.script(between.now)), d),
                timely);
    var closing := ReadId(client, store, d, timely);
    Composed(start, between, client.world, d, client.script);
    if closing.Err? {
      return Err(closing.error);
    }
    Sooner(client.script, start.now, client.world.now, start.now, client.world.now);
    if timely && Undisturbed(start, d, client.script, desired)
       && Settling(client.script, start.now, client.world.now) {
      NothingPublished(start, between, client.world, d, client.script, desired, client.world.now);
    }
    if timely && closing.value == id && Exactly(stable.value, desired) {
      BracketHolds(start, between, client.world, d, id, stable.value, desired);
    }
    return Ok(closing.value == id && Exactly(stable.value, desired));
  }

  /**
   * A complete read between two snapshot ids; the id, if both agree and the list is the desired one.
   * Where the closing id is `timely`, it attests.
   */
  method BracketedRead(client: Client, store: Store, d: Destination, desired: seq<Uri>, allowUnavailable: bool,
                       timely: bool)
    returns (r: Result<Option<nat>, Error>)
    requires Truthful(client, store) && |desired| <= MAX_ITEMS
    modifies client`world, client`limited, client`observed
    ensures Truthful(client, store) && client.Advanced() && client.Calm(d)
    ensures old(client.world.now) < client.world.now
    ensures r == Err(Persistence) <==> Unsaved(old(client.limited), client.script(client.world.now - 1))
    ensures old(Unsaved(client.limited, client.script(client.world.now))) ==> r == Err(Persistence)
    ensures r.Ok? && r.value.Some? && timely ==>
              && Attests(client.world.remote, d, r.value.value, FingerprintOf(desired))
              && r.value.value == |client.world.remote[d]| - 1
    ensures timely && old(Undisturbed(client.world, d, client.script, desired))
            && Settling(client.script, old(client.world.now), client.world.now) ==>
              r != Ok(None)
    ensures forall id: nat :: old(BracketSees(client.world, d, client.script, client.limited, desired, timely, id)) ==>
              r == Ok(Some(id))
    ensures old(Fair(client, store, d)) ==>
              Fair(client, store, d) && r.Ok? && client.world.remote == old(client.world.remote)
  {
    hide Smooth, Reliable, Undisturbed, NothingHidden, Serve, ServeMany, Truthful, Settling, Legit, Attests, Grew,
         CalmBetween, SnapshotAnswer, LimitedAfter, Unsaved, Prompt, CloseSees;
    ghost var start := client.world;
    AnswerMeans(client.limited, client.script(start.now), HistoryOf(Serve(start, d, client.script(start.now)), d),
                false);
    var opening := ReadId(client, store, d, false);
    if opening.Err? {
      return Err(opening.error);
    }
    ghost var before := client.world;
    StaysCalm(start, before, d, client.script, desired);
    var closed := ReadAndClose(client, store, d, desired, opening.value, allowUnavailable, timely);
    Composed(start, before, client.world, d, client.script);
    Sooner(client.script, start.now, client.world.now, before.now, client.world.now);
    PromptAnswer(client.script, start.now, client.world.now);
    if closed.Err? {
      return Err(closed.error);
    }
    return Ok(if closed.value then Some(opening.value) else None);
  }

  lemma PromptAnswer(script: Script, from: nat, end: nat)
    ensures Settling(script, from, end) && from < end ==> script(from).lag == 0
  {
  }

  lemma NothingPublished(start: World, between: World, after: World, d: Destination, script: Script,
                         desired: seq<Uri>, end: nat)
    requires Undisturbed(start, d, script, desired) && Settling(script, start.now, end) && after.now <= end
    requires start.now <= between.now < after.now
    requires between == ServeMany(start, d, script, between.now - start.now)
    requires after == Serve(between, d, script(between.now))
    ensures between.remote == start.remote && after.remote == start.remote
  {
    ServeManyStill(start, d, script, between.now - start.now);
    assert ServeMany(between, d, script, 0) == between;
    assert ServeMany(between, d, script, 1) == after;
    ServeManyStill(between, d, script, 1);
  }

  /** The destination was read completely, after `since` and before anything more was written. */
  ghost predicate LookedFirst(client: Client, since: nat, writes: nat, d: Destination)
    reads client
  {
    exists r :: r in client.observed && r.destination == d && r.at > since && r.writes == writes
  }

  /** The shortcut's whole condition: no live confirmation, readable storage, and the attested id reported. */
  ghost predicate ShortcutFires(client: Client, store: Store, d: Destination, desired: seq<Uri>, now: Instant)
    reads client, store
  {
    && NothingLive(store, d, desired, now)
    && store.faults(store.ops + (if store.pending.Some? then 2 else 1)).Works?
    && ReportsAttested(client.world, client.script, client.limited, store.attestation, d, desired)
  }

  /** A one-page read in full view shows another list, and nothing is waiting. */
  ghost predicate ReadsAnother(client: Client, store: Store, d: Destination, desired: seq<Uri>)
    reads client, store
  {
    && store.faults(store.ops).Works? && store.pending == None
    && ReadableNow(client.world, d, client.script, client.limited)
    && Last(Serve(client.world, d, client.script(client.world.now)).remote[d]) != desired
  }

  /** What a prewrite phase that settles without a write owes: an honest reason, and its durable fact. */
  ghost predicate SettledHonestly(result: ItemsResult, client: Client, since: nat, before: Option<Attestation>,
                                  waiting: Option<Pending>, attestation: Option<Attestation>, pending: Option<Pending>,
                                  d: Destination, desired: seq<Uri>, now: Instant)
    reads client
  {
    && !result.wrote
    && SettledRecorded(result, client.world.remote, before, waiting, attestation, pending, d, desired, now)
    && (SawDesired(client, since, |client.writes|, d, desired) || ReadBack(client, d, FingerprintOf(desired)))
    && (!result.degraded ==> exists v :: Attests(client.world.remote, d, v, FingerprintOf(desired)))
  }

  lemma HonestlySettled(result: ItemsResult, client: Client, since: nat, before: Option<Attestation>,
                        waiting: Option<Pending>, attestation: Option<Attestation>, pending: Option<Pending>,
                        d: Destination, desired: seq<Uri>, now: Instant)
    requires !result.wrote && SawDesired(client, since, |client.writes|, d, desired)
    requires SettledRecorded(result, client.world.remote, before, waiting, attestation, pending, d, desired, now)
    requires !result.degraded ==> exists v :: Attests(client.world.remote, d, v, FingerprintOf(desired))
    ensures SettledHonestly(result, client, since, before, waiting, attestation, pending, d, desired, now)
  {
  }

  /** Seen from an earlier tick, from which a confirmation that was not live was dropped, it is honest as well. */
  lemma SettledEarlier(result: ItemsResult, client: Client, since: nat, later: nat, before: Option<Attestation>,
                       first: Option<Pending>, waiting: Option<Pending>, attestation: Option<Attestation>,
                       pending: Option<Pending>, d: Destination, desired: seq<Uri>, now: Instant)
    requires since <= later && (waiting == first || (waiting == None && !Live(first, d, desired, now)))
    ensures SettledHonestly(result, client, later, before, waiting, attestation, pending, d, desired, now) ==>
              SettledHonestly(result, client, since, before, first, attestation, pending, d, desired, now)
  {
    hide SettledRecorded, SawDesired, ReadBack, Attests, Live;
    SawSince(client, since, later, d, desired);
    if SettledRecorded(result, client.world.remote, before, waiting, attestation, pending, d, desired, now)
       && waiting != first {
      SettledFromNone(result, client.world.remote, before, first, attestation, pending, d, desired, now);
    }
  }

  /** Everything `_reconcile_playlist_items` does before it may write. */
  method PrewritePhase(client: Client, store: Store, d: Destination, desired: seq<Uri>, now: Instant, shortcut: bool)
    returns (r: Result<Prewrite, Error>)
    requires Truthful(client, store) && |desired| <= MAX_ITEMS
    modifies client`world, client`limited, client`observed, store
    ensures Truthful(client, store) && client.Advanced() && client.Calm(d)
    ensures Moved(old(store.attestation), old(store.pending), store.attestation, store.pending, d, desired, now)
    ensures r.Ok? && r.value.Settled? ==>
              SettledHonestly(r.value.result, client, old(client.world.now), old(store.attestation),
                              old(store.pending), store.attestation, store.pending, d, desired, now)
    ensures (r.Ok? && r.value.MustWrite? && r.value.skippedRead) <==>
              shortcut && old(ShortcutFires(client, store, d, desired, now))
    ensures r.Ok? && r.value.MustWrite? && r.value.skippedRead ==>
              Skipped(client, store, client.script(old(client.world.now)), d, desired, r.value.baseline)
              && client.world.now == old(client.world.now) + 1
    ensures !shortcut && old(ReadsAnother(client, store, d, desired)) ==>
              && r == Ok(MustWrite(None, false))
              && client.world.now == old(client.world.now) + 1 && !client.limited
    ensures r.Ok? && r.value.MustWrite? && !r.value.skippedRead ==>
              LookedFirst(client, old(client.world.now), |client.writes|, d)
    ensures r.Ok? && r.value.MustWrite? ==> store.pending == None && store.attestation == old(store.attestation)
    ensures Quiet(old(client.world), client.script, old(store.pending), old(store.attestation), d, desired, now,
                  client.world.now) ==>
              && (r.Err? || r.value.Settled?)
              && (old(Live(store.pending, d, desired, now)) ==>
                    Kept(old(store.attestation), old(store.pending), store.attestation, store.pending, d, desired, now))
    ensures old(Fair(client, store, d)) ==>
              && Fair(client, store, d) && r.Ok? && client.world.remote == old(client.world.remote)
              && (r.value.Settled? ==> Last(client.world.remote[d]) == desired)
  {
    hide Smooth, Reliable, Undisturbed, Legit, ReadBack, Attests, NothingHidden, ReadableNow, ReadLater,
         ReportsAttested, Grew, CalmBetween, Truthful, Confirmed, SettledRecorded, Kept, Moved, LookedFirst, Prompt,
         Serve, Last, Harmless, FingerprintOf, Skipped, SettledHonestly, Unwaiting;
    ghost var start, waiting, attested := client.world, store.pending, store.attestation;
    var opening :- OpenPending(client, store, d, desired, now);
    ghost var entered := client.world;
    if opening.confirmed {
      ConfirmedSettles(client, start.now, attested, waiting, store.attestation, store.pending, d, desired, now);
      return Ok(Settled(ItemsResult(false, false, true, false)));
    }
    r := ReadOrSkip(client, store, d, desired, now, shortcut, opening);
    StaysCalm(start, entered, d, client.script, desired);
    Sooner(client.script, start.now, client.world.now, entered.now, client.world.now);
    UnwaitingLater(client.script, attested, d, desired, start.now, entered.now, client.world.now);
    Composed(start, entered, client.world, d, client.script);
    ReadSince(old(client.observed), client.observed, start.now, entered.now);
    LookedSince(client, start.now, entered.now, |client.writes|, d);
    if r.Ok? && r.value.Settled? {
      SettledEarlier(r.value.result, client, start.now, entered.now, attested, waiting, opening.live,
                     store.attestation, store.pending, d, desired, now);
    }
    if opening.live.None? {
      MovedFromNone(attested, waiting, store.attestation, store.pending, d, desired, now);
    }
  }

  /**
   * The read was skipped: what is attested is the baseline, and a complete read would have decided to
   * write exactly when the current version is not the desired list, which is so if the id was on time.
   */
  ghost predicate Skipped(client: Client, store: Store, tick: Tick, d: Destination, desired: seq<Uri>,
                          baseline: Option<nat>)
    reads client, store
  {
    && store.attestation.Some? && baseline == Some(store.attestation.value.snapshot)
    && !client.limited && d in client.world.remote && client.world.remote[d] != []
    && (FullReadWouldWrite(client, store, d, desired) <==> Last(client.world.remote[d]) != desired)
    && (tick.lag == 0 ==> Last(client.world.remote[d]) != desired)
  }

  lemma UnwaitingLater(script: Script, attested: Option<Attestation>, d: Destination, desired: seq<Uri>, from: nat,
                       later: nat, end: nat)
    requires from <= later
    ensures Unwaiting(script, attested, d, desired, from, end) ==> Unwaiting(script, attested, d, desired, later, end)
  {
    hide Harmless, Prompt, Settling;
    Sooner(script, from, end, later, end);
  }

  /** The shortcut, where nothing is waiting, or else the complete read. */
  method ReadOrSkip(client: Client, store: Store, d: Destination, desired: seq<Uri>, now: Instant, shortcut: bool,
                    opening: Opening)
    returns (r: Result<Prewrite, Error>)
    requires Truthful(client, store) && |desired| <= MAX_ITEMS
    requires store.pending == opening.live && (opening.live.Some? ==> Live(opening.live, d, desired, now))
    requires opening.snapshot.Some? ==>
               d in client.world.remote && opening.snapshot.value < |client.world.remote[d]|
    modifies client`world, client`limited, client`observed, store
    ensures Truthful(client, store) && client.Advanced() && client.Calm(d)
    ensures Moved(old(store.attestation), opening.live, store.attestation, store.pending, d, desired, now)
    ensures r.Ok? && r.value.Settled? ==>
              SettledHonestly(r.value.result, client, old(client.world.now), old(store.attestation), opening.live,
                              store.attestation, store.pending, d, desired, now)
    ensures (r.Ok? && r.value.MustWrite? && r.value.skippedRead) <==>
              shortcut && opening.live.None?
              && old(store.faults(store.ops).Works?
                     && ReportsAttested(client.world, client.script, client.limited, store.attestation, d, desired))
    ensures r.Ok? && r.value.MustWrite? && r.value.skippedRead ==>
              Skipped(client, store, client.script(old(client.world.now)), d, desired, r.value.baseline)
              && client.world.now == old(client.world.now) + 1
    ensures !shortcut && opening.live.None? && old(ReadableNow(client.world, d, client.script, client.limited))
            && Last(Serve(old(client.world), d, client.script(old(client.world.now))).remote[d]) != desired ==>
              && r == Ok(MustWrite(None, false))
              && client.world.now == old(client.world.now) + 1 && !client.limited
    ensures r.Ok? && r.value.MustWrite? && !r.value.skippedRead ==>
              LookedFirst(client, old(client.world.now), |client.writes|, d)
    ensures r.Ok? && r.value.MustWrite? ==> store.pending == None && store.attestation == old(store.attestation)
    ensures old(Undisturbed(client.world, d, client.script, desired)
                && NothingHidden(client.script, client.world.now)) ==>
              && (opening.live.Some? ==>
                    && (r.Err? || r.value.Settled?)
                    && Kept(old(store.attestation), opening.live, store.attestation, store.pending, d, desired, now))
              && (Unwaiting(client.script, old(store.attestation), d, desired, old(client.world.now),
                            client.world.now) ==>
                    r.Err? || r.value.Settled?)
    ensures old(Fair(client, store, d))
            && (opening.snapshot.Some? ==> opening.snapshot.value == |old(client.world.remote)[d]| - 1) ==>
              && Fair(client, store, d) && r.Ok? && client.world.remote == old(client.world.remote)
              && (r.value.Settled? ==> Last(client.world.remote[d]) == desired)
  {
    hide Smooth, Reliable, Undisturbed, Legit, ReadBack, Attests, NothingHidden, VisiblyMatches, Exactly, Settling,
         ReadableNow, ReadLater, ReportsAttested, FullReadWouldWrite, Grew, CalmBetween, Truthful, Confirmed,
         SettledRecorded, Kept, Moved, SawDesired, LookedFirst, Prompt, Serve, Last, FingerprintOf, SettledHonestly,
         Live;
    ghost var start, attested := client.world, store.attestation;
    if shortcut && opening.live.None? {
      var baseline := AttestedPrewriteSnapshot(client, store, d, desired);
      NothingHappened(start, d, client.script, client.observed);
      ReadSince(client.observed, client.observed, start.now, start.now);
      if baseline.Err? {
        NothingMoved(store.attestation, store.pending, d, desired, now);
        return Err(baseline.error);
      }
      if baseline.value.Some? {
        SkippingIsSound(client, store, d, desired);
        NothingMoved(store.attestation, store.pending, d, desired, now);
        return Ok(MustWrite(baseline.value, true));
      }
    } else {
      NothingHappened(start, d, client.script, client.observed);
    }
    ghost var began := client.world;
    GrewKeeps(start.remote, began.remote, d);
    StaysCalm(start, began, d, client.script, desired);
    r := ReadAndDecide(client, store, d, desired, now, opening);
    Sooner(client.script, start.now, client.world.now, began.now, client.world.now);
    Composed(start, began, client.world, d, client.script);
    ReadSince(old(client.observed), client.observed, start.now, began.now);
    LookedSince(client, start.now, began.now, |client.writes|, d);
    if r.Ok? && r.value.Settled? {
      SettledEarlier(r.value.result, client, start.now, began.now, attested, opening.live, opening.live,
                     store.attestation, store.pending, d, desired, now);
    }
  }

  /** What the read of an earlier world comes to, once nothing is waiting. */
  method Conclude(client: Client, store: Store, d: Destination, desired: seq<Uri>, now: Instant, ghost since: World,
                  ghost seen: set<Read>, current: seq<Slot>, ghost read: Read)
    returns (r: Result<Prewrite, Error>)
    requires Truthful(client, store) && |desired| <= MAX_ITEMS && store.pending == None
    requires Legit(since) && d in since.remote && Grew(since.remote, client.world.remote)
    requires CalmBetween(since, client.world, d, client.script) && ReadLater(seen, client.observed, since.now)
    requires read in client.observed && read == Read(d, current, read.at, |client.writes|)
    requires since.now < read.at <= client.world.now
    requires |current| <= PAGE_SIZE ==> SeenSince(current, d, since, client.world)
    modifies client`world, client`limited, client`observed, store`ops
    ensures Truthful(client, store) && since.now <= client.world.now && old(client.world.now) <= client.world.now
    ensures Grew(since.remote, client.world.remote) && CalmBetween(since, client.world, d, client.script)
    ensures ReadLater(seen, client.observed, since.now)
    ensures r.Ok? && r.value.Settled? ==>
              && VisiblyMatches(current, desired)
              && SettledHonestly(r.value.result, client, since.now, store.attestation, None, store.attestation, None,
                                 d, desired, now)
    ensures r.Ok? && r.value.MustWrite? ==>
              !r.value.skippedRead && LookedFirst(client, since.now, |client.writes|, d)
    ensures !Exactly(current, desired) && AllVisible(current) ==>
              && r == Ok(MustWrite(None, false))
              && client.world == old(client.world) && client.limited == old(client.limited)
    ensures Exactly(current, desired) && |desired| <= PAGE_SIZE ==> r.Ok? && r.value.Settled?
    ensures Exactly(current, desired) && old(Undisturbed(client.world, d, client.script, desired))
            && Settling(client.script, old(client.world.now), client.world.now) ==>
              r.Err? || r.value.Settled?
    ensures old(Fair(client, store, d)) && AllVisible(current)
            && Matches(current, Last(old(client.world.remote)[d])) ==>
              && Fair(client, store, d) && r.Ok? && client.world.remote == old(client.world.remote)
              && (r.value.Settled? ==> Last(client.world.remote[d]) == desired)
  {
    hide Smooth, Reliable, Matches, VisiblyMatches, AllVisible, Undisturbed, Legit, ReadBack, SeenSince, HeldSince,
         Attests, Settling, Truthful, SettledRecorded, Exactly, Grew, CalmBetween, SawDesired, LookedFirst,
         SettledHonestly, ReadLater, ReadMayKeep;
    ghost var looked, seenBefore := client.world, client.observed;
    r := DecideFromRead(client, store, d, desired, current, since);
    Composed(since, looked, client.world, d, client.script);
    ReadEvenLater(seen, seenBefore, client.observed, since.now, looked.now);
    StillSeen(read, seenBefore, client.observed, looked.now);
    ShownBy(client, since.now, read, desired);
    if r.Ok? && r.value.Settled? {
      SettledOnRead(r.value.result, client.world.remote, store.attestation, d, desired, now);
      MayKeepIsVisible(current, desired, d, store.attestation);
      if !r.value.result.degraded {
        HeldIsAttested(since, client.world, d, desired);
      }
      HonestlySettled(r.value.result, client, since.now, store.attestation, None, store.attestation, None,
                      d, desired, now);
    }
  }

  /** The complete prewrite read and what it decides, with or without a live confirmation. */
  method ReadAndDecide(client: Client, store: Store, d: Destination, desired: seq<Uri>, now: Instant, opening: Opening)
    returns (r: Result<Prewrite, Error>)
    requires Truthful(client, store) && |desired| <= MAX_ITEMS
    requires store.pending == opening.live && (opening.live.Some? ==> Live(opening.live, d, desired, now))
    requires opening.snapshot.Some? ==>
               d in client.world.remote && opening.snapshot.value < |client.world.remote[d]|
    modifies client`world, client`limited, client`observed, store
    ensures Truthful(client, store) && client.Advanced() && client.Calm(d)
    ensures Moved(old(store.attestation), old(store.pending), store.attestation, store.pending, d, desired, now)
    ensures r.Ok? && r.value.Settled? ==>
              SettledHonestly(r.value.result, client, old(client.world.now), old(store.attestation),
                              old(store.pending), store.attestation, store.pending, d, desired, now)
    ensures r.Ok? && r.value.MustWrite? ==>
              !r.value.skippedRead && LookedFirst(client, old(client.world.now), |client.writes|, d)
    ensures r.Ok? && r.value.MustWrite? ==> store.pending == None && store.attestation == old(store.attestation)
    ensures opening.live.None? && old(ReadableNow(client.world, d, client.script, client.limited))
            && Last(Serve(old(client.world), d, client.script(old(client.world.now))).remote[d]) != desired ==>
              && r == Ok(MustWrite(None, false))
              && client.world.now == old(client.world.now) + 1 && !client.limited
    ensures old(Undisturbed(client.world, d, client.script, desired)
                && NothingHidden(client.script, client.world.now)) ==>
              && (opening.live.Some? ==>
                    && (r.Err? || r.value.Settled?)
                    && Kept(old(store.attestation), old(store.pending), store.attestation, store.pending,
                            d, desired, now))
              && (|desired| <= PAGE_SIZE ==> r.Err? || r.value.Settled?)
    ensures old(Undisturbed(client.world, d, client.script, desired))
            && Settling(client.script, old(client.world.now), client.world.now) ==>
              r.Err? || r.value.Settled?
    ensures old(Fair(client, store, d))
            && (opening.snapshot.Some? ==> opening.snapshot.value == |old(client.world.remote)[d]| - 1) ==>
              && Fair(client, store, d) && r.Ok? && client.world.remote == old(client.world.remote)
              && (r.value.Settled? ==> Last(client.world.remote[d]) == desired)
  {
    hide Smooth, Reliable, Matches, VisiblyMatches, AllVisible, Undisturbed, Legit, ReadBack, SeenSince, HeldSince,
         Attests, Settling, ReadableNow, Truthful, Kept, Moved, Confirmed, SettledRecorded, ResolvedBy, ServeMany,
         Serve, SnapshotAnswer, NothingHidden, Exactly, Grew, CalmBetween, SawDesired, LookedFirst, SettledHonestly,
         ReadLater, Newer;
    TruthfulIsLegit(client, store);
    NothingMoved(store.attestation, store.pending, d, desired, now);
    ghost var since, waiting, attested := client.world, store.pending, store.attestation;
    var current :- ReadList(client, store, d, true);
    ghost var read, looked, seen := Read(d, current, client.world.now, |client.writes|), client.world, client.observed;
    StaysCalm(since, looked, d, client.script, desired);
    GrewKeeps(since.remote, looked.remote, d);
    if Exactly(current, desired) {
      ExactIsVisible(current, desired);
    }
    ExactIsUnique(current);
    if opening.live.Some? {
      var resolved, id :=
        ResolvePending(client, store, d, desired, current, now, opening.live.value, opening.snapshot);
      Composed(since, looked, client.world, d, client.script);
      ReadEvenLater(old(client.observed), seen, client.observed, since.now, looked.now);
      StillSeen(read, seen, client.observed, looked.now);
      if resolved.Err? {
        return Err(resolved.error);
      }
      if resolved.value.Some? {
        ShownBy(client, since.now, read, desired);
        HonestlySettled(resolved.value.value, client, since.now, attested, waiting, store.attestation, store.pending,
                        d, desired, now);
        return Ok(Settled(resolved.value.value));
      }
    }
    r := Conclude(client, store, d, desired, now, since, old(client.observed), current, read);
    Sooner(client.script, since.now, client.world.now, looked.now, client.world.now);
  }

  lemma TruthfulIsLegit(client: Client, store: Store)
    requires Truthful(client, store)
    ensures Legit(client.world)
  {
  }

  lemma ConfirmedSettles(client: Client, since: nat, before: Option<Attestation>, waiting: Option<Pending>,
                         attestation: Option<Attestation>, pending: Option<Pending>, d: Destination,
                         desired: seq<Uri>, now: Instant)
    requires Confirmed(client.world.remote, before, attestation, pending, d, desired, now)
    requires ReadBack(client, d, FingerprintOf(desired))
    ensures SettledHonestly(ItemsResult(false, false, true, false), client, since, before, waiting, attestation,
                            pending, d, desired, now)
  {
    hide Attests, ReadBack;
  }

  lemma LookedSince(client: Client, since: nat, later: nat, writes: nat, d: Destination)
    requires since <= later
    ensures LookedFirst(client, later, writes, d) ==> LookedFirst(client, since, writes, d)
  {
  }

  lemma HonestSince(result: ItemsResult, client: Client, since: nat, later: nat, d: Destination, desired: seq<Uri>)
    requires since <= later
    ensures HonestResult(result, client, later, d, desired) ==> HonestResult(result, client, since, d, desired)
  {
    hide SawDesired, LookedFirst, ReadBack, Attests;
    SawSince(client, since, later, d, desired);
  }

  lemma ShownBy(client: Client, since: nat, read: Read, desired: seq<Uri>)
    requires read in client.observed && read.at > since
    ensures LookedFirst(client, since, read.writes, read.destination)
    ensures VisiblyMatches(read.slots, desired) ==> SawDesired(client, since, read.writes, read.destination, desired)
  {
    hide VisiblyMatches;
  }

  lemma StillSeen(read: Read, before: set<Read>, after: set<Read>, now: nat)
    requires ReadLater(before, after, now)
    ensures read in before ==> read in after
  {
  }

  lemma SawSince(client: Client, since: nat, later: nat, d: Destination, desired: seq<Uri>)
    requires since <= later
    ensures SawDesired(client, later, |client.writes|, d, desired) ==>
              SawDesired(client, since, |client.writes|, d, desired)
    ensures LookedFirst(client, later, |client.writes|, d) ==> LookedFirst(client, since, |client.writes|, d)
  {
    hide VisiblyMatches;
  }

  lemma SettledOnRead(result: ItemsResult, remote: Histories, attestation: Option<Attestation>, d: Destination,
                      desired: seq<Uri>, now: Instant)
    ensures SettledRecorded(result, remote, attestation, None, attestation, None, d, desired, now)
  {
  }

  lemma MayKeepIsVisible(slots: seq<Slot>, desired: seq<Uri>, d: Destination, attestation: Option<Attestation>)
    requires ReadMayKeep(slots, desired, d, attestation)
    ensures VisiblyMatches(slots, desired)
  {
  }

  lemma ExactIsVisible(slots: seq<Slot>, desired: seq<Uri>)
    requires Exactly(slots, desired)
    ensures VisiblyMatches(slots, desired)
  {
  }

  /** A read in full view of a list that fits is that list. */
  lemma ReadsExactly(slots: seq<Slot>, content: seq<Uri>)
    requires |content| <= MAX_ITEMS
    ensures AllVisible(slots) && Matches(slots, content) ==> Exactly(slots, content)
  {
  }

  /** A read in full view that matches a list that fits was a read of that list. */
  lemma VisibleIsAll(slots: seq<Slot>, desired: seq<Uri>)
    requires VisiblyMatches(slots, desired) && |desired| <= MAX_ITEMS
    ensures AllVisible(slots) ==>
              Exactly(slots, desired) && forall content :: Matches(slots, content) ==> content == desired
  {
    hide Matches;
    if AllVisible(slots) {
      forall content | Matches(slots, content) ensures content == desired {
        ReadDecidesEquality(slots, content, desired);
      }
    }
  }

  lemma ExactIsUnique(slots: seq<Slot>)
    ensures forall content :: Exactly(slots, content) ==> AllVisible(slots)
    ensures forall a, b :: Exactly(slots, a) && Exactly(slots, b) ==> a == b
  {
  }

  lemma HeldIsAttested(before: World, after: World, d: Destination, desired: seq<Uri>)
    requires HeldSince(before, after, d, desired)
    ensures exists v :: Attests(after.remote, d, v, FingerprintOf(desired))
  {
    var v: nat :| |before.remote[d]| - 1 <= v < |after.remote[d]| && after.remote[d][v] == desired;
    assert Attests(after.remote, d, v, FingerprintOf(desired));
  }

  /** The client has just sent this replacement. */
  ghost predicate JustPut(client: Client, d: Destination, desired: seq<Uri>)
    reads client
  {
    && client.writes != []
    && Last(client.writes).Put? && Last(client.writes).destination == d && Last(client.writes).payload == desired
  }

  /** `_ambiguous_write_applied`: only a complete exact read resolves a lost answer. */
  method AmbiguousWriteApplied(client: Client, store: Store, d: Destination, desired: seq<Uri>)
    returns (r: Result<bool, Error>)
    requires Truthful(client, store)
    modifies client`world, client`limited, client`observed
    ensures Truthful(client, store) && client.Advanced()
    ensures r == Ok(true) ==> SawExactly(client, old(client.world.now), d, desired)
    ensures old(client.limited) ==> r != Ok(true)
    ensures r.Ok? && r.value ==> !client.limited
    ensures r.Err? ==> r.error == Persistence
    ensures old(client.world.now) < client.world.now
    ensures r.Err? <==> Unsaved(old(client.limited), client.script(client.world.now - 1))
    ensures old(ReadableNow(client.world, d, client.script, client.limited)) ==>
              && client.world == Serve(old(client.world), d, client.script(old(client.world.now)))
              && client.world.now == old(client.world.now) + 1
              && r == Ok(Last(client.world.remote[d]) == desired)
  {
    hide Smooth, Reliable, Matches, VisiblyMatches, AllVisible, Undisturbed, NothingHidden, Legit, SeenSince, Unsaved,
         ReadableNow, ServeMany, Serve, TrueFates;
    var readback := ReadList(client, store, d, false);
    if readback.Err? {
      return if readback.error == Persistence then Err(Persistence) else Ok(false);
    }
    assert Read(d, readback.value, client.world.now, |client.writes|) in client.observed;
    ExactIsUnique(readback.value);
    return Ok(Exactly(readback.value, desired));
  }

  /**
   * `_attest_ambiguous_write`: attest the bracketed version. It is optional, and yet it turns a success
   * into an error exactly where its last request meets a backoff state that cannot be read or saved, or
   * where the process dies.
   */
  method AttestAmbiguousWrite(client: Client, store: Store, d: Destination, desired: seq<Uri>, now: Instant)
    returns (r: Result<bool, Error>)
    requires Truthful(client, store) && |desired| <= MAX_ITEMS
    modifies client`world, client`limited, client`observed, store
    ensures Truthful(client, store) && client.Advanced()
    ensures r == Ok(true) ==>
              Confirmed(client.world.remote, old(store.attestation), store.attestation, store.pending, d, desired, now)
    ensures r.Err? ==> r.error == Crashed || r.error == Persistence
    ensures old(client.world.now) < client.world.now && old(store.ops) <= store.ops
    ensures r == Err(Persistence) <==> Unsaved(old(client.limited), client.script(client.world.now - 1))
    ensures r == Err(Crashed) <==> DiedStoring(store, old(store.ops))
    ensures old(Unsaved(client.limited, client.script(client.world.now))) ==> r == Err(Persistence)
    ensures forall id: nat ::
              old(BracketSees(client.world, d, client.script, client.limited, desired, true, id)
                  && Reliable(store.faults, store.ops)) ==>
                r == Ok(true)
  {
    hide Smooth, Reliable, Matches, VisiblyMatches, AllVisible, Undisturbed, NothingHidden, Legit, SeenSince, Unsaved,
         TrueFates;
    var bracket := BracketedRead(client, store, d, desired, false, true);
    if bracket.Err? {
      return if bracket.error == Persistence then Err(Persistence) else Ok(false);
    }
    if bracket.value.None? {
      return Ok(false);
    }
    var saved := Confirm(client, store, d, desired, bracket.value.value, now);
    if saved == Fail(Crashed) {
      return Err(Crashed);
    }
    return Ok(saved.Pass?);
  }

  /** Storage has been used since then, and the last time the process died. */
  ghost predicate DiedStoring(store: Store, since: nat)
    reads store
  {
    store.ops > since && store.faults(store.ops - 1).Dies?
  }

  /** The read that follows an acknowledged replacement, and the durable fact it leaves. */
  method VerifyReadback(client: Client, store: Store, d: Destination, desired: seq<Uri>, now: Instant,
                        baseline: Option<nat>, response: Option<nat>)
    returns (r: Result<ItemsResult, Error>)
    requires Truthful(client, store) && JustPut(client, d, desired)
    requires response.Some? ==> Attests(client.world.remote, d, response.value, FingerprintOf(desired))
    modifies client`world, client`limited, client`observed, store
    ensures Truthful(client, store) && client.Advanced()
    ensures r.Ok? ==>
              && r.value.wrote
              && SawDesired(client, old(client.world.now), |client.writes|, d, desired)
              && WriteRecorded(r.value, client.world.remote, old(store.attestation), store.attestation, store.pending,
                               d, desired, now)
    ensures old(Fair(client, store, d)) && response.Some? && response.value == |old(client.world.remote)[d]| - 1
            && |desired| <= MAX_ITEMS ==>
              && Fair(client, store, d) && r.Ok? && Last(client.world.remote[d]) == desired
              && client.world.remote == old(client.world.remote)
              && (baseline.Some? && baseline != response ==>
                    store.pending.Some? && store.pending.value.baseline == baseline.value)
  {
    hide Smooth, Reliable, Matches, AllVisible, Undisturbed, NothingHidden, Legit, SeenSince, Serve, ServeMany,
         WriteRecorded;
    var readback :- ReadList(client, store, d, true);
    ghost var read := Read(d, readback, client.world.now, |client.writes|);
    if |desired| <= MAX_ITEMS {
      ReadsExactly(readback, desired);
      if Exactly(readback, desired) {
        ExactIsVisible(readback, desired);
      }
    }
    if !VisiblyMatches(readback, desired) {
      return Err(Reconciliation);
    }
    if response.None? {
      return Err(Reconciliation);
    }
    var written := response.value;
    if AllVisible(readback) {
      assert Exactly(readback, desired);
      r := SettleExactReadback(client, store, d, desired, now, baseline, written);
    } else {
      r := SettleDegradedReadback(client, store, d, desired, now, baseline, written);
    }
    assert read in client.observed;
  }

  /** Drop a confirmation, then attest the id of a write that needs none. */
  method Promote(client: Client, store: Store, d: Destination, desired: seq<Uri>, id: nat, now: Instant)
    returns (o: Outcome<Error>)
    requires Truthful(client, store) && Attests(client.world.remote, d, id, FingerprintOf(desired))
    modifies store
    ensures Truthful(client, store)
    ensures o.Pass? ==>
              Confirmed(client.world.remote, old(store.attestation), store.attestation, store.pending, d, desired, now)
    ensures old(Reliable(store.faults, store.ops)) ==> Reliable(store.faults, store.ops) && o.Pass?
  {
    hide Reliable;
    o := store.ClearPending();
    if o.Pass? {
      o := store.SetAttestation(d, id, FingerprintOf(desired), now);
    }
  }

  lemma StillAttests(before: Histories, after: Histories, d: Destination, id: nat, fingerprint: Fingerprint)
    requires Grew(before, after)
    ensures Attests(before, d, id, fingerprint) ==> Attests(after, d, id, fingerprint)
  {
  }

  lemma NothingHappened(w: World, d: Destination, script: Script, observed: set<Read>)
    ensures Grew(w.remote, w.remote) && CalmBetween(w, w, d, script) && ReadLater(observed, observed, w.now)
  {
  }

  /** All items visible: a known baseline waits for the new id; without one the id has to be stable now. */
  method SettleExactReadback(client: Client, store: Store, d: Destination, desired: seq<Uri>, now: Instant,
                             baseline: Option<nat>, written: nat)
    returns (r: Result<ItemsResult, Error>)
    requires Truthful(client, store) && ReadBack(client, d, FingerprintOf(desired))
    requires Attests(client.world.remote, d, written, FingerprintOf(desired))
    modifies client`world, client`limited, client`observed, store
    ensures Truthful(client, store) && client.Advanced()
    ensures r.Ok? ==>
              && r.value == ItemsResult(true, baseline.Some? && baseline.value != written, true, false)
              && WriteRecorded(r.value, client.world.remote, old(store.attestation), store.attestation, store.pending,
                               d, desired, now)
              && (r.value.degraded ==>
                    store.pending == Some(Pending(d, baseline.value, written, FingerprintOf(desired), now,
                                                  now + PENDING_SNAPSHOT_TTL, true)))
    ensures old(Fair(client, store, d)) && written == |old(client.world.remote)[d]| - 1 ==>
              Fair(client, store, d) && r.Ok? && client.world.remote == old(client.world.remote)
  {
    hide Smooth, Reliable, Matches, Exactly, VisiblyMatches, AllVisible, Undisturbed, NothingHidden, Legit, SeenSince,
         Serve, ServeMany, SnapshotAnswer, HistoryOf, LimitedAfter, Truthful, ReadBack, Attests, Grew, CalmBetween,
         ReadLater;
    ghost var start := client.world;
    if baseline.Some? && baseline.value != written {
      NothingHappened(client.world, d, client.script, client.observed);
      :- Await(client, store, Pending(d, baseline.value, written, FingerprintOf(desired), now,
                                  now + PENDING_SNAPSHOT_TTL, true));
      return Ok(ItemsResult(true, true, true, false));
    }
    var current := ReadId(client, store, d, false);
    if current.Err? {
      return Err(current.error);
    }
    if current.value != written {
      ghost var first := client.world;
      var stable := ReadList(client, store, d, false);
      ghost var second := client.world;
      ReadSince(old(client.observed), client.observed, start.now, first.now);
      GrewTransitive(start.remote, first.remote, second.remote);
      if stable.Err? {
        return Err(stable.error);
      }
      if !Exactly(stable.value, desired) {
        return Err(Reconciliation);
      }
      var settled := ReadId(client, store, d, false);
      GrewTransitive(start.remote, second.remote, client.world.remote);
      if settled.Err? {
        return Err(settled.error);
      }
      if settled.value != written {
        return Err(Reconciliation);
      }
    }
    StillAttests(start.remote, client.world.remote, d, written, FingerprintOf(desired));
    :- Promote(client, store, d, desired, written, now);
    return Ok(ItemsResult(true, false, true, false));
  }

  /** Some items hidden: only the new id itself attests, and only the baseline id may wait. */
  method SettleDegradedReadback(client: Client, store: Store, d: Destination, desired: seq<Uri>, now: Instant,
                                baseline: Option<nat>, written: nat)
    returns (r: Result<ItemsResult, Error>)
    requires Truthful(client, store)
    requires Attests(client.world.remote, d, written, FingerprintOf(desired))
    modifies client`world, client`limited, client`observed, store
    ensures Truthful(client, store) && client.Advanced()
    ensures r.Ok? ==>
              && r.value.wrote && r.value.degraded
              && WriteRecorded(r.value, client.world.remote, old(store.attestation), store.attestation, store.pending,
                               d, desired, now)
              && (!r.value.degradedQualified ==>
                    baseline.Some? && baseline.value != written
                    && store.pending == Some(Pending(d, baseline.value, written, FingerprintOf(desired), now,
                                                     now + PENDING_SNAPSHOT_TTL, false)))
    ensures var answer := SnapshotAnswer(old(client.limited), client.script(old(client.world.now)),
                                         HistoryOf(client.world, d), false);
            if answer.Err? then r == Err(answer.error)
            else if answer.value == written then
              old(Reliable(store.faults, store.ops)) ==> r == Ok(ItemsResult(true, true, true, true))
            else if baseline == Some(answer.value) then
              old(Reliable(store.faults, store.ops)) ==> r == Ok(ItemsResult(true, true, true, false))
            else r == Err(Reconciliation)
  {
    hide Smooth, Reliable, Matches, Exactly, VisiblyMatches, AllVisible, Undisturbed, NothingHidden, Legit, SeenSince,
         Serve;
    var current :- ReadId(client, store, d, false);
    if current != written {
      if baseline.Some? && current == baseline.value {
        :- Await(client, store, Pending(d, baseline.value, written, FingerprintOf(desired), now,
                                    now + PENDING_SNAPSHOT_TTL, false));
        return Ok(ItemsResult(true, true, true, false));
      }
      return Err(Reconciliation);
    }
    :- store.SetAttestation(d, written, FingerprintOf(desired), now);
    :- store.ClearPending();
    return Ok(ItemsResult(true, true, true, true));
  }

  /** What a settled or verified result entitles its reader to. */
  ghost predicate HonestResult(result: ItemsResult, client: Client, since: nat, d: Destination, desired: seq<Uri>)
    reads client
  {
    && (result.wrote ==> SawDesired(client, since, |client.writes|, d, desired))
    && (!result.wrote ==> SawDesired(client, since, |client.writes|, d, desired)
                          || ReadBack(client, d, FingerprintOf(desired)))
    && (result.qualified && !result.degraded ==>
          exists v :: Attests(client.world.remote, d, v, FingerprintOf(desired)))
  }

  /** The request at tick k was the replacement: sent, held back by the guard, or cut off by a crash. */
  ghost predicate PutAttempted(client: Client, k: nat, limited: bool, writes: seq<Write>, withheld: nat,
                               outcome: MutationOutcome)
    reads client`writes, client`withheld
  {
    var tick := client.script(k);
    if tick.crash then client.writes == writes && client.withheld == withheld
    else if GateClosed(limited, tick) then
      client.writes == writes && client.withheld == withheld + 1 && outcome == Unknown
    else |client.writes| == |writes| + 1 && client.withheld == withheld && Last(client.writes).at == k
  }

  ghost predicate SentOnce(before: seq<Write>, after: seq<Write>, d: Destination, desired: seq<Uri>) {
    exists fate, at :: after == before + [Put(d, desired, fate, at)]
  }

  /**
   * Exactly one replacement more was sent since then, and the outcome says REJECTED exactly when, at the
   * tick it was sent at, it was turned down and the refusal was not hidden by a failure to save the backoff
   * it started.
   */
  ghost predicate PutOnce(before: seq<Write>, client: Client, since: nat, d: Destination, desired: seq<Uri>,
                          outcome: MutationOutcome)
    reads client
  {
    && SentOnce(before, client.writes, d, desired) && since <= Last(client.writes).at
    && (outcome == Rejected <==> TurnedDown(d in client.world.remote, client.script(Last(client.writes).at)))
  }

  lemma PutSince(before: seq<Write>, client: Client, since: nat, later: nat, d: Destination, desired: seq<Uri>,
                 outcome: MutationOutcome, now: MutationOutcome)
    requires since <= later && (outcome == Rejected <==> now == Rejected)
    ensures PutOnce(before, client, later, d, desired, outcome) ==> PutOnce(before, client, since, d, desired, now)
  {
    hide TurnedDown;
  }

  lemma PutNow(before: seq<Write>, client: Client, k: nat, d: Destination, desired: seq<Uri>,
               outcome: MutationOutcome)
    requires client.writes == before + [Put(d, desired, FateAt(d in client.world.remote, client.script(k)), k)]
    requires outcome == Rejected <==> TurnedDown(d in client.world.remote, client.script(k))
    ensures PutOnce(before, client, k, d, desired, outcome)
  {
    hide TurnedDown, FateAt;
  }

  /** A definite refusal is the one answer after which the outcome is known. */
  function AfterAnswer(answer: Result<Option<nat>, Error>): MutationOutcome {
    if answer.Err? && answer.error.Api? && answer.error.status < 500 then Rejected else Unknown
  }

  /** One replacement; it makes no durable fact false. */
  method Send(client: Client, store: Store, evidence: Evidence, d: Destination, desired: seq<Uri>)
    returns (r: Result<Option<nat>, Error>)
    requires Truthful(client, store) && store.pending == None && |desired| <= MAX_ITEMS
    modifies client`world, client`limited, client`writes, client`withheld, evidence
    ensures Truthful(client, store) && client.Advanced() && client.world.now == old(client.world.now) + 1
    ensures evidence.mutationOutcome == AfterAnswer(r)
    ensures PutAttempted(client, old(client.world.now), old(client.limited), old(client.writes), old(client.withheld),
                         evidence.mutationOutcome)
    ensures r == Err(Crashed) <==> client.script(old(client.world.now)).crash
    ensures r == Err(Crashed) ==> client.writes == old(client.writes) && client.withheld == old(client.withheld)
    ensures r != Err(Crashed) && old(client.Gated()) ==>
              && client.writes == old(client.writes) && client.withheld == old(client.withheld) + 1
              && (r == Err(Persistence) || (r == Err(Suppressed) && client.limited))
    ensures r != Err(Crashed) && !old(client.Gated()) ==>
              var tick := client.script(old(client.world.now));
              var fate := FateAt(d in client.world.remote, tick);
              && client.withheld == old(client.withheld) && client.limited == LimitedAfter(old(client.limited), tick)
              && client.writes == old(client.writes) + [Put(d, desired, fate, old(client.world.now))]
              && Ended(fate, r) && client.world == AfterPut(old(client.world), d, tick, desired)
    ensures r.Ok? ==> JustPut(client, d, desired)
    ensures r.Ok? && r.value.Some? ==> Attests(client.world.remote, d, r.value.value, FingerprintOf(desired))
    ensures old(Fair(client, store, d)) ==>
              && Fair(client, store, d) && r.Ok? && r.value.Some?
              && r.value.value == |client.world.remote[d]| - 1
              && (Last(old(client.world.remote)[d]) != desired ==>
                    |client.world.remote[d]| == |old(client.world.remote)[d]| + 1)
  {
    hide Smooth, Reliable, AfterPut, FateAt, LimitedAfter, TrueFates, HeldBack;
    HeldBackMeans(client.limited, client.script(client.world.now));
    evidence.mutationOutcome := Unknown;
    r := client.Replace(d, desired);
    if r.Err? && r.error.Api? && r.error.status < 500 {
      evidence.mutationOutcome := Rejected;
    }
  }

  /** A verified write that left the fact it owes is an honest one. */
  lemma RecordedIsHonest(r: Result<ItemsResult, Error>, client: Client, since: nat, before: Option<Attestation>,
                         attestation: Option<Attestation>, pending: Option<Pending>, d: Destination,
                         desired: seq<Uri>, now: Instant)
    requires r.Ok? ==>
               && r.value.wrote && SawDesired(client, since, |client.writes|, d, desired)
               && WriteRecorded(r.value, client.world.remote, before, attestation, pending, d, desired, now)
    ensures r.Ok? ==> HonestResult(r.value, client, since, d, desired)
  {
    hide SawDesired, Attests;
  }

  /** A success read back after its answer was lost. */
  lemma RestsOnTheRead(qualified: bool, client: Client, before: Option<Attestation>, attestation: Option<Attestation>,
                       pending: Option<Pending>, d: Destination, desired: seq<Uri>, now: Instant)
    requires qualified ==> Confirmed(client.world.remote, before, attestation, pending, d, desired, now)
    ensures WriteRecorded(ItemsResult(true, false, qualified, false), client.world.remote, before, attestation, pending,
                          d, desired, now)
  {
    hide Confirmed;
  }

  /** The answer to the replacement is lost, and the next request reads the desired list in full view. */
  ghost predicate LostButReadable(w: World, d: Destination, script: Script, limited: bool, desired: seq<Uri>) {
    var tick := script(w.now);
    && !tick.crash && !GateClosed(limited, tick) && FateAt(d in w.remote, tick) == Uncertain
    && ReadsDesired(AfterPut(w, d, tick, desired), d, script, false, desired)
  }

  lemma LostMeans(w: World, d: Destination, script: Script, limited: bool, desired: seq<Uri>)
    ensures LostButReadable(w, d, script, limited, desired) ==> !LimitedAfter(limited, script(w.now))
  {
    hide ReadsDesired;
  }

  /**
   * A replacement that was not refused: verified by its answer, or by a read if the answer was lost. A
   * success that was verified by such a read still ends in an error exactly if the optional attestation that
   * follows meets a backoff state that cannot be read or saved, or the process dies.
   */
  method ReplaceAndVerify(client: Client, store: Store, evidence: Evidence, d: Destination, desired: seq<Uri>,
                          now: Instant, baseline: Option<nat>)
    returns (r: Result<ItemsResult, Error>)
    requires Truthful(client, store) && store.pending == None && |desired| <= MAX_ITEMS
    modifies client`world, client`limited, client`observed, client`writes, client`withheld, store, evidence
    ensures Truthful(client, store) && client.Advanced()
    ensures PutAttempted(client, old(client.world.now), old(client.limited), old(client.writes), old(client.withheld),
                         evidence.mutationOutcome)
    ensures client.writes == old(client.writes) ==>
              && r.Err? && (client.withheld == old(client.withheld) ==> r == Err(Crashed))
              && store.pending == None && store.attestation == old(store.attestation)
    ensures client.writes != old(client.writes) ==>
              PutOnce(old(client.writes), client, old(client.world.now), d, desired, evidence.mutationOutcome)
    ensures old(LostButReadable(client.world, d, client.script, client.limited, desired)) ==>
              && SawDesired(client, old(client.world.now), |client.writes|, d, desired)
              && LostOnlyByAttesting(client, store, old(store.ops), old(client.world.now) + 2, r)
    ensures r.Ok? ==>
              && r.value.wrote
              && HonestResult(r.value, client, old(client.world.now), d, desired)
              && WriteRecorded(r.value, client.world.remote, old(store.attestation), store.attestation, store.pending,
                               d, desired, now)
    ensures evidence.mutationOutcome == Unknown || (evidence.mutationOutcome == Rejected && r.Err?)
    ensures old(Fair(client, store, d)) ==>
              && Fair(client, store, d) && r.Ok? && Last(client.world.remote[d]) == desired
              && (Last(old(client.world.remote)[d]) != desired
                  && baseline == Some(|old(client.world.remote)[d]| - 1) ==>
                    store.pending.Some? && store.pending.value.baseline == baseline.value)
  {
    hide Smooth, Reliable, Matches, Exactly, VisiblyMatches, AllVisible, Undisturbed, NothingHidden, SeenSince, Serve,
         Truthful, Legit, Attests, ReadBack, Grew, WriteRecorded, HonestResult, SawExactly, Confirmed, AfterPut,
         TurnedDown, FateAt, Unsaved, ReadableNow, PutOnce, GateClosed, LimitedAfter, LostOnlyByAttesting,
         ReadsDesired, ReadLater, CalmBetween, SawDesired, JustPut, SentOnce, DiedStoring, PutAttempted;
    ghost var start := client.world;
    LostMeans(start, d, client.script, client.limited, desired);
    var answer := Send(client, store, evidence, d, desired);
    ghost var sent := client.world;
    GrewKeeps(start.remote, sent.remote, d);
    r := SettleAnswer(client, store, d, desired, now, baseline, answer);
    GrewTransitive(start.remote, sent.remote, client.world.remote);
    GrewKeeps(sent.remote, client.world.remote, d);
    SawSince(client, start.now, sent.now, d, desired);
    ReadSince(old(client.observed), client.observed, start.now, sent.now);
    if r.Ok? {
      HonestSince(r.value, client, start.now, sent.now, d, desired);
    }
    if client.writes != old(client.writes) {
      PutNow(old(client.writes), client, start.now, d, desired, evidence.mutationOutcome);
    }
  }

  /** What follows the answer to a replacement: nothing more after a refusal, and a complete read otherwise. */
  method SettleAnswer(client: Client, store: Store, d: Destination, desired: seq<Uri>, now: Instant,
                      baseline: Option<nat>, answer: Result<Option<nat>, Error>)
    returns (r: Result<ItemsResult, Error>)
    requires Truthful(client, store) && |desired| <= MAX_ITEMS
    requires answer.Ok? ==> JustPut(client, d, desired)
    requires answer.Ok? && answer.value.Some? ==>
               Attests(client.world.remote, d, answer.value.value, FingerprintOf(desired))
    requires answer == Err(Suppressed) ==> client.limited
    modifies client`world, client`limited, client`observed, store
    ensures Truthful(client, store) && client.Advanced()
    ensures answer.Err? && !IsUncertain(answer.error) ==>
              && r.Err? && (answer == Err(Crashed) ==> r == Err(Crashed))
              && store.pending == old(store.pending) && store.attestation == old(store.attestation)
    ensures r.Ok? ==>
              && r.value.wrote && HonestResult(r.value, client, old(client.world.now), d, desired)
              && WriteRecorded(r.value, client.world.remote, old(store.attestation), store.attestation, store.pending,
                               d, desired, now)
    ensures answer.Err? && IsUncertain(answer.error)
            && old(ReadsDesired(client.world, d, client.script, client.limited, desired)) ==>
              && SawDesired(client, old(client.world.now), |client.writes|, d, desired)
              && LostOnlyByAttesting(client, store, old(store.ops), old(client.world.now) + 1, r)
    ensures old(Fair(client, store, d)) && answer == Ok(Some(|old(client.world.remote)[d]| - 1)) ==>
              && Fair(client, store, d) && r.Ok? && Last(client.world.remote[d]) == desired
              && client.world.remote == old(client.world.remote)
              && (baseline.Some? && baseline != answer.value ==>
                    store.pending.Some? && store.pending.value.baseline == baseline.value)
  {
    hide Smooth, Reliable, Undisturbed, NothingHidden, SeenSince, Serve, ServeMany, Truthful, Legit, Attests, ReadBack,
         Grew, CalmBetween, ReadLater, WriteRecorded, HonestResult, SawDesired, Unsaved, ReadableNow, ReadsDesired,
         LostOnlyByAttesting;
    ghost var start, attested := client.world, store.attestation;
    if answer.Ok? {
      r := VerifyReadback(client, store, d, desired, now, baseline, answer.value);
    } else if IsUncertain(answer.error) || answer.error == Suppressed {
      r := ResolveLost(client, store, d, desired, now);
    } else {
      NothingHappened(start, d, client.script, client.observed);
      return Err(if answer.error.Api? then Reconciliation else answer.error);
    }
    RecordedIsHonest(r, client, start.now, attested, store.attestation, store.pending, d, desired, now);
  }

  /** What is done when the answer to a replacement is lost: a complete read decides, and is attested if it can be. */
  method ResolveLost(client: Client, store: Store, d: Destination, desired: seq<Uri>, now: Instant)
    returns (r: Result<ItemsResult, Error>)
    requires Truthful(client, store) && |desired| <= MAX_ITEMS
    modifies client`world, client`limited, client`observed, store
    ensures Truthful(client, store) && client.Advanced() && old(client.world.now) < client.world.now
    ensures old(client.limited) ==>
              r.Err? && store.pending == old(store.pending) && store.attestation == old(store.attestation)
    ensures r.Ok? ==>
              && r.value.wrote && SawDesired(client, old(client.world.now), |client.writes|, d, desired)
              && WriteRecorded(r.value, client.world.remote, old(store.attestation), store.attestation, store.pending,
                               d, desired, now)
    ensures old(ReadsDesired(client.world, d, client.script, client.limited, desired)) ==>
              && SawDesired(client, old(client.world.now), |client.writes|, d, desired)
              && LostOnlyByAttesting(client, store, old(store.ops), old(client.world.now) + 1, r)
  {
    hide Smooth, Reliable, Matches, Exactly, VisiblyMatches, AllVisible, Undisturbed, NothingHidden, SeenSince, Serve,
         Truthful, Legit, Attests, ReadBack, Grew, WriteRecorded, SawExactly, Confirmed, Unsaved, ReadableNow;
    ghost var start, attested := client.world, store.attestation;
    var applied := AmbiguousWriteApplied(client, store, d, desired);
    if applied.Err? {
      return Err(applied.error);
    }
    if !applied.value {
      return Err(Reconciliation);
    }
    SawIsDesired(client, start.now, d, desired);
    ghost var looked, seen := client.world, client.observed;
    ghost var read :| read in seen && read.at > start.now && read.writes == |client.writes|
                      && read.destination == d && VisiblyMatches(read.slots, desired);
    var qualified := AttestAmbiguousWrite(client, store, d, desired, now);
    GrewTransitive(start.remote, looked.remote, client.world.remote);
    StillSeen(read, seen, client.observed, looked.now);
    ShownBy(client, start.now, read, desired);
    if qualified.Err? {
      return Err(qualified.error);
    }
    RestsOnTheRead(qualified.value, client, attested, store.attestation, store.pending, d, desired, now);
    r := Ok(ItemsResult(true, false, qualified.value, false));
  }

  /** The next request reads the desired list in full view. */
  ghost predicate ReadsDesired(w: World, d: Destination, script: Script, limited: bool, desired: seq<Uri>) {
    ReadableNow(w, d, script, limited) && Last(Serve(w, d, script(w.now)).remote[d]) == desired
  }

  /**
   * After a success that a read verified, from the next tick on: it ends in an error exactly if the backoff
   * state cannot be read or saved at its last request, as at the first, or if the process dies.
   */
  ghost predicate LostOnlyByAttesting(client: Client, store: Store, ops: nat, next: nat, r: Result<ItemsResult, Error>)
    reads client, store
  {
    && (r.Err? ==> r.error == Persistence || r.error == Crashed)
    && client.world.now > next
    && (r == Err(Persistence) <==> Unsaved(false, client.script(client.world.now - 1)))
    && (r == Err(Crashed) <==> DiedStoring(store, ops))
    && (Unsaved(false, client.script(next)) ==> r == Err(Persistence))
  }

  lemma SawIsDesired(client: Client, since: nat, d: Destination, desired: seq<Uri>)
    requires exists later :: since <= later && SawExactly(client, later, d, desired)
    ensures SawDesired(client, since, |client.writes|, d, desired)
  {
    var later :| since <= later && SawExactly(client, later, d, desired);
    var r :| r in client.observed && r.at > later && r.writes == |client.writes|
             && r.destination == d && Exactly(r.slots, desired);
    ExactIsVisible(r.slots, desired);
  }

  /**
   * The write once it has been decided on: a baseline id if none is known yet, the mutation guard,
   * and the replacement.
   */
  method GuardedWrite(client: Client, store: Store, evidence: Evidence, d: Destination, desired: seq<Uri>,
                      now: Instant, known: Option<nat>, guardOpen: bool)
    returns (r: Result<ItemsResult, Error>)
    requires Truthful(client, store) && store.pending == None && |desired| <= MAX_ITEMS
    requires evidence.mutationOutcome == NotAttempted
    modifies client`world, client`limited, client`observed, client`writes, client`withheld, store, evidence
    ensures Truthful(client, store) && client.Advanced()
    ensures client.writes != old(client.writes) || client.withheld != old(client.withheld) ==> guardOpen
    ensures client.writes == old(client.writes) ==>
              && r.Err? && store.pending == None && store.attestation == old(store.attestation)
              && (client.withheld == old(client.withheld) ==>
                    r == Err(Crashed) || evidence.mutationOutcome == NotAttempted)
              && (client.withheld != old(client.withheld) ==>
                    client.withheld == old(client.withheld) + 1 && evidence.mutationOutcome == Unknown)
    ensures client.writes != old(client.writes) ==>
              && client.withheld == old(client.withheld)
              && (evidence.mutationOutcome == Unknown || (evidence.mutationOutcome == Rejected && r.Err?))
              && PutOnce(old(client.writes), client, old(client.world.now), d, desired, evidence.mutationOutcome)
    ensures evidence.mutationOutcome != Verified
    ensures guardOpen && known.Some? ==>
              PutAttempted(client, old(client.world.now), old(client.limited), old(client.writes),
                           old(client.withheld), evidence.mutationOutcome)
    ensures guardOpen && known.None? && !Unsaved(old(client.limited), client.script(old(client.world.now))) ==>
              PutAttempted(client, old(client.world.now) + 1,
                           LimitedAfter(old(client.limited), client.script(old(client.world.now))),
                           old(client.writes), old(client.withheld), evidence.mutationOutcome)
    ensures r.Ok? ==>
              && r.value.wrote && HonestResult(r.value, client, old(client.world.now), d, desired)
              && WriteRecorded(r.value, client.world.remote, old(store.attestation), store.attestation, store.pending,
                               d, desired, now)
    ensures old(Fair(client, store, d)) && guardOpen ==>
              && Fair(client, store, d) && r.Ok? && Last(client.world.remote[d]) == desired
              && (Last(old(client.world.remote)[d]) != desired && known.None? ==>
                    store.pending.Some? && store.pending.value.baseline == |old(client.world.remote)[d]| - 1)
  {
    hide Smooth, Reliable, Matches, Exactly, VisiblyMatches, AllVisible, Undisturbed, NothingHidden, SeenSince, Serve,
         Legit, Attests, ReadBack, WriteRecorded, Grew, Truthful, CalmBetween, SawDesired, LimitedAfter, HistoryOf;
    ghost var start := client.world;
    var baseline := known;
    if baseline.None? {
      var answer := WriteBaseline(client, store, d);
      if answer.Err? {
        return Err(answer.error);
      }
      baseline := answer.value;
    }
    if !guardOpen {
      GrewItself(start.remote);
      return Err(Reconciliation);
    }
    ghost var decided := client.world;
    r := ReplaceAndVerify(client, store, evidence, d, desired, now, baseline);
    GrewItself(start.remote);
    GrewTransitive(start.remote, decided.remote, client.world.remote);
    SawSince(client, start.now, decided.now, d, desired);
  }

  datatype ItemsOutcome = Reconciled(result: ItemsResult) | Raised(error: Error) | Changed(desired: Desired)

  /** Nothing stands in the way of the write once the prewrite phase asks for it. */
  predicate MayWrite(prepare: Option<Result<Desired, Error>>, guardOpen: bool, current: Desired) {
    && |current.items| <= MAX_ITEMS && guardOpen
    && (prepare.Some? ==> prepare.value.Ok? && prepare.value.value.items == current.items)
  }

  /**
   * `_reconcile_playlist_items`. `prepare` is the answer the preparation callback would give, if
   * there is one; `guardOpen` is whether the mutation guard lets the write through.
   */
  method ReconcileItems(client: Client, store: Store, evidence: Evidence, d: Destination, current: Desired,
                        prepare: Option<Result<Desired, Error>>, guardOpen: bool, shortcut: bool)
    returns (r: ItemsOutcome)
    requires Truthful(client, store) && evidence.mutationOutcome == NotAttempted
    modifies client`world, client`limited, client`observed, client`writes, client`withheld, store, evidence
    ensures Truthful(client, store) && client.Advanced()
    ensures r.Reconciled? ==>
              && HonestResult(r.result, client, old(client.world.now), d, Uris(current.items))
              && (r.result.wrote <==> client.writes != old(client.writes))
              && client.withheld == old(client.withheld)
              && (if r.result.wrote
                  then WriteRecorded(r.result, client.world.remote, old(store.attestation), store.attestation,
                                     store.pending, d, Uris(current.items), current.generatedAt)
                  else SettledRecorded(r.result, client.world.remote, old(store.attestation), old(store.pending),
                                       store.attestation, store.pending, d, Uris(current.items), current.generatedAt))
    ensures r.Changed? ==>
              && store.pending == None && store.attestation == old(store.attestation)
              && client.writes == old(client.writes) && client.withheld == old(client.withheld)
              && evidence.mutationOutcome == NotAttempted
              && prepare == Some(Ok(r.desired)) && r.desired.items != current.items
    ensures client.writes == old(client.writes) ==>
              Moved(old(store.attestation), old(store.pending), store.attestation, store.pending,
                    d, Uris(current.items), current.generatedAt)
    ensures client.writes != old(client.writes) || client.withheld != old(client.withheld) ==>
              MayWrite(prepare, guardOpen, current)
    ensures client.writes != old(client.writes) && !shortcut ==>
              LookedFirst(client, old(client.world.now), |old(client.writes)|, d)
    ensures client.writes != old(client.writes) ==>
              && client.withheld == old(client.withheld) && evidence.mutationOutcome != NotAttempted
              && PutOnce(old(client.writes), client, old(client.world.now), d, Uris(current.items),
                         evidence.mutationOutcome)
    ensures client.withheld != old(client.withheld) ==>
              && client.withheld == old(client.withheld) + 1
              && client.writes == old(client.writes) && r.Raised? && evidence.mutationOutcome == Unknown
    ensures r != Raised(Crashed) ==>
              (evidence.mutationOutcome == NotAttempted <==>
                 client.writes == old(client.writes) && client.withheld == old(client.withheld))
    ensures evidence.mutationOutcome != Verified && (r.Reconciled? ==> evidence.mutationOutcome != Rejected)
    ensures MayWrite(prepare, guardOpen, current) && shortcut
            && old(ShortcutFires(client, store, d, Uris(current.items), current.generatedAt)) ==>
              PutAttempted(client, old(client.world.now) + 1, false, old(client.writes), old(client.withheld),
                           evidence.mutationOutcome)
    ensures MayWrite(prepare, guardOpen, current) && !shortcut
            && old(ReadsAnother(client, store, d, Uris(current.items)))
            && !Unsaved(false, client.script(old(client.world.now) + 1)) ==>
              PutAttempted(client, old(client.world.now) + 2,
                           LimitedAfter(false, client.script(old(client.world.now) + 1)),
                           old(client.writes), old(client.withheld), evidence.mutationOutcome)
    ensures Quiet(old(client.world), client.script, old(store.pending), old(store.attestation), d,
                  Uris(current.items), current.generatedAt, client.world.now) ==>
              && client.writes == old(client.writes) && client.withheld == old(client.withheld)
              && client.Calm(d) && !r.Changed?
              && (old(Live(store.pending, d, Uris(current.items), current.generatedAt)) ==>
                    Kept(old(store.attestation), old(store.pending), store.attestation, store.pending,
                         d, Uris(current.items), current.generatedAt))
    ensures old(Fair(client, store, d)) && MayWrite(prepare, guardOpen, current) ==>
              Fair(client, store, d) && r.Reconciled? && Last(client.world.remote[d]) == Uris(current.items)
  {
    hide Uris, Smooth, Reliable, Matches, Exactly, VisiblyMatches, AllVisible, Undisturbed, NothingHidden, SeenSince,
         Serve, Legit, Attests, ReadBack, Quiet, WriteRecorded, SettledRecorded, ShortcutFires, ReadsAnother,
         FullReadWouldWrite, Grew, Truthful, CalmBetween, SawDesired, LimitedAfter, HistoryOf, FingerprintOf, SentOnce,
         PutOnce, PutAttempted;
    var desired, now := Uris(current.items), current.generatedAt;
    ghost var start, waiting, attested := client.world, store.pending, store.attestation;
    if |desired| > MAX_ITEMS {
      GrewItself(start.remote);
      TooLongIsNotQuiet(start, client.script, store.pending, store.attestation, d, desired, now, start.now);
      return Raised(Invalid);
    }
    var prewrite := PrewritePhase(client, store, d, desired, now, shortcut);
    if prewrite.Err? {
      return Raised(prewrite.error);
    }
    if prewrite.value.Settled? {
      return Reconciled(prewrite.value.result);
    }
    if prepare.Some? {
      if prepare.value.Err? {
        return Raised(prepare.value.error);
      }
      if prepare.value.value.items != current.items {
        return Changed(prepare.value.value);
      }
    }
    ghost var decided := client.world;
    var result := GuardedWrite(client, store, evidence, d, desired, now, prewrite.value.baseline, guardOpen);
    GrewTransitive(start.remote, decided.remote, client.world.remote);
    QuietSooner(start, client.script, waiting, attested, d, desired, now, client.world.now, decided.now);
    SawSince(client, start.now, decided.now, d, desired);
    PutSince(old(client.writes), client, start.now, decided.now, d, desired, evidence.mutationOutcome,
             evidence.mutationOutcome);
    return if result.Ok? then Reconciled(result.value) else Raised(result.error);
  }

  lemma TooLongIsNotQuiet(w: World, script: Script, waiting: Option<Pending>, attested: Option<Attestation>,
                          d: Destination, desired: seq<Uri>, now: Instant, end: nat)
    requires |desired| > MAX_ITEMS
    ensures !Quiet(w, script, waiting, attested, d, desired, now, end)
  {
  }

  type PreparationKey = seq<(string, string, Uri)>

  /** `_desired_preparation_key`; it leaves out the edition time, which item equality does compare. */
  function KeyOf(desired: Desired): (key: PreparationKey)
    ensures |key| == |desired.items|
  {
    seq(|desired.items|, i requires 0 <= i < |desired.items| =>
      (desired.items[i].sourceId, desired.items[i].nativeId, desired.items[i].uri))
  }

  ghost predicate DistinctKeys(tried: seq<Desired>) {
    forall i, j :: 0 <= i < j < |tried| ==> KeyOf(tried[i]) != KeyOf(tried[j])
  }

  type Preparation = (nat, Desired) -> Result<Desired, Error>

  /**
   * `reconcile_spotify_playlist`: re-enter with whatever desired state the preparation returns
   * until it returns the one it was given. `tried` lists the states that were entered, in order.
   */
  method Reconcile(client: Client, store: Store, evidence: Evidence, d: Destination, desired: Desired,
                   prepare: Option<Preparation>, guard: nat -> bool, limit: Option<int>, snapshotAttested: bool)
    returns (r: Result<ItemsResult, Error>, ghost tried: seq<Desired>)
    requires Truthful(client, store) && evidence.mutationOutcome == NotAttempted
    modifies client`world, client`limited, client`observed, client`writes, client`withheld, store, evidence
    ensures Truthful(client, store) && client.Advanced()
    ensures Bound(limit, desired) < 1 ==> r == Err(Invalid) && tried == []
    ensures |tried| <= (if Bound(limit, desired) < 1 then 0 else Bound(limit, desired))
    ensures DistinctKeys(tried)
    ensures client.writes != old(client.writes) || client.withheld != old(client.withheld) ==>
              && tried != [] && guard(|tried| - 1)
              && (prepare.Some? ==>
                    var last := prepare.value(|tried| - 1, Last(tried));
                    last.Ok? && last.value.items == Last(tried).items)
    ensures client.writes != old(client.writes) ==>
              && tried != [] && client.withheld == old(client.withheld)
              && PutOnce(old(client.writes), client, old(client.world.now), d, Uris(Last(tried).items),
                         evidence.mutationOutcome)
    ensures client.withheld != old(client.withheld) ==>
              && client.withheld == old(client.withheld) + 1 && client.writes == old(client.writes)
              && r.Err? && evidence.mutationOutcome == Unknown
    ensures client.writes != old(client.writes) && (|tried| > 1 || !snapshotAttested) ==>
              LookedFirst(client, old(client.world.now), |old(client.writes)|, d)
    ensures r.Ok? ==>
              && tried != []
              && HonestResult(r.value, client, old(client.world.now), d, Uris(Last(tried).items))
              && (r.value.wrote <==> client.writes != old(client.writes))
              && (r.value.wrote <==> evidence.mutationOutcome == Verified)
              && (if r.value.wrote
                  then WriteRecorded(r.value, client.world.remote, old(store.attestation), store.attestation,
                                     store.pending, d, Uris(Last(tried).items), Last(tried).generatedAt)
                  else SettledRecorded(r.value, client.world.remote, old(store.attestation),
                                       if |tried| == 1 then old(store.pending) else None,
                                       store.attestation, store.pending,
                                       d, Uris(Last(tried).items), Last(tried).generatedAt))
    ensures r.Err? && r.error != Crashed ==>
              && (evidence.mutationOutcome == NotAttempted <==>
                    client.writes == old(client.writes) && client.withheld == old(client.withheld))
              && (evidence.mutationOutcome == Rejected <==>
                    client.writes != old(client.writes)
                    && TurnedDown(d in client.world.remote, client.script(Last(client.writes).at)))
    ensures Quiet(old(client.world), client.script, old(store.pending), old(store.attestation), d,
                  Uris(desired.items), desired.generatedAt, client.world.now) ==>
              && client.writes == old(client.writes) && client.withheld == old(client.withheld) && client.Calm(d)
              && Moved(old(store.attestation), old(store.pending), store.attestation, store.pending,
                       d, Uris(desired.items), desired.generatedAt)
              && (old(Live(store.pending, d, Uris(desired.items), desired.generatedAt)) ==>
                    Kept(old(store.attestation), old(store.pending), store.attestation, store.pending,
                         d, Uris(desired.items), desired.generatedAt))
    ensures old(Fair(client, store, d)) && Bound(limit, desired) >= 1
            && MayWrite(if prepare.None? then None else Some(prepare.value(0, desired)), guard(0), desired) ==>
              && Fair(client, store, d) && r.Ok? && tried == [desired]
              && Last(client.world.remote[d]) == Uris(desired.items)
  {
    hide Smooth, Reliable, Matches, Exactly, VisiblyMatches, AllVisible, Undisturbed, NothingHidden, SeenSince, Serve,
         Legit, Attests, ReadBack, Quiet, Truthful, WriteRecorded, SettledRecorded, Moved, Kept, ShortcutFires,
         ReadsAnother, PutAttempted, Live, FingerprintOf, Grew, CalmBetween, ReadLater, HonestResult, LookedFirst,
         KeyOf;
    tried := [];
    NothingHappened(client.world, d, client.script, client.observed);
    ghost var start, waiting, attested := client.world, store.pending, store.attestation;
    var current, shortcut, seen := desired, snapshotAttested, {KeyOf(desired)};
    var bound := Bound(limit, desired);
    if bound < 1 {
      NothingMoved(store.attestation, store.pending, d, Uris(desired.items), desired.generatedAt);
      return Err(Invalid), tried;
    }
    for n := 0 to bound
      invariant Truthful(client, store) && client.Advanced() && evidence.mutationOutcome == NotAttempted
      invariant client.writes == old(client.writes) && client.withheld == old(client.withheld) && |tried| == n
      invariant store.attestation == old(store.attestation) && (n > 0 ==> store.pending == None)
      invariant n == 0 ==> shortcut == snapshotAttested
      invariant n > 0 ==> !shortcut
      invariant n > 0 ==>
        !Quiet(start, client.script, waiting, store.attestation, d, Uris(desired.items), desired.generatedAt,
               client.world.now)
      invariant n == 0 ==> current == desired && unchanged(client) && unchanged(store) && tried == []
      invariant n > 0 && old(Fair(client, store, d)) ==>
        !MayWrite(if prepare.None? then None else Some(prepare.value(0, desired)), guard(0), desired)
      invariant KeyOf(current) in seen && DistinctKeys(tried)
      invariant forall i :: 0 <= i < n ==> KeyOf(tried[i]) in seen && KeyOf(tried[i]) != KeyOf(current)
    {
      var answer := if prepare.None? then None else Some(prepare.value(n, current));
      ghost var entered, seenBefore := client.world, client.observed;
      tried := tried + [current];
      var outcome := ReconcileItems(client, store, evidence, d, current, answer, guard(n), shortcut);
      QuietSooner(start, client.script, waiting, attested, d, Uris(desired.items), desired.generatedAt,
                  client.world.now, entered.now);
      Composed(start, entered, client.world, d, client.script);
      ReadEvenLater(old(client.observed), seenBefore, client.observed, start.now, entered.now);
      LookedSince(client, start.now, entered.now, |old(client.writes)|, d);
      ghost var reached := evidence.mutationOutcome;
      match outcome {
        case Reconciled(result) =>
          if result.wrote {
            evidence.mutationOutcome := Verified;
          }
          PutSince(old(client.writes), client, start.now, entered.now, d, Uris(current.items), reached,
                   evidence.mutationOutcome);
          HonestSince(result, client, start.now, entered.now, d, Uris(current.items));
          return Ok(result), tried;
        case Raised(error) =>
          PutSince(old(client.writes), client, start.now, entered.now, d, Uris(current.items), reached, reached);
          return Err(error), tried;
        case Changed(changed) =>
          if KeyOf(changed) in seen {
            return Err(Reconciliation), tried;
          }
          seen, current, shortcut := seen + {KeyOf(changed)}, changed, false;
      }
    }
    return Err(Reconciliation), tried;
  }

  function Bound(limit: Option<int>, desired: Desired): int {
    if limit.Some? && limit.value != 0 then limit.value else |desired.items| + 1
  }
}
