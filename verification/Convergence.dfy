/**
 * Many runs of one desired list (engine.py calls reconciliation.py once a cycle): what keeps them from
 * writing again, and that they get there at all.
 */
module Convergence {
  import opened Basics
  import opened Models
  import opened PlaylistReader
  import opened Reconciliation
  import opened SnapshotStore
  import opened SpotifyClient

  /** One run's stretch of ticks, and whether a confirmation of the desired list was live when it began. */
  datatype Span = Span(start: nat, end: nat, live: bool)

  /**
   * What keeps one run from writing. A one-page list: the first confirmation has not expired, or no
   * other list was attested, or ids are on time during the run. A two-page list, whose read is
   * bracketed: a confirmation is live, or ids are on time and nothing is published during the run.
   */
  ghost predicate Undemanding(script: Script, waiting: Option<Pending>, attested: Option<Attestation>,
                              d: Destination, desired: seq<Uri>, now: Instant, span: Span) {
    if |desired| <= PAGE_SIZE then
      Live(waiting, d, desired, now) || Harmless(attested, d, desired) || Prompt(script, span.start, span.end)
    else
      span.live || (Prompt(script, span.start, span.end) && Still(script, span.start, span.end))
  }

  /**
   * Where a sequence of runs can have left the two rows by time `now`, if none of them wrote: the first
   * confirmation is still there, or it was used or had expired; and no other list has been attested.
   */
  ghost predicate Resting(waiting: Option<Pending>, attested: Option<Attestation>, pending: Option<Pending>,
                          attestation: Option<Attestation>, d: Destination, desired: seq<Uri>, now: Instant) {
    && (attestation.Some? ==> attestation.value.updatedAt <= now)
    && (Harmless(attested, d, desired) ==> Harmless(attestation, d, desired))
    && (pending == waiting
        || (pending == None && (Harmless(attestation, d, desired) || !Live(waiting, d, desired, now))))
  }

  /** One more run that moved the rows without writing. */
  lemma StillResting(waiting: Option<Pending>, attested: Option<Attestation>, pending: Option<Pending>,
                     attestation: Option<Attestation>, pending': Option<Pending>, attestation': Option<Attestation>,
                     d: Destination, desired: seq<Uri>, now: Instant)
    requires Resting(waiting, attested, pending, attestation, d, desired, now)
    requires Moved(attestation, pending, attestation', pending', d, desired, now)
    requires Live(pending, d, desired, now) ==> Kept(attestation, pending, attestation', pending', d, desired, now)
    ensures Resting(waiting, attested, pending', attestation', d, desired, now)
  {
  }

  lemma RestIsQuiet(w: World, script: Script, waiting: Option<Pending>, attested: Option<Attestation>,
                    pending: Option<Pending>, attestation: Option<Attestation>, d: Destination, desired: seq<Uri>,
                    now: Instant, span: Span)
    requires Resting(waiting, attested, pending, attestation, d, desired, now)
    requires |desired| <= MAX_ITEMS && Undisturbed(w, d, script, desired) && NothingHidden(script, w.now)
    requires span.start == w.now && span.live == Live(pending, d, desired, now)
    requires Undemanding(script, waiting, attested, d, desired, now, span)
    ensures Quiet(w, script, pending, attestation, d, desired, now, span.end)
  {
    hide Undisturbed, NothingHidden;
  }

  lemma RestsOn(waiting: Option<Pending>, attested: Option<Attestation>, pending: Option<Pending>,
                attestation: Option<Attestation>, d: Destination, desired: seq<Uri>, before: Instant, now: Instant)
    requires before <= now
    ensures Resting(waiting, attested, pending, attestation, d, desired, before) ==>
              Resting(waiting, attested, pending, attestation, d, desired, now)
    ensures (attested.Some? ==> attested.value.updatedAt <= now) ==>
              Resting(waiting, attested, waiting, attested, d, desired, now)
  {
  }

  /** The time between two cycles, after which the client has a new guard. */
  method Wait(client: Client, store: Store, d: Destination, ticks: nat)
    requires Truthful(client, store)
    modifies client`world, client`limited
    ensures Truthful(client, store) && client.Advanced() && client.Calm(d) && !client.limited
    ensures old(Fair(client, store, d)) ==> Fair(client, store, d) && client.world.remote == old(client.world.remote)
  {
    hide Smooth, Reliable;
    if Fair(client, store, d) {
      FairFacts(client, d);
      SmoothServes(client.world, d, client.script, ticks);
    }
    client.Idle(d, ticks);
    client.NewCycle();
  }

  lemma SmoothIsQuiet(w: World, d: Destination, script: Script, limited: bool, waiting: Option<Pending>,
                      attested: Option<Attestation>, desired: seq<Uri>, now: Instant, end: nat)
    requires Smooth(w, d, script, limited) && Last(w.remote[d]) == desired && |desired| <= MAX_ITEMS
    ensures Quiet(w, script, waiting, attested, d, desired, now, end)
  {
    forall k | k >= w.now ensures script(k).edits == [] && script(k).lag == 0 && forall i :: !script(k).hidden(i) {
      assert Untroubled(script(k));
    }
  }

  /** The mutation guard is open, and the preparation finds nothing to change. */
  predicate Unhindered(prepare: Option<Preparation>, guard: nat -> bool, limit: Option<int>, desired: Desired) {
    && Bound(limit, desired) >= 1
    && MayWrite(if prepare.None? then None else Some(prepare.value(0, desired)), guard(0), desired)
  }

  lemma FairIsQuiet(w: World, d: Destination, script: Script, waiting: Option<Pending>, attested: Option<Attestation>,
                    desired: seq<Uri>, now: Instant, end: nat)
    ensures Smooth(w, d, script, false) && Last(w.remote[d]) == desired && |desired| <= MAX_ITEMS ==>
              Quiet(w, script, waiting, attested, d, desired, now, end)
  {
    hide Quiet;
    if Smooth(w, d, script, false) && Last(w.remote[d]) == desired && |desired| <= MAX_ITEMS {
      SmoothIsQuiet(w, d, script, false, waiting, attested, desired, now, end);
    }
  }

  /**
   * One cycle's run, after some time. `waiting` and `confirmed` are the two rows as they were before the
   * first of many runs.
   */
  method RunOnce(client: Client, store: Store, d: Destination, items: seq<Item>, now: Instant, gap: nat,
                 prepare: Option<Preparation>, guard: nat -> bool, limit: Option<int>, attested: bool,
                 ghost waiting: Option<Pending>, ghost confirmed: Option<Attestation>)
    returns (result: Result<ItemsResult, Error>, ghost span: Span)
    requires Truthful(client, store)
    modifies client`world, client`limited, client`observed, client`writes, client`withheld, store
    ensures Truthful(client, store) && client.Advanced()
    ensures old(client.world.now) <= span.start <= span.end == client.world.now
    ensures |items| <= MAX_ITEMS
            && old(Undisturbed(client.world, d, client.script, Uris(items))
                   && NothingHidden(client.script, client.world.now)
                   && Resting(waiting, confirmed, store.pending, store.attestation, d, Uris(items), now))
            && Undemanding(client.script, waiting, confirmed, d, Uris(items), now, span) ==>
              && client.writes == old(client.writes) && client.withheld == old(client.withheld)
              && Undisturbed(client.world, d, client.script, Uris(items))
              && Resting(waiting, confirmed, store.pending, store.attestation, d, Uris(items), now)
    ensures old(Fair(client, store, d)) && Unhindered(prepare, guard, limit, Desired(now, items)) ==>
              && Fair(client, store, d) && result.Ok? && Last(client.world.remote[d]) == Uris(items)
              && (Last(old(client.world.remote)[d]) == Uris(items) ==> client.writes == old(client.writes))
              && (client.writes == old(client.writes)
                  || SentOnce(old(client.writes), client.writes, d, Uris(items)))
  {
    hide Smooth, Reliable, Undisturbed, NothingHidden, Truthful, Legit, Grew, ReadLater, Attests, ReadBack, Live,
         Harmless, Prompt, Still, Resting, Undemanding, Quiet, HonestResult, WriteRecorded, SettledRecorded, Moved,
         Kept, LookedFirst, CalmBetween, SentOnce, TurnedDown;
    var desired := Uris(items);
    var evidence := new Evidence();
    ghost var start := client.world;
    FairFacts(client, d);
    Wait(client, store, d, gap);
    FairFacts(client, d);
    StaysCalm(start, client.world, d, client.script, desired);
    ghost var began, pending, attestation := client.world, store.pending, store.attestation;
    Sooner(client.script, start.now, began.now, began.now, began.now);
    ghost var live, seen := Live(pending, d, desired, now), client.observed;
    ghost var tried;
    result, tried := Reconcile(client, store, evidence, d, Desired(now, items), prepare, guard, limit, attested);
    FairFacts(client, d);
    Composed(start, began, client.world, d, client.script);
    ReadEvenLater(old(client.observed), seen, client.observed, start.now, began.now);
    span := Span(began.now, client.world.now, live);
    if Resting(waiting, confirmed, pending, attestation, d, desired, now)
       && |items| <= MAX_ITEMS && Undisturbed(began, d, client.script, desired)
       && NothingHidden(client.script, began.now)
       && Undemanding(client.script, waiting, confirmed, d, desired, now, span) {
      RestIsQuiet(began, client.script, waiting, confirmed, pending, attestation, d, desired, now, span);
      StaysCalm(began, client.world, d, client.script, desired);
      StillResting(waiting, confirmed, pending, attestation, store.pending, store.attestation, d, desired, now);
    }
    FairIsQuiet(began, d, client.script, pending, attestation, desired, now, client.world.now);
  }

  /**
   * Convergence: where nothing fails and nobody else publishes, every run succeeds and leaves the remote
   * with the desired list, however it began, and all of them together send one PUT at most, and none if
   * the list was there already.
   */
  method Converge(client: Client, store: Store, d: Destination, items: seq<Item>, runs: seq<Instant>,
                  gaps: seq<nat>, prepare: Option<Preparation>, guard: nat -> bool, limit: Option<int>,
                  attested: nat -> bool)
    returns (results: seq<Result<ItemsResult, Error>>)
    requires Truthful(client, store) && Fair(client, store, d) && |gaps| == |runs|
    requires forall n :: 0 <= n < |runs| ==> Unhindered(prepare, guard, limit, Desired(runs[n], items))
    modifies client`world, client`limited, client`observed, client`writes, client`withheld, store
    ensures Truthful(client, store) && client.Advanced() && |results| == |runs|
    ensures forall n :: 0 <= n < |runs| ==> results[n].Ok?
    ensures runs != [] ==> d in client.world.remote && Last(client.world.remote[d]) == Uris(items)
    ensures client.writes == old(client.writes)
            || (Last(old(client.world.remote[d])) != Uris(items)
                && SentOnce(old(client.writes), client.writes, d, Uris(items)))
  {
    hide Smooth, Reliable, Truthful, Legit, Grew, ReadLater, Attests, ReadBack, Live, Harmless, Prompt, Still, Quiet,
         HonestResult, WriteRecorded, SettledRecorded, Moved, Kept, LookedFirst, CalmBetween, Undisturbed;
    results := [];
    var desired := Uris(items);
    ghost var start, seenFirst := client.world, client.observed;
    FairFacts(client, d);
    ghost var held := Last(start.remote[d]) == desired;
    NothingHappened(start, d, client.script, client.observed);
    for n := 0 to |runs|
      invariant Truthful(client, store) && Fair(client, store, d) && client.Advanced() && |results| == n
      invariant forall k :: 0 <= k < n ==> results[k].Ok?
      invariant d in client.world.remote && client.world.remote[d] != []
      invariant n > 0 || held ==> Last(client.world.remote[d]) == desired
      invariant n == 0 || held ==> client.writes == old(client.writes)
      invariant client.writes == old(client.writes) || SentOnce(old(client.writes), client.writes, d, desired)
    {
      ghost var idle, seenIdle := client.world, client.observed;
      var result, span := RunOnce(client, store, d, items, runs[n], gaps[n], prepare, guard, limit, attested(n),
                                  store.pending, store.attestation);
      FairFacts(client, d);
      Composed(start, idle, client.world, d, client.script);
      ReadEvenLater(old(client.observed), seenIdle, client.observed, start.now, idle.now);
      results := results + [result];
    }
  }

  /**
   * The same desired list, run after run, at times that do not go back; each run has a new cycle, and
   * storage, the network and the process may fail in any of them. Where the remote already holds the
   * list and every run is undemanding, nothing is sent.
   */
  method RunRepeatedly(client: Client, store: Store, d: Destination, items: seq<Item>, runs: seq<Instant>,
                       gaps: seq<nat>, prepare: Option<Preparation>, guard: nat -> bool, limit: Option<int>,
                       attested: nat -> bool)
    returns (ghost spans: seq<Span>)
    requires Truthful(client, store) && |items| <= MAX_ITEMS && |gaps| == |runs|
    requires forall i, j :: 0 <= i < j < |runs| ==> runs[i] <= runs[j]
    requires forall i :: 0 <= i < |runs| && store.attestation.Some? ==> store.attestation.value.updatedAt <= runs[i]
    requires Undisturbed(client.world, d, client.script, Uris(items)) && NothingHidden(client.script, client.world.now)
    modifies client`world, client`limited, client`observed, client`writes, client`withheld, store
    ensures Truthful(client, store) && client.Advanced() && |spans| == |runs|
    ensures forall n :: 0 <= n < |runs| ==> old(client.world.now) <= spans[n].start <= spans[n].end <= client.world.now
    ensures (forall n :: 0 <= n < |runs| ==>
               Undemanding(client.script, old(store.pending), old(store.attestation), d, Uris(items), runs[n],
                           spans[n])) ==>
              && client.writes == old(client.writes) && client.withheld == old(client.withheld)
              && Undisturbed(client.world, d, client.script, Uris(items))
  {
    hide Smooth, Reliable, Undisturbed, NothingHidden, Truthful, Legit, Grew, ReadLater, Attests, ReadBack, Live,
         Harmless, Prompt, Still, Resting, Undemanding, Quiet, HonestResult, WriteRecorded, SettledRecorded, Moved,
         Kept, LookedFirst, CalmBetween;
    spans := [];
    var desired := Uris(items);
    ghost var start, waiting, confirmed := client.world, store.pending, store.attestation;
    NothingHappened(start, d, client.script, client.observed);
    if runs != [] {
      RestsOn(waiting, confirmed, waiting, confirmed, d, desired, runs[0], runs[0]);
    }
    for n := 0 to |runs|
      invariant Truthful(client, store) && client.Advanced() && |spans| == n
      invariant forall k :: 0 <= k < n ==> start.now <= spans[k].start <= spans[k].end <= client.world.now
      invariant (forall k :: 0 <= k < n ==>
                   Undemanding(client.script, waiting, confirmed, d, desired, runs[k], spans[k])) ==>
                  && client.writes == old(client.writes) && client.withheld == old(client.withheld)
                  && Undisturbed(client.world, d, client.script, desired)
                  && (n < |runs| ==>
                        Resting(waiting, confirmed, store.pending, store.attestation, d, desired, runs[n]))
    {
      ghost var idle, seenIdle := client.world, client.observed;
      Sooner(client.script, start.now, idle.now, idle.now, idle.now);
      var result, span := RunOnce(client, store, d, items, runs[n], gaps[n], prepare, guard, limit, attested(n),
                                  waiting, confirmed);
      Composed(start, idle, client.world, d, client.script);
      ReadEvenLater(old(client.observed), seenIdle, client.observed, start.now, idle.now);
      if n + 1 < |runs| {
        RestsOn(waiting, confirmed, store.pending, store.attestation, d, desired, runs[n], runs[n + 1]);
      }
      spans := spans + [span];
    }
  }
}
