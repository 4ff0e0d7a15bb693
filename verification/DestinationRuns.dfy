/**
 * The life of one destination (engine.py): cycle after cycle either replaces the whole list or, while
 * a source is unproven, adds to it. Both kinds share the client, and each has its own durable rows.
 */
module DestinationRuns {
  import opened Basics
  import opened Models
  import opened PlaylistReader
  import opened SnapshotStore
  import opened SpotifyClient
  import Reconciliation
  import PartialAdditions

  /** One thing that happens to the destination. Times, faults, guards and answers are arbitrary. */
  datatype Action =
    | Full(desired: Desired, prepare: Option<Reconciliation.Preparation>, guard: nat -> bool, limit: Option<int>,
           attested: bool, recorded: bool)
    | Partial(candidates: seq<Uri>, maxItems: int, guardOpen: bool, stopping: bool)
    | Pause(ticks: nat)
    | NewCycle

  /** Both kinds of durable fact hold of the same destination. */
  ghost predicate Sound(client: Client, store: Store, intents: PartialAdditions.IntentStore,
                        d: Destination)
    reads client, store, intents
  {
    && Reconciliation.Truthful(client, store)
    && PartialAdditions.Fenced(client, intents)
    && OnOneDestination(intents, d)
  }

  /** Additions, the intent and what superseded them all concern d. */
  ghost predicate OnOneDestination(intents: PartialAdditions.IntentStore, d: Destination)
    reads intents
  {
    && (forall s :: s in intents.sent ==> s.destination == d)
    && (forall m :: m in intents.superseded ==> m.destination == d)
    && (intents.intent.Some? ==> intents.intent.value.destination == d)
  }

  /** Reads and replacements leave the fence around additions as it was. */
  lemma {:induction false} FenceOutlives(sent: seq<PartialAdditions.Sent>, before: seq<Write>, after: seq<Write>,
                                         observed: set<Read>, more: set<Read>,
                                         superseded: set<PartialAdditions.Supersession>,
                                         intent: Option<PartialAdditions.Intent>)
    requires PartialAdditions.FenceHolds(sent, before, observed, superseded, intent)
    requires before <= after && observed <= more
    requires forall w :: |before| <= w < |after| ==> after[w].Put?
    ensures PartialAdditions.FenceHolds(sent, after, more, superseded, intent)
  {
    forall i | 0 <= i < |sent| && PartialAdditions.Resolved(sent, before, observed, superseded, i)
      ensures PartialAdditions.Resolved(sent, after, more, superseded, i)
    {
    }
  }

  /** An honest full reconciliation is what clears an intent. */
  lemma HonestWarrants(result: Reconciliation.ItemsResult, client: Client, since: nat, d: Destination,
                       desired: seq<Uri>)
    requires Reconciliation.HonestResult(result, client, since, d, desired)
    ensures PartialAdditions.Warranted(client.observed,
                                       PartialAdditions.Supersession(d, desired, |client.writes|))
  {
    if Reconciliation.ReadBack(client, d, FingerprintOf(desired)) {
      var r :| r in client.observed && r.destination == d && Exactly(r.slots, desired)
               && r.writes == |client.writes|;
      Reconciliation.ExactIsVisible(r.slots, desired);
    }
  }

  /** The intent was dropped, and the list that was made sure of is on record as the reason. */
  ghost predicate ClearedFor(client: Client, intents: PartialAdditions.IntentStore, d: Destination,
                             desired: seq<Uri>)
    reads client, intents
  {
    && intents.intent == None
    && PartialAdditions.Supersession(d, desired, |client.writes|) in intents.superseded
  }

  /**
   * A full cycle: reconcile, record the outcome, and only then drop the intent of an addition; a
   * failure to drop it is ignored. `recorded` is whether the outcome could be recorded.
   */
  method ReconcileAndClear(client: Client, store: Store, intents: PartialAdditions.IntentStore,
                           d: Destination, desired: Desired, prepare: Option<Reconciliation.Preparation>,
                           guard: nat -> bool, limit: Option<int>, attested: bool, recorded: bool)
    returns (r: Result<Reconciliation.ItemsResult, Error>, ghost tried: seq<Desired>)
    requires Sound(client, store, intents, d)
    modifies client`world, client`limited, client`observed, client`writes, client`withheld, store, intents
    ensures Sound(client, store, intents, d) && client.Advanced()
    ensures r.Ok? ==>
              && tried != []
              && Reconciliation.HonestResult(r.value, client, old(client.world.now), d, Uris(Last(tried).items))
              && recorded
              && (if intents.faults(old(intents.ops)).Works?
                  then ClearedFor(client, intents, d, Uris(Last(tried).items))
                  else intents.intent == old(intents.intent))
    ensures r.Err? ==> intents.intent == old(intents.intent) && intents.superseded == old(intents.superseded)
    ensures intents.sent == old(intents.sent)
    ensures client.writes == old(client.writes)
            || (tried != [] && Reconciliation.SentOnce(old(client.writes), client.writes, d, Uris(Last(tried).items)))
  {
    hide Reconciliation.Quiet, Reconciliation.Moved, Reconciliation.Kept, Reconciliation.LookedFirst,
         Reconciliation.WriteRecorded, Reconciliation.SettledRecorded, Reconciliation.DistinctKeys,
         Reconciliation.HonestResult, PartialAdditions.FenceHolds, PartialAdditions.Warranted;
    var evidence := new Reconciliation.Evidence();
    r, tried := Reconciliation.Reconcile(client, store, evidence, d, desired, prepare, guard, limit, attested);
    FenceOutlives(intents.sent, old(client.writes), client.writes, old(client.observed), client.observed,
                  intents.superseded, intents.intent);
    PartialAdditions.WarrantsGrow(old(client.observed), client.observed, intents.superseded);
    if r.Err? {
      return;
    }
    if !recorded {
      return Err(Persistence), tried;
    }
    HonestWarrants(r.value, client, old(client.world.now), d, Uris(Last(tried).items));
    var cleared := PartialAdditions.ClearIntent(client, intents, d, Uris(Last(tried).items));
    if cleared == Fail(Crashed) {
      return Err(Crashed), tried;
    }
  }

  /** A cycle that may only add: not while a replacement still waits for its snapshot id. */
  method AddIfSettled(client: Client, store: Store, intents: PartialAdditions.IntentStore,
                      d: Destination, candidates: seq<Uri>, maxItems: int, guardOpen: bool, stopping: bool,
                      ghost bound: nat)
    returns (r: Result<Option<PartialAdditions.PartialResult>, Error>)
    requires Sound(client, store, intents, d) && bound <= MAX_ITEMS && (maxItems <= MAX_ITEMS ==> maxItems <= bound)
    modifies client`world, client`limited, client`observed, client`writes, client`withheld, store`ops, intents
    ensures Sound(client, store, intents, d) && client.Advanced()
    ensures store.pending.Some? ==>
              (r.Err? || r.value.None?) && client.world == old(client.world) && client.writes == old(client.writes)
    ensures PartialAdditions.OneAtMost(old(client.writes), client.writes, old(intents.intent), d)
    ensures intents.superseded == old(intents.superseded)
    ensures old(PartialAdditions.SoloState(client.world, d, intents.intent, bound))
            && PartialAdditions.Solo(client.script, old(client.world.now)) ==>
              PartialAdditions.SoloState(client.world, d, intents.intent, bound)
  {
    hide PartialAdditions.FenceHolds, PartialAdditions.Warranted, PartialAdditions.AddedAllMissing,
         PartialAdditions.SoloState, PartialAdditions.ValidArguments, PartialAdditions.Solo;
    var pending :- store.GetPending();
    if pending.Some? {
      return Ok(None);
    }
    var result := PartialAdditions.ReconcilePartialAdditions(client, intents, d, candidates, maxItems, guardOpen,
                                                             stopping, bound);
    return if result.Ok? then Ok(Some(result.value)) else Err(result.error);
  }

  /** Nothing has been sent or stored yet. */
  lemma FreshIsSound(client: Client, store: Store, intents: PartialAdditions.IntentStore,
                     d: Destination)
    requires Legit(client.world) && client.writes == [] && client.observed == {}
    requires store.attestation == None && store.pending == None
    requires intents.intent == None && intents.sent == [] && intents.superseded == {}
    ensures Sound(client, store, intents, d)
  {
  }

  ghost predicate AllSeparated(client: Client, intents: PartialAdditions.IntentStore)
    reads client, intents
  {
    forall w, v :: 0 <= w < v < |client.writes| && client.writes[w].Post? && client.writes[v].Post? ==>
                     PartialAdditions.Separated(client, intents, w, v)
  }

  /**
   * Any sequence of cycles on one destination, whatever fails in them, wherever the process dies, and
   * whatever other editors do: every attestation and every pending confirmation stays true, and
   * additions never pile up on an unresolved one.
   */
  method Run(client: Client, store: Store, intents: PartialAdditions.IntentStore, d: Destination,
             actions: seq<Action>)
    requires Sound(client, store, intents, d)
    modifies client`world, client`limited, client`observed, client`writes, client`withheld, store, intents
    ensures Sound(client, store, intents, d) && client.Advanced()
    ensures AllSeparated(client, intents)
  {
    for n := 0 to |actions|
      invariant Sound(client, store, intents, d) && client.Advanced()
    {
      match actions[n]
      case Full(desired, prepare, guard, limit, attested, recorded) =>
        var result, tried := ReconcileAndClear(client, store, intents, d, desired, prepare, guard, limit, attested,
                                               recorded);
      case Partial(candidates, maxItems, guardOpen, stopping) =>
        var result := AddIfSettled(client, store, intents, d, candidates, maxItems, guardOpen, stopping,
                                   MAX_ITEMS);
      case Pause(ticks) =>
        client.Idle(d, ticks);
      case NewCycle =>
        client.NewCycle();
    }
    forall w, v | 0 <= w < v < |client.writes| && client.writes[w].Post? && client.writes[v].Post?
      ensures PartialAdditions.Separated(client, intents, w, v)
    {
      PartialAdditions.AdditionsAreSeparated(client, intents, w, v);
    }
  }

  /** The cycle does not replace the list, and keeps to the bound. */
  predicate OnlyAdds(action: Action, bound: nat) {
    !action.Full? && (action.Partial? && action.maxItems <= MAX_ITEMS ==> action.maxItems <= bound)
  }

  /** Without duplicates, within the bound, and with each earlier version as its unchanged tail. */
  ghost predicate GrownInFront(history: seq<Version>, bound: nat) {
    && history != [] && PartialAdditions.NoDuplicates(Last(history)) && |Last(history)| <= bound
    && forall i :: 0 <= i < |history| ==> PartialAdditions.IsSuffix(history[i], Last(history))
  }

  lemma SoloGrowsInFront(w: World, d: Destination, intent: Option<PartialAdditions.Intent>, bound: nat)
    requires PartialAdditions.SoloState(w, d, intent, bound)
    ensures d in w.remote && GrownInFront(w.remote[d], bound)
  {
    hide PartialAdditions.NoDuplicates, PartialAdditions.IsSuffix, PartialAdditions.Layered;
    forall i | 0 <= i < |w.remote[d]| ensures PartialAdditions.IsSuffix(w.remote[d][i], Last(w.remote[d])) {
      PartialAdditions.LayeredIsASuffixChain(w.remote[d], i, |w.remote[d]| - 1);
    }
  }

  /** What the destination held at first is the tail of what it holds now. */
  lemma FirstIsTail(before: Histories, after: Histories, d: Destination, bound: nat)
    requires Grew(before, after) && d in before && before[d] != [] && GrownInFront(after[d], bound)
    ensures PartialAdditions.IsSuffix(Last(before[d]), Last(after[d]))
  {
    hide PartialAdditions.NoDuplicates, PartialAdditions.IsSuffix;
    assert after[d][|before[d]| - 1] == Last(before[d]);
  }

  lemma SoloLater(script: Script, from: nat, later: nat)
    requires from <= later
    ensures PartialAdditions.Solo(script, from) ==> PartialAdditions.Solo(script, later)
  {
  }

  /** One cycle, or the time between two, of a destination that is only added to. */
  method AddOnlyStep(client: Client, store: Store, intents: PartialAdditions.IntentStore, d: Destination,
                     action: Action, ghost bound: nat)
    requires Sound(client, store, intents, d) && bound <= MAX_ITEMS && OnlyAdds(action, bound)
    requires PartialAdditions.SoloState(client.world, d, intents.intent, bound)
    requires PartialAdditions.Solo(client.script, client.world.now)
    modifies client`world, client`limited, client`observed, client`writes, client`withheld, store`ops, intents
    ensures Sound(client, store, intents, d) && client.Advanced()
    ensures PartialAdditions.SoloState(client.world, d, intents.intent, bound)
  {
    hide PartialAdditions.SoloState, PartialAdditions.Solo, PartialAdditions.FenceHolds;
    ghost var start := client.world;
    match action
    case Partial(candidates, maxItems, guardOpen, stopping) =>
      var result := AddIfSettled(client, store, intents, d, candidates, maxItems, guardOpen, stopping, bound);
    case Pause(ticks) =>
      client.Idle(d, ticks);
      ServeManyNow(start, d, client.script, ticks);
      PartialAdditions.KeepSolo(client, d, start, intents.intent, bound);
    case NewCycle =>
      client.NewCycle();
  }

  lemma ServeManyNow(w: World, d: Destination, script: Script, n: nat)
    ensures ServeMany(w, d, script, n).now - w.now == n
  {
  }

  /**
   * A destination that nobody else writes, over any sequence of additions, pauses and new cycles, with lost
   * answers, late additions, held-back requests, crashes and storage failures in them: it never holds an
   * item twice, never exceeds the bound, and every version it ever had is the unchanged tail of the current one.
   */
  method RunAdditions(client: Client, store: Store, intents: PartialAdditions.IntentStore, d: Destination,
                      actions: seq<Action>, ghost bound: nat)
    requires Sound(client, store, intents, d) && bound <= MAX_ITEMS
    requires forall i :: 0 <= i < |actions| ==> OnlyAdds(actions[i], bound)
    requires PartialAdditions.SoloState(client.world, d, intents.intent, bound)
    requires PartialAdditions.Solo(client.script, client.world.now)
    modifies client`world, client`limited, client`observed, client`writes, client`withheld, store`ops, intents
    ensures Sound(client, store, intents, d) && client.Advanced()
    ensures PartialAdditions.SoloState(client.world, d, intents.intent, bound)
    ensures d in client.world.remote && GrownInFront(client.world.remote[d], bound)
    ensures PartialAdditions.IsSuffix(Last(old(client.world.remote)[d]), Last(client.world.remote[d]))
  {
    hide PartialAdditions.SoloState, PartialAdditions.Solo, PartialAdditions.IsSuffix, Sound, Grew, ReadLater;
    ghost var start := client.world;
    SoloGrowsInFront(start, d, intents.intent, bound);
    Reconciliation.NothingHappened(start, d, client.script, client.observed);
    for n := 0 to |actions|
      invariant Sound(client, store, intents, d) && client.Advanced()
      invariant PartialAdditions.SoloState(client.world, d, intents.intent, bound)
    {
      ghost var before, seen := client.world, client.observed;
      SoloLater(client.script, start.now, before.now);
      AddOnlyStep(client, store, intents, d, actions[n], bound);
      GrewTransitive(start.remote, before.remote, client.world.remote);
      ReadEvenLater(old(client.observed), seen, client.observed, start.now, before.now);
    }
    SoloGrowsInFront(client.world, d, intents.intent, bound);
    FirstIsTail(start.remote, client.world.remote, d, bound);
  }
}
