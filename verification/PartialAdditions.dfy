/**
 * Add-only recovery (partial_reconciliation.py): while a source cannot prove its coverage, known
 * new episodes are inserted at the front of an exactly readable destination. A durable intent
 * fences every addition whose outcome is uncertain, across restarts.
 */
module PartialAdditions {
  import opened Basics
  import opened Models
  import opened PlaylistReader
  import opened SpotifyClient

  predicate IsEpisodeUri(uri: Uri) {
    && |uri| == 38 && uri[..16] == "spotify:episode:"
    && forall i :: 16 <= i < 38 ==> '0' <= uri[i] <= '9' || 'A' <= uri[i] <= 'Z' || 'a' <= uri[i] <= 'z'
  }

  predicate NoDuplicates(uris: seq<Uri>) {
    forall i, j :: 0 <= i < j < |uris| ==> uris[i] != uris[j]
  }

  datatype Intent = Intent(destination: Destination, expected: seq<Uri>)
  /** One addition that was sent: what it should make of the destination, and which write it was. */
  datatype Sent = Sent(destination: Destination, expected: seq<Uri>, at: nat)
  /** A full reconciliation that cleared the row: what it made sure of, and how many writes had been sent by then. */
  datatype Supersession = Supersession(destination: Destination, desired: seq<Uri>, at: nat)

  /** The one intent row of a logical playlist. */
  class IntentStore {
    const faults: nat -> StoreFault
    var ops: nat
    var intent: Option<Intent>
    ghost var sent: seq<Sent>
    ghost var superseded: set<Supersession>

    constructor (faults: nat -> StoreFault)
      ensures this.faults == faults && ops == 0 && intent == None && sent == [] && superseded == {}
    {
      this.faults, ops, intent := faults, 0, None;
      sent, superseded := [], {};
    }

    method Get() returns (r: Result<Option<Intent>, Error>)
      modifies this`ops
      ensures r.Ok? ==> r.value == intent
      ensures ops == old(ops) + 1 && (faults(old(ops)).Works? && intent == None ==> r.Ok?)
      ensures Reliable(faults, old(ops)) ==> Reliable(faults, ops) && faults(old(ops)).Works?
      ensures r.Ok? && intent.Some? ==> forall u :: u in intent.value.expected ==> IsEpisodeUri(u)
      ensures r.Err? ==> r.error == Persistence
    {
      ops := ops + 1;
      if !faults(ops - 1).Works? {
        return Err(Persistence);
      }
      if intent.Some? && (intent.value.expected == [] || |intent.value.expected| > MAX_ITEMS
                          || exists u :: u in intent.value.expected && !IsEpisodeUri(u)) {
        return Err(Persistence);
      }
      return Ok(intent);
    }

    /** INSERT OR IGNORE: a row that is already there makes the second intent fail. */
    method Begin(d: Destination, expected: seq<Uri>) returns (r: Outcome<Error>)
      modifies this`ops, this`intent
      ensures ops == old(ops) + 1
      ensures Reliable(faults, old(ops)) ==> Reliable(faults, ops) && faults(old(ops)).Works?
      ensures r.Pass? <==> old(intent) == None && faults(old(ops)).Works?
      ensures intent == if r.Pass? then Some(Intent(d, expected)) else old(intent)
    {
      ops := ops + 1;
      r := Stored(faults(ops - 1));
      if r.Pass? && intent.Some? {
        r := Fail(Persistence);
      } else if r.Pass? {
        intent := Some(Intent(d, expected));
      }
    }

    /** Deletes the row only if it still holds that expectation. */
    method Clear(expected: seq<Uri>) returns (r: Outcome<Error>)
      modifies this`ops, this`intent
      ensures Reliable(faults, old(ops)) ==> Reliable(faults, ops) && r.Pass?
      ensures intent == if r.Pass? && old(intent).Some? && old(intent).value.expected == expected then None
                        else old(intent)
      ensures ops == old(ops) + 1 && r == Stored(faults(old(ops)))
    {
      ops := ops + 1;
      r := Stored(faults(ops - 1));
      if r.Pass? && intent.Some? && intent.value.expected == expected {
        intent := None;
      }
    }
  }

  /** The write that follows addition i, or the end of what has been sent. */
  ghost function Until(sent: seq<Sent>, writes: seq<Write>, i: nat): nat
    requires i < |sent|
  {
    if i + 1 < |sent| then sent[i + 1].at else |writes|
  }

  /** Before the next addition was sent this one was refused, seen applied exactly, or superseded. */
  ghost predicate Resolved(sent: seq<Sent>, writes: seq<Write>, observed: set<Read>, superseded: set<Supersession>,
                           i: nat)
    requires i < |sent| && sent[i].at < |writes|
  {
    || writes[sent[i].at].fate == Refused
    || (exists r :: r in observed && r.destination == sent[i].destination && Exactly(r.slots, sent[i].expected)
                    && sent[i].at < r.writes <= Until(sent, writes, i))
    || (exists m :: m in superseded && sent[i].at < m.at <= Until(sent, writes, i))
  }

  /** Only the last addition may be unresolved, and then the intent row still names it. */
  ghost predicate FenceHolds(sent: seq<Sent>, writes: seq<Write>, observed: set<Read>, superseded: set<Supersession>,
                             intent: Option<Intent>) {
    && (forall i :: 0 <= i < |sent| ==> sent[i].at < |writes| && writes[sent[i].at].Post?)
    && (forall i, j :: 0 <= i < j < |sent| ==> sent[i].at < sent[j].at)
    && (forall w :: 0 <= w < |writes| && writes[w].Post? ==> exists i :: 0 <= i < |sent| && sent[i].at == w)
    && (forall i :: 0 <= i < |sent| ==>
          || Resolved(sent, writes, observed, superseded, i)
          || (i == |sent| - 1 && intent == Some(Intent(sent[i].destination, sent[i].expected))))
  }

  /** At that write count a complete read of the destination showed nothing but the desired list. */
  ghost predicate Warranted(observed: set<Read>, m: Supersession) {
    exists r :: r in observed && r.writes == m.at && r.destination == m.destination
                && VisiblyMatches(r.slots, m.desired)
  }

  ghost predicate AllWarranted(observed: set<Read>, superseded: set<Supersession>) {
    forall m :: m in superseded ==> Warranted(observed, m)
  }

  ghost predicate Fenced(client: Client, store: IntentStore)
    reads client, store
  {
    && client.Valid()
    && AllWarranted(client.observed, store.superseded)
    && FenceHolds(store.sent, client.writes, client.observed, store.superseded, store.intent)
  }

  /**
   * Between additions w and v the earlier one was refused, was seen applied exactly, or a full
   * reconciliation saw its own list in place.
   */
  ghost predicate Separated(client: Client, store: IntentStore, w: nat, v: nat)
    requires w < |client.writes|
    reads client, store
  {
    || client.writes[w].fate == Refused
    || (exists s, r :: s in store.sent && s.at == w && r in client.observed
                       && r.destination == s.destination && Exactly(r.slots, s.expected) && w < r.writes <= v)
    || (exists m, r :: m in store.superseded && w < m.at <= v && r in client.observed && r.writes == m.at
                       && r.destination == m.destination && VisiblyMatches(r.slots, m.desired))
  }

  /** An addition that was followed by another one was resolved in between. */
  lemma {:induction false} ResolvedBetween(sent: seq<Sent>, writes: seq<Write>, observed: set<Read>,
                                           superseded: set<Supersession>, intent: Option<Intent>, w: nat, v: nat)
    returns (i: nat)
    requires FenceHolds(sent, writes, observed, superseded, intent)
    requires w < v < |writes| && writes[w].Post? && writes[v].Post?
    ensures i < |sent| && sent[i].at == w && Until(sent, writes, i) <= v
    ensures Resolved(sent, writes, observed, superseded, i)
  {
    hide Resolved;
    i :| 0 <= i < |sent| && sent[i].at == w;
    var j :| 0 <= j < |sent| && sent[j].at == v;
    assert i < j;
    assert i + 1 == j || sent[i + 1].at < sent[j].at;
  }

  /** The fence for readers of the write log: any two additions have a resolution between them. */
  lemma {:induction false} AdditionsAreSeparated(client: Client, store: IntentStore, w: nat, v: nat)
    requires Fenced(client, store)
    requires w < v < |client.writes| && client.writes[w].Post? && client.writes[v].Post?
    ensures Separated(client, store, w, v)
  {
    hide Exactly, VisiblyMatches, TrueFates, Legit, FenceHolds, Until;
    var i := ResolvedBetween(store.sent, client.writes, client.observed, store.superseded, store.intent, w, v);
    if exists r :: r in client.observed && r.destination == store.sent[i].destination
                   && Exactly(r.slots, store.sent[i].expected) && w < r.writes <= Until(store.sent, client.writes, i) {
      var r :| r in client.observed && r.destination == store.sent[i].destination
               && Exactly(r.slots, store.sent[i].expected) && w < r.writes <= Until(store.sent, client.writes, i);
      assert store.sent[i] in store.sent && r.writes <= v;
    } else if client.writes[w].fate != Refused {
      var m :| m in store.superseded && w < m.at <= Until(store.sent, client.writes, i);
      assert Warranted(client.observed, m);
    }
  }

  /** What a stable read found: the current id, and the current content up to 101 items. */
  ghost predicate StableRead(client: Client, d: Destination, since: nat, id: nat, uris: seq<Uri>)
    reads client
  {
    && d in client.world.remote && client.world.remote[d] != [] && id == |client.world.remote[d]| - 1
    && uris == UpTo101(Last(client.world.remote[d]))
    && SawExactly(client, since, d, uris)
  }

  function UpTo101(content: seq<Uri>): seq<Uri> {
    if |content| <= MAX_ITEMS then content else content[..MAX_ITEMS + 1]
  }

  function UrisOf(slots: seq<Slot>): (uris: seq<Uri>)
    ensures AllVisible(slots) ==> Exactly(slots, uris)
  {
    seq(|slots|, i requires 0 <= i < |slots| => if slots[i].Some? then slots[i].value else "")
  }

  lemma VisibleContent(slots: seq<Slot>, content: seq<Uri>)
    requires Matches(slots, content) && AllVisible(slots)
    ensures UrisOf(slots) == UpTo101(content)
  {
  }

  /** A complete read, and a closing id that has to be this one. */
  method ReadStable(client: Client, d: Destination, opening: nat) returns (r: Result<seq<Uri>, Error>)
    requires client.Valid() && d in client.world.remote && opening < |client.world.remote[d]|
    modifies client`world, client`limited, client`observed
    ensures client.Valid() && client.Advanced()
    ensures client.world == ServeMany(old(client.world), d, client.script, client.world.now - old(client.world.now))
    ensures r.Ok? ==> StableRead(client, d, old(client.world.now), opening, r.value)
    ensures old(Smooth(client.world, d, client.script, client.limited))
            && opening == |old(client.world.remote)[d]| - 1 ==>
              && r.Ok? && Smooth(client.world, d, client.script, client.limited)
              && client.world.remote == old(client.world.remote)
  {
    hide Matches, Exactly, AllVisible, Undisturbed, NothingHidden, Serve, SeenSince, Legit, CalmBetween, UrisOf,
         ReadableNow, ReportedId, SnapshotAnswer, Grew, LimitedAfter, Smooth, ReadLater, ServeMany, TrueFates;
    ghost var start := client.world;
    var slots :- client.ReadItems(d, false);
    ghost var between := client.world;
    ManyThenServedOnce(start, d, client.script, between.now - start.now);
    AnswerMeans(client.limited, client.script(between.now), HistoryOf(Serve(between, d, client.script(between.now)), d),
                true);
    var closing := client.Snapshot(d, true);
    GrewTransitive(start.remote, between.remote, client.world.remote);
    ReadSince(client.observed, client.observed, start.now, between.now);
    if closing.Err? {
      return Err(closing.error);
    }
    if opening != closing.value {
      return Err(Reconciliation);
    }
    CurrentId(client.world, d);
    BracketIsOneVersion(start, between, client.world, d, closing.value, slots);
    VisibleContent(slots, Last(client.world.remote[d]));
    assert Read(d, slots, between.now, |client.writes|) in client.observed;
    return Ok(UrisOf(slots));
  }

  /** `_stable_destination`: the whole destination, at one version. */
  method StableDestination(client: Client, d: Destination) returns (r: Result<(nat, seq<Uri>), Error>)
    requires client.Valid()
    modifies client`world, client`limited, client`observed
    ensures client.Valid() && client.Advanced()
    ensures client.world == ServeMany(old(client.world), d, client.script, client.world.now - old(client.world.now))
    ensures r.Ok? ==> StableRead(client, d, old(client.world.now), r.value.0, r.value.1)
    ensures old(client.limited) ==> r.Err?
    ensures old(Smooth(client.world, d, client.script, client.limited)) ==>
              && r.Ok? && Smooth(client.world, d, client.script, client.limited)
              && client.world.remote == old(client.world.remote)
  {
    hide Serve, Legit, CalmBetween, ReportedId, SnapshotAnswer, Grew, LimitedAfter, Smooth, ReadLater, ServeMany,
         TrueFates, StableRead;
    ghost var start := client.world;
    ServedOnceThenMany(start, d, client.script, 0);
    AnswerMeans(client.limited, client.script(start.now), HistoryOf(Serve(start, d, client.script(start.now)), d),
                false);
    var opening :- client.Snapshot(d, false);
    ghost var before := client.world;
    var read := ReadStable(client, d, opening);
    ServedOnceThenMany(start, d, client.script, client.world.now - before.now);
    GrewTransitive(start.remote, before.remote, client.world.remote);
    ReadSince(old(client.observed), client.observed, start.now, before.now);
    if read.Err? {
      return Err(read.error);
    }
    StableSince(client, d, start.now, before.now, opening, read.value);
    return Ok((opening, read.value));
  }

  lemma StableSince(client: Client, d: Destination, since: nat, later: nat, id: nat, uris: seq<Uri>)
    requires since <= later && StableRead(client, d, later, id, uris)
    ensures StableRead(client, d, since, id, uris)
  {
  }

  lemma CurrentId(w: World, d: Destination)
    ensures HistoryOf(w, d).Some? ==> d in w.remote && HistoryOf(w, d).value == w.remote[d]
  {
  }

  lemma ServedOnceThenMany(w: World, d: Destination, script: Script, n: nat)
    ensures ServeMany(Serve(w, d, script(w.now)), d, script, n) == ServeMany(w, d, script, n + 1)
    ensures Serve(w, d, script(w.now)) == ServeMany(w, d, script, 1)
  {
    assert ServeMany(w, d, script, 0) == w;
    assert ServeMany(w, d, script, 1) == Serve(w, d, script(w.now));
    ServeManyAdds(w, d, script, 1, n);
  }

  lemma ManyThenServedOnce(w: World, d: Destination, script: Script, n: nat)
    ensures var before := ServeMany(w, d, script, n);
            Serve(before, d, script(before.now)) == ServeMany(w, d, script, n + 1)
  {
  }

  lemma StableIsCurrent(client: Client, d: Destination, since: nat, id: nat, uris: seq<Uri>)
    requires StableRead(client, d, since, id, uris)
    ensures d in client.world.remote && client.world.remote[d] != [] && uris == UpTo101(Last(client.world.remote[d]))
  {
  }

  /** `_confirm_expected`; a failed read confirms nothing, unless storage caused the failure. */
  method ConfirmExpected(client: Client, d: Destination, expected: seq<Uri>) returns (r: Result<bool, Error>)
    requires client.Valid()
    modifies client`world, client`limited, client`observed
    ensures client.Valid() && client.Advanced()
    ensures client.world == ServeMany(old(client.world), d, client.script, client.world.now - old(client.world.now))
    ensures r == Ok(true) ==> exists id :: StableRead(client, d, old(client.world.now), id, expected)
    ensures old(client.limited) ==> r != Ok(true)
    ensures r.Err? ==> r.error == Persistence
    ensures old(Smooth(client.world, d, client.script, client.limited)) ==>
              && client.world.remote == old(client.world.remote) && d in client.world.remote
              && client.world.remote[d] != [] && r == Ok(UpTo101(Last(client.world.remote[d])) == expected)
  {
    hide Smooth, StableRead, ServeMany;
    var stable := StableDestination(client, d);
    if stable.Err? {
      return if stable.error == Persistence then Err(Persistence) else Ok(false);
    }
    StableIsCurrent(client, d, old(client.world.now), stable.value.0, stable.value.1);
    return Ok(stable.value.1 == expected);
  }

  lemma WarrantsGrow(observed: set<Read>, more: set<Read>, superseded: set<Supersession>)
    requires observed <= more
    ensures AllWarranted(observed, superseded) ==> AllWarranted(more, superseded)
  {
    forall m | Warranted(observed, m)
      ensures Warranted(more, m)
    {
      var r :| r in observed && r.writes == m.at && r.destination == m.destination
               && VisiblyMatches(r.slots, m.desired);
      assert r in more;
    }
  }

  lemma {:induction false} FenceGrows(sent: seq<Sent>, writes: seq<Write>, observed: set<Read>, more: set<Read>,
                                      superseded: set<Supersession>, intent: Option<Intent>)
    requires FenceHolds(sent, writes, observed, superseded, intent) && observed <= more
    ensures FenceHolds(sent, writes, more, superseded, intent)
    ensures intent == None ==> forall i :: 0 <= i < |sent| ==> Resolved(sent, writes, more, superseded, i)
    ensures AllWarranted(observed, superseded) ==> AllWarranted(more, superseded)
  {
    WarrantsGrow(observed, more, superseded);
    forall i | 0 <= i < |sent| && Resolved(sent, writes, observed, superseded, i)
      ensures Resolved(sent, writes, more, superseded, i)
    {
    }
  }

  /** Clearing the row is allowed once the last addition is resolved. */
  lemma FenceReleases(sent: seq<Sent>, writes: seq<Write>, observed: set<Read>, superseded: set<Supersession>,
                      intent: Option<Intent>)
    requires FenceHolds(sent, writes, observed, superseded, intent)
    requires sent != [] && intent == Some(Intent(Last(sent).destination, Last(sent).expected)) ==>
               Resolved(sent, writes, observed, superseded, |sent| - 1)
    ensures FenceHolds(sent, writes, observed, superseded, None)
  {
  }

  lemma {:induction false} ResolvedExtends(sent: seq<Sent>, writes: seq<Write>, observed: set<Read>,
                                           superseded: set<Supersession>, next: Sent, write: Write, i: nat)
    requires i < |sent| && sent[i].at < |writes| && next.at == |writes|
    requires Resolved(sent, writes, observed, superseded, i)
    ensures Resolved(sent + [next], writes + [write], observed, superseded, i)
  {
    assert Until(sent + [next], writes + [write], i) == Until(sent, writes, i);
  }

  /** A new addition may be sent where every earlier one is resolved and the row names the new one. */
  lemma {:induction false} FenceExtends(sent: seq<Sent>, writes: seq<Write>, observed: set<Read>,
                                        superseded: set<Supersession>, d: Destination, additions: seq<Uri>,
                                        expected: seq<Uri>, fate: Fate, at: nat)
    requires FenceHolds(sent, writes, observed, superseded, None)
    ensures FenceHolds(sent + [Sent(d, expected, |writes|)], writes + [Post(d, additions, fate, at)], observed,
                       superseded, Some(Intent(d, expected)))
    ensures fate == Refused ==>
              FenceHolds(sent + [Sent(d, expected, |writes|)], writes + [Post(d, additions, fate, at)], observed,
                         superseded, None)
  {
    var next, write := Sent(d, expected, |writes|), Post(d, additions, fate, at);
    var sent', writes' := sent + [next], writes + [write];
    assert fate == Refused ==> Resolved(sent', writes', observed, superseded, |sent|);
    hide Resolved, Until;
    forall i | 0 <= i < |sent|
      ensures Resolved(sent', writes', observed, superseded, i)
    {
      ResolvedExtends(sent, writes, observed, superseded, next, write, i);
    }
    forall w | 0 <= w < |writes'| && writes'[w].Post?
      ensures exists i :: 0 <= i < |sent'| && sent'[i].at == w
    {
      if w == |writes| {
        assert sent'[|sent|].at == w;
      } else {
        var i :| 0 <= i < |sent| && sent[i].at == w;
        assert sent'[i].at == w;
      }
    }
  }

  datatype Status = AddedItems | Unchanged | Capacity | StillPending
  datatype PartialResult = PartialResult(status: Status, addedCount: nat, remoteCount: Option<nat>)

  /** The candidates the destination does not hold yet, in their own order. */
  function Missing(candidates: seq<Uri>, current: seq<Uri>): (additions: seq<Uri>)
    ensures |additions| <= |candidates|
    ensures forall u :: u in additions <==> u in candidates && u !in current
    ensures NoDuplicates(candidates) ==> NoDuplicates(additions)
  {
    if candidates == [] then []
    else
      var rest := Missing(candidates[1..], current);
      assert candidates == [candidates[0]] + candidates[1..];
      if candidates[0] in current then rest else [candidates[0]] + rest
  }

  predicate IsSuffix<T(==)>(tail: seq<T>, whole: seq<T>) {
    |tail| <= |whole| && whole[|whole| - |tail|..] == tail
  }

  /** Every version keeps the one before it as its unchanged tail. */
  ghost predicate Layered(history: seq<Version>) {
    forall i :: 0 <= i < |history| - 1 ==> IsSuffix(history[i], history[i + 1])
  }

  /** Nobody but this journal's additions ever changes the playlist. */
  ghost predicate Solo(script: Script, from: nat) {
    forall k :: k >= from ==> script(k).edits == []
  }

  /**
   * What holds of a playlist nobody else writes: no duplicates, the capacity, every version a
   * suffix of the next, and at most one addition in flight, which is the one the intent expects.
   */
  ghost predicate SoloState(w: World, d: Destination, intent: Option<Intent>, bound: nat) {
    && d in w.remote && w.remote[d] != []
    && NoDuplicates(Last(w.remote[d])) && |Last(w.remote[d])| <= bound
    && Layered(w.remote[d])
    && match intent
       case None => w.inflight == []
       case Some(Intent(destination, expected)) =>
         && destination == d && NoDuplicates(expected) && |expected| <= bound
         && IsSuffix(Last(w.remote[d]), expected)
         && (w.inflight == []
             || (|Last(w.remote[d])| < |expected|
                 && w.inflight == [Addition(d, expected[..|expected| - |Last(w.remote[d])|])]))
  }

  lemma {:induction false} LayeredIsASuffixChain(history: seq<Version>, i: nat, j: nat)
    requires Layered(history) && i <= j < |history|
    ensures IsSuffix(history[i], history[j])
  {
    if i < j {
      LayeredIsASuffixChain(history, i, j - 1);
      var a, b, c := history[i], history[j - 1], history[j];
      assert c[|c| - |a|..] == c[|c| - |b|..][|b| - |a|..];
    }
  }

  lemma LayeredExtends(history: seq<Version>, version: Version)
    requires Layered(history) && history != [] && IsSuffix(Last(history), version)
    ensures Layered(history + [version])
  {
  }

  lemma ServeKeepsSolo(w: World, d: Destination, tick: Tick, intent: Option<Intent>, bound: nat)
    requires SoloState(w, d, intent, bound) && tick.edits == []
    ensures SoloState(Serve(w, d, tick), d, intent, bound)
  {
    hide NoDuplicates, Layered;
    var history := w.remote[d];
    assert history + tick.edits == history;
    if tick.lands && w.inflight != [] {
      var expected, current := intent.value.expected, Last(history);
      var served := Serve(w, d, tick);
      assert w.inflight[0].uris + current == expected;
      assert served.inflight == [];
      assert served.remote[d] == history + [expected];
      LayeredExtends(history, expected);
      assert Last(history + [expected]) == expected;
    } else {
      assert Serve(w, d, tick).remote[d] == history;
    }
  }

  lemma {:induction false} ServeManyKeepsSolo(w: World, d: Destination, script: Script, n: nat,
                                              intent: Option<Intent>, bound: nat)
    requires SoloState(w, d, intent, bound) && Solo(script, w.now)
    ensures SoloState(ServeMany(w, d, script, n), d, intent, bound)
    decreases n
  {
    if n > 0 {
      ServeManyKeepsSolo(w, d, script, n - 1, intent, bound);
      var before := ServeMany(w, d, script, n - 1);
      ServeKeepsSolo(before, d, script(before.now), intent, bound);
    }
  }

  /** An intent whose expectation is what the destination holds has nothing left to land. */
  lemma ReleaseKeepsSolo(w: World, d: Destination, expected: seq<Uri>, bound: nat)
    requires SoloState(w, d, Some(Intent(d, expected)), bound) && bound <= MAX_ITEMS
    requires UpTo101(Last(w.remote[d])) == expected
    ensures SoloState(w, d, None, bound)
  {
  }

  /** A new intent over what the destination holds, while nothing is in flight. */
  lemma BeginKeepsSolo(w: World, d: Destination, candidates: seq<Uri>, bound: nat)
    requires SoloState(w, d, None, bound) && NoDuplicates(candidates)
    requires var current := Last(w.remote[d]); |Missing(candidates, current)| + |current| <= bound
    ensures var current := Last(w.remote[d]);
            SoloState(w, d, Some(Intent(d, Missing(candidates, current) + current)), bound)
  {
    hide NoDuplicates, Missing, Layered, IsSuffix;
    var current := Last(w.remote[d]);
    InFrontOf(Missing(candidates, current), current);
  }

  /** New items in front of a list: no duplicates, and the list is their suffix. */
  lemma InFrontOf(additions: seq<Uri>, current: seq<Uri>)
    requires NoDuplicates(additions) && NoDuplicates(current) && forall u :: u in additions ==> u !in current
    ensures NoDuplicates(additions + current) && IsSuffix(current, additions + current)
  {
    var whole := additions + current;
    assert whole[|additions|..] == current;
    forall i, j | 0 <= i < j < |whole| ensures whole[i] != whole[j] {
      if i < |additions| <= j {
        assert additions[i] in additions && current[j - |additions|] in current;
      }
    }
  }

  lemma AddKeepsSolo(w: World, d: Destination, additions: seq<Uri>, current: seq<Uri>, bound: nat, after: World)
    requires SoloState(w, d, Some(Intent(d, additions + current)), bound) && w.inflight == []
    requires Last(w.remote[d]) == current && additions != []
    requires after == w || after == Added(w, d, additions)
             || after == w.(inflight := w.inflight + [Addition(d, additions)])
    ensures SoloState(after, d, Some(Intent(d, additions + current)), bound)
  {
    assert (additions + current)[..|additions|] == additions;
    assert (additions + current)[|additions|..] == current;
  }

  /** A call with an intent already on disk: confirm it by exact readback, or leave everything alone. */
  method ResolveIntent(client: Client, store: IntentStore, d: Destination, pending: Intent, ghost bound: nat)
    returns (r: Result<PartialResult, Error>)
    requires Fenced(client, store) && store.intent == Some(pending) && bound <= MAX_ITEMS
    modifies client`world, client`limited, client`observed, store`ops, store`intent
    ensures Fenced(client, store) && client.Advanced()
    ensures r.Ok? ==>
              if r.value.status == Unchanged then
                && store.intent == None && pending.destination == d
                && r.value.remoteCount == Some(|pending.expected|)
                && exists id :: StableRead(client, d, old(client.world.now), id, pending.expected)
              else r.value.status == StillPending && store.intent == Some(pending)
    ensures r.Err? ==> store.intent == Some(pending)
    ensures old(SoloState(client.world, d, store.intent, bound)) && Solo(client.script, old(client.world.now)) ==>
              SoloState(client.world, d, store.intent, bound)
    ensures old(Smooth(client.world, d, client.script, client.limited)) && old(Reliable(store.faults, store.ops))
            && pending.destination == d ==>
              && r.Ok? && d in client.world.remote && client.world.remote[d] != []
              && (r.value.status == Unchanged <==> UpTo101(Last(client.world.remote[d])) == pending.expected)
  {
    hide Smooth, Reliable, Resolved, FenceHolds, SoloState, Solo, Legit;
    if pending.destination != d {
      return Ok(PartialResult(StillPending, 0, None));
    }
    ghost var start := client.world;
    var confirmed := ConfirmExpected(client, d, pending.expected);
    FenceGrows(store.sent, client.writes, old(client.observed), client.observed, store.superseded, store.intent);
    KeepSolo(client, d, start, store.intent, bound);
    if confirmed.Err? {
      return Err(confirmed.error);
    }
    if !confirmed.value {
      return Ok(PartialResult(StillPending, 0, None));
    }
    ghost var id :| StableRead(client, d, start.now, id, pending.expected);
    ReadReleases(client, store, d, start, pending.expected, bound);
    var cleared := store.Clear(pending.expected);
    if cleared.Fail? {
      return Err(cleared.error);
    }
    assert StableRead(client, d, start.now, id, pending.expected);
    return Ok(PartialResult(Unchanged, 0, Some(|pending.expected|)));
  }

  lemma KeepSolo(client: Client, d: Destination, start: World, intent: Option<Intent>, bound: nat)
    requires start.now <= client.world.now
    requires client.world == ServeMany(start, d, client.script, client.world.now - start.now)
    ensures SoloState(start, d, intent, bound) && Solo(client.script, start.now) ==>
              SoloState(client.world, d, intent, bound)
  {
    if SoloState(start, d, intent, bound) && Solo(client.script, start.now) {
      ServeManyKeepsSolo(start, d, client.script, client.world.now - start.now, intent, bound);
    }
  }

  /** A stable exact read of the expectation entitles its caller to clear the row. */
  lemma ReadReleases(client: Client, store: IntentStore, d: Destination, start: World, expected: seq<Uri>, bound: nat)
    requires Fenced(client, store) && store.intent == Some(Intent(d, expected)) && bound <= MAX_ITEMS
    requires exists id :: StableRead(client, d, start.now, id, expected)
    ensures FenceHolds(store.sent, client.writes, client.observed, store.superseded, None)
    ensures SoloState(client.world, d, store.intent, bound) ==> SoloState(client.world, d, None, bound)
  {
    if store.sent != [] && Last(store.sent).destination == d && Last(store.sent).expected == expected {
      assert Resolved(store.sent, client.writes, client.observed, store.superseded, |store.sent| - 1) by {
        hide SoloState;
        assert SawExactly(client, start.now, d, expected);
      }
    }
    FenceReleases(store.sent, client.writes, client.observed, store.superseded, store.intent);
    if SoloState(client.world, d, store.intent, bound) {
      ReleaseKeepsSolo(client.world, d, expected, bound);
    }
  }

  /** What a verified addition means: the new items stand in front of content that was read before. */
  ghost predicate AddedInFront(client: Client, d: Destination, additions: seq<Uri>, current: seq<Uri>)
    reads client
  {
    && d in client.world.remote && client.world.remote[d] != []
    && Last(client.world.remote[d]) == additions + current
    && client.writes != [] && Last(client.writes).Post?
    && Last(client.writes).destination == d && Last(client.writes).payload == additions
  }

  /**
   * The one place that sends an addition: the intent is durable before, and logged with it after. An
   * addition that is held back is not logged, but its intent stays.
   */
  method Send(client: Client, store: IntentStore, d: Destination, additions: seq<Uri>, current: seq<Uri>,
              ghost bound: nat)
    returns (answer: Result<Option<nat>, Error>)
    requires client.Valid() && 1 <= |additions| <= MAX_ITEMS && AllWarranted(client.observed, store.superseded)
    requires store.intent == Some(Intent(d, additions + current))
    requires FenceHolds(store.sent, client.writes, client.observed, store.superseded, None)
    modifies client`world, client`limited, client`writes, client`withheld, store`sent
    ensures Fenced(client, store) && client.Advanced()
    ensures client.writes == old(client.writes) ==>
              && store.sent == old(store.sent)
              && (answer == Err(Crashed) || answer == Err(Persistence) || (answer == Err(Suppressed) && client.limited))
    ensures client.writes != old(client.writes) ==>
              && client.withheld == old(client.withheld)
              && store.sent == old(store.sent) + [Sent(d, additions + current, |old(client.writes)|)]
              && Ended(FateAt(d in client.world.remote, client.script(old(client.world.now))), answer)
    ensures Posted(old(client.writes), client, old(client.world.now), d, additions,
                   !client.script(old(client.world.now)).crash && !old(client.Gated()))
    ensures client.withheld == old(client.withheld)
                              + if !client.script(old(client.world.now)).crash && old(client.Gated()) then 1 else 0
    ensures client.withheld != old(client.withheld) ==> answer == Err(Persistence) || answer == Err(Suppressed)
    ensures WasRefused(answer) ==> FenceHolds(store.sent, client.writes, client.observed, store.superseded, None)
    ensures SoloAt(old(client.world), d, additions, current, bound) && Solo(client.script, old(client.world.now)) ==>
              && SoloState(client.world, d, store.intent, bound)
              && (WasRefused(answer) ==> SoloState(client.world, d, None, bound))
    ensures old(Smooth(client.world, d, client.script, client.limited)) ==>
              && answer.Ok? && answer.value.Some? && Smooth(client.world, d, client.script, client.limited)
              && answer.value.value == |client.world.remote[d]| - 1
              && Last(client.world.remote[d]) == additions + Last(old(client.world.remote)[d])
  {
    hide Smooth, Reliable, FenceHolds, SoloState, Solo, Warranted, FateAt, TurnedDown, TrueFates;
    ghost var start := client.world;
    HeldBackMeans(client.limited, client.script(start.now));
    answer := client.Add(d, additions);
    if SoloAt(start, d, additions, current, bound) && Solo(client.script, start.now) {
      SendKeepsSolo(start, d, client.script, additions, current, bound, client.world, WasRefused(answer));
    }
    if client.writes != old(client.writes) {
      FenceExtends(store.sent, old(client.writes), client.observed, store.superseded, d, additions,
                   additions + current, FateAt(d in client.world.remote, client.script(start.now)), start.now);
      store.sent := store.sent + [Sent(d, additions + current, |old(client.writes)|)];
    } else {
      FenceWaits(store.sent, client.writes, client.observed, store.superseded, store.intent);
    }
  }

  predicate WasRefused(answer: Result<Option<nat>, Error>) {
    answer.Err? && answer.error.Api? && answer.error.status < 500
  }

  /** If it `went` out, the addition is the last write, with the fate that its tick gives it. */
  ghost predicate Posted(before: seq<Write>, client: Client, at: nat, d: Destination, additions: seq<Uri>, went: bool)
    reads client
  {
    client.writes ==
    before + if went then [Post(d, additions, FateAt(d in client.world.remote, client.script(at)), at)] else []
  }

  ghost predicate SentAddition(before: seq<Write>, after: seq<Write>, d: Destination, additions: seq<Uri>) {
    exists fate, at :: after == before + [Post(d, additions, fate, at)]
  }

  lemma FenceWaits(sent: seq<Sent>, writes: seq<Write>, observed: set<Read>, superseded: set<Supersession>,
                   intent: Option<Intent>)
    requires FenceHolds(sent, writes, observed, superseded, None)
    ensures FenceHolds(sent, writes, observed, superseded, intent)
  {
  }

  /** The destination just before an addition: it holds `current`, and the intent is on disk. */
  ghost predicate SoloAt(w: World, d: Destination, additions: seq<Uri>, current: seq<Uri>, bound: nat) {
    && SoloState(w, d, Some(Intent(d, additions + current)), bound) && w.inflight == []
    && Last(w.remote[d]) == current
  }

  lemma SendKeepsSolo(w: World, d: Destination, script: Script, additions: seq<Uri>, current: seq<Uri>, bound: nat,
                      after: World, refused: bool)
    requires SoloAt(w, d, additions, current, bound) && Solo(script, w.now) && additions != []
    requires var before := Serve(w, d, script(w.now));
             || after == before
             || (!refused && d in before.remote && before.remote[d] != []
                 && (after == Added(before, d, additions)
                     || after == before.(inflight := before.inflight + [Addition(d, additions)])))
    ensures SoloState(after, d, Some(Intent(d, additions + current)), bound)
    ensures refused ==> SoloState(after, d, None, bound)
  {
    var before := Serve(w, d, script(w.now));
    assert w.remote[d] + script(w.now).edits == w.remote[d];
    assert before.remote[d] == w.remote[d] && before.inflight == [];
    ServeKeepsSolo(w, d, script(w.now), Some(Intent(d, additions + current)), bound);
    AddKeepsSolo(before, d, additions, current, bound, after);
  }

  /** Begin the intent, send the addition once, and settle what can be settled. */
  method Insert(client: Client, store: IntentStore, d: Destination, additions: seq<Uri>, current: seq<Uri>,
                stopping: bool, ghost bound: nat)
    returns (r: Result<PartialResult, Error>)
    requires Fenced(client, store) && store.intent == None
    requires additions != [] && |additions| + |current| <= bound <= MAX_ITEMS
    modifies client`world, client`limited, client`observed, client`writes, client`withheld, store
    ensures Fenced(client, store) && client.Advanced()
    ensures client.writes == old(client.writes)
            || (!stopping && SentAddition(old(client.writes), client.writes, d, additions))
    ensures var tick, begun := client.script(old(client.world.now)), store.faults(old(store.ops)).Works? && !stopping;
            && Posted(old(client.writes), client, old(client.world.now), d, additions,
                      begun && !tick.crash && !old(client.Gated()))
            && client.withheld == old(client.withheld) + if begun && !tick.crash && old(client.Gated()) then 1 else 0
    ensures r.Ok? ==>
              && store.intent == None && client.writes != old(client.writes)
              && AddedInFront(client, d, additions, current)
              && r.value == PartialResult(AddedItems, |additions|, Some(|additions| + |current|))
    ensures client.writes != old(client.writes) && Last(client.writes).fate == Refused ==>
              && r.Err?
              && (if r.error.Api? then r.error.status < 500 && store.intent == None
                  else store.intent == Some(Intent(d, additions + current)))
    ensures client.withheld != old(client.withheld) ==>
              && r.Err? && client.writes == old(client.writes) && !stopping
              && store.intent == Some(Intent(d, additions + current))
    ensures store.intent == None || store.intent == Some(Intent(d, additions + current))
    ensures store.superseded == old(store.superseded) && SentOn(old(store.sent), store.sent, d)
    ensures SoloAt(old(client.world), d, additions, current, bound) && Solo(client.script, old(client.world.now))
            && SoloState(old(client.world), d, None, bound) ==>
              SoloState(client.world, d, store.intent, bound)
    ensures old(Smooth(client.world, d, client.script, client.limited)) && old(Reliable(store.faults, store.ops))
            && Last(old(client.world.remote)[d]) == current && !stopping ==>
              r.Ok?
  {
    hide Smooth, Reliable, Resolved, FenceHolds, SoloState, Solo, Legit, StableRead, Until, SoloAt, Warranted,
         TrueFates, FateAt, AddedInFront, Posted;
    var expected := additions + current;
    NothingPosted(client, d, additions);
    FenceWaits(store.sent, client.writes, client.observed, store.superseded, Some(Intent(d, expected)));
    SoloWaits(client.world, d, additions, current, bound);
    var begun := store.Begin(d, expected);
    if begun.Fail? {
      return Err(begun.error);
    }
    if stopping {
      var withdrawn := store.Clear(expected);
      return Err(if withdrawn.Fail? then withdrawn.error else Reconciliation);
    }
    r := SendBegun(client, store, d, additions, current, bound);
  }

  lemma NothingPosted(client: Client, d: Destination, additions: seq<Uri>)
    ensures forall at :: Posted(client.writes, client, at, d, additions, false)
  {
    assert client.writes + [] == client.writes;
  }

  /** Send the addition whose intent has begun; a refusal withdraws the intent, and a lost answer does not. */
  method SendBegun(client: Client, store: IntentStore, d: Destination, additions: seq<Uri>, current: seq<Uri>,
                   ghost bound: nat)
    returns (r: Result<PartialResult, Error>)
    requires client.Valid() && AllWarranted(client.observed, store.superseded)
    requires store.intent == Some(Intent(d, additions + current))
    requires FenceHolds(store.sent, client.writes, client.observed, store.superseded, None)
    requires additions != [] && |additions| + |current| <= bound <= MAX_ITEMS
    modifies client`world, client`limited, client`observed, client`writes, client`withheld, store
    ensures Fenced(client, store) && client.Advanced()
    ensures client.writes == old(client.writes) || SentAddition(old(client.writes), client.writes, d, additions)
    ensures var tick := client.script(old(client.world.now));
            && Posted(old(client.writes), client, old(client.world.now), d, additions,
                      !tick.crash && !old(client.Gated()))
            && client.withheld == old(client.withheld) + if !tick.crash && old(client.Gated()) then 1 else 0
    ensures r.Ok? ==>
              && store.intent == None && client.writes != old(client.writes)
              && AddedInFront(client, d, additions, current)
              && r.value == PartialResult(AddedItems, |additions|, Some(|additions| + |current|))
    ensures client.writes != old(client.writes) && Last(client.writes).fate == Refused ==>
              && r.Err?
              && (if r.error.Api? then r.error.status < 500 && store.intent == None
                  else store.intent == old(store.intent))
    ensures client.withheld != old(client.withheld) ==>
              r.Err? && client.writes == old(client.writes) && store.intent == old(store.intent)
    ensures store.intent == None || store.intent == old(store.intent)
    ensures store.superseded == old(store.superseded) && SentOn(old(store.sent), store.sent, d)
    ensures SoloAt(old(client.world), d, additions, current, bound) && Solo(client.script, old(client.world.now)) ==>
              SoloState(client.world, d, store.intent, bound)
    ensures old(Smooth(client.world, d, client.script, client.limited)) && old(Reliable(store.faults, store.ops))
            && Last(old(client.world.remote)[d]) == current ==>
              r.Ok?
  {
    hide Smooth, Reliable, Resolved, FenceHolds, SoloState, Legit, StableRead, Until, SoloAt, Warranted, TrueFates;
    var expected := additions + current;
    var answer := Send(client, store, d, additions, current, bound);
    if answer == Err(Crashed) || answer == Err(Persistence) {
      return Err(answer.error);
    }
    if WasRefused(answer) {
      var withdrawn := store.Clear(expected);
      return Err(if withdrawn.Fail? then withdrawn.error else answer.error);
    }
    r := SettleSent(client, store, d, additions, current, answer, bound);
  }

  /** Nothing, or one addition to d, was logged. */
  ghost predicate SentOn(before: seq<Sent>, after: seq<Sent>, d: Destination) {
    after == before || (|after| == |before| + 1 && after[..|before|] == before && Last(after).destination == d)
  }

  lemma SoloWaits(w: World, d: Destination, additions: seq<Uri>, current: seq<Uri>, bound: nat)
    ensures SoloAt(w, d, additions, current, bound) ==> SoloState(w, d, Some(Intent(d, additions + current)), bound)
  {
  }

  /** An addition that was not refused: only an exact stable readback clears its intent. */
  method SettleSent(client: Client, store: IntentStore, d: Destination, additions: seq<Uri>, current: seq<Uri>,
                    answer: Result<Option<nat>, Error>, ghost bound: nat)
    returns (r: Result<PartialResult, Error>)
    requires Fenced(client, store) && store.intent == Some(Intent(d, additions + current))
    requires additions != [] && |additions| + |current| <= bound <= MAX_ITEMS
    requires if answer == Err(Suppressed) then client.limited else
               && client.writes != [] && Last(client.writes).Post?
               && Last(client.writes).destination == d && Last(client.writes).payload == additions
    modifies client`world, client`limited, client`observed, store`ops, store`intent
    ensures Fenced(client, store) && client.Advanced()
    ensures r.Ok? ==>
              && store.intent == None && AddedInFront(client, d, additions, current)
              && r.value == PartialResult(AddedItems, |additions|, Some(|additions| + |current|))
    ensures r.Err? ==> store.intent == old(store.intent)
    ensures answer == Err(Suppressed) ==> r.Err?
    ensures old(SoloState(client.world, d, store.intent, bound)) && Solo(client.script, old(client.world.now)) ==>
              SoloState(client.world, d, store.intent, bound)
    ensures old(Smooth(client.world, d, client.script, client.limited)) && old(Reliable(store.faults, store.ops))
            && answer == Ok(Some(|old(client.world.remote)[d]| - 1))
            && Last(old(client.world.remote)[d]) == additions + current ==>
              r.Ok?
  {
    hide Warranted, Smooth, Reliable, Resolved, FenceHolds, SoloState, Solo, Legit, Until, SawExactly, Exactly, Serve,
         ServeMany, Matches, TrueFates;
    var expected := additions + current;
    ghost var start := client.world;
    ghost var id: nat := 0;
    var confirmed := false;
    var failure := if answer.Err? then answer.error else Reconciliation;
    if answer.Err? {
      var seen := ConfirmExpected(client, d, expected);
      confirmed := seen == Ok(true);
      if seen.Err? {
        failure := seen.error;
      } else if confirmed {
        id :| StableRead(client, d, start.now, id, expected);
      }
    } else if answer.value.None? {
      return Err(Reconciliation);
    } else {
      var stable := StableDestination(client, d);
      confirmed := stable == Ok((answer.value.value, expected));
      if stable.Err? {
        failure := stable.error;
      } else if confirmed {
        id := stable.value.0;
      }
    }
    FenceGrows(store.sent, client.writes, old(client.observed), client.observed, store.superseded, store.intent);
    KeepSolo(client, d, start, store.intent, bound);
    if !confirmed {
      return Err(failure);
    }
    assert StableRead(client, d, start.now, id, expected);
    ReadReleases(client, store, d, start, expected, bound);
    var cleared := store.Clear(expected);
    if cleared.Fail? {
      return Err(cleared.error);
    }
    return Ok(PartialResult(AddedItems, |additions|, Some(|expected|)));
  }

  predicate ValidArguments(candidates: seq<Uri>, maxItems: int) {
    1 <= maxItems <= MAX_ITEMS && NoDuplicates(candidates) && forall u :: u in candidates ==> IsEpisodeUri(u)
  }

  /** At most one addition was sent, and one only where no intent was on disk. */
  ghost predicate OneAtMost(before: seq<Write>, after: seq<Write>, intent: Option<Intent>, d: Destination) {
    || after == before
    || (intent == None && exists additions :: additions != [] && SentAddition(before, after, d, additions))
  }

  /** What "added" reports: every missing candidate now stands in front of the content read before. */
  ghost predicate AddedAllMissing(client: Client, d: Destination, candidates: seq<Uri>, maxItems: int,
                                  result: PartialResult)
    reads client
  {
    exists current ::
      && AddedInFront(client, d, Missing(candidates, current), current)
      && |Missing(candidates, current)| + |current| <= maxItems
      && result == PartialResult(AddedItems, |Missing(candidates, current)|,
                                 Some(|Missing(candidates, current)| + |current|))
  }

  /**
   * `reconcile_partial_additions`. `guardOpen` is the mutation guard, held around everything that
   * follows the argument checks; `stopping` is what the check before the write says.
   */
  method ReconcilePartialAdditions(client: Client, store: IntentStore, d: Destination, candidates: seq<Uri>,
                                   maxItems: int, guardOpen: bool, stopping: bool, ghost bound: nat)
    returns (r: Result<PartialResult, Error>)
    requires Fenced(client, store) && bound <= MAX_ITEMS && (maxItems <= MAX_ITEMS ==> maxItems <= bound)
    modifies client`world, client`limited, client`observed, client`writes, client`withheld, store
    ensures Fenced(client, store) && client.Advanced()
    ensures !ValidArguments(candidates, maxItems) ==> r == Err(Invalid)
    ensures OneAtMost(old(client.writes), client.writes, old(store.intent), d)
    ensures !guardOpen || stopping ==> client.writes == old(client.writes) && client.withheld == old(client.withheld)
    ensures client.withheld != old(client.withheld) ==>
              client.writes == old(client.writes) && r.Err? && old(store.intent) == None && store.intent.Some?
    ensures store.superseded == old(store.superseded) && SentOn(old(store.sent), store.sent, d)
    ensures store.intent == None || store.intent == old(store.intent) || store.intent.value.destination == d
    ensures r.Ok? && r.value.status == StillPending ==> old(store.intent).Some? && store.intent == old(store.intent)
    ensures r.Ok? && r.value.status == Capacity ==>
              DoesNotFit(client, d, old(client.world.now), candidates, maxItems, r.value)
    ensures r.Ok? && r.value.status == Unchanged && candidates != [] ==>
              if old(store.intent).None? then
                NothingToAdd(client, d, old(client.world.now), candidates, r.value)
              else
                && store.intent == None
                && exists id :: StableRead(client, d, old(client.world.now), id, old(store.intent).value.expected)
    ensures r.Ok? && r.value.status == AddedItems ==>
              store.intent == None && AddedAllMissing(client, d, candidates, maxItems, r.value)
    ensures old(SoloState(client.world, d, store.intent, bound)) && Solo(client.script, old(client.world.now)) ==>
              SoloState(client.world, d, store.intent, bound)
    ensures old(Smooth(client.world, d, client.script, client.limited)) && old(Reliable(store.faults, store.ops))
            && old(store.intent) == None && ValidArguments(candidates, maxItems) && guardOpen && !stopping ==>
              r.Ok?
  {
    hide Smooth, Reliable, FenceHolds, SoloState, Legit, NoDuplicates, AddedAllMissing, Solo, StableRead;
    if !ValidArguments(candidates, maxItems) {
      return Err(Invalid);
    }
    if candidates == [] {
      return Ok(PartialResult(Unchanged, 0, None));
    }
    if !guardOpen {
      return Err(Reconciliation);
    }
    var pending :- store.Get();
    if pending.Some? {
      r := ResolveIntent(client, store, d, pending.value, bound);
    } else {
      r := AddMissing(client, store, d, candidates, maxItems, stopping, bound);
    }
  }

  /** The path without an intent: read the whole destination, then add what fits, all of it or nothing. */
  method AddMissing(client: Client, store: IntentStore, d: Destination, candidates: seq<Uri>, maxItems: nat,
                    stopping: bool, ghost bound: nat)
    returns (r: Result<PartialResult, Error>)
    requires Fenced(client, store) && store.intent == None && maxItems <= bound <= MAX_ITEMS
    requires ValidArguments(candidates, maxItems)
    modifies client`world, client`limited, client`observed, client`writes, client`withheld, store
    ensures Fenced(client, store) && client.Advanced()
    ensures OneAtMost(old(client.writes), client.writes, None, d)
    ensures stopping ==> client.writes == old(client.writes) && client.withheld == old(client.withheld)
    ensures client.withheld != old(client.withheld) ==>
              client.writes == old(client.writes) && r.Err? && store.intent.Some?
    ensures store.superseded == old(store.superseded) && SentOn(old(store.sent), store.sent, d)
    ensures store.intent == None || store.intent.value.destination == d
    ensures r.Ok? ==>
              match r.value.status
              case StillPending => false
              case AddedItems => store.intent == None && AddedAllMissing(client, d, candidates, maxItems, r.value)
              case Unchanged => NothingToAdd(client, d, old(client.world.now), candidates, r.value)
              case Capacity => DoesNotFit(client, d, old(client.world.now), candidates, maxItems, r.value)
    ensures SoloState(old(client.world), d, None, bound) && Solo(client.script, old(client.world.now)) ==>
              SoloState(client.world, d, store.intent, bound)
    ensures old(Smooth(client.world, d, client.script, client.limited)) && old(Reliable(store.faults, store.ops))
            && !stopping ==>
              r.Ok?
  {
    hide Smooth, Reliable, ServeMany, FenceHolds, SoloState, Legit, NoDuplicates, AddedInFront, StableRead, SoloAt,
         Missing;
    ghost var start := client.world;
    var stable := StableDestination(client, d);
    FenceGrows(store.sent, client.writes, old(client.observed), client.observed, store.superseded, store.intent);
    KeepSolo(client, d, start, None, bound);
    if stable.Err? {
      return Err(stable.error);
    }
    var current := stable.value.1;
    var additions := Missing(candidates, current);
    assert StableRead(client, d, start.now, stable.value.0, current);
    if |current| <= maxItems && additions == [] {
      return Ok(PartialResult(Unchanged, 0, Some(|current|)));
    }
    if |current| + |additions| > maxItems {
      return Ok(PartialResult(Capacity, 0, Some(|current|)));
    }
    StableIsContent(client, d, start.now, stable.value.0, current);
    ReadyToAdd(client, d, start.now, stable.value.0, candidates, current, bound);
    r := Insert(client, store, d, additions, current, stopping, bound);
    if r.Ok? {
      assert AddedInFront(client, d, Missing(candidates, current), current);
    }
  }

  ghost predicate NothingToAdd(client: Client, d: Destination, since: nat, candidates: seq<Uri>, result: PartialResult)
    reads client
  {
    exists id, current :: StableRead(client, d, since, id, current) && Missing(candidates, current) == []
                          && result == PartialResult(Unchanged, 0, Some(|current|))
  }

  ghost predicate DoesNotFit(client: Client, d: Destination, since: nat, candidates: seq<Uri>, maxItems: int,
                             result: PartialResult)
    reads client
  {
    exists id, current :: StableRead(client, d, since, id, current)
                          && |Missing(candidates, current)| + |current| > maxItems
                          && result == PartialResult(Capacity, 0, Some(|current|))
  }

  lemma StableIsContent(client: Client, d: Destination, since: nat, id: nat, uris: seq<Uri>)
    requires StableRead(client, d, since, id, uris) && |uris| <= MAX_ITEMS
    ensures d in client.world.remote && client.world.remote[d] != [] && Last(client.world.remote[d]) == uris
  {
  }

  lemma ReadyToAdd(client: Client, d: Destination, since: nat, id: nat, candidates: seq<Uri>, current: seq<Uri>,
                   bound: nat)
    requires StableRead(client, d, since, id, current) && |current| <= MAX_ITEMS && NoDuplicates(candidates)
    requires |Missing(candidates, current)| + |current| <= bound
    ensures SoloState(client.world, d, None, bound) ==>
              SoloAt(client.world, d, Missing(candidates, current), current, bound)
  {
    if SoloState(client.world, d, None, bound) {
      BeginKeepsSolo(client.world, d, candidates, bound);
    }
  }

  /** `clear_partial_add_intent`: called after a full reconciliation has seen to it that d shows the desired list. */
  method ClearIntent(client: Client, store: IntentStore, ghost d: Destination, ghost desired: seq<Uri>)
    returns (o: Outcome<Error>)
    requires Fenced(client, store) && Warranted(client.observed, Supersession(d, desired, |client.writes|))
    modifies store
    ensures Fenced(client, store) && store.sent == old(store.sent)
    ensures if o.Pass? then
              && store.intent == None
              && store.superseded == old(store.superseded) + {Supersession(d, desired, |client.writes|)}
            else store.intent == old(store.intent) && store.superseded == old(store.superseded)
    ensures o == Stored(store.faults(old(store.ops)))
  {
    hide TrueFates, FenceHolds, Legit, Warranted;
    store.ops := store.ops + 1;
    o := Stored(store.faults(store.ops - 1));
    if o.Fail? {
      return;
    }
    ghost var m := Supersession(d, desired, |client.writes|);
    FenceSuperseded(store.sent, client.writes, client.observed, store.superseded, store.intent, m);
    store.superseded := store.superseded + {m};
    store.intent := None;
  }

  lemma {:induction false} FenceSuperseded(sent: seq<Sent>, writes: seq<Write>, observed: set<Read>,
                                           superseded: set<Supersession>, intent: Option<Intent>, m: Supersession)
    requires FenceHolds(sent, writes, observed, superseded, intent) && m.at == |writes|
    ensures FenceHolds(sent, writes, observed, superseded + {m}, None)
  {
    forall i | 0 <= i < |sent|
      ensures Resolved(sent, writes, observed, superseded + {m}, i)
    {
      if i == |sent| - 1 {
        assert m in superseded + {m} && Until(sent, writes, i) == |writes|;
      } else {
        assert Resolved(sent, writes, observed, superseded, i);
      }
    }
  }
}
