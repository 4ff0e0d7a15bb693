/** Properties that the protocol does not have, each with a client and a store that show it. */
module Counterexamples {
  import opened Basics
  import opened Models
  import opened PlaylistReader
  import opened Reconciliation
  import opened SnapshotStore
  import opened SpotifyClient
  import PartialAdditions

  /** A request that meets nothing unusual, answered with an id that may be late. */
  function Plain(lag: nat): Tick {
    Tick([], false, false, Open, false, None, NoEffect, lag, false, false, (i: nat) => false)
  }

  /** Every id is one version late. */
  const LATE: Script := (k: nat) => Plain(1)

  /** The second request meets an edit, and the third is answered with a late id. */
  function Edited(k: nat): Tick {
    if k == 1 then Plain(0).(edits := [["new"]]) else Plain(if k == 2 then 1 else 0)
  }

  /** The second request is answered with HTTP 429. */
  function Throttled(k: nat): Tick {
    if k == 1 then Plain(0).(failure := Some(Api(429))) else Plain(0)
  }

  /** The third request is answered with HTTP 429, and the backoff that this starts cannot be saved. */
  function Unsavable(k: nat): Tick {
    if k == 2 then Plain(0).(failure := Some(Api(429)), unsaved := true) else Plain(0)
  }

  /** The same, and the first request takes effect, but its answer is lost. */
  function Lossy(k: nat): Tick {
    if k == 0 then Plain(0).(failure := Some(Transport), effect := Immediate) else Unsavable(k)
  }

  function Single(uri: Uri, at: Instant): Desired {
    Desired(at, [Item("feed", "episode", uri, None)])
  }

  lemma PlainRequest(w: World, d: Destination, script: Script)
    requires d in w.remote && script(w.now).edits == [] && !script(w.now).lands
    ensures Serve(w, d, script(w.now)) == w.(now := w.now + 1)
  {
    assert w.remote[d] + [] == w.remote[d];
  }

  /** The desired list is current, an older one attested, and the confirmation has expired. */
  method Expired() returns (client: Client, store: Store)
    ensures client.script == LATE && client.writes == [] && client.withheld == 0 && Truthful(client, store)
    ensures Undisturbed(client.world, "p", LATE, ["new"]) && NothingHidden(LATE, client.world.now)
    ensures ShortcutFires(client, store, "p", ["new"], 20) && fresh(client) && fresh(store)
  {
    client := new Client(LATE, World(0, map["p" := [["old"], ["new"]]], []));
    store := new Store((k: nat) => Works);
    store.attestation := Some(Attestation("p", 0, ["old"], 0));
    store.pending := Some(Pending("p", 0, 1, ["new"], 0, 10, false));
    PlainRequest(client.world, "p", LATE);
  }

  /**
   * The redundant write: the remote holds the desired list and nobody edits it, but the confirmation
   * has expired, the reported id is a version late, and that version is the attested one.
   */
  method LateIdDefeatsShortcut() returns (client: Client, ghost before: World)
    ensures Undisturbed(before, "p", client.script, ["new"]) && NothingHidden(client.script, before.now)
    ensures SentOnce([], client.writes, "p", ["new"])
  {
    hide ShortcutFires, ReadsAnother, Quiet, HonestResult, WriteRecorded, SettledRecorded, Moved, Kept, LookedFirst,
         ReadLater, Grew, ReadableNow, Serve, Smooth, Reliable, Fair, SentOnce, TurnedDown, TrueFates, Undisturbed,
         NothingHidden;
    var current := Single("new", 20);
    assert Uris(current.items) == ["new"];
    var store: Store;
    client, store := Expired();
    before := client.world;
    var evidence := new Evidence();
    var r := ReconcileItems(client, store, evidence, "p", current, None, true, true);
  }

  /** A bracket whose closing id may be late accepts an id whose version is not the list that was read. */
  method LateClosingIdBreaksBracket() returns (client: Client, r: Result<Option<nat>, Error>)
    ensures r == Ok(Some(0)) && !Attests(client.world.remote, "p", 0, FingerprintOf(["new"]))
  {
    client := new Client(Edited, World(0, map["p" := [["old"]]], []));
    var store := new Store((k: nat) => Works);
    var first := Serve(client.world, "p", Edited(0));
    var second := Serve(first, "p", Edited(1));
    PlainRequest(client.world, "p", Edited);
    assert second.remote["p"] == [["old"], ["new"]];
    PlainRequest(second, "p", Edited);
    assert BracketSees(client.world, "p", Edited, false, ["new"], false, 0);
    r := BracketedRead(client, store, "p", ["new"], true, false);
  }

  /** A list that is not there yet: one request to read it, one for a baseline, and the replacement. */
  method TryToWrite(script: Script) returns (client: Client, store: Store, evidence: Evidence)
    requires script(0) == Plain(0) && !Unsaved(false, script(1))
    ensures Truthful(client, store) && client.script == script
    ensures PutAttempted(client, 2, LimitedAfter(false, script(1)), [], 0, evidence.mutationOutcome)
    ensures client.writes != [] ==>
              SentOnce([], client.writes, "p", ["new"]) && evidence.mutationOutcome in {Unknown, Rejected}
    ensures evidence.mutationOutcome == Rejected && client.writes != [] ==>
              TurnedDown("p" in client.world.remote, script(Last(client.writes).at))
  {
    var current := Single("new", 20);
    client := new Client(script, World(0, map["p" := [["old"]]], []));
    store := new Store((k: nat) => Works);
    evidence := new Evidence();
    assert Uris(current.items) == ["new"];
    PlainRequest(client.world, "p", script);
    assert ReadsAnother(client, store, "p", ["new"]);
    hide ReadsAnother, Quiet, HonestResult, WriteRecorded, SettledRecorded, Moved, Kept, LookedFirst, ReadLater, Grew,
         ReadableNow, Serve, Smooth, ShortcutFires, Reliable, Fair, SentOnce, TurnedDown;
    var r := ReconcileItems(client, store, evidence, "p", current, None, true, false);
  }

  /**
   * A 429 on the snapshot request before the write is taken for a missing baseline. The write is then
   * held back: nothing was sent, and the outcome is UNKNOWN.
   */
  method SuppressedPutIsUnknown() returns (client: Client, evidence: Evidence)
    ensures client.writes == [] && client.withheld == 1 && evidence.mutationOutcome == Unknown
  {
    var store: Store;
    client, store, evidence := TryToWrite(Throttled);
  }

  /** A refused write is UNKNOWN as well where the backoff that its 429 starts cannot be saved. */
  method HiddenRefusalIsUnknown() returns (client: Client, evidence: Evidence)
    ensures client.writes == [Put("p", ["new"], RefusedSilently, 2)] && evidence.mutationOutcome == Unknown
  {
    var store: Store;
    client, store, evidence := TryToWrite(Unsavable);
    SentWrite(client, store, "p", ["new"]);
  }

  /** The one write that was sent has the fate of its tick. */
  lemma SentWrite(client: Client, store: Store, d: Destination, desired: seq<Uri>)
    requires Truthful(client, store) && |client.writes| == 1 && SentOnce([], client.writes, d, desired)
    ensures var at := client.writes[0].at;
            client.writes == [Put(d, desired, FateAt(d in client.world.remote, client.script(at)), at)]
  {
    hide FateAt;
    assert client.writes[0] in client.writes;
  }

  /**
   * The answer to a replacement is lost, a complete read then shows the desired list in every position, and
   * the optional attestation still turns that into a storage error.
   */
  method VerifiedWriteIsLost() returns (client: Client, r: Result<ItemsResult, Error>)
    ensures r == Err(Persistence) && SentOnce([], client.writes, "p", ["new"])
    ensures SawDesired(client, 0, |client.writes|, "p", ["new"])
  {
    client := new Client(Lossy, World(0, map["p" := [["old"]]], []));
    var store := new Store((k: nat) => Works);
    var evidence := new Evidence();
    ghost var after := AfterPut(client.world, "p", Lossy(0), ["new"]);
    PlainRequest(client.world, "p", Lossy);
    assert after.remote["p"] == [["old"], ["new"]];
    PlainRequest(after, "p", Lossy);
    assert ReadsDesired(after, "p", Lossy, false, ["new"]);
    r := ReplaceAndVerify(client, store, evidence, "p", ["new"], 20, None);
  }

  /** Backoff is active before each request. */
  function Closed(k: nat): Tick {
    Plain(0).(gate := Backoff)
  }

  /** An addition that is held back was never sent, and its intent stays as if its outcome were uncertain. */
  method HeldBackKeepsIntent() returns (client: Client, store: PartialAdditions.IntentStore)
    ensures client.writes == [] && client.withheld == 1
    ensures store.intent == Some(PartialAdditions.Intent("p", ["new"] + ["old"]))
  {
    client := new Client(Closed, World(0, map["p" := [["old"]]], []));
    store := new PartialAdditions.IntentStore((k: nat) => Works);
    assert PartialAdditions.Fenced(client, store) && client.Gated();
    hide PartialAdditions.FenceHolds, PartialAdditions.SoloState, PartialAdditions.Solo, TrueFates, Legit, Smooth, Grew,
         ReadLater, PartialAdditions.AddedInFront;
    var r := PartialAdditions.Insert(client, store, "p", ["new"], ["old"], false, 2);
  }
}
