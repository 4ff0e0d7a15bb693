/**
 * The provider as the client sees it, behind the rate-limit guard of spotify_backoff.py. Each
 * playlist is a history of versions; the snapshot id of a version is its place in the history, so
 * ids are unique. One request consumes one tick of a script that no contract constrains: other
 * editors publish, requests fail before or after they take effect, additions land late, snapshot
 * ids are reported late, positions are hidden, and rate-limit backoff holds requests back.
 */
module SpotifyClient {
  import opened Basics
  import opened Models
  import opened PlaylistReader

  type Version = seq<Uri>
  type Histories = map<Destination, seq<Version>>

  datatype Effect = NoEffect | Immediate | Delayed
  /** What the durable backoff journal says before a request: go, wait, or nothing that can be read. */
  datatype Gate = Open | Backoff | Unreadable
  datatype Tick = Tick(
    edits: seq<Version>,     // versions other editors publish before the request is served
    lands: bool,             // an addition still in flight is applied before the request is served
    crash: bool,             // the process dies before it sends a write
    gate: Gate,              // whether the request may be sent at all
    unsaved: bool,           // the backoff that a 429 starts cannot be saved
    failure: Option<Error>,  // the request fails with an HTTP status, or in transport
    effect: Effect,          // what a failed write nevertheless does; a status below 500 does nothing
    lag: nat,                // how many versions late an ordinary snapshot answer is
    malformed: bool,         // the answer carries no usable snapshot id
    same: bool,              // replacing a list by an equal one makes no new version
    hidden: nat -> bool)     // positions whose media the answer hides

  type Script = nat -> Tick

  datatype Addition = Addition(destination: Destination, uris: seq<Uri>)
  datatype World = World(now: nat, remote: Histories, inflight: seq<Addition>)

  ghost predicate Legit(w: World) {
    forall d :: d in w.remote ==> w.remote[d] != []
  }

  function Last<T>(s: seq<T>): T
    requires s != []
  {
    s[|s| - 1]
  }

  /** The snapshot id an answer names: up to `lag` versions late, unless it closes a bracket. */
  function ReportedId(history: seq<Version>, lag: nat, closing: bool): (id: nat)
    requires history != []
    ensures id < |history|
    ensures closing || lag == 0 ==> id == |history| - 1
  {
    if closing then |history| - 1 else if lag < |history| then |history| - 1 - lag else 0
  }

  ghost predicate Grew(a: Histories, b: Histories) {
    a.Keys == b.Keys && forall d :: d in a ==> a[d] <= b[d]
  }

  /** The world once the request addressed to d has been served, apart from its own effect. */
  function Serve(w: World, d: Destination, tick: Tick): World {
    if d !in w.remote then w.(now := w.now + 1)
    else
      var edited := w.remote[d] + tick.edits;
      if tick.lands && w.inflight != [] && w.inflight[0].destination == d && edited != [] then
        World(w.now + 1, w.remote[d := edited + [w.inflight[0].uris + Last(edited)]], w.inflight[1..])
      else
        World(w.now + 1, w.remote[d := edited], w.inflight)
  }

  function ServeMany(w: World, d: Destination, script: Script, n: nat): (after: World)
    ensures after.now == w.now + n
    decreases n
  {
    if n == 0 then w
    else
      var before := ServeMany(w, d, script, n - 1);
      Serve(before, d, script(before.now))
  }

  lemma {:induction false} ServeManyAdds(w: World, d: Destination, script: Script, m: nat, n: nat)
    ensures ServeMany(ServeMany(w, d, script, m), d, script, n) == ServeMany(w, d, script, m + n)
    decreases n
  {
    if n > 0 {
      ServeManyAdds(w, d, script, m, n - 1);
    }
  }

  lemma ServeGrows(w: World, d: Destination, tick: Tick)
    requires Legit(w)
    ensures Legit(Serve(w, d, tick)) && Grew(w.remote, Serve(w, d, tick).remote)
    ensures Serve(w, d, tick).remote.Keys == w.remote.Keys
  {
  }

  lemma GrewTransitive(a: Histories, b: Histories, c: Histories)
    requires Grew(a, b) && Grew(b, c)
    ensures Grew(a, c)
  {
  }

  lemma {:induction false} ServeManyGrows(w: World, d: Destination, script: Script, m: nat, n: nat)
    requires Legit(w) && m <= n
    ensures Legit(ServeMany(w, d, script, n))
    ensures Grew(ServeMany(w, d, script, m).remote, ServeMany(w, d, script, n).remote)
    ensures ServeMany(w, d, script, n).remote.Keys == w.remote.Keys
    decreases n
  {
    hide Serve, Legit, Grew;
    if m < n {
      ServeManyGrows(w, d, script, m, n - 1);
    } else if n > 0 {
      ServeManyGrows(w, d, script, n - 1, n - 1);
    }
    GrewItself(ServeMany(w, d, script, m).remote);
    if n > 0 {
      var before := ServeMany(w, d, script, n - 1);
      ServeGrows(before, d, script(before.now));
      if m < n {
        GrewTransitive(ServeMany(w, d, script, m).remote, before.remote, ServeMany(w, d, script, n).remote);
      }
    }
  }

  lemma GrewItself(a: Histories)
    ensures Grew(a, a)
  {
  }

  /** Other editors leave d as it is from tick `from` on, but may publish it again unchanged. */
  ghost predicate Undisturbed(w: World, d: Destination, script: Script, content: Version) {
    && d in w.remote && w.remote[d] != [] && Last(w.remote[d]) == content && w.inflight == []
    && forall k, e :: k >= w.now && e in script(k).edits ==> e == content
  }

  lemma {:induction false} ServeManyUndisturbed(w: World, d: Destination, script: Script, n: nat, content: Version)
    requires Undisturbed(w, d, script, content)
    ensures Undisturbed(ServeMany(w, d, script, n), d, script, content)
    decreases n
  {
    if n > 0 {
      ServeManyUndisturbed(w, d, script, n - 1, content);
      var before := ServeMany(w, d, script, n - 1);
      var edits := script(before.now).edits;
      if edits != [] {
        assert Last(edits) in edits;
      }
    }
  }

  /** Between these two ticks nobody else publishes anything at all. */
  ghost predicate Still(script: Script, from: nat, to: nat) {
    forall k :: from <= k < to ==> script(k).edits == []
  }

  lemma {:induction false} ServeManyStill(w: World, d: Destination, script: Script, n: nat)
    requires w.inflight == [] && Still(script, w.now, w.now + n)
    ensures ServeMany(w, d, script, n).inflight == [] && ServeMany(w, d, script, n).remote == w.remote
    decreases n
  {
    if n > 0 {
      ServeManyStill(w, d, script, n - 1);
      assert script(w.now + n - 1).edits == [];
      assert d in w.remote ==> w.remote[d] + [] == w.remote[d];
    }
  }

  ghost predicate CalmBetween(before: World, after: World, d: Destination, script: Script) {
    forall c :: Undisturbed(before, d, script, c) ==> Undisturbed(after, d, script, c)
  }

  lemma ServingIsCalm(w: World, d: Destination, script: Script, n: nat)
    ensures CalmBetween(w, ServeMany(w, d, script, n), d, script)
  {
    forall c | Undisturbed(w, d, script, c)
      ensures Undisturbed(ServeMany(w, d, script, n), d, script, c)
    {
      ServeManyUndisturbed(w, d, script, n, c);
    }
  }

  lemma ServingOnce(w: World, d: Destination, script: Script)
    requires Legit(w)
    ensures var after := Serve(w, d, script(w.now));
            after == ServeMany(w, d, script, 1) && after.now == w.now + 1
            && Legit(after) && Grew(w.remote, after.remote) && after.remote.Keys == w.remote.Keys
            && CalmBetween(w, after, d, script)
  {
    ServeManyGrows(w, d, script, 0, 1);
    ServingIsCalm(w, d, script, 1);
    assert ServeMany(w, d, script, 0) == w;
    assert ServeMany(w, d, script, 1) == Serve(w, d, script(w.now));
  }

  /** The version tick k's request for items is answered from, in a read that began in world w. */
  function ContentAt(w: World, d: Destination, script: Script, k: nat): Version {
    if k < w.now then []
    else
      var served := ServeMany(w, d, script, k - w.now + 1);
      if d in served.remote && served.remote[d] != [] then Last(served.remote[d]) else []
  }

  function Contents(w: World, d: Destination, script: Script): nat -> Version {
    (k: nat) => ContentAt(w, d, script, k)
  }

  function HiddenBy(script: Script): nat -> nat -> bool {
    (k: nat) => script(k).hidden
  }

  /** Rate-limit backoff keeps the request from being sent. */
  predicate GateClosed(limited: bool, tick: Tick) {
    limited || tick.gate != Open
  }

  /** What a request that is held back raises. */
  function HeldBack(limited: bool, tick: Tick): Error {
    if limited || tick.gate.Backoff? then Suppressed else Persistence
  }

  /** What a failed request raises; a 429 whose backoff cannot be saved is hidden by that failure. */
  function Raised(failure: Error, unsaved: bool): Error {
    if failure == Api(429) && unsaved then Persistence else if failure.Api? then failure else Transport
  }

  /** The guard remembers an active backoff for the rest of its cycle. */
  function LimitedAfter(limited: bool, tick: Tick): bool {
    || limited
    || tick.gate.Backoff?
    || (tick.gate.Open? && tick.failure == Some(Api(429)) && !tick.unsaved)
  }

  /** The request fails only because the backoff state cannot be read or saved. */
  predicate Unsaved(limited: bool, tick: Tick) {
    && !limited
    && (tick.gate.Unreadable? || (tick.gate.Open? && tick.failure == Some(Api(429)) && tick.unsaved))
  }

  function HistoryOf(w: World, d: Destination): Option<seq<Version>> {
    if d in w.remote && w.remote[d] != [] then Some(w.remote[d]) else None
  }

  function SnapshotAnswer(limited: bool, tick: Tick, history: Option<seq<Version>>, closing: bool): Result<nat, Error>
    requires history.Some? ==> history.value != []
  {
    if GateClosed(limited, tick) then Err(HeldBack(limited, tick))
    else if tick.failure.Some? then Err(Raised(tick.failure.value, tick.unsaved))
    else if history.None? then Err(Api(404))
    else if tick.malformed then Err(Reconciliation)
    else Ok(ReportedId(history.value, tick.lag, closing))
  }

  lemma AnswerMeans(limited: bool, tick: Tick, history: Option<seq<Version>>, closing: bool)
    requires history.Some? ==> history.value != []
    ensures var answer := SnapshotAnswer(limited, tick, history, closing);
            answer.Ok? ==>
              && !limited && !LimitedAfter(limited, tick) && history.Some? && answer.value < |history.value|
              && (closing || tick.lag == 0 ==> answer.value == |history.value| - 1)
    ensures SnapshotAnswer(limited, tick, history, closing) == Err(Persistence) <==> Unsaved(limited, tick)
  {
  }

  lemma StaysCalm(a: World, b: World, d: Destination, script: Script, content: Version)
    requires CalmBetween(a, b, d, script)
    ensures Undisturbed(a, d, script, content) ==> Undisturbed(b, d, script, content)
  {
  }

  lemma GrewKeeps(a: Histories, b: Histories, d: Destination)
    requires Grew(a, b)
    ensures (d in a <==> d in b) && (d in a ==> a[d] <= b[d])
  {
  }

  lemma Composed(a: World, b: World, c: World, d: Destination, script: Script)
    ensures Grew(a.remote, b.remote) && Grew(b.remote, c.remote) ==> Grew(a.remote, c.remote)
    ensures CalmBetween(a, b, d, script) && CalmBetween(b, c, d, script) ==> CalmBetween(a, c, d, script)
  {
  }

  function ItemsServer(w: World, d: Destination, script: Script, limited: bool): (server: Server)
    ensures Honest(server, Contents(w, d, script), HiddenBy(script))
  {
    (k: nat, limit: nat, offset: nat) =>
      if GateClosed(limited, script(k)) || script(k).failure.Some? then Failed
      else PageOf(ContentAt(w, d, script, k), script(k).hidden, limit, offset)
  }

  /** The slots show a version that was current at some time since w. */
  ghost predicate SeenSince(slots: seq<Slot>, d: Destination, before: World, after: World) {
    && d in before.remote && d in after.remote
    && exists v :: |before.remote[d]| - 1 <= v < |after.remote[d]| && v >= 0 && Matches(slots, after.remote[d][v])
  }

  /** The version a request is answered from lies between the first one and the last. */
  lemma {:induction false} ContentIsAVersion(w: World, d: Destination, script: Script, calls: nat, k: nat)
    requires Legit(w) && d in w.remote && w.now <= k < w.now + calls
    ensures var after := ServeMany(w, d, script, calls);
            && Legit(after) && d in after.remote && w.remote[d] <= after.remote[d]
            && exists v: nat :: |w.remote[d]| - 1 <= v < |after.remote[d]|
                                && Contents(w, d, script)(k) == after.remote[d][v]
  {
    hide Serve;
    var n := k - w.now + 1;
    ServeManyGrows(w, d, script, 0, n);
    ServeManyGrows(w, d, script, n, calls);
    assert ServeMany(w, d, script, 0) == w;
    var between := ServeMany(w, d, script, n);
    assert d in between.remote && w.remote[d] <= between.remote[d];
    var v := |between.remote[d]| - 1;
    assert ContentAt(w, d, script, k) == between.remote[d][v];
    assert between.remote[d] <= ServeMany(w, d, script, calls).remote[d];
  }

  lemma ReadSawVersions(w: World, d: Destination, script: Script, calls: nat, slots: seq<Slot>)
    requires Legit(w) && d in w.remote && calls > 0
    requires Observed(slots, Contents(w, d, script), HiddenBy(script), w.now, calls)
    ensures var after := ServeMany(w, d, script, calls);
            && Legit(after) && d in after.remote
            && (after.remote[d] == w.remote[d] ==> Matches(slots, Last(w.remote[d])))
            && (|slots| <= PAGE_SIZE ==> SeenSince(slots, d, w, after))
  {
    hide ServeMany, Contents, Observed, Serve;
    var contents, after := Contents(w, d, script), ServeMany(w, d, script, calls);
    ContentIsAVersion(w, d, script, calls, w.now);
    forall k | w.now <= k < w.now + calls
      ensures exists v: nat :: |w.remote[d]| - 1 <= v < |after.remote[d]| && contents(k) == after.remote[d][v]
    {
      ContentIsAVersion(w, d, script, calls, k);
    }
    if after.remote[d] == w.remote[d] {
      StableReadIsOneVersion(slots, contents, HiddenBy(script), w.now, calls, Last(w.remote[d]));
    }
    if |slots| <= PAGE_SIZE {
      OnePageIsOneVersion(slots, contents, HiddenBy(script), w.now, calls);
    }
  }

  ghost predicate NothingHidden(script: Script, from: nat) {
    forall k, i :: k >= from ==> !script(k).hidden(i)
  }

  lemma QuietRead(w: World, d: Destination, script: Script, calls: nat, slots: seq<Slot>, content: Version)
    requires Legit(w) && calls > 0 && Observed(slots, Contents(w, d, script), HiddenBy(script), w.now, calls)
    requires Undisturbed(w, d, script, content)
    ensures Matches(slots, content)
    ensures NothingHidden(script, w.now) && |content| <= MAX_ITEMS ==> Exactly(slots, content)
  {
    forall k | w.now <= k < w.now + calls
      ensures Contents(w, d, script)(k) == content
    {
      ServeManyUndisturbed(w, d, script, k - w.now + 1, content);
    }
    StableReadIsOneVersion(slots, Contents(w, d, script), HiddenBy(script), w.now, calls, content);
  }

  /**
   * Two equal snapshot ids around a complete read. The opening id may be as late as it likes; only
   * the closing one has to be current for the read to have seen one single version.
   */
  lemma BracketIsOneVersion(before: World, between: World, after: World, d: Destination, id: nat, slots: seq<Slot>)
    requires d in before.remote && id < |before.remote[d]|
    requires Grew(before.remote, between.remote) && Grew(between.remote, after.remote)
    requires id == |after.remote[d]| - 1
    requires before.remote[d] == between.remote[d] ==> Matches(slots, Last(between.remote[d]))
    ensures after.remote[d] == before.remote[d] && Matches(slots, Last(after.remote[d]))
  {
  }

  /** The current content fits into one page, and this tick's request for it is answered in full view. */
  ghost predicate ReadableNow(w: World, d: Destination, script: Script, limited: bool) {
    var tick := script(w.now);
    && d in Serve(w, d, tick).remote && Serve(w, d, tick).remote[d] != []
    && |Last(Serve(w, d, tick).remote[d])| < PAGE_SIZE
    && !GateClosed(limited, tick) && tick.failure.None?
    && InFullView(tick.hidden, PAGE_SIZE)
  }

  lemma ReadableIsOnePage(w: World, d: Destination, script: Script, limited: bool)
    requires ReadableNow(w, d, script, limited)
    ensures OnePage(ItemsServer(w, d, script, limited), w.now, Last(Serve(w, d, script(w.now)).remote[d]))
  {
    var content := Last(Serve(w, d, script(w.now)).remote[d]);
    assert ServeMany(w, d, script, 0) == w;
    assert ServeMany(w, d, script, 1) == Serve(w, d, script(w.now));
    assert ContentAt(w, d, script, w.now) == content;
    assert ItemsServer(w, d, script, limited)(w.now, PAGE_SIZE, 0)
        == PageOf(content, script(w.now).hidden, PAGE_SIZE, 0);
    assert InFullView(script(w.now).hidden, |content|);
  }

  lemma HeldBackIsSilent(w: World, d: Destination, script: Script, limited: bool, k: nat)
    ensures GateClosed(limited, script(k)) || script(k).failure.Some? ==>
              Silent(ItemsServer(w, d, script, limited), k)
  {
  }

  lemma OnePageIsExact(w: World, d: Destination, script: Script, limited: bool, slots: seq<Slot>)
    requires ReadableNow(w, d, script, limited)
    requires Observed(slots, Contents(w, d, script), HiddenBy(script), w.now, 1)
    ensures Exactly(slots, Last(Serve(w, d, script(w.now)).remote[d]))
  {
    var content := Last(Serve(w, d, script(w.now)).remote[d]);
    assert ServeMany(w, d, script, 0) == w;
    assert ServeMany(w, d, script, 1) == Serve(w, d, script(w.now));
    assert Contents(w, d, script)(w.now) == content;
    forall i | 0 <= i < |slots| ensures slots[i] == Some(content[i]) {
      assert i / PAGE_SIZE == 0 && !script(w.now).hidden(i);
    }
  }

  /** A request that meets nothing unusual. */
  ghost predicate Untroubled(tick: Tick) {
    && tick.edits == [] && !tick.crash && tick.gate.Open? && tick.failure.None? && tick.lag == 0 && !tick.malformed
    && forall i :: !tick.hidden(i)
  }

  /** From now on nothing goes wrong, and nobody else publishes anything. */
  ghost predicate Smooth(w: World, d: Destination, script: Script, limited: bool) {
    && !limited && w.inflight == [] && d in w.remote && w.remote[d] != []
    && forall k :: k >= w.now ==> Untroubled(script(k))
  }

  lemma {:induction false} SmoothServes(w: World, d: Destination, script: Script, n: nat)
    requires Smooth(w, d, script, false)
    ensures ServeMany(w, d, script, n) == w.(now := w.now + n)
    ensures Smooth(ServeMany(w, d, script, n), d, script, false)
    decreases n
  {
    if n > 0 {
      SmoothServes(w, d, script, n - 1);
      assert Untroubled(script(w.now + n - 1));
      assert w.remote[d] + [] == w.remote[d];
    }
  }

  lemma SmoothFacts(w: World, d: Destination, script: Script, limited: bool)
    ensures Smooth(w, d, script, limited) ==> !limited && d in w.remote && w.remote[d] != []
  {
  }

  lemma SmoothWrite(w: World, d: Destination, script: Script, payload: seq<Uri>)
    requires Legit(w)
    ensures Smooth(w, d, script, false) ==>
              var after := Serve(w, d, script(w.now));
              && d in after.remote && Smooth(after, d, script, false)
              && Smooth(after.(remote := after.remote[d := after.remote[d] + [payload]]), d, script, false)
  {
    if Smooth(w, d, script, false) {
      SmoothServes(w, d, script, 1);
      assert ServeMany(w, d, script, 0) == w;
      assert ServeMany(w, d, script, 1) == Serve(w, d, script(w.now));
    }
  }

  lemma SmoothSnapshot(w: World, d: Destination, script: Script, limited: bool, closing: bool)
    ensures Smooth(w, d, script, limited) ==>
              var after := Serve(w, d, script(w.now));
              && Smooth(after, d, script, LimitedAfter(limited, script(w.now))) && after.remote == w.remote
              && SnapshotAnswer(limited, script(w.now), HistoryOf(after, d), closing) == Ok(|w.remote[d]| - 1)
  {
    if Smooth(w, d, script, limited) {
      SmoothServes(w, d, script, 1);
      assert ServeMany(w, d, script, 0) == w;
      assert ServeMany(w, d, script, 1) == Serve(w, d, script(w.now));
    }
  }

  lemma SmoothIsSteady(w: World, d: Destination, script: Script)
    requires Smooth(w, d, script, false)
    ensures Steady(ItemsServer(w, d, script, false), w.now, Last(w.remote[d]))
  {
    hide PageOf, Serve, ServeMany;
    var content := Last(w.remote[d]);
    forall k: nat, limit: nat, offset: nat | k >= w.now
      ensures IsPageOf(ItemsServer(w, d, script, false)(k, limit, offset), content, limit, offset)
    {
      SmoothServes(w, d, script, k - w.now + 1);
      assert ContentAt(w, d, script, k) == content;
      assert Untroubled(script(k));
      assert InFullView(script(k).hidden, |content|);
    }
  }

  /** What a read sees then: all of the content, up to one item more than it may have. */
  lemma SmoothRead(w: World, d: Destination, script: Script, calls: nat, slots: seq<Slot>)
    requires Smooth(w, d, script, false) && calls > 0
    requires Observed(slots, Contents(w, d, script), HiddenBy(script), w.now, calls)
    ensures AllVisible(slots) && Matches(slots, Last(w.remote[d]))
  {
    hide ServeMany;
    forall k | w.now <= k < w.now + calls
      ensures Contents(w, d, script)(k) == Last(w.remote[d])
    {
      SmoothServes(w, d, script, k - w.now + 1);
    }
    StableReadIsOneVersion(slots, Contents(w, d, script), HiddenBy(script), w.now, calls, Last(w.remote[d]));
    forall i | 0 <= i < |slots| ensures slots[i].Some? {
      assert Untroubled(script(w.now + i / PAGE_SIZE));
    }
  }

  lemma SmoothReadEnds(w: World, d: Destination, script: Script, limited: bool, calls: nat, slots: seq<Slot>)
    requires Smooth(w, d, script, limited) && calls > 0
    requires Observed(slots, Contents(w, d, script), HiddenBy(script), w.now, calls)
    ensures var after := ServeMany(w, d, script, calls);
            && Smooth(after, d, script, LimitedAfter(limited, script(w.now + calls - 1)))
            && after.remote == w.remote
            && AllVisible(slots) && Matches(slots, Last(w.remote[d]))
  {
    hide ServeMany, Observed, AllVisible, Matches;
    SmoothRead(w, d, script, calls, slots);
    SmoothServes(w, d, script, calls);
    assert Untroubled(script(w.now + calls - 1));
  }

  /** What a read that succeeded saw, with the other editors at work or without. */
  lemma ReadSaw(w: World, d: Destination, script: Script, calls: nat, slots: seq<Slot>)
    requires Legit(w) && d in w.remote && calls > 0
    requires Observed(slots, Contents(w, d, script), HiddenBy(script), w.now, calls)
    ensures var after := ServeMany(w, d, script, calls);
            && Legit(after) && d in after.remote
            && (after.remote[d] == w.remote[d] ==> Matches(slots, Last(w.remote[d])))
            && (|slots| <= PAGE_SIZE ==> SeenSince(slots, d, w, after))
    ensures forall c :: Undisturbed(w, d, script, c) ==> Matches(slots, c)
    ensures NothingHidden(script, w.now) ==>
              forall c :: Undisturbed(w, d, script, c) ==> |c| <= MAX_ITEMS ==> Exactly(slots, c)
  {
    hide *;
    ReadSawVersions(w, d, script, calls, slots);
    forall c | Undisturbed(w, d, script, c)
      ensures Matches(slots, c)
      ensures NothingHidden(script, w.now) && |c| <= MAX_ITEMS ==> Exactly(slots, c)
    {
      QuietRead(w, d, script, calls, slots, c);
    }
  }

  /** How a write that was sent ended; a 429 whose backoff could not be saved is refused, but raises that failure. */
  datatype Fate = Answered | Refused | RefusedSilently | Uncertain
  /** A write that was sent, and the tick it was sent at. */
  datatype Write = Put(destination: Destination, payload: seq<Uri>, fate: Fate, at: nat)
                 | Post(destination: Destination, payload: seq<Uri>, fate: Fate, at: nat)

  /**
   * A write that is sent at this tick is refused, and its sender is told so: an unknown destination, or a
   * status below 500, unless it is a 429 and the backoff that it starts cannot be saved.
   */
  predicate TurnedDown(known: bool, tick: Tick) {
    match tick.failure
    case None => !known
    case Some(Api(status)) => status < 500 && !(status == 429 && tick.unsaved)
    case _ => false
  }

  /** The fate of a write that is sent at this tick, to a destination that exists or does not. */
  function FateAt(known: bool, tick: Tick): (fate: Fate)
    ensures fate == Refused <==> TurnedDown(known, tick)
    ensures fate == RefusedSilently <==> tick.failure == Some(Api(429)) && tick.unsaved
  {
    match tick.failure
    case None => if known then Answered else Refused
    case Some(Api(status)) =>
      if status == 429 && tick.unsaved then RefusedSilently else if status < 500 then Refused else Uncertain
    case _ => Uncertain
  }

  /** Each write has the fate that its tick gives it. */
  ghost predicate TrueFates(writes: seq<Write>, known: set<Destination>, script: Script, now: nat) {
    forall w :: w in writes ==> w.at < now && w.fate == FateAt(w.destination in known, script(w.at))
  }

  lemma FatesLater(writes: seq<Write>, known: set<Destination>, script: Script, now: nat, later: nat)
    requires now <= later
    ensures TrueFates(writes, known, script, now) ==> TrueFates(writes, known, script, later)
  {
    hide FateAt;
  }

  lemma FatesExtend(writes: seq<Write>, write: Write, known: set<Destination>, script: Script, now: nat)
    requires TrueFates(writes, known, script, now) && write.at == now
    requires write.fate == FateAt(write.destination in known, script(now))
    ensures TrueFates(writes + [write], known, script, now + 1)
  {
    hide FateAt;
    FatesLater(writes, known, script, now, now + 1);
  }

  /** A complete read, the tick it ended at, and how many writes the client had sent by then. */
  datatype Read = Read(destination: Destination, slots: seq<Slot>, at: nat, writes: nat)

  /** No read is forgotten, and what was read since is newer. */
  ghost predicate ReadLater(before: set<Read>, after: set<Read>, now: nat) {
    && before <= after
    && forall r :: r in after && r !in before ==> r.at > now
  }

  lemma ReadEvenLater(a: set<Read>, b: set<Read>, c: set<Read>, now: nat, later: nat)
    requires now <= later
    ensures ReadLater(a, b, now) && ReadLater(b, c, later) ==> ReadLater(a, c, now)
  {
  }

  lemma ReadSince(a: set<Read>, b: set<Read>, now: nat, later: nat)
    requires now <= later
    ensures ReadLater(a, b, later) ==> ReadLater(a, b, now)
  {
  }

  class Client {
    const script: Script
    var world: World
    /** The guard has seen an active backoff in this cycle. */
    var limited: bool
    ghost var writes: seq<Write>
    /** How many writes were asked for and never sent, because backoff held them back. */
    ghost var withheld: nat
    ghost var observed: set<Read>

    constructor (script: Script, world: World)
      ensures this.script == script && this.world == world && !limited
      ensures writes == [] && withheld == 0 && observed == {}
    {
      this.script, this.world, limited := script, world, false;
      writes, withheld, observed := [], 0, {};
    }

    ghost predicate Valid()
      reads this
    {
      && Legit(world) && TrueFates(writes, world.remote.Keys, script, world.now)
      && forall r :: r in observed ==> r.at <= world.now && r.writes <= |writes|
    }

    /** Later than before: nothing is unpublished, no write or read is forgotten. */
    twostate predicate Advanced()
      reads this
    {
      && old(world.now) <= world.now
      && Grew(old(world.remote), world.remote)
      && old(writes) <= writes && old(withheld) <= withheld
      && ReadLater(old(observed), observed, old(world.now))
    }

    /** If nobody but us publishes anything new on d, nothing new is on d. */
    twostate predicate Calm(d: Destination)
      reads this
    {
      CalmBetween(old(world), world, d, script)
    }

    /** The next request would be held back. */
    ghost predicate Gated()
      reads this`world, this`limited
    {
      GateClosed(limited, script(world.now))
    }

    /** A new cycle wraps its client in a new guard; what the journal still says is the tick's affair. */
    method NewCycle()
      modifies this`limited
      ensures !limited
    {
      limited := false;
    }

    /** Time passes between two cycles; others may edit d. */
    method Idle(d: Destination, ticks: nat)
      requires Valid()
      modifies this`world
      ensures Valid() && Advanced() && Calm(d)
      ensures world == ServeMany(old(world), d, script, ticks)
    {
      ServeManyGrows(world, d, script, 0, ticks);
      ServingIsCalm(world, d, script, ticks);
      FatesLater(writes, world.remote.Keys, script, world.now, world.now + ticks);
      assert ServeMany(world, d, script, 0) == world;
      world := ServeMany(world, d, script, ticks);
    }

    /**
     * `_read_current_snapshot`. An ordinary answer may name any version up to `lag` back; the
     * closing read of a bracket is assumed to name the current one.
     */
    method Snapshot(d: Destination, closing: bool) returns (r: Result<nat, Error>)
      requires Valid()
      modifies this`world, this`limited
      ensures Valid() && Advanced() && Calm(d)
      ensures world == Serve(old(world), d, script(old(world.now))) && world.now == old(world.now) + 1
      ensures r == SnapshotAnswer(old(limited), script(old(world.now)), HistoryOf(world, d), closing)
      ensures limited == LimitedAfter(old(limited), script(old(world.now)))
      ensures r.Ok? ==> d in world.remote && r.value < |world.remote[d]|
      ensures old(Smooth(world, d, script, limited)) ==>
                && r.Ok? && Smooth(world, d, script, limited) && world.remote == old(world.remote)
                && r.value == |world.remote[d]| - 1
    {
      hide Smooth, TrueFates;
      var tick := script(world.now);
      ServingOnce(world, d, script);
      FatesLater(writes, world.remote.Keys, script, world.now, world.now + 1);
      SmoothSnapshot(world, d, script, limited, closing);
      world := Serve(world, d, tick);
      r := SnapshotAnswer(limited, tick, HistoryOf(world, d), closing);
      limited := LimitedAfter(limited, tick);
    }

    /** `_read_spotify_playlist`, each request at its own tick; the first that fails ends it. */
    method ReadItems(d: Destination, allowUnavailable: bool) returns (r: Result<seq<Slot>, Error>)
      requires Valid()
      modifies this`world, this`limited, this`observed
      ensures Valid() && Advanced() && Calm(d)
      ensures world == ServeMany(old(world), d, script, world.now - old(world.now))
      ensures old(world.now) < world.now && (old(limited) ==> limited && r.Err?)
      ensures limited == LimitedAfter(old(limited), script(world.now - 1))
      ensures r.Err? ==> (r.error.Reconciliation? || r.error.Persistence?) && observed == old(observed)
      ensures r == Err(Persistence) <==> Unsaved(old(limited), script(world.now - 1))
      ensures r.Ok? ==>
                && d in old(world.remote) && !limited
                && Read(d, r.value, world.now, |writes|) in observed
                && (!allowUnavailable ==> AllVisible(r.value))
                && (old(world.remote[d]) == world.remote[d] ==> Matches(r.value, Last(world.remote[d])))
                && (|r.value| <= PAGE_SIZE ==> SeenSince(r.value, d, old(world), world))
                && (forall c :: Undisturbed(old(world), d, script, c) ==> Matches(r.value, c))
                && (NothingHidden(script, old(world.now)) ==>
                      forall c :: Undisturbed(old(world), d, script, c) ==> |c| <= MAX_ITEMS ==> Exactly(r.value, c))
      ensures old(ReadableNow(world, d, script, limited)) ==>
                && r.Ok? && world == Serve(old(world), d, script(old(world.now))) && world.now == old(world.now) + 1
                && Exactly(r.value, Last(world.remote[d]))
      ensures old(Smooth(world, d, script, limited)) ==>
                && r.Ok? && Smooth(world, d, script, limited) && world.remote == old(world.remote)
                && AllVisible(r.value) && Matches(r.value, Last(world.remote[d]))
    {
      hide Undisturbed, Serve, Matches, Exactly, Observed, NothingHidden, SeenSince, Legit, Grew, CalmBetween,
           ReadableNow, Smooth, AllVisible, TrueFates, Unsaved, LimitedAfter, GateClosed, HiddenBy;
      SmoothFacts(world, d, script, limited);
      if d !in world.remote {
        NotReadable(world, d, script, limited);
        var error := ReadNothing(d);
        return Err(error);
      }
      var slots, calls := Fetch(d, allowUnavailable);
      FatesLater(writes, world.remote.Keys, script, world.now, world.now + calls);
      LimitedStays(limited, script(world.now + calls - 1));
      ServeManyGrows(world, d, script, 0, calls);
      ServingIsCalm(world, d, script, calls);
      assert ServeMany(world, d, script, 0) == world;
      if slots.Some? {
        ReadSaw(world, d, script, calls, slots.value);
      }
      if ReadableNow(world, d, script, limited) {
        OnePageIsExact(world, d, script, limited, slots.value);
      }
      if Smooth(world, d, script, limited) {
        SmoothReadEnds(world, d, script, limited, calls, slots.value);
      }
      world := ServeMany(world, d, script, calls);
      var unsaved := Unsaved(limited, script(world.now - 1));
      limited := LimitedAfter(limited, script(world.now - 1));
      if slots.None? {
        return Err(if unsaved then Persistence else Reconciliation);
      }
      observed := observed + {Read(d, slots.value, world.now, |writes|)};
      return Ok(slots.value);
    }

    /** The one request of a read of a destination that does not exist. */
    method ReadNothing(d: Destination) returns (error: Error)
      requires Valid() && d !in world.remote
      modifies this`world, this`limited
      ensures Valid() && Advanced() && Calm(d)
      ensures world == ServeMany(old(world), d, script, 1) && world.now == old(world.now) + 1
      ensures limited == LimitedAfter(old(limited), script(old(world.now))) && (old(limited) ==> limited)
      ensures error == if Unsaved(old(limited), script(old(world.now))) then Persistence else Reconciliation
    {
      hide Undisturbed, Serve, Legit, Grew, CalmBetween, TrueFates, Unsaved;
      var tick := script(world.now);
      ServingOnce(world, d, script);
      FatesLater(writes, world.remote.Keys, script, world.now, world.now + 1);
      world := Serve(world, d, tick);
      error := if Unsaved(limited, tick) then Persistence else Reconciliation;
      limited := LimitedAfter(limited, tick);
    }

    /** The requests of one read, as the ticks from now on answer them. */
    method Fetch(d: Destination, allowUnavailable: bool) returns (slots: Option<seq<Slot>>, calls: nat)
      requires Valid() && d in world.remote
      ensures calls > 0
      ensures slots.Some? ==>
                && Observed(slots.value, Contents(world, d, script), HiddenBy(script), world.now, calls)
                && (!allowUnavailable ==> AllVisible(slots.value))
                && !GateClosed(limited, script(world.now + calls - 1))
                && script(world.now + calls - 1).failure.None?
      ensures ReadableNow(world, d, script, limited) ==> slots.Some? && calls == 1
      ensures Smooth(world, d, script, limited) ==> slots.Some?
    {
      hide ReadableNow, Observed, OnePage, Honest, Silent, Smooth, Steady, ItemsServer, Contents, HiddenBy,
           GateClosed, Serve;
      var server := ItemsServer(world, d, script, limited);
      var total;
      slots, total, calls := ReadPlaylist(server, world.now, allowUnavailable,
                                          Contents(world, d, script), HiddenBy(script));
      HeldBackIsSilent(world, d, script, limited, world.now + calls - 1);
      if ReadableNow(world, d, script, limited) {
        ReadableIsOnePage(world, d, script, limited);
      }
      if Smooth(world, d, script, limited) {
        SmoothFacts(world, d, script, limited);
        SmoothIsSteady(world, d, script);
      }
    }

    /** `replace_playlist_items`; the answer is the snapshot id it carries, if it carries one. */
    method Replace(d: Destination, payload: seq<Uri>) returns (r: Result<Option<nat>, Error>)
      requires Valid() && |payload| <= MAX_ITEMS
      modifies this`world, this`limited, this`writes, this`withheld
      ensures Valid() && Advanced() && world.now == old(world.now) + 1
      ensures r == Err(Crashed) <==> script(old(world.now)).crash
      ensures r == Err(Crashed) ==> writes == old(writes) && withheld == old(withheld)
      ensures r != Err(Crashed) && old(Gated()) ==>
                && writes == old(writes) && withheld == old(withheld) + 1
                && world == Serve(old(world), d, script(old(world.now)))
                && r == Err(HeldBack(old(limited), script(old(world.now)))) && (r == Err(Persistence) || limited)
      ensures r != Err(Crashed) && !old(Gated()) ==>
                var fate := FateAt(d in world.remote, script(old(world.now)));
                && withheld == old(withheld) && limited == LimitedAfter(old(limited), script(old(world.now)))
                && writes == old(writes) + [Put(d, payload, fate, old(world.now))] && Ended(fate, r)
                && world == AfterPut(old(world), d, script(old(world.now)), payload)
      ensures r.Ok? ==> d in world.remote && Last(world.remote[d]) == payload
      ensures r.Ok? && r.value.Some? ==> r.value.value == |world.remote[d]| - 1
      ensures old(Smooth(world, d, script, limited)) ==>
                && r.Ok? && r.value.Some? && Smooth(world, d, script, limited)
                && (Last(old(world.remote)[d]) != payload ==> |world.remote[d]| == |old(world.remote)[d]| + 1)
    {
      hide Smooth, Serve, LimitedAfter, TrueFates, AfterPut, FateAt, TakesEffect, Grew, Legit, HeldBack;
      var before := world;
      SmoothPut(world, d, script, limited, payload);
      var answer, served, held := Deliver(d);
      if answer == Err(Crashed) {
        return Err(Crashed);
      }
      if held {
        withheld := withheld + 1;
        return Err(answer.error);
      }
      PutGrows(before, d, script(before.now), payload);
      world := AfterPut(before, d, script(before.now), payload);
      ghost var write := Put(d, payload, FateAt(d in world.remote, script(before.now)), before.now);
      FatesExtend(writes, write, before.remote.Keys, script, before.now);
      writes := writes + [write];
      return if answer.Ok? then Ok(if answer.value then Some(|world.remote[d]| - 1) else None) else Err(answer.error);
    }

    /** `add_playlist_items` at position 0. A failed addition may land later. */
    method Add(d: Destination, additions: seq<Uri>) returns (r: Result<Option<nat>, Error>)
      requires Valid() && 1 <= |additions| <= MAX_ITEMS
      modifies this`world, this`limited, this`writes, this`withheld
      ensures Valid() && Advanced()
      ensures r == Err(Crashed) <==> script(old(world.now)).crash
      ensures r == Err(Crashed) ==> writes == old(writes) && withheld == old(withheld)
      ensures r != Err(Crashed) && old(Gated()) ==>
                && writes == old(writes) && withheld == old(withheld) + 1
                && r == Err(HeldBack(old(limited), script(old(world.now)))) && (r == Err(Persistence) || limited)
      ensures r != Err(Crashed) && !old(Gated()) ==>
                var fate := FateAt(d in world.remote, script(old(world.now)));
                && withheld == old(withheld)
                && writes == old(writes) + [Post(d, additions, fate, old(world.now))] && Ended(fate, r)
      ensures var before := Serve(old(world), d, script(old(world.now)));
              if r.Ok? then
                && d in before.remote && world == Added(before, d, additions)
                && (r.value.Some? ==> r.value.value == |world.remote[d]| - 1)
              else
                || world == before
                || (!old(Gated()) && (r.error.Transport? || (r.error.Api? && r.error.status >= 500))
                    && d in before.remote
                    && (world == Added(before, d, additions)
                        || world == before.(inflight := before.inflight + [Addition(d, additions)])))
      ensures old(Smooth(world, d, script, limited)) ==>
                && r.Ok? && r.value.Some? && Smooth(world, d, script, limited)
                && Last(world.remote[d]) == additions + Last(old(world.remote)[d])
    {
      hide Smooth, Serve, TrueFates, ReadLater;
      ghost var before := world;
      SmoothFacts(world, d, script, limited);
      SmoothSnapshot(world, d, script, limited, true);
      ghost var current := if d in world.remote && world.remote[d] != [] then Last(world.remote[d]) else [];
      SmoothWrite(world, d, script, additions + current);
      var answer, served, held := Deliver(d);
      if answer == Err(Crashed) {
        return Err(Crashed);
      }
      if held {
        withheld := withheld + 1;
        return Err(answer.error);
      }
      if served {
        world := Added(world, d, additions);
      } else if d in world.remote && answer.Err? && IsUncertain(answer.error)
                && script(world.now - 1).effect == Delayed {
        world := world.(inflight := world.inflight + [Addition(d, additions)]);
      }
      assert world.remote.Keys == before.remote.Keys;
      ghost var write := Post(d, additions, FateAt(d in world.remote, script(before.now)), before.now);
      FatesExtend(writes, write, before.remote.Keys, script, before.now);
      writes := writes + [write];
      return if answer.Ok? then Ok(if answer.value then Some(|world.remote[d]| - 1) else None) else Err(answer.error);
    }

    /**
     * One write request up to its effect: whether it is served now, and how it is answered; `Ok`
     * says whether the answer carries a snapshot id. A request that is held back is not sent.
     */
    method Deliver(d: Destination) returns (r: Result<bool, Error>, served: bool, held: bool)
      requires Valid()
      modifies this`world, this`limited
      ensures Valid() && Advanced()
      ensures world == Serve(old(world), d, script(old(world.now))) && world.now == old(world.now) + 1
      ensures r == Err(Crashed) <==> script(old(world.now)).crash
      ensures world.remote.Keys == old(world.remote).Keys
      ensures held <==> !script(old(world.now)).crash && old(Gated())
      ensures held ==>
                && !served && r == Err(HeldBack(old(limited), script(old(world.now))))
                && (r == Err(Persistence) || limited)
      ensures served <==> r != Err(Crashed) && !held && TakesEffect(d in world.remote, script(old(world.now)))
      ensures !held && r != Err(Crashed) ==>
                && limited == LimitedAfter(old(limited), script(old(world.now)))
                && match FateAt(d in world.remote, script(old(world.now)))
                   case Answered => r == Ok(!script(old(world.now)).malformed)
                   case Refused => r.Err? && r.error.Api? && r.error.status < 500
                   case RefusedSilently => r == Err(Persistence)
                   case Uncertain => r.Err? && IsUncertain(r.error)
      ensures old(Smooth(world, d, script, limited)) ==> r == Ok(true) && !limited
    {
      var tick := script(world.now);
      ServingOnce(world, d, script);
      FatesLater(writes, world.remote.Keys, script, world.now, world.now + 1);
      world := Serve(world, d, tick);
      if tick.crash {
        return Err(Crashed), false, false;
      }
      if GateClosed(limited, tick) {
        var error := HeldBack(limited, tick);
        limited := LimitedAfter(limited, tick);
        return Err(error), false, true;
      }
      limited := LimitedAfter(limited, tick);
      if tick.failure.Some? {
        var error := Raised(tick.failure.value, tick.unsaved);
        return Err(error), d in world.remote && tick.effect == Immediate && IsUncertain(error), false;
      }
      if d !in world.remote {
        return Err(Api(404)), false, false;
      }
      return Ok(!tick.malformed), true, false;
    }
  }

  /** A complete read, later than `since` and at the present write count, was exact in every position. */
  ghost predicate SawExactly(client: Client, since: nat, d: Destination, desired: seq<Uri>)
    reads client
  {
    exists r :: r in client.observed && r.at > since && r.writes == |client.writes|
                && r.destination == d && Exactly(r.slots, desired)
  }

  lemma LimitedStays(limited: bool, tick: Tick)
    ensures limited ==> LimitedAfter(limited, tick) && GateClosed(limited, tick)
    ensures !GateClosed(limited, tick) && tick.failure.None? ==>
              !limited && !LimitedAfter(limited, tick) && !Unsaved(limited, tick)
  {
  }

  lemma HeldBackMeans(limited: bool, tick: Tick)
    ensures GateClosed(limited, tick) ==>
              HeldBack(limited, tick) == Suppressed || HeldBack(limited, tick) == Persistence
  {
  }

  lemma NotReadable(w: World, d: Destination, script: Script, limited: bool)
    requires d !in w.remote
    ensures !ReadableNow(w, d, script, limited)
  {
  }

  /** The write may have taken effect. */
  predicate IsUncertain(error: Error) {
    error.Transport? || (error.Api? && error.status >= 500)
  }

  /** A write that is sent at this tick is applied there and then, whatever its sender is told. */
  predicate TakesEffect(known: bool, tick: Tick) {
    known && (tick.failure.None? || (FateAt(true, tick) == Uncertain && tick.effect == Immediate))
  }

  /** The world after a replacement that was sent. */
  function AfterPut(w: World, d: Destination, tick: Tick, payload: seq<Uri>): World {
    var served := Serve(w, d, tick);
    if d in served.remote && TakesEffect(true, tick)
       && !(tick.same && served.remote[d] != [] && Last(served.remote[d]) == payload) then
      served.(remote := served.remote[d := served.remote[d] + [payload]])
    else served
  }

  lemma PutGrows(w: World, d: Destination, tick: Tick, payload: seq<Uri>)
    requires Legit(w)
    ensures var after := AfterPut(w, d, tick, payload);
            && Legit(after) && Grew(w.remote, after.remote) && after.remote.Keys == w.remote.Keys
            && (d in w.remote <==> d in after.remote) && (d in after.remote ==> after.remote[d] != [])
    ensures AfterPut(w, d, tick, payload).now == w.now + 1
    ensures d in w.remote && TakesEffect(true, tick) ==> Last(AfterPut(w, d, tick, payload).remote[d]) == payload
    ensures FateAt(d in w.remote, tick) == Answered ==>
              && d in w.remote && AfterPut(w, d, tick, payload).remote[d] != []
              && Last(AfterPut(w, d, tick, payload).remote[d]) == payload
  {
    hide Legit, Grew;
    var served := Serve(w, d, tick);
    ServeGrows(w, d, tick);
    PublishGrows(w.remote, served, d, payload);
  }

  lemma SmoothPut(w: World, d: Destination, script: Script, limited: bool, payload: seq<Uri>)
    requires Legit(w)
    ensures Smooth(w, d, script, limited) ==>
              var after, tick := AfterPut(w, d, script(w.now), payload), script(w.now);
              && d in w.remote && w.remote[d] != [] && d in after.remote
              && !tick.crash && !GateClosed(limited, tick) && FateAt(true, tick) == Answered && !tick.malformed
              && Smooth(after, d, script, LimitedAfter(limited, tick))
              && (Last(w.remote[d]) != payload ==> |after.remote[d]| == |w.remote[d]| + 1)
  {
    hide Serve;
    if Smooth(w, d, script, limited) {
      SmoothSnapshot(w, d, script, limited, true);
      SmoothWrite(w, d, script, payload);
      assert Untroubled(script(w.now));
    }
  }

  lemma PublishGrows(before: Histories, served: World, d: Destination, payload: seq<Uri>)
    requires Legit(served) && Grew(before, served.remote)
    ensures d in served.remote ==>
              var after := served.(remote := served.remote[d := served.remote[d] + [payload]]);
              Legit(after) && Grew(before, after.remote) && after.remote.Keys == served.remote.Keys
  {
  }

  /** The fate of a write and what its sender is told fit together. */
  ghost predicate Ended(fate: Fate, r: Result<Option<nat>, Error>) {
    match fate
    case Answered => r.Ok?
    case Refused => r.Err? && r.error.Api? && r.error.status < 500
    case RefusedSilently => r == Err(Persistence)
    case Uncertain => r.Err? && IsUncertain(r.error)
  }

  function Added(w: World, d: Destination, additions: seq<Uri>): World
    requires d in w.remote && w.remote[d] != []
  {
    w.(remote := w.remote[d := w.remote[d] + [additions + Last(w.remote[d])]])
  }
}
