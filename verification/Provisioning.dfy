/**
 * Crash-safe playlist creation: the write-ahead journal of managed_provisioning.py around the
 * irreversible create request of managed_admin.py. A crash is an effect that returns `Crashed`:
 * the method that made it returns at once, so what a method promises of every outcome holds at
 * every crash point inside it. The environment is the oracle `script`, so what holds for any
 * oracle holds for every run.
 */
module Provisioning {
  import opened Basics

  type TemplateId = string

  /** A remote playlist: the one that the k-th create request may have made, or somebody else's. */
  datatype RemoteId = Created(request: nat) | Foreign(name: string)

  datatype Intent =
    | RequestStarted(template: TemplateId)
    | DestinationKnown(template: TemplateId, destination: RemoteId)

  datatype Managed = Managed(id: string, template: TemplateId, destination: RemoteId, enabled: bool)

  /** A create request that was sent: refused, or one whose playlist exists or may yet appear. */
  datatype Request = Refused | MayExist

  datatype Error =
    | RecoveryRequired    // an earlier creation must be recovered first
    | Rejected            // a local check refused the operation
    | AssertionFailed
    | Cooldown            // suppressed locally: nothing was sent
    | Persistence         // the rate-limit backoff could not be read or saved
    | Transport
    | Api(status: nat)
    | Uncertain           // the creation may have succeeded
    | NotPersisted(destination: RemoteId)
    | JournalError
    | StateError
    | Crashed

  /** What one durable operation meets. */
  datatype Fault = Works | FailsBefore | FailsAfter | CrashesBefore | CrashesAfter
  /**
   * What a request meets. Behind the rate-limit guard the backoff may be unreadable, and then nothing is
   * sent, and the one that an HTTP 429 starts may be impossible to save.
   */
  datatype CreateAnswer =
    | Answered | Malformed | ApiError(status: nat) | TransportError | Suppressed | CrashBefore | CrashAfter
    | BackoffUnreadable | BackoffUnsaved
  datatype Tick = Tick(fault: Fault, create: CreateAnswer, accepted: bool)

  /** The guard itself fails, and its storage error is not one of those that creation handles. */
  predicate BackoffLost(tick: Tick) {
    tick.create.BackoffUnreadable? || tick.create.BackoffUnsaved?
  }

  // ---------------------------------------------------------------- what a state says

  ghost predicate OnePerTemplate(playlists: seq<Managed>) {
    forall i, j :: 0 <= i < j < |playlists| ==> playlists[i].template != playlists[j].template
  }

  predicate HasTemplate(playlists: seq<Managed>, template: TemplateId) {
    exists p :: p in playlists && p.template == template
  }

  predicate Manages(playlists: seq<Managed>, destination: RemoteId) {
    exists p :: p in playlists && p.destination == destination
  }

  predicate NamedBy(journal: Option<Intent>, destination: RemoteId) {
    journal.Some? && journal.value.DestinationKnown? && journal.value.destination == destination
  }

  predicate Unresolved(journal: Option<Intent>) {
    journal.Some? && journal.value.RequestStarted?
  }

  /**
   * A request that may have made a playlist is accounted for: the playlist is managed, the journal
   * names it, the journal says that this very request is unresolved, or the operator gave it up.
   * `asked` is the request that was sent for the intent in the journal, if one was.
   */
  ghost predicate Covered(i: nat, requests: seq<Request>, journal: Option<Intent>, playlists: seq<Managed>,
                          released: set<nat>, asked: Option<nat>)
    requires i < |requests|
  {
    || requests[i].Refused?
    || i in released
    || Manages(playlists, Created(i))
    || NamedBy(journal, Created(i))
    || (Unresolved(journal) && asked == Some(i))
  }

  /** A remote identifier that can be in use: a created one belongs to a request that was sent. */
  predicate Exists(destination: RemoteId, requests: seq<Request>) {
    destination.Created? ==> destination.request < |requests|
  }

  ghost predicate NamesExist(requests: seq<Request>, journal: Option<Intent>, playlists: seq<Managed>) {
    && (forall p :: p in playlists ==> Exists(p.destination, requests))
    && (journal.Some? && journal.value.DestinationKnown? ==> Exists(journal.value.destination, requests))
  }

  /** What every operation keeps, whatever fails inside it and wherever it crashes. */
  ghost predicate Sound(requests: seq<Request>, journal: Option<Intent>, playlists: seq<Managed>, released: set<nat>,
                        asked: Option<nat>) {
    && OnePerTemplate(playlists)
    && (asked.Some? ==> asked.value < |requests|)
    && (forall p :: p in playlists ==> p.id == p.template)
    && NamesExist(requests, journal, playlists)
    && forall i :: 0 <= i < |requests| ==> Covered(i, requests, journal, playlists, released, asked)
  }

  predicate IsCustom(template: TemplateId) {
    |template| >= 7 && template[..7] == "custom_"
  }

  /**
   * The configuration check for playlists that a quarantined draft does not suspend: no two share
   * an id, and no two *enabled* ones share a destination.
   */
  predicate Compiles(playlists: seq<Managed>, suspended: TemplateId -> bool) {
    forall i, j ::
      0 <= i < j < |playlists| && !suspended(playlists[i].template) && !suspended(playlists[j].template) ==>
        Compatible(playlists[i], playlists[j])
  }

  predicate Compatible(p: Managed, q: Managed) {
    p.id != q.id && (p.enabled && q.enabled ==> p.destination != q.destination)
  }

  function Without(playlists: seq<Managed>, id: string): (remaining: seq<Managed>)
    ensures forall p :: p in remaining <==> p in playlists && p.id != id
    ensures OnePerTemplate(playlists) ==> OnePerTemplate(remaining)
  {
    if playlists == [] then [] else
      var rest := Without(playlists[1..], id);
      if playlists[0].id == id then rest else [playlists[0]] + rest
  }

  function WithEnabled(playlists: seq<Managed>, id: string, enabled: bool): (updated: seq<Managed>)
    ensures |updated| == |playlists|
    ensures forall i :: 0 <= i < |updated| ==>
      updated[i] == if playlists[i].id == id then playlists[i].(enabled := enabled) else playlists[i]
  {
    seq(|playlists|, i requires 0 <= i < |playlists| =>
      if playlists[i].id == id then playlists[i].(enabled := enabled) else playlists[i])
  }

  function Find(playlists: seq<Managed>, template: TemplateId): (found: Option<Managed>)
    ensures found.None? <==> !HasTemplate(playlists, template)
    ensures found.Some? ==> found.value in playlists && found.value.template == template
  {
    if playlists == [] then None
    else if playlists[0].template == template then Some(playlists[0])
    else Find(playlists[1..], template)
  }

  /** The template's playlist is managed, and writes to this destination. */
  predicate Settled(playlists: seq<Managed>, template: TemplateId, destination: RemoteId) {
    exists p :: p in playlists && p.template == template && p.destination == destination
  }

  /** What finalisation may do: add the playlist the journal names, and drop the journal once it is managed. */
  ghost predicate FinalizeStep(before: Option<Intent>, had: seq<Managed>, after: Option<Intent>, has: seq<Managed>) {
    match before
    case Some(DestinationKnown(t, d)) =>
      && (has == had || (!HasTemplate(had, t) && has == had + [Managed(t, t, d, true)]))
      && (after == before || (after == None && Settled(has, t, d)))
    case _ => after == before && has == had
  }

  lemma FinalizeKeepsSound(requests: seq<Request>, released: set<nat>, asked: Option<nat>,
                           before: Option<Intent>, had: seq<Managed>, after: Option<Intent>, has: seq<Managed>)
    requires Sound(requests, before, had, released, asked) && FinalizeStep(before, had, after, has)
    ensures Sound(requests, after, has, released, asked)
  {
    forall i | 0 <= i < |requests| ensures Covered(i, requests, after, has, released, asked) {
      assert Covered(i, requests, before, had, released, asked);
      if Manages(had, Created(i)) {
        var p :| p in had && p.destination == Created(i);
        assert p in has;
      }
    }
  }

  /** The journal replaced by one that covers at least as much. */
  lemma JournalKeepsSound(requests: seq<Request>, released: set<nat>, more: set<nat>, asked: Option<nat>,
                          now: Option<nat>, before: Option<Intent>, after: Option<Intent>, playlists: seq<Managed>)
    requires Sound(requests, before, playlists, released, asked) && released <= more
    requires before.Some? && before.value.DestinationKnown? ==> after == before
    requires now.Some? ==> now == asked
    requires Unresolved(before) && asked.Some? ==>
               || (Unresolved(after) && now == asked) || asked.value in more
               || requests[asked.value].Refused? || NamedBy(after, Created(asked.value))
    requires after.Some? && after.value.DestinationKnown? ==> Exists(after.value.destination, requests)
    ensures Sound(requests, after, playlists, more, now)
  {
    forall i | 0 <= i < |requests| ensures Covered(i, requests, after, playlists, more, now) {
      assert Covered(i, requests, before, playlists, released, asked);
    }
  }

  ghost predicate OnePerDestination(playlists: seq<Managed>) {
    forall i, j :: 0 <= i < j < |playlists| ==> playlists[i].destination != playlists[j].destination
  }

  /** Nothing else is managed for the destination that the journal is about to settle. */
  ghost predicate Exclusive(journal: Option<Intent>, playlists: seq<Managed>) {
    && OnePerDestination(playlists)
    && (journal.Some? && journal.value.DestinationKnown? ==>
          forall p :: p in playlists && p.destination == journal.value.destination ==>
            p.template == journal.value.template)
  }

  /** The creation or adoption of `destination` for `template` is under way, or done. */
  ghost predicate Heading(journal: Option<Intent>, playlists: seq<Managed>, template: TemplateId,
                          destination: RemoteId) {
    || Settled(playlists, template, destination)
    || (journal == Some(DestinationKnown(template, destination)) && !HasTemplate(playlists, template))
  }

  lemma FinalizeKeepsExclusive(before: Option<Intent>, had: seq<Managed>, after: Option<Intent>, has: seq<Managed>)
    requires FinalizeStep(before, had, after, has) && OnePerTemplate(had) && Exclusive(before, had)
    ensures Exclusive(after, has)
  {
    if has != had {
      var d := before.value.destination;
      forall p | p in had ensures p.destination != d {
        assert p.template != before.value.template;
      }
    }
  }

  lemma FinalizeKeepsHeading(before: Option<Intent>, had: seq<Managed>, after: Option<Intent>, has: seq<Managed>,
                             template: TemplateId, destination: RemoteId)
    requires FinalizeStep(before, had, after, has) && Heading(before, had, template, destination)
    ensures Heading(after, has, template, destination)
  {
    if Settled(had, template, destination) {
      var p :| p in had && p.template == template && p.destination == destination;
      assert p in has;
    } else if has != had {
      assert has[|had|] in has;
    }
  }

  /** A request is sent under its own intent; one that was refused, or not sent, needs none. */
  lemma SendKeepsSound(before: seq<Request>, after: seq<Request>, started: Option<Intent>, playlists: seq<Managed>,
                       released: set<nat>, asked: Option<nat>)
    requires Sound(before, None, playlists, released, None) && Unresolved(started)
    requires before == after || (|after| == |before| + 1 && before < after)
    requires asked == if before == after then None else Some(|before|)
    ensures Sound(after, started, playlists, released, asked)
    ensures before == after || after[|before|].Refused? ==> Sound(after, None, playlists, released, asked)
  {
    forall i | 0 <= i < |before|
      ensures Covered(i, after, None, playlists, released, asked)
      ensures Covered(i, after, started, playlists, released, asked)
    {
      assert Covered(i, before, None, playlists, released, None);
    }
  }

  lemma StopKeepsSound(requests: seq<Request>, journal: Option<Intent>, playlists: seq<Managed>, released: set<nat>,
                       asked: Option<nat>, stopped: Managed, more: set<nat>)
    requires Sound(requests, journal, playlists, released, asked) && stopped in playlists && released <= more
    requires stopped.destination.Created? ==> stopped.destination.request in more
    ensures Sound(requests, journal, Without(playlists, stopped.id), more, asked)
  {
    var remaining := Without(playlists, stopped.id);
    forall i | 0 <= i < |requests| ensures Covered(i, requests, journal, remaining, more, asked) {
      assert Covered(i, requests, journal, playlists, released, asked);
      if Manages(playlists, Created(i)) {
        var p :| p in playlists && p.destination == Created(i);
        assert p.template == stopped.template ==> p == stopped by {
          SameTemplate(playlists, p, stopped);
        }
      }
    }
  }

  lemma SameTemplate(playlists: seq<Managed>, p: Managed, q: Managed)
    requires OnePerTemplate(playlists) && p in playlists && q in playlists
    ensures p.template == q.template ==> p == q
  {
    var i, j :| 0 <= i < |playlists| && 0 <= j < |playlists| && playlists[i] == p && playlists[j] == q;
    if i < j || j < i {
      assert p.template != q.template;
    }
  }

  lemma EnableKeepsSound(requests: seq<Request>, journal: Option<Intent>, playlists: seq<Managed>, released: set<nat>,
                         asked: Option<nat>, id: string, enabled: bool)
    requires Sound(requests, journal, playlists, released, asked)
    ensures Sound(requests, journal, WithEnabled(playlists, id, enabled), released, asked)
  {
    var updated := WithEnabled(playlists, id, enabled);
    forall i | 0 <= i < |requests| ensures Covered(i, requests, journal, updated, released, asked) {
      assert Covered(i, requests, journal, playlists, released, asked);
      if Manages(playlists, Created(i)) {
        var j :| 0 <= j < |playlists| && playlists[j].destination == Created(i);
        assert updated[j] in updated;
      }
    }
  }

  /** Pausing or resuming changes neither templates nor destinations. */
  lemma EnableKeepsHeading(journal: Option<Intent>, playlists: seq<Managed>, id: string, enabled: bool,
                           template: TemplateId, destination: RemoteId)
    requires Heading(journal, playlists, template, destination)
    ensures Heading(journal, WithEnabled(playlists, id, enabled), template, destination)
  {
    var updated := WithEnabled(playlists, id, enabled);
    if Settled(playlists, template, destination) {
      var i :| 0 <= i < |playlists| && playlists[i].template == template && playlists[i].destination == destination;
      assert updated[i] in updated;
    } else {
      forall q | q in updated ensures q.template != template {
        var i :| 0 <= i < |updated| && updated[i] == q;
        assert playlists[i] in playlists;
      }
    }
  }

  lemma EnableKeepsExclusive(journal: Option<Intent>, playlists: seq<Managed>, id: string, enabled: bool)
    requires Exclusive(journal, playlists)
    ensures Exclusive(journal, WithEnabled(playlists, id, enabled))
  {
    var updated := WithEnabled(playlists, id, enabled);
    forall q | q in updated
      ensures exists p :: p in playlists && q.template == p.template && q.destination == p.destination
    {
      var i :| 0 <= i < |updated| && updated[i] == q;
      assert playlists[i] in playlists;
    }
  }

  lemma {:induction false} WithoutKeepsDestinations(playlists: seq<Managed>, id: string)
    requires OnePerDestination(playlists)
    ensures OnePerDestination(Without(playlists, id))
  {
    if playlists != [] {
      WithoutKeepsDestinations(playlists[1..], id);
      var rest := Without(playlists[1..], id);
      forall p | p in rest ensures p.destination != playlists[0].destination {
        var i :| 0 <= i < |playlists[1..]| && playlists[1..][i] == p;
        assert playlists[i + 1] == p;
      }
    }
  }

  /** One record has the template, it has the destination, and no other record has either. */
  ghost predicate ExactlyOnce(playlists: seq<Managed>, template: TemplateId, destination: RemoteId) {
    exists i :: 0 <= i < |playlists| && OnlyAt(playlists, template, destination, i)
  }

  ghost predicate OnlyAt(playlists: seq<Managed>, template: TemplateId, destination: RemoteId, i: nat)
    requires i < |playlists|
  {
    && playlists[i].template == template && playlists[i].destination == destination
    && forall j :: 0 <= j < |playlists| && j != i ==>
         playlists[j].template != template && playlists[j].destination != destination
  }

  /** Once settled with one playlist per template and per destination, it is exactly this one. */
  lemma ExactlyOne(journal: Option<Intent>, playlists: seq<Managed>, template: TemplateId, destination: RemoteId)
    requires OnePerTemplate(playlists) && OnePerDestination(playlists)
    requires Heading(journal, playlists, template, destination)
    ensures journal == Some(DestinationKnown(template, destination)) || ExactlyOnce(playlists, template, destination)
  {
    if Settled(playlists, template, destination) {
      var i :| 0 <= i < |playlists| && playlists[i].template == template && playlists[i].destination == destination;
      forall j | 0 <= j < |playlists| && j != i
        ensures playlists[j].template != template && playlists[j].destination != destination
      {
        assert i < j ==> playlists[i].template != playlists[j].template;
        assert j < i ==> playlists[j].template != playlists[i].template;
        assert i < j ==> playlists[i].destination != playlists[j].destination;
        assert j < i ==> playlists[j].destination != playlists[i].destination;
      }
      assert OnlyAt(playlists, template, destination, i);
    }
  }

  /**
   * Adding a playlist for a managed destination gets past the configuration check exactly when
   * every playlist it would share an id or a destination with is out of its sight: a suspended
   * one always is, and a paused one is for destinations.
   */
  lemma SharedDestinationCompiles(playlists: seq<Managed>, added: Managed, suspended: TemplateId -> bool)
    requires Compiles(playlists, suspended) && added.enabled && !suspended(added.template)
    ensures Compiles(playlists + [added], suspended) <==>
              forall p :: p in playlists && !suspended(p.template) ==>
                p.id != added.id && (p.destination == added.destination ==> !p.enabled)
  {
    var all := playlists + [added];
    if Compiles(all, suspended) {
      forall p | p in playlists && !suspended(p.template)
        ensures p.id != added.id && (p.destination == added.destination ==> !p.enabled)
      {
        var i :| 0 <= i < |playlists| && playlists[i] == p;
        assert all[i] == p && all[|playlists|] == added;
        assert Compatible(all[i], all[|playlists|]);
      }
    }
    if forall p :: p in playlists && !suspended(p.template) ==>
        p.id != added.id && (p.destination == added.destination ==> !p.enabled)
    {
      forall i, j | 0 <= i < j < |all| && !suspended(all[i].template) && !suspended(all[j].template)
        ensures Compatible(all[i], all[j])
      {
        assert playlists[i] in playlists;
        assert j < |playlists| ==> Compatible(playlists[i], playlists[j]);
      }
    }
  }

  /** The playlist that the journal names is managed already, or can be. */
  predicate Finishable(playlists: seq<Managed>, template: TemplateId, destination: RemoteId,
                       suspended: TemplateId -> bool) {
    || Settled(playlists, template, destination)
    || (!HasTemplate(playlists, template)
        && Compiles(playlists + [Managed(template, template, destination, true)], suspended))
  }

  /** A creation that is under way, and whose destination nothing else is managed for, can be finished. */
  lemma HeadingFinishes(playlists: seq<Managed>, template: TemplateId, destination: RemoteId,
                        suspended: TemplateId -> bool)
    requires var journal := Some(DestinationKnown(template, destination));
             Exclusive(journal, playlists) && Heading(journal, playlists, template, destination)
    requires forall p :: p in playlists ==> p.id == p.template
    requires Compiles(playlists, suspended) && !suspended(template)
    ensures Finishable(playlists, template, destination, suspended)
  {
    hide Compiles;
    if !HasTemplate(playlists, template) {
      SharedDestinationCompiles(playlists, Managed(template, template, destination, true), suspended);
    }
  }

  lemma FinishedOnce(before: Option<Intent>, had: seq<Managed>, has: seq<Managed>, template: TemplateId,
                     destination: RemoteId)
    requires before == Some(DestinationKnown(template, destination)) && OnePerTemplate(had)
    requires FinalizeStep(before, had, None, has)
    ensures Exclusive(before, had) ==> ExactlyOnce(has, template, destination)
  {
    if Exclusive(before, had) {
      FinalizeKeepsExclusive(before, had, None, has);
      assert OnePerTemplate(has);
      ExactlyOne(None, has, template, destination);
    }
  }

  lemma FinalizeKeeps(before: Option<Intent>, had: seq<Managed>, after: Option<Intent>, has: seq<Managed>)
    requires FinalizeStep(before, had, after, has) && OnePerTemplate(had)
    ensures forall t, d :: Heading(before, had, t, d) ==> Heading(after, has, t, d)
    ensures Exclusive(before, had) ==> Exclusive(after, has)
  {
    forall t, d | Heading(before, had, t, d) ensures Heading(after, has, t, d) {
      FinalizeKeepsHeading(before, had, after, has, t, d);
    }
    if Exclusive(before, had) {
      FinalizeKeepsExclusive(before, had, after, has);
    }
  }

  /** A new playlist's destination is in nobody's use. */
  lemma AddedKeeps(before: Option<Intent>, had: seq<Managed>, after: Option<Intent>, has: seq<Managed>,
                   sent: seq<Request>)
    requires NamesExist(sent, before, had)
    requires before.Some? ==> after == before && has == had
    requires has == had || (|has| == |had| + 1 && had < has && has[|had|].destination == Created(|sent|))
    requires before.None? && after.Some? && after.value.DestinationKnown? ==>
               after.value.destination == Created(|sent|)
               && (has == had || has[|had|].template == after.value.template)
    ensures forall t, d :: Heading(before, had, t, d) ==> Heading(after, has, t, d)
    ensures Exclusive(before, had) ==> Exclusive(after, has)
  {
    forall t, d | Settled(had, t, d) ensures Settled(has, t, d) {
      var p :| p in had && p.template == t && p.destination == d;
      assert p in has;
    }
    forall i | 0 <= i < |had| ensures has[i] == had[i] && has[i].destination != Created(|sent|) {
      assert had[i] in had;
    }
  }

  lemma StopKeeps(journal: Option<Intent>, playlists: seq<Managed>, id: string)
    requires forall p :: p in playlists ==> p.id == p.template
    ensures forall t, d :: Heading(journal, playlists, t, d) && t != id ==>
              Heading(journal, Without(playlists, id), t, d)
    ensures Exclusive(journal, playlists) ==> Exclusive(journal, Without(playlists, id))
  {
    if Exclusive(journal, playlists) {
      WithoutKeepsDestinations(playlists, id);
    }
  }

  lemma EnableKeeps(journal: Option<Intent>, playlists: seq<Managed>, id: string, enabled: bool)
    ensures forall t, d :: Heading(journal, playlists, t, d) ==>
              Heading(journal, WithEnabled(playlists, id, enabled), t, d)
    ensures Exclusive(journal, playlists) ==> Exclusive(journal, WithEnabled(playlists, id, enabled))
  {
    forall t, d | Heading(journal, playlists, t, d)
      ensures Heading(journal, WithEnabled(playlists, id, enabled), t, d)
    {
      EnableKeepsHeading(journal, playlists, id, enabled, t, d);
    }
    if Exclusive(journal, playlists) {
      EnableKeepsExclusive(journal, playlists, id, enabled);
    }
  }

  datatype Command =
    | Activate(template: TemplateId, wellFormed: bool)
    | Finalize
    | Adopt(candidate: RemoteId)
    | ClearUncertain
    | StopManaging(id: string)
    | SetEnabled(id: string, enabled: bool)
    | EditTemplates(known: set<TemplateId>, quarantined: bool)

  /** The service, its two durable files, and the provider it creates playlists at. */
  class ManagedAdminService {
    const script: nat -> Tick
    var clock: nat
    var journal: Option<Intent>
    var playlists: seq<Managed>
    var known: set<TemplateId>
    var quarantined: bool
    /** Every create request that was sent, in order. */
    var requests: seq<Request>
    /** The requests whose playlist the operator gave up: cleared, stopped, or adopted another for. */
    ghost var released: set<nat>
    /** The request that was sent for the intent in the journal; none before it is sent. */
    ghost var asked: Option<nat>

    constructor (script: nat -> Tick, known: set<TemplateId>, quarantined: bool)
      ensures Inv() && this.script == script && clock == 0 && this.known == known && this.quarantined == quarantined
      ensures journal == None && playlists == [] && requests == [] && released == {} && asked == None
    {
      this.script := script;
      clock, journal, playlists, requests, released, asked := 0, None, [], [], {}, None;
      this.known, this.quarantined := known, quarantined;
    }

    ghost predicate Inv()
      reads this
    {
      Sound(requests, journal, playlists, released, asked)
    }

    /** An unknown template of the owner's, while any draft is quarantined. */
    predicate Suspended(template: TemplateId)
      reads this`known, this`quarantined
    {
      quarantined && template !in known && IsCustom(template)
    }

    method Next() returns (tick: Tick)
      modifies this`clock
      ensures clock == old(clock) + 1 && tick == script(old(clock))
    {
      tick := script(clock);
      clock := clock + 1;
    }

    /** From this tick on every operation works and no check refuses. */
    ghost predicate Calm(since: nat) {
      forall k :: k >= since ==> script(k).fault.Works? && script(k).accepted
    }

    // -------------------------------------------------------------- durable operations

    method LoadJournal() returns (r: Result<Option<Intent>, Error>)
      modifies this`clock
      ensures clock == old(clock) + 1 && (script(old(clock)).fault.Works? ==> r.Ok?)
      ensures r.Ok? ==> r.value == journal
      ensures r.Err? ==> r.error == JournalError || r.error == Crashed
    {
      var tick := Next();
      r := match tick.fault
        case Works => Ok(journal)
        case FailsBefore => Err(JournalError)
        case FailsAfter => Err(JournalError)
        case CrashesBefore => Err(Crashed)
        case CrashesAfter => Err(Crashed);
    }

    /** `journal.save` and `journal.clear`: an atomic replacement or removal, which may report failure after it. */
    method WriteJournal(value: Option<Intent>) returns (o: Outcome<Error>)
      modifies this`clock, this`journal
      ensures clock == old(clock) + 1 && (script(old(clock)).fault.Works? ==> o.Pass?)
      ensures journal == value || (o.Fail? && journal == old(journal))
      ensures o.Fail? ==> o.error == JournalError || o.error == Crashed
    {
      var tick := Next();
      if !tick.fault.FailsBefore? && !tick.fault.CrashesBefore? {
        journal := value;
      }
      o := match tick.fault
        case Works => Pass
        case FailsBefore => Fail(JournalError)
        case FailsAfter => Fail(JournalError)
        case CrashesBefore => Fail(Crashed)
        case CrashesAfter => Fail(Crashed);
    }

    /** `_save_validated`: nothing is replaced unless the whole new state compiles. */
    method SaveState(value: seq<Managed>) returns (o: Outcome<Error>)
      modifies this`clock, this`playlists
      ensures clock == old(clock) + 1
      ensures script(old(clock)).fault.Works? && script(old(clock)).accepted && Compiles(value, Suspension()) ==>
                o.Pass?
      ensures playlists == value || (o.Fail? && playlists == old(playlists))
      ensures playlists == value != old(playlists) ==> Compiles(value, Suspension())
      ensures o.Fail? ==> o.error == StateError || o.error == Crashed
    {
      var suspension := Suspension();
      var tick := Next();
      if !Compiles(value, suspension) || !tick.accepted {
        return Fail(StateError);
      }
      if !tick.fault.FailsBefore? && !tick.fault.CrashesBefore? {
        playlists := value;
      }
      o := match tick.fault
        case Works => Pass
        case FailsBefore => Fail(StateError)
        case FailsAfter => Fail(StateError)
        case CrashesBefore => Fail(Crashed)
        case CrashesAfter => Fail(Crashed);
    }

    function Suspension(): TemplateId -> bool
      reads this`known, this`quarantined
    {
      var known, quarantined := known, quarantined;
      template => quarantined && template !in known && IsCustom(template)
    }

    /** The irreversible request. `Ok` carries the identifier in the answer, or none if it cannot be read. */
    method CreatePlaylist() returns (r: Result<Option<RemoteId>, Error>)
      modifies this`clock, this`requests
      ensures requests == old(requests) || (|requests| == |old(requests)| + 1 && old(requests) < requests)
      ensures requests == old(requests) ==> r == Err(Cooldown) || r == Err(Persistence) || r == Err(Crashed)
      ensures |requests| > |old(requests)| ==>
                match requests[|old(requests)|]
                case Refused => r == Err(Persistence) || (r.Err? && r.error.Api? && r.error.status < 500)
                case MayExist =>
                  r == Ok(None) || r == Ok(Some(Created(|old(requests)|))) || r == Err(Uncertain) || r == Err(Crashed)
      ensures clock == old(clock) + 1
      ensures script(old(clock)).create.Answered? ==> r == Ok(Some(Created(|old(requests)|)))
      ensures r == Err(Persistence) <==> BackoffLost(script(old(clock)))
      ensures r == Err(Persistence) && requests != old(requests) <==> script(old(clock)).create.BackoffUnsaved?
    {
      var tick := Next();
      match tick.create
      case Suppressed => r := Err(Cooldown);
      case CrashBefore => r := Err(Crashed);
      case BackoffUnreadable => r := Err(Persistence);
      case BackoffUnsaved =>
        requests := requests + [Refused];
        r := Err(Persistence);
      case ApiError(status) =>
        if status < 500 {
          requests := requests + [Refused];
          r := Err(Api(status));
        } else {
          requests := requests + [MayExist];
          r := Err(Uncertain);
        }
      case TransportError =>
        requests := requests + [MayExist];
        r := Err(Uncertain);
      case CrashAfter =>
        requests := requests + [MayExist];
        r := Err(Crashed);
      case Malformed =>
        requests := requests + [MayExist];
        r := Ok(None);
      case Answered =>
        r := Ok(Some(Created(|requests|)));
        requests := requests + [MayExist];
    }

    // -------------------------------------------------------------- operations

    /** `journal.clear`, once the playlist that the journal names is managed. */
    method DropJournal(template: TemplateId, destination: RemoteId) returns (cleared: Outcome<Error>)
      requires Inv() && journal == Some(DestinationKnown(template, destination))
      requires Settled(playlists, template, destination)
      modifies this`clock, this`journal
      ensures Inv() && clock == old(clock) + 1 && (script(old(clock)).fault.Works? ==> cleared.Pass?)
      ensures journal == None || (cleared.Fail? && journal == old(journal))
      ensures cleared.Fail? ==> cleared.error == JournalError || cleared.error == Crashed
    {
      hide Covered, NamesExist, OnePerTemplate;
      cleared := WriteJournal(None);
      FinalizeKeepsSound(requests, released, asked, old(journal), playlists, journal, playlists);
    }

    /** `_save_validated` of the playlist that the journal names. */
    method SaveKnown(managed: Managed) returns (saved: Outcome<Error>)
      requires Inv() && journal == Some(DestinationKnown(managed.template, managed.destination))
      requires !HasTemplate(playlists, managed.template)
      requires managed == Managed(managed.template, managed.template, managed.destination, true)
      modifies this`clock, this`playlists
      ensures Inv() && clock == old(clock) + 1
      ensures playlists == old(playlists) + [managed] || (saved.Fail? && playlists == old(playlists))
      ensures playlists != old(playlists) ==> Compiles(playlists, Suspension())
      ensures Calm(old(clock)) && Compiles(old(playlists) + [managed], Suspension()) ==> saved.Pass?
      ensures saved.Fail? ==> saved.error == StateError || saved.error == Crashed
    {
      hide Covered, NamesExist, OnePerTemplate, Compiles;
      saved := SaveState(playlists + [managed]);
      FinalizeKeepsSound(requests, released, asked, journal, old(playlists), journal, playlists);
    }

    /**
     * Restart recovery, also run after each creation and adoption. It never touches the provider.
     * Whatever happens, managed state gains at most the playlist that the journal names, and the
     * journal goes only once that playlist is managed.
     */
    method FinalizeKnown() returns (r: Result<Option<Managed>, Error>)
      requires Inv()
      modifies this`clock, this`journal, this`playlists
      ensures Inv()
      ensures FinalizeStep(old(journal), old(playlists), journal, playlists)
      ensures r.Ok? && r.value.Some? ==>
                && old(journal) == Some(DestinationKnown(r.value.value.template, r.value.value.destination))
                && journal == None && r.value.value in playlists
      ensures r == Ok(None) ==>
                && journal == old(journal) && playlists == old(playlists)
                && (journal.Some? && journal.value.DestinationKnown? ==>
                      Suspended(journal.value.template) && !HasTemplate(playlists, journal.value.template))
      ensures r.Err? ==>
                || r.error.JournalError? || r.error.StateError? || r.error.Rejected?
                || r.error.RecoveryRequired? || r.error.Crashed?
      ensures Calm(old(clock)) && old(journal).Some? && old(journal).value.DestinationKnown? ==>
                var t := old(journal).value.template;
                (r == Ok(None) <==> Suspended(t) && !HasTemplate(old(playlists), t))
      ensures Calm(old(clock)) && journal.Some? && old(journal) == journal && journal.value.DestinationKnown? ==>
                var t, d := journal.value.template, journal.value.destination;
                || r == Err(RecoveryRequired) || r == Ok(None) || t !in known
                || (!HasTemplate(playlists, t) && !Compiles(playlists + [Managed(t, t, d, true)], Suspension()))
      ensures Calm(old(clock)) && old(journal).Some? && old(journal).value.DestinationKnown? ==>
                var t, d := old(journal).value.template, old(journal).value.destination;
                (t in known && Finishable(old(playlists), t, d, Suspension()) ==>
                   r.Ok? && r.value.Some? && journal == None)
      ensures Calm(old(clock)) && old(journal).Some? && old(journal).value.DestinationKnown? ==>
                var t, d := old(journal).value.template, old(journal).value.destination;
                (t in known && old(Exclusive(journal, playlists)) && old(Heading(journal, playlists, t, d))
                 && Compiles(old(playlists), Suspension()) ==>
                   journal == None && ExactlyOnce(playlists, t, d))
      ensures r.Ok? && r.value.Some? && old(Exclusive(journal, playlists)) ==>
                ExactlyOnce(playlists, r.value.value.template, r.value.value.destination)
      ensures r == Err(RecoveryRequired) ==>
                && journal == old(journal) && playlists == old(playlists) && journal.Some?
                && journal.value.DestinationKnown? && HasTemplate(playlists, journal.value.template)
                && !Settled(playlists, journal.value.template, journal.value.destination)
    {
      hide OnlyAt, ExactlyOnce, Exclusive, Heading, OnePerDestination, Covered, NamesExist, Compiles;
      var loaded :- LoadJournal();
      if loaded.None? || loaded.value.RequestStarted? {
        return Ok(None);
      }
      var t, d := loaded.value.template, loaded.value.destination;
      ghost var before, managedBefore := journal, playlists;
      if Exclusive(before, playlists) && Heading(before, playlists, t, d) && Compiles(playlists, Suspension())
         && t in known {
        HeadingFinishes(playlists, t, d, Suspension());
      }
      var existing := Find(playlists, t);
      if existing.Some? {
        if existing.value.destination != d {
          return Err(RecoveryRequired);
        }
        var cleared := DropJournal(t, d);
        if cleared.Fail? {
          return Err(cleared.error);
        }
        FinishedOnce(before, managedBefore, playlists, t, d);
        return Ok(existing);
      }
      if Suspended(t) {
        return Ok(None);
      }
      var tick := Next();
      if t !in known || !tick.accepted {
        return Err(Rejected);
      }
      var managed := Managed(t, t, d, true);
      var saved := SaveKnown(managed);
      if saved.Fail? {
        return Err(saved.error);
      }
      assert managed in playlists;
      var cleared := DropJournal(t, d);
      if cleared.Fail? {
        return Err(cleared.error);
      }
      FinishedOnce(before, managedBefore, playlists, t, d);
      return Ok(Some(managed));
    }

    /**
     * The request itself, under its durable intent, up to the durable name of what it made. A refused
     * request, or one that was not sent, keeps its intent exactly if the backoff is lost.
     */
    method CreateUnder(template: TemplateId) returns (r: Result<RemoteId, Error>)
      requires journal == Some(RequestStarted(template)) && Sound(requests, None, playlists, released, None)
      requires asked == None
      modifies this`clock, this`journal, this`requests, this`asked
      ensures Inv()
      ensures requests == old(requests) || (|requests| == |old(requests)| + 1 && old(requests) < requests)
      ensures journal.Some? ==>
                || journal == old(journal)
                || (journal == Some(DestinationKnown(template, Created(|old(requests)|)))
                    && requests == old(requests) + [MayExist])
      ensures r.Ok? ==>
                && r.value == Created(|old(requests)|) && requests == old(requests) + [MayExist]
                && journal == Some(DestinationKnown(template, r.value))
      ensures r == Err(Uncertain) ==> journal.Some? && requests == old(requests) + [MayExist]
      ensures r.Err? && (r.error == Cooldown || r.error.Api?) ==>
                journal == None && (requests == old(requests) || requests == old(requests) + [Refused])
      ensures r == Err(Persistence) <==> BackoffLost(script(old(clock)))
      ensures r == Err(Persistence) ==>
                && journal == old(journal)
                && requests == old(requests) + if script(old(clock)).create.BackoffUnsaved? then [Refused] else []
      ensures r.Err? ==>
                || r.error.Uncertain? || r.error.Cooldown? || r.error.Persistence? || r.error.Api?
                || r.error.JournalError? || r.error.Crashed?
      ensures clock >= old(clock)
      ensures script(old(clock)).create.Answered? && Calm(old(clock)) ==> r.Ok?
    {
      hide Covered, NamesExist, OnePerTemplate;
      var started := journal;
      var response := CreatePlaylist();
      asked := if requests == old(requests) then None else Some(|old(requests)|);
      SendKeepsSound(old(requests), requests, started, playlists, released, asked);
      if response.Err? {
        if response.error != Cooldown && !response.error.Api? {
          return Err(response.error);
        }
        var cleared := WriteJournal(None);
        JournalKeepsSound(requests, released, released, asked, asked, None, journal, playlists);
        if cleared.Fail? {
          return Err(cleared.error);
        }
        return Err(response.error);
      }
      if response.value.None? {
        return Err(Uncertain);
      }
      var destination := response.value.value;
      var renamed := WriteJournal(Some(DestinationKnown(template, destination)));
      JournalKeepsSound(requests, released, released, asked, asked, started, journal, playlists);
      if renamed.Fail? {
        return Err(if renamed.error == JournalError then Uncertain else renamed.error);
      }
      return Ok(destination);
    }

    /** The last step of a creation, whose destination is durable by now. */
    method FinishCreated(template: TemplateId, destination: RemoteId) returns (r: Result<Managed, Error>)
      requires Inv() && template in known && !HasTemplate(playlists, template)
      requires journal == Some(DestinationKnown(template, destination))
      modifies this`clock, this`journal, this`playlists
      ensures Inv()
      ensures playlists == old(playlists)
              || playlists == old(playlists) + [Managed(template, template, destination, true)]
      ensures journal == old(journal) || (journal == None && playlists != old(playlists))
      ensures r.Ok? ==>
                && journal == None && playlists == old(playlists) + [r.value] && r.value.destination == destination
      ensures r.Err? ==> !r.error.Uncertain? && !r.error.Cooldown? && !r.error.Persistence? && !r.error.Api?
      ensures Calm(old(clock)) && Finishable(old(playlists), template, destination, Suspension()) ==> r.Ok?
    {
      hide Covered, NamesExist, OnePerTemplate, Compiles, Finishable, ExactlyOnce, Exclusive, Heading, Sound, Calm;
      var finalized := FinalizeKnown();
      if finalized.Err? {
        return Err(if finalized.error == StateError || finalized.error == JournalError
                   then NotPersisted(destination) else finalized.error);
      }
      return Ok(finalized.value.value);
    }

    /** The intent becomes durable; no request has been sent for it. */
    method BeginIntent(template: TemplateId) returns (saved: Outcome<Error>)
      requires Inv() && journal == None
      modifies this`clock, this`journal, this`asked
      ensures Inv() && Sound(requests, None, playlists, released, None) && asked == None
      ensures clock == old(clock) + 1 && (Calm(old(clock)) ==> saved.Pass?)
      ensures journal == Some(RequestStarted(template)) || (saved.Fail? && journal == None)
      ensures saved.Fail? ==> saved.error == JournalError || saved.error == Crashed
    {
      hide Covered, NamesExist, OnePerTemplate;
      JournalKeepsSound(requests, released, released, asked, None, None, None, playlists);
      asked := None;
      saved := WriteJournal(Some(RequestStarted(template)));
      JournalKeepsSound(requests, released, released, None, None, None, journal, playlists);
    }

    /**
     * A new playlist: the intent is durable before the request is sent, and no request is sent
     * while the journal holds one.
     */
    method Activate(template: TemplateId, wellFormed: bool) returns (r: Result<Managed, Error>)
      requires Inv()
      modifies this`clock, this`journal, this`playlists, this`requests, this`asked
      ensures Inv()
      ensures requests == old(requests) || (|requests| == |old(requests)| + 1 && old(requests) < requests)
      ensures old(journal).Some? || template !in known || HasTemplate(old(playlists), template) || !wellFormed ==>
                r.Err? && journal == old(journal) && playlists == old(playlists) && requests == old(requests)
      ensures playlists == old(playlists)
              || (|requests| > |old(requests)| && !HasTemplate(old(playlists), template)
                  && playlists == old(playlists) + [Managed(template, template, Created(|old(requests)|), true)])
      ensures old(journal).None? && journal.Some? && journal.value.DestinationKnown? ==>
                journal.value == DestinationKnown(template, Created(|old(requests)|))
      ensures r.Ok? ==>
                && journal == None && playlists == old(playlists) + [r.value]
                && r.value.destination == Created(|old(requests)|)
      ensures r == Err(Uncertain) ==>
                && requests == old(requests) + [MayExist] && playlists == old(playlists)
                && (journal == Some(RequestStarted(template))
                    || journal == Some(DestinationKnown(template, Created(|old(requests)|))))
      ensures r.Err? && (r.error == Cooldown || r.error.Api?) ==>
                && journal == None && playlists == old(playlists)
                && (requests == old(requests) || requests == old(requests) + [Refused])
      ensures r == Err(Persistence) ==>
                && journal == Some(RequestStarted(template)) && playlists == old(playlists)
                && BackoffLost(script(old(clock) + 3))
                && requests == old(requests) + if script(old(clock) + 3).create.BackoffUnsaved? then [Refused] else []
      ensures Calm(old(clock)) && BackoffLost(script(old(clock) + 3)) && old(journal).None? && wellFormed
              && template in known && !HasTemplate(old(playlists), template) ==>
                r == Err(Persistence)
      ensures Calm(old(clock)) && script(old(clock) + 3).create.Answered? && old(journal).None? && wellFormed
              && template in known && Finishable(old(playlists), template, Created(|old(requests)|), Suspension())
              && !HasTemplate(old(playlists), template) ==>
                r.Ok?
    {
      hide Sound, Compiles, Finishable, ExactlyOnce, Exclusive, Heading, HasTemplate;
      var loaded :- LoadJournal();
      if loaded.Some? {
        return Err(RecoveryRequired);
      }
      var tick := Next();
      if template !in known || HasTemplate(playlists, template) || !wellFormed || !tick.accepted {
        return Err(Rejected);
      }
      var saved := BeginIntent(template);
      if saved.Fail? {
        return Err(saved.error);
      }
      var destination :- CreateUnder(template);
      r := FinishCreated(template, destination);
    }

    /** The account must own the candidate, under the intended name: the requests that adoption makes. */
    method CheckOwner(candidate: RemoteId) returns (o: Outcome<Error>)
      modifies this`clock
      ensures clock == old(clock) + 1 && o != Fail(AssertionFailed)
      ensures o.Pass? ==> Exists(candidate, requests)
      ensures Calm(old(clock)) && script(old(clock)).create.Answered? && Exists(candidate, requests) ==> o.Pass?
    {
      var tick := Next();
      match tick.create {
        case CrashBefore => return Fail(Crashed);
        case CrashAfter => return Fail(Crashed);
        case ApiError(status) => return Fail(Api(status));
        case TransportError => return Fail(Transport);
        case Suppressed => return Fail(Cooldown);
        case BackoffUnreadable => return Fail(Persistence);
        case BackoffUnsaved => return Fail(Persistence);
        case Malformed => return Fail(Rejected);
        case Answered =>
          o := if Exists(candidate, requests) && tick.accepted then Pass else Fail(Rejected);
      }
    }

    /** The candidate's name goes into the journal; the request that was sent for the intent is given up with it. */
    method NameCandidate(template: TemplateId, candidate: RemoteId) returns (saved: Outcome<Error>)
      requires Inv() && journal == Some(RequestStarted(template)) && Exists(candidate, requests)
      modifies this`clock, this`journal, this`released
      ensures Inv() && clock == old(clock) + 1 && (Calm(old(clock)) ==> saved.Pass?)
      ensures journal == Some(DestinationKnown(template, candidate)) || (saved.Fail? && journal == old(journal))
      ensures journal == old(journal) ==> released == old(released)
      ensures released == old(released)
              || (asked.Some? && requests[asked.value].MayExist? && candidate != Created(asked.value)
                  && released == old(released) + {asked.value})
      ensures saved.Fail? ==> saved.error == JournalError || saved.error == Crashed
    {
      hide Covered, NamesExist, OnePerTemplate;
      var named := Some(DestinationKnown(template, candidate));
      saved := WriteJournal(named);
      ghost var more :=
        if journal == named && asked.Some? && requests[asked.value].MayExist? && candidate != Created(asked.value)
        then released + {asked.value} else released;
      JournalKeepsSound(requests, released, more, asked, asked, old(journal), journal, playlists);
      released := more;
    }

    /**
     * The operator names the playlist that an unresolved request made. Nothing ties the name to
     * the request: any playlist that exists is accepted, and naming another one gives the
     * request's own up. Where nothing was sent for the intent, nothing is given up. For a template that
     * a quarantined draft suspends, it ends in a failed assertion, and the journal keeps the name.
     */
    method Adopt(candidate: RemoteId) returns (r: Result<Managed, Error>)
      requires Inv()
      modifies this`clock, this`journal, this`playlists, this`released
      ensures Inv()
      ensures !Unresolved(old(journal)) ==>
                r.Err? && journal == old(journal) && playlists == old(playlists) && released == old(released)
      ensures Unresolved(old(journal)) ==>
                var named := Some(DestinationKnown(old(journal).value.template, candidate));
                && (journal == old(journal) || journal == named || journal == None)
                && (journal == old(journal) ==> playlists == old(playlists) && released == old(released))
                && (journal != old(journal) ==> FinalizeStep(named, old(playlists), journal, playlists))
                && (journal != old(journal) ==> Exists(candidate, requests))
      ensures released == old(released)
              || (asked.Some? && requests[asked.value].MayExist? && candidate != Created(asked.value)
                  && released == old(released) + {asked.value})
      ensures Unresolved(old(journal)) && Calm(old(clock)) && script(old(clock) + 1).create.Answered?
              && Exists(candidate, requests) && old(journal).value.template in known
              && Finishable(old(playlists), old(journal).value.template, candidate, Suspension()) ==>
                r.Ok?
      ensures r.Ok? ==>
                && Unresolved(old(journal)) && journal == None && r.value in playlists
                && r.value.template == old(journal).value.template && r.value.destination == candidate
      ensures r == Err(AssertionFailed) ==>
                && Unresolved(old(journal)) && Suspended(old(journal).value.template)
                && !HasTemplate(old(playlists), old(journal).value.template) && playlists == old(playlists)
                && journal == Some(DestinationKnown(old(journal).value.template, candidate))
      ensures Unresolved(old(journal)) && Calm(old(clock)) && script(old(clock) + 1).create.Answered?
              && Exists(candidate, requests) ==>
                var t := old(journal).value.template;
                (r == Err(AssertionFailed) <==> Suspended(t) && !HasTemplate(old(playlists), t))
    {
      hide ExactlyOnce, Exclusive, Heading, Sound, Finishable, Compiles, Suspension, Settled, HasTemplate, Suspended;
      var loaded :- LoadJournal();
      if loaded.None? || !loaded.value.RequestStarted? {
        return Err(Rejected);
      }
      var owned := CheckOwner(candidate);
      if owned.Fail? {
        return Err(owned.error);
      }
      var saved := NameCandidate(loaded.value.template, candidate);
      if saved.Fail? {
        return Err(saved.error);
      }
      var finalized :- FinalizeKnown();
      if finalized.None? {
        return Err(AssertionFailed);
      }
      return Ok(finalized.value);
    }

    /** The operator has looked, and says that nothing was made: the only way to drop an unresolved request. */
    method ClearUncertain() returns (o: Outcome<Error>)
      requires Inv()
      modifies this`clock, this`journal, this`released
      ensures Inv()
      ensures journal == old(journal) || (journal == None && Unresolved(old(journal)))
      ensures released == old(released)
              || (journal != old(journal) && asked.Some? && requests[asked.value].MayExist?
                  && released == old(released) + {asked.value})
      ensures o.Pass? ==> Unresolved(old(journal)) && journal == None
      ensures Calm(old(clock)) && Unresolved(old(journal)) ==> o.Pass?
    {
      var loaded := LoadJournal();
      if loaded.Err? {
        return Fail(loaded.error);
      }
      if loaded.value.None? || !loaded.value.value.RequestStarted? {
        return Fail(Rejected);
      }
      o := WriteJournal(None);
      ghost var more :=
        if journal == None && asked.Some? && requests[asked.value].MayExist?
        then released + {asked.value} else released;
      JournalKeepsSound(requests, released, more, asked, asked, loaded.value, journal, playlists);
      released := more;
    }

    /** The record goes; the remote playlist stays, and is nobody's. */
    method StopManaging(id: string) returns (r: Result<RemoteId, Error>)
      requires Inv()
      modifies this`clock, this`playlists, this`released
      ensures Inv()
      ensures playlists == old(playlists)
              || (HasTemplate(old(playlists), id) && playlists == Without(old(playlists), id))
      ensures released == old(released)
              || exists p :: p in old(playlists) && p.id == id && p.destination.Created?
                             && released == old(released) + {p.destination.request}
      ensures r.Ok? ==> Settled(old(playlists), id, r.value) && playlists == Without(old(playlists), id)
      ensures Calm(old(clock)) && HasTemplate(old(playlists), id) && !Suspended(id)
              && Compiles(Without(old(playlists), id), Suspension()) ==>
                r.Ok?
    {
      var found := Find(playlists, id);
      if found.None? || Suspended(id) {
        return Err(Rejected);
      }
      var stopped := found.value;
      var managedBefore := playlists;
      var saved := SaveState(Without(playlists, id));
      ghost var more :=
        if playlists != managedBefore && stopped.destination.Created?
        then released + {stopped.destination.request} else released;
      if playlists != managedBefore {
        StopKeepsSound(requests, journal, managedBefore, released, asked, stopped, more);
      }
      released := more;
      if saved.Fail? {
        return Err(saved.error);
      }
      return Ok(stopped.destination);
    }

    method SetEnabled(id: string, enabled: bool) returns (o: Outcome<Error>)
      requires Inv()
      modifies this`clock, this`playlists
      ensures Inv()
      ensures playlists == old(playlists) || playlists == WithEnabled(old(playlists), id, enabled)
      ensures o.Pass? ==> HasTemplate(old(playlists), id) && playlists == WithEnabled(old(playlists), id, enabled)
      ensures playlists != old(playlists) ==> Compiles(playlists, Suspension())
      ensures Calm(old(clock)) && HasTemplate(old(playlists), id) && !Suspended(id)
              && Compiles(WithEnabled(old(playlists), id, enabled), Suspension()) ==>
                o.Pass?
    {
      if !HasTemplate(playlists, id) || Suspended(id) {
        return Fail(Rejected);
      }
      EnableKeepsSound(requests, journal, playlists, released, asked, id, enabled);
      o := SaveState(WithEnabled(playlists, id, enabled));
    }

    method Step(command: Command) returns (crashed: bool)
      requires Inv()
      modifies this
      ensures Inv()
      ensures requests == old(requests)
              || (command.Activate? && old(journal).None?
                  && |requests| == |old(requests)| + 1 && old(requests) < requests)
      ensures !command.Adopt? && !command.ClearUncertain? && !command.StopManaging? ==> released == old(released)
      ensures forall t, d :: old(Heading(journal, playlists, t, d)) && command != Command.StopManaging(t) ==>
                Heading(journal, playlists, t, d)
      ensures old(Exclusive(journal, playlists)) && !(command.Adopt? && Manages(old(playlists), command.candidate)) ==>
                Exclusive(journal, playlists)
    {
      ghost var before, had := journal, playlists;
      match command {
        case Activate(template, wellFormed) =>
          var r := Activate(template, wellFormed);
          crashed := r == Err(Crashed);
          AddedKeeps(before, had, journal, playlists, old(requests));
        case Finalize =>
          var r := FinalizeKnown();
          crashed := r == Err(Crashed);
          FinalizeKeeps(before, had, journal, playlists);
        case Adopt(candidate) =>
          var r := Adopt(candidate);
          crashed := r == Err(Crashed);
          if journal != before {
            FinalizeKeeps(Some(DestinationKnown(before.value.template, candidate)), had, journal, playlists);
          }
        case ClearUncertain =>
          var o := ClearUncertain();
          crashed := o == Fail(Crashed);
        case StopManaging(id) =>
          var r := StopManaging(id);
          crashed := r == Err(Crashed);
          if playlists != had {
            StopKeeps(before, had, id);
          }
        case SetEnabled(id, enabled) =>
          var o := SetEnabled(id, enabled);
          crashed := o == Fail(Crashed);
          if playlists != had {
            EnableKeeps(before, had, id, enabled);
          }
        case EditTemplates(known, quarantined) =>
          this.known, this.quarantined := known, quarantined;
          crashed := false;
      }
    }

    /**
     * Any run of the service, crashes and restarts included. What the journal or managed state
     * once said about a template's playlist stays true until that template is stopped.
     */
    method Run(commands: seq<Command>)
      requires Inv()
      modifies this
      ensures Inv()
      ensures old(requests) <= requests
      ensures (forall c :: c in commands ==> !c.Adopt? && !c.ClearUncertain? && !c.StopManaging?) ==>
                released == old(released)
      ensures forall t, d :: old(Heading(journal, playlists, t, d)) && Command.StopManaging(t) !in commands ==>
                Heading(journal, playlists, t, d)
      ensures old(Exclusive(journal, playlists)) && (forall c :: c in commands ==> !c.Adopt?) ==>
                Exclusive(journal, playlists)
    {
      hide Sound, Heading, Exclusive;
      for k := 0 to |commands|
        invariant Inv() && old(requests) <= requests
        invariant (forall c :: c in commands ==> !c.Adopt? && !c.ClearUncertain? && !c.StopManaging?) ==>
          released == old(released)
        invariant forall t, d :: old(Heading(journal, playlists, t, d)) && Command.StopManaging(t) !in commands ==>
          Heading(journal, playlists, t, d)
        invariant old(Exclusive(journal, playlists)) && (forall c :: c in commands ==> !c.Adopt?) ==>
          Exclusive(journal, playlists)
      {
        var crashed := Step(commands[k]);
      }
    }
  }

  /** An answer to everything: operations work, checks accept, and requests are answered. */
  function Willing(k: nat): Tick {
    Tick(Works, Answered, true)
  }

  /**
   * Adoption accepts a playlist that the unresolved request did not make: it is managed from then on,
   * and the one that the request made is given up.
   */
  method AdoptsAnother() returns (service: ManagedAdminService, r: Result<Managed, Error>)
    ensures r == Ok(Managed("t", "t", Foreign("other"), true)) && service.journal == None
    ensures service.requests == [MayExist] && service.released == {0} && !Manages(service.playlists, Created(0))
  {
    service := new ManagedAdminService(Willing, {"t"}, false);
    service.journal, service.requests, service.asked := Some(RequestStarted("t")), [MayExist], Some(0);
    assert Finishable([], "t", Foreign("other"), service.Suspension());
    r := service.Adopt(Foreign("other"));
    assert service.playlists == [Managed("t", "t", Foreign("other"), true)];
    assert Covered(0, service.requests, service.journal, service.playlists, service.released, service.asked);
  }

  /** As before, but at this tick the request meets the given answer. */
  function Meeting(at: nat, answer: CreateAnswer): nat -> Tick {
    k => Tick(Works, if k == at then answer else Answered, true)
  }

  /** A refused request whose backoff cannot be saved leaves an intent that says it may have succeeded. */
  method RefusalKeepsIntent() returns (service: ManagedAdminService, r: Result<Managed, Error>)
    ensures r == Err(Persistence) && service.requests == [Refused] && service.journal == Some(RequestStarted("t"))
  {
    service := new ManagedAdminService(Meeting(3, BackoffUnsaved), {"t"}, false);
    r := service.Activate("t", true);
  }

  /** Adoption for a suspended template fails an assertion after the journal has been rewritten. */
  method AdoptsSuspended() returns (service: ManagedAdminService, r: Result<Managed, Error>)
    ensures r == Err(AssertionFailed) && service.playlists == []
    ensures service.journal == Some(DestinationKnown("custom_t", Created(0)))
  {
    service := new ManagedAdminService(Willing, {}, true);
    service.journal, service.requests, service.asked := Some(RequestStarted("custom_t")), [MayExist], Some(0);
    assert service.Inv() by {
      assert Covered(0, service.requests, service.journal, service.playlists, service.released, service.asked);
    }
    r := service.Adopt(Created(0));
  }
}
