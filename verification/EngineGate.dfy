/**
 * One engine cycle of engine.py, seen from the destinations: which playlists may be replaced, which
 * may only be added to, and which are left alone. Detectors, catalogues, the desired-state builder
 * and the two reconcilers answer through the oracle `script`, and the stores fail where the oracle
 * `fails` says, so what holds for any two oracles holds for every cycle.
 */
module EngineGate {
  import opened Basics
  import opened EngineConfig
  import opened Models

  /** What the journal holds about a source's catalogue. */
  datatype SourceState = SourceState(showId: string, lastRefreshAt: Instant, coverageProven: bool,
                                     coverageCutoffAt: Instant)
  type Journal = map<SourceId, SourceState>

  datatype SourceOutcome = SourceOutcome(ok: bool, refreshed: bool, nullItems: nat, episodes: set<string>)
  datatype Kind = Replacement | Retry | AddOnly
  /**
   * A reconciler was let loose on a destination: what for, with which list, and at that moment what
   * the journal held and which state the catalogue was in.
   */
  datatype Attempt = Attempt(kind: Kind, playlist: Playlist, journal: Journal, evidence: Evidence,
                             payload: seq<Uri>, catalogue: nat)
  type Evidence = map<SourceId, set<string>>

  datatype Status =
    | PreservedBlocked | PartiallyAdded | PartialPaused | SkippedLocally | Unauthorized | Reconciled | NotReconciled
  datatype PlaylistOutcome = PlaylistOutcome(id: string, status: Status)

  datatype Fetch = Fetched(proven: bool, nullItems: nat, episodes: set<string>) | FetchFailed
  datatype Answer = Succeeds | RefusedWith(status: nat) | OtherError
  datatype PartialAnswer = AddedSome | NothingNew | Paused | PartialError
  /** A refresh that was persisted may still fail to be marked as made. */
  datatype Tick = Tick(fetch: Fetch, persisted: bool, marked: bool, session: bool, skip: bool, pending: bool,
                       answer: Answer, partialAnswer: PartialAnswer)

  const HOUR: Instant := 3_600_000_000
  const DEFAULT_RETENTION := 48
  const BAD_REQUEST := 400

  function Cutoff(now: Instant, hours: nat): Instant {
    now - hours * HOUR
  }

  ghost predicate DistinctSources(sources: seq<Source>) {
    forall i, j :: 0 <= i < j < |sources| ==> sources[i].id != sources[j].id
  }

  // ---------------------------------------------------------------- coverage

  /** The source is enabled, its journal entry is for its show, and reaches back to the cutoff. */
  predicate Covers(config: Config, journal: Journal, id: SourceId, cutoff: Instant) {
    var source := FindSource(config.sources, id);
    && source.Some? && source.value.enabled
    && id in journal
    && journal[id].showId == ShowId(source.value.references)
    && journal[id].coverageProven
    && journal[id].coverageCutoffAt <= cutoff
  }

  /** Every assigned source is enabled and proven back to the playlist's own cutoff. */
  ghost predicate Ready(config: Config, journal: Journal, playlist: Playlist, now: Instant) {
    forall id :: id in playlist.explicit ==> Covers(config, journal, id, Cutoff(now, playlist.retentionHours))
  }

  /** One assigned source of a playlist that may be added to, but not replaced. */
  predicate Tolerable(config: Config, journal: Journal, cutoff: Instant, now: Instant, evidence: Evidence,
                      id: SourceId) {
    var source := FindSource(config.sources, id);
    && source.Some? && source.value.enabled && id in journal && journal[id].showId == ShowId(source.value.references)
    && journal[id].coverageCutoffAt <= cutoff
    && (if id in evidence then !journal[id].coverageProven && journal[id].lastRefreshAt == now
        else journal[id].coverageProven)
  }

  /** Only sources in which this very cycle's catalogue read found hidden items may fall short. */
  ghost predicate PartialAllowed(config: Config, journal: Journal, playlist: Playlist, now: Instant,
                                 evidence: Evidence) {
    && evidence != map[]
    && (forall id :: id in evidence ==> id in playlist.explicit && evidence[id] != {})
    && forall id :: id in playlist.explicit ==>
         Tolerable(config, journal, Cutoff(now, playlist.retentionHours), now, evidence, id)
  }

  /** Every assigned source was read again, for this playlist's own cutoff, in this cycle. */
  ghost predicate RefetchedHere(config: Config, journal: Journal, playlist: Playlist, now: Instant) {
    forall id :: id in playlist.explicit ==>
      && id in journal && journal[id].lastRefreshAt == now
      && journal[id].coverageCutoffAt == Cutoff(now, playlist.retentionHours)
  }

  predicate IsRequired(config: Config, source: Source) {
    && source.enabled
    && exists p :: p in config.playlists && p.enabled && source.id in p.explicit
  }

  function Required(config: Config, sources: seq<Source>): (required: seq<Source>)
    ensures forall s :: s in required <==> s in sources && IsRequired(config, s)
  {
    if sources == [] then [] else
      var last := |sources| - 1;
      var before := Required(config, sources[..last]);
      if IsRequired(config, sources[last]) then before + [sources[last]] else before
  }

  /** The longest retention among the enabled playlists that a source feeds. */
  function MaxRetention(playlists: seq<Playlist>, id: SourceId): (hours: nat)
    ensures forall p :: p in playlists && p.enabled && id in p.explicit ==> p.retentionHours <= hours
  {
    if playlists == [] then 0 else
      var last := playlists[|playlists| - 1];
      var before := MaxRetention(playlists[..|playlists| - 1], id);
      if last.enabled && id in last.explicit && last.retentionHours > before then last.retentionHours else before
  }

  function RefreshRetention(config: Config, id: SourceId): nat {
    if exists p :: p in config.playlists && p.enabled && id in p.explicit
    then MaxRetention(config.playlists, id) else DEFAULT_RETENTION
  }

  /** One refresh at the longest retention covers the source for every playlist it feeds. */
  lemma RefreshServesAll(config: Config, journal: Journal, source: Source, now: Instant, playlist: Playlist)
    requires DistinctSources(config.sources) && source in config.sources && source.enabled
    requires playlist in config.playlists && playlist.enabled && source.id in playlist.explicit
    ensures var refreshed := journal[source.id := SourceState(ShowId(source.references), now, true,
                                                              Cutoff(now, RefreshRetention(config, source.id)))];
            Covers(config, refreshed, source.id, Cutoff(now, playlist.retentionHours))
  {
    FoundAlone(config.sources, source);
    assert playlist.retentionHours <= RefreshRetention(config, source.id);
    assert playlist.retentionHours * HOUR <= RefreshRetention(config, source.id) * HOUR;
  }

  lemma FoundAlone(sources: seq<Source>, source: Source)
    requires DistinctSources(sources) && source in sources
    ensures FindSource(sources, source.id) == Some(source)
  {
    var found := FindSource(sources, source.id).value;
    var i, j :| 0 <= i < |sources| && 0 <= j < |sources| && sources[i] == source && sources[j] == found;
  }

  // ---------------------------------------------------------------- the cycle

  function EnabledIds(playlists: seq<Playlist>): seq<string> {
    if playlists == [] then [] else
      var last := playlists[|playlists| - 1];
      EnabledIds(playlists[..|playlists| - 1]) + (if last.enabled then [last.id] else [])
  }

  function OutcomeIds(outcomes: seq<PlaylistOutcome>): (ids: seq<string>)
    ensures |ids| == |outcomes|
  {
    seq(|outcomes|, i requires 0 <= i < |outcomes| => outcomes[i].id)
  }

  class EngineRunner {
    const config: Config
    const script: nat -> Tick
    /** Whether the k-th operation on the stores that no handler of the cycle covers raises an error. */
    const fails: nat -> bool
    /** The desired list that the builder makes for a playlist from the n-th state of the catalogue. */
    const build: (nat, Playlist) -> seq<Uri>
    /** The same from those episodes alone that the evidence names. */
    const buildPartial: (nat, Playlist, Evidence) -> seq<Uri>
    const now: Instant
    var clock: nat
    var operations: nat
    var journal: Journal
    /** Counts the catalogue's states: each refresh that is persisted makes a new one. */
    var catalogue: nat
    /** The journal that belongs to each state of the catalogue. */
    ghost var history: seq<Journal>
    ghost var attempts: seq<Attempt>

    constructor (config: Config, script: nat -> Tick, fails: nat -> bool, build: (nat, Playlist) -> seq<Uri>,
                 buildPartial: (nat, Playlist, Evidence) -> seq<Uri>, now: Instant, journal: Journal)
      requires DistinctSources(config.sources)
      ensures Inv() && attempts == [] && operations == 0 && clock == catalogue == 0
      ensures this.config == config && this.now == now && this.journal == journal
      ensures this.script == script && this.fails == fails && this.build == build
    {
      this.config, this.script, this.fails, this.build, this.buildPartial := config, script, fails, build, buildPartial;
      this.now, this.journal := now, journal;
      clock, operations, catalogue, attempts, history := 0, 0, 0, [], [journal];
    }

    /** Every attempt on a destination had what its kind needs, and none was planned from an older catalogue. */
    ghost predicate Inv()
      reads this`attempts, this`catalogue, this`journal, this`history
    {
      && DistinctSources(config.sources)
      && |history| == catalogue + 1 && history[catalogue] == journal
      && (forall a :: a in attempts ==> Justified(a))
      && (forall i, j :: 0 <= i < j < |attempts| ==> attempts[i].catalogue <= attempts[j].catalogue)
    }

    ghost predicate Justified(a: Attempt)
      reads this`history
    {
      && a.playlist in config.playlists && a.playlist.enabled
      && a.catalogue < |history| && a.journal == history[a.catalogue]
      && match a.kind
         case AddOnly => && PartialAllowed(config, a.journal, a.playlist, now, a.evidence)
                         && a.payload == buildPartial(a.catalogue, a.playlist, a.evidence) != []
         case Replacement => && Ready(config, a.journal, a.playlist, now)
                             && a.payload == build(a.catalogue, a.playlist)
         case Retry => && Ready(config, a.journal, a.playlist, now)
                       && a.payload == build(a.catalogue, a.playlist)
                       && RefetchedHere(config, a.journal, a.playlist, now)
    }

    method Next() returns (tick: Tick)
      modifies this`clock
      ensures clock == old(clock) + 1 && tick == script(old(clock))
    {
      tick := script(clock);
      clock := clock + 1;
    }

    /** No operation on the stores fails from one point to another. */
    ghost predicate Intact(from: nat, to: nat) {
      forall k :: from <= k < to ==> !fails(k)
    }

    /** A read or a record whose failure ends the cycle. */
    method StoreWorks() returns (works: bool)
      modifies this`operations
      ensures operations == old(operations) + 1 && works == Intact(old(operations), operations)
      ensures works == !fails(old(operations))
    {
      works := !fails(operations);
      operations := operations + 1;
    }

    method Attempts(a: Attempt)
      requires Inv() && Justified(a) && a.catalogue == catalogue
      modifies this`attempts
      ensures Inv() && attempts == old(attempts) + [a]
    {
      forall i | 0 <= i < |attempts|
        ensures attempts[i].catalogue <= a.catalogue
      {
        assert Justified(attempts[i]);
      }
      attempts := attempts + [a];
    }

    /** `apply_source_refresh`: the catalogue and the trust in it change together, or not at all. */
    method ApplyRefresh(source: Source, proven: bool, cutoff: Instant, persisted: bool) returns (applied: bool)
      requires Inv()
      modifies this`journal, this`catalogue, this`history
      ensures Inv()
      ensures applied <==> persisted && (source.id !in old(journal) || old(journal)[source.id].lastRefreshAt <= now)
      ensures applied ==>
                && catalogue == old(catalogue) + 1
                && journal == old(journal)[source.id := SourceState(ShowId(source.references), now, proven, cutoff)]
      ensures !applied ==> catalogue == old(catalogue) && journal == old(journal)
    {
      if !persisted || (source.id in journal && journal[source.id].lastRefreshAt > now) {
        return false;
      }
      journal := journal[source.id := SourceState(ShowId(source.references), now, proven, cutoff)];
      catalogue, history := catalogue + 1, history + [journal];
      return true;
    }

    /** `None` when the stores fail where nothing handles it. */
    method RefreshSource(source: Source) returns (outcome: Option<SourceOutcome>)
      requires Inv()
      modifies this`clock, this`operations, this`journal, this`catalogue, this`history
      ensures Inv() && operations >= old(operations)
      ensures outcome.Some? <==> Intact(old(operations), operations)
      ensures || journal == old(journal)
              || journal == old(journal)[source.id := Refreshed(source, true)]
              || journal == old(journal)[source.id := Refreshed(source, false)]
      ensures outcome.Some? ==>
                var tick := script(old(clock));
                (outcome.value.refreshed <==>
                   && tick.fetch.Fetched? && tick.persisted && tick.marked
                   && (source.id !in old(journal) || old(journal)[source.id].lastRefreshAt <= now))
      ensures outcome.Some? && outcome.value.refreshed ==>
                journal == old(journal)[source.id := Refreshed(source, outcome.value.ok)]
      ensures outcome.Some? && outcome.value.ok ==> source.id in journal && journal[source.id].coverageProven
    {
      var readable := StoreWorks();
      if !readable {
        return None;
      }
      var tick := Next();
      if tick.fetch.Fetched? {
        var cutoff := Cutoff(now, RefreshRetention(config, source.id));
        var applied := ApplyRefresh(source, tick.fetch.proven, cutoff, tick.persisted);
        if applied && tick.marked {
          return Some(SourceOutcome(tick.fetch.proven, true, tick.fetch.nullItems, tick.fetch.episodes));
        }
      }
      outcome := ReadOutcome(source.id);
    }

    /** What the journal holds after a refresh in this cycle, for every playlist that the source feeds. */
    function Refreshed(source: Source, proven: bool): SourceState {
      SourceState(ShowId(source.references), now, proven, Cutoff(now, RefreshRetention(config, source.id)))
    }

    method ReadOutcome(id: SourceId) returns (outcome: Option<SourceOutcome>)
      modifies this`operations
      ensures operations == old(operations) + 1 && (outcome.Some? <==> Intact(old(operations), operations))
      ensures outcome.Some? ==> outcome.value == UnchangedOutcome(id)
    {
      var works := StoreWorks();
      outcome := if works then Some(UnchangedOutcome(id)) else None;
    }

    function UnchangedOutcome(id: SourceId): SourceOutcome
      reads this`journal
    {
      SourceOutcome(id in journal && journal[id].coverageProven, false, 0, {})
    }

    /** `_playlist_blocking_source_ids`: the assigned sources that cannot prove the destination safe to replace. */
    method BlockingSources(playlist: Playlist) returns (result: Option<seq<SourceId>>)
      modifies this`operations
      ensures operations >= old(operations) && (result.Some? <==> Intact(old(operations), operations))
      ensures result.Some? ==> forall id :: id in result.value <==>
                id in playlist.explicit && !Covers(config, journal, id, Cutoff(now, playlist.retentionHours))
      ensures result.Some? ==> (result.value == [] <==> Ready(config, journal, playlist, now))
    {
      hide Covers;
      var cutoff := Cutoff(now, playlist.retentionHours);
      var blocked: seq<SourceId> := [];
      for i := 0 to |playlist.explicit|
        invariant operations >= old(operations) && Intact(old(operations), operations)
        invariant forall id :: id in blocked <==> id in playlist.explicit[..i] && !Covers(config, journal, id, cutoff)
      {
        var id := playlist.explicit[i];
        var source := FindSource(config.sources, id);
        if source.Some? && source.value.enabled {
          var readable := StoreWorks();
          if !readable {
            return None;
          }
        }
        if !Covers(config, journal, id, cutoff) {
          blocked := blocked + [id];
        }
      }
      assert playlist.explicit[..|playlist.explicit|] == playlist.explicit;
      if blocked != [] {
        assert blocked[0] in blocked;
      } else {
        forall id | id in playlist.explicit ensures Covers(config, journal, id, cutoff) {
          assert id !in blocked;
        }
      }
      return Some(blocked);
    }

    /**
     * `_partial_catalogue_evidence`: which episodes may be added, source by source; or none at all. Without
     * `works`, the stores failed.
     */
    method PartialEvidence(playlist: Playlist, outcomes: map<SourceId, SourceOutcome>)
      returns (evidence: Option<Evidence>, works: bool)
      modifies this`operations
      ensures operations >= old(operations) && (works <==> Intact(old(operations), operations))
      ensures evidence.Some? ==> PartialAllowed(config, journal, playlist, now, evidence.value)
      ensures evidence.Some? ==> forall id :: id in evidence.value ==>
                id in outcomes && outcomes[id].refreshed && outcomes[id].nullItems > 0
                && outcomes[id].episodes == evidence.value[id]
    {
      var cutoff := Cutoff(now, playlist.retentionHours);
      var allowed: Evidence := map[];
      for i := 0 to |playlist.explicit|
        invariant operations >= old(operations) && Intact(old(operations), operations)
        invariant forall id :: id in allowed ==>
          id in playlist.explicit[..i] && allowed[id] != {} && id in outcomes && outcomes[id].refreshed
          && outcomes[id].nullItems > 0 && outcomes[id].episodes == allowed[id]
        invariant forall id :: id in playlist.explicit[..i] ==> Tolerable(config, journal, cutoff, now, allowed, id)
      {
        var id := playlist.explicit[i];
        var source := FindSource(config.sources, id);
        if source.None? || !source.value.enabled {
          return None, true;
        }
        works := StoreWorks();
        if !works {
          return None, false;
        }
        if id !in journal || journal[id].showId != ShowId(source.value.references) {
          return None, true;
        }
        var state := journal[id];
        if state.coverageProven && state.coverageCutoffAt <= cutoff {
          assert id in allowed ==> Tolerable(config, journal, cutoff, now, allowed, id);
          continue;
        }
        if || id !in outcomes || !outcomes[id].refreshed || outcomes[id].nullItems == 0 || outcomes[id].episodes == {}
           || state.lastRefreshAt != now || state.coverageCutoffAt > cutoff {
          return None, true;
        }
        ghost var before := allowed;
        allowed := allowed[id := outcomes[id].episodes];
        forall other | other in playlist.explicit[..i + 1]
          ensures Tolerable(config, journal, cutoff, now, allowed, other)
        {
          assert other != id ==> Tolerable(config, journal, cutoff, now, before, other);
        }
      }
      assert playlist.explicit[..|playlist.explicit|] == playlist.explicit;
      return if allowed == map[] then None else Some(allowed), true;
    }

    /** Add-only reconciliation; `None` when it has nothing to say and the playlist is reported as blocked. */
    method PartialReconcile(playlist: Playlist, evidence: Evidence, episodes: nat)
      returns (outcome: Option<PlaylistOutcome>)
      requires Inv() && playlist in config.playlists && playlist.enabled && episodes == catalogue
      requires PartialAllowed(config, journal, playlist, now, evidence)
      modifies this`clock, this`attempts
      ensures Inv()
      ensures attempts == old(attempts)
              || attempts == old(attempts) + [Attempt(AddOnly, playlist, journal, evidence,
                                                      buildPartial(catalogue, playlist, evidence), catalogue)]
      ensures outcome.Some? ==>
                && outcome.value.id == playlist.id
                && (outcome.value.status == PartiallyAdded || outcome.value.status == PartialPaused)
                && attempts != old(attempts)
    {
      var tick := Next();
      if tick.pending {
        return None;
      }
      var candidates := buildPartial(episodes, playlist, evidence);
      if candidates == [] {
        return None;
      }
      Attempts(Attempt(AddOnly, playlist, journal, evidence, candidates, catalogue));
      match tick.partialAnswer
      case NothingNew => outcome := None;
      case AddedSome => outcome := Some(PlaylistOutcome(playlist.id, PartiallyAdded));
      case Paused => outcome := Some(PlaylistOutcome(playlist.id, PartialPaused));
      case PartialError => outcome := Some(PlaylistOutcome(playlist.id, PartialPaused));
    }

    /** Each required source of the playlist is read again for its cutoff; false as soon as one falls short. */
    method RefetchSources(playlist: Playlist) returns (complete: bool)
      requires Inv() && playlist in config.playlists && playlist.enabled && Ready(config, journal, playlist, now)
      modifies this`clock, this`journal, this`catalogue, this`history
      ensures Inv()
      ensures complete ==> Ready(config, journal, playlist, now) && RefetchedHere(config, journal, playlist, now)
    {
      var cutoff := Cutoff(now, playlist.retentionHours);
      var required := Required(config, config.sources);
      RequiredDistinct(config, config.sources);
      ghost var before := journal;
      for i := 0 to |required|
        invariant Inv()
        invariant forall j :: 0 <= j < i && required[j].id in playlist.explicit ==>
          && required[j].id in journal
          && journal[required[j].id] == SourceState(ShowId(required[j].references), now, true, cutoff)
      {
        var source := required[i];
        if source.id !in playlist.explicit {
          continue;
        }
        var tick := Next();
        if tick.fetch.FetchFailed? || (!tick.fetch.proven && tick.fetch.nullItems == 0) {
          return false;
        }
        var applied := ApplyRefresh(source, tick.fetch.proven, cutoff, tick.persisted);
        if !applied || !tick.marked || !tick.fetch.proven {
          return false;
        }
      }
      forall id | id in playlist.explicit
        ensures Covers(config, journal, id, cutoff)
        ensures journal[id].lastRefreshAt == now && journal[id].coverageCutoffAt == cutoff
      {
        assert Covers(config, before, id, cutoff);
        var source := FindSource(config.sources, id).value;
        assert IsRequired(config, source);
        var j :| 0 <= j < |required| && required[j] == source;
        assert journal[id] == SourceState(ShowId(source.references), now, true, cutoff);
      }
      return true;
    }

    /**
     * The retry after a destination refused a list as stale (HTTP 400): the list is sent again
     * only if reading the sources again removed something from it.
     */
    method StaleRetry(playlist: Playlist, refused: seq<Uri>, status: nat) returns (succeeded: bool)
      requires Inv() && playlist in config.playlists && playlist.enabled && Ready(config, journal, playlist, now)
      modifies this`clock, this`journal, this`catalogue, this`history, this`attempts
      ensures Inv() && (attempts == old(attempts) || OneMore(old(attempts), attempts, Retry, playlist))
      ensures attempts != old(attempts) ==>
                status == BAD_REQUEST && exists uri :: uri in refused && uri !in attempts[|old(attempts)|].payload
      ensures succeeded ==> attempts != old(attempts)
    {
      if status != BAD_REQUEST {
        return false;
      }
      var complete := RefetchSources(playlist);
      if !complete {
        return false;
      }
      var desired := build(catalogue, playlist);
      if forall uri :: uri in refused ==> uri in desired {
        return false;
      }
      Attempts(Attempt(Retry, playlist, journal, map[], desired, catalogue));
      var tick := Next();
      return tick.answer.Succeeds?;
    }

    /** Full reconciliation of a ready playlist, with its one retry. */
    method ReconcilePlaylist(playlist: Playlist, desired: seq<Uri>) returns (outcome: PlaylistOutcome, stale: bool)
      requires Inv() && playlist in config.playlists && playlist.enabled && Ready(config, journal, playlist, now)
      requires desired == build(catalogue, playlist)
      modifies this`clock, this`journal, this`catalogue, this`history, this`attempts
      ensures Inv() && outcome.id == playlist.id && (outcome.status == Reconciled || outcome.status == NotReconciled)
      ensures catalogue != old(catalogue) ==> stale || outcome.status == NotReconciled
      ensures old(attempts) + [Attempt(Replacement, playlist, old(journal), map[], desired, old(catalogue))] <= attempts
      ensures |attempts| <= |old(attempts)| + 2
      ensures forall k :: |old(attempts)| <= k < |attempts| ==> attempts[k].playlist == playlist
      ensures stale ==> outcome.status == Reconciled
    {
      stale := false;
      Attempts(Attempt(Replacement, playlist, journal, map[], desired, catalogue));
      var tick := Next();
      match tick.answer {
        case Succeeds => outcome := PlaylistOutcome(playlist.id, Reconciled);
        case OtherError => outcome := PlaylistOutcome(playlist.id, NotReconciled);
        case RefusedWith(status) =>
          stale := StaleRetry(playlist, desired, status);
          outcome := PlaylistOutcome(playlist.id, if stale then Reconciled else NotReconciled);
      }
    }

    /** What `_refresh_plan` reads of each required source. */
    method ReadPlan(required: seq<Source>) returns (works: bool)
      modifies this`operations
      ensures operations >= old(operations) && (works <==> Intact(old(operations), operations))
    {
      works := true;
      for i := 0 to |required|
        invariant works && operations >= old(operations) && Intact(old(operations), operations)
      {
        works := StoreWorks();
        if !works {
          return;
        }
      }
    }

    /** The detector's plan, the refreshes, and an outcome for each required source; `None` when the stores fail. */
    method RefreshSources(planned: SourceId -> bool) returns (r: Option<map<SourceId, SourceOutcome>>)
      requires Inv()
      modifies this`clock, this`operations, this`journal, this`catalogue, this`history
      ensures Inv() && operations >= old(operations)
      ensures r.Some? <==> Intact(old(operations), operations)
      ensures r.Some? ==> forall id ::
                id in r.value <==> exists s :: s in config.sources && IsRequired(config, s) && s.id == id
    {
      hide IsRequired, Justified, DistinctSources;
      var required := Required(config, config.sources);
      var readable := ReadPlan(required);
      if !readable {
        return None;
      }
      var outcomes: map<SourceId, SourceOutcome> := map[];
      var tick := Next();
      for i := 0 to |required|
        invariant Inv() && operations >= old(operations) && Intact(old(operations), operations)
        invariant forall id :: id in outcomes ==> exists s :: s in required && s.id == id
      {
        if planned(required[i].id) {
          var outcome: Option<SourceOutcome>;
          if tick.session {
            outcome := RefreshSource(required[i]);
          } else {
            outcome := ReadOutcome(required[i].id);
          }
          if outcome.None? {
            return None;
          }
          outcomes := outcomes[required[i].id := outcome.value];
        }
      }
      r := CompleteOutcomes(required, outcomes);
    }

    /** The sources that were not refreshed get what the journal holds. */
    method CompleteOutcomes(required: seq<Source>, refreshed: map<SourceId, SourceOutcome>)
      returns (r: Option<map<SourceId, SourceOutcome>>)
      requires forall id :: id in refreshed ==> exists s :: s in required && s.id == id
      modifies this`operations
      ensures operations >= old(operations) && (r.Some? <==> Intact(old(operations), operations))
      ensures r.Some? ==> forall id :: id in r.value <==> exists s :: s in required && s.id == id
    {
      var outcomes := refreshed;
      for i := 0 to |required|
        invariant operations >= old(operations) && Intact(old(operations), operations)
        invariant forall id :: id in outcomes ==> exists s :: s in required && s.id == id
        invariant forall j :: 0 <= j < i ==> required[j].id in outcomes
      {
        if required[i].id !in outcomes {
          var outcome := ReadOutcome(required[i].id);
          if outcome.None? {
            return None;
          }
          outcomes := outcomes[required[i].id := outcome.value];
        }
      }
      return Some(outcomes);
    }

    /** The blocking sources are named, and the destination's being left alone is recorded. */
    method Preserve(playlist: Playlist) returns (outcome: Option<PlaylistOutcome>)
      modifies this`operations
      ensures operations >= old(operations) && (outcome.Some? <==> Intact(old(operations), operations))
      ensures outcome.Some? ==> outcome.value == PlaylistOutcome(playlist.id, PreservedBlocked)
    {
      var blocked := BlockingSources(playlist);
      if blocked.None? {
        return None;
      }
      var recorded := StoreWorks();
      return if recorded then Some(PlaylistOutcome(playlist.id, PreservedBlocked)) else None;
    }

    /** The turn of a playlist that may not be replaced: additions, or nothing, and one record of it. */
    method BlockedTurn(playlist: Playlist, episodes: nat, sources: map<SourceId, SourceOutcome>)
      returns (outcome: Option<PlaylistOutcome>)
      requires Inv() && playlist in config.playlists && playlist.enabled && episodes == catalogue
      modifies this`clock, this`operations, this`attempts
      ensures Inv() && operations >= old(operations)
      ensures outcome.Some? <==> Intact(old(operations), operations)
      ensures attempts == old(attempts) || OneMore(old(attempts), attempts, AddOnly, playlist)
      ensures outcome.Some? ==>
                && outcome.value.id == playlist.id
                && (|| outcome.value.status == PreservedBlocked
                    || (attempts != old(attempts)
                        && (outcome.value.status == PartiallyAdded || outcome.value.status == PartialPaused)))
    {
      hide PartialAllowed, Justified, DistinctSources;
      var evidence, readable := PartialEvidence(playlist, sources);
      if !readable {
        return None;
      }
      var tick := Next();
      if evidence.Some? && tick.session {
        var added := PartialReconcile(playlist, evidence.value, episodes);
        if added.Some? {
          var recorded := StoreWorks();
          return if recorded then added else None;
        }
      }
      outcome := Preserve(playlist);
    }

    /** The turn of a playlist whose sources are all proven: skipped on local evidence, or reconciled. */
    method ReadyTurn(playlist: Playlist, episodes: nat) returns (outcome: Option<PlaylistOutcome>, reload: bool)
      requires Inv() && playlist in config.playlists && playlist.enabled && episodes == catalogue
      requires Ready(config, journal, playlist, now)
      modifies this`clock, this`operations, this`journal, this`catalogue, this`history, this`attempts
      ensures Inv() && operations >= old(operations) && old(attempts) <= attempts
      ensures operations == old(operations) + if fails(old(operations)) then 1 else 2
      ensures outcome.Some? <==> Intact(old(operations), operations)
      ensures attempts != old(attempts) <==>
                !fails(old(operations)) && !script(old(clock)).skip && script(old(clock)).session
      ensures outcome.Some? && catalogue != old(catalogue) ==> reload
      ensures forall k :: |old(attempts)| <= k < |attempts| ==> attempts[k].playlist == playlist
      ensures attempts != old(attempts) ==>
                && attempts[|old(attempts)|].kind == Replacement
                && attempts[|old(attempts)|].payload == build(old(catalogue), playlist)
      ensures outcome.Some? ==>
                && outcome.value.id == playlist.id
                && if attempts == old(attempts)
                   then outcome.value.status == SkippedLocally || outcome.value.status == Unauthorized
                   else outcome.value.status == Reconciled || outcome.value.status == NotReconciled
    {
      hide Ready, Justified, DistinctSources;
      reload := false;
      var desired := build(episodes, playlist);
      var readable := StoreWorks();
      if !readable {
        return None, false;
      }
      var tick := Next();
      var result: PlaylistOutcome;
      if tick.skip || !tick.session {
        result := PlaylistOutcome(playlist.id, if tick.skip then SkippedLocally else Unauthorized);
      } else {
        var stale: bool;
        result, stale := ReconcilePlaylist(playlist, desired);
        reload := stale || result.status != Reconciled;
      }
      var recorded := StoreWorks();
      outcome := if recorded then Some(result) else None;
    }

    /**
     * What a playlist gets in its turn: exactly one outcome, unless the stores fail, and only the attempts
     * that its sources allow.
     */
    method Turn(playlist: Playlist, episodes: nat, sources: map<SourceId, SourceOutcome>)
      returns (outcome: Option<PlaylistOutcome>, reload: bool)
      requires Inv() && playlist in config.playlists && playlist.enabled && episodes == catalogue
      modifies this`clock, this`operations, this`journal, this`catalogue, this`history, this`attempts
      ensures Inv() && operations >= old(operations) && old(attempts) <= attempts
      ensures outcome.Some? <==> Intact(old(operations), operations)
      ensures outcome.Some? ==> outcome.value.id == playlist.id && (catalogue != old(catalogue) ==> reload)
      ensures forall k :: |old(attempts)| <= k < |attempts| ==> attempts[k].playlist == playlist
      ensures !Ready(config, old(journal), playlist, now) ==>
                journal == old(journal) && forall k :: |old(attempts)| <= k < |attempts| ==> attempts[k].kind == AddOnly
      ensures !Ready(config, old(journal), playlist, now) && outcome.Some? ==>
                || outcome.value.status == PreservedBlocked
                || (attempts != old(attempts)
                    && (outcome.value.status == PartiallyAdded || outcome.value.status == PartialPaused))
      ensures Ready(config, old(journal), playlist, now) && attempts != old(attempts) ==>
                && attempts[|old(attempts)|].kind == Replacement
                && attempts[|old(attempts)|].payload == build(old(catalogue), playlist)
      ensures Ready(config, old(journal), playlist, now) && outcome.Some? ==>
                if attempts == old(attempts)
                then outcome.value.status == SkippedLocally || outcome.value.status == Unauthorized
                else outcome.value.status == Reconciled || outcome.value.status == NotReconciled
    {
      hide Ready, Justified, DistinctSources;
      var blocked := BlockingSources(playlist);
      if blocked.None? {
        return None, false;
      }
      if blocked.value != [] {
        outcome := BlockedTurn(playlist, episodes, sources);
        return outcome, false;
      }
      outcome, reload := ReadyTurn(playlist, episodes);
    }

    /** The turn of the next playlist, if it is enabled, and the catalogue that the later ones work from. */
    method NextTurn(i: nat, listed: nat, sources: map<SourceId, SourceOutcome>, ghost from: nat)
      returns (outcome: Option<PlaylistOutcome>, episodes: nat, works: bool)
      requires Inv() && i < |config.playlists| && listed == catalogue && from <= |attempts|
      requires OnlyFor(attempts, from, config.playlists[..i])
      modifies this`clock, this`operations, this`journal, this`catalogue, this`history, this`attempts
      ensures Inv() && operations >= old(operations) && old(attempts) <= attempts
      ensures OnlyFor(attempts, from, config.playlists[..i + 1])
      ensures works <==> Intact(old(operations), operations)
      ensures works ==> episodes == catalogue && (outcome.Some? <==> config.playlists[i].enabled)
      ensures outcome.Some? ==> config.playlists[i].enabled && outcome.value.id == config.playlists[i].id
    {
      hide Inv, OnlyFor;
      outcome, episodes, works := None, listed, true;
      if config.playlists[i].enabled {
        var reload: bool;
        outcome, reload := Turn(config.playlists[i], listed, sources);
        works := outcome.Some?;
        if works && reload {
          works := StoreWorks();
          episodes := catalogue;
        }
      }
      OnlyForNext(old(attempts), attempts, from, config.playlists, i);
    }

    /** The loop over the playlists, from the catalogue that was listed before it. */
    method RunPlaylists(listed: nat, sources: map<SourceId, SourceOutcome>)
      returns (outcomes: seq<PlaylistOutcome>, failed: bool, ghost reached: nat, ghost touched: nat)
      requires Inv() && listed == catalogue
      modifies this`clock, this`operations, this`journal, this`catalogue, this`history, this`attempts
      ensures Inv() && old(attempts) <= attempts && operations >= old(operations)
      ensures failed <==> !Intact(old(operations), operations)
      ensures reached <= |config.playlists| && OutcomeIds(outcomes) == EnabledIds(config.playlists[..reached])
      ensures !failed ==> reached == |config.playlists|
      ensures reached <= touched <= reached + 1 && touched <= |config.playlists|
      ensures OnlyFor(attempts, |old(attempts)|, config.playlists[..touched])
    {
      hide Inv, OnlyFor, IsRequired;
      outcomes, failed, reached, touched := [], true, 0, 0;
      ghost var from := |attempts|;
      var playlists := config.playlists;
      NothingSince(attempts);
      var episodes := listed;
      for i := 0 to |playlists|
        invariant reached == touched == i && Inv() && old(attempts) <= attempts && episodes == catalogue
        invariant OnlyFor(attempts, from, playlists[..i])
        invariant operations >= old(operations) && Intact(old(operations), operations)
        invariant OutcomeIds(outcomes) == EnabledIds(playlists[..i])
      {
        assert playlists[..i + 1][..i] == playlists[..i];
        var outcome, next, works := NextTurn(i, episodes, sources, from);
        if outcome.Some? {
          outcomes := outcomes + [outcome.value];
        }
        if !works {
          reached, touched := if outcome.Some? then i + 1 else i, i + 1;
          return;
        }
        reached, touched, episodes := i + 1, i + 1, next;
      }
      failed := false;
    }

    /**
     * The cycle. Each enabled playlist gets exactly one outcome, in order, as long as the stores work. The
     * first failure that nothing handles ends the cycle: the playlists `reached` before it have their
     * outcomes, and at most one more destination is `touched`. Either way, whatever was attempted on a destination is
     * justified by what the journal held at that moment (`Inv`), and planned from the catalogue as it then was.
     */
    method RunCycle(planned: SourceId -> bool)
      returns (outcomes: seq<PlaylistOutcome>, failed: bool, ghost reached: nat, ghost touched: nat)
      requires Inv()
      modifies this`clock, this`operations, this`journal, this`catalogue, this`history, this`attempts
      ensures Inv() && old(attempts) <= attempts && operations >= old(operations)
      ensures failed <==> !Intact(old(operations), operations)
      ensures reached <= |config.playlists| && OutcomeIds(outcomes) == EnabledIds(config.playlists[..reached])
      ensures !failed ==> reached == |config.playlists|
      ensures reached <= touched <= reached + 1 && touched <= |config.playlists|
      ensures OnlyFor(attempts, |old(attempts)|, config.playlists[..touched])
    {
      hide Inv, OnlyFor, IsRequired;
      outcomes, failed, reached, touched := [], true, 0, 0;
      NothingSince(attempts);
      var sources := RefreshSources(planned);
      if sources.None? {
        return;
      }
      var listed := StoreWorks();
      if !listed {
        return;
      }
      outcomes, failed, reached, touched := RunPlaylists(catalogue, sources.value);
      assert config.playlists[..|config.playlists|] == config.playlists;
    }

    /** What the scheduler reports of a cycle: every enabled playlist's outcome, or none at all. */
    method ReportCycle(planned: SourceId -> bool) returns (reported: seq<PlaylistOutcome>)
      requires Inv()
      modifies this`clock, this`operations, this`journal, this`catalogue, this`history, this`attempts
      ensures Inv() && old(attempts) <= attempts && operations >= old(operations)
      ensures OutcomeIds(reported) ==
              if Intact(old(operations), operations) then EnabledIds(config.playlists) else []
    {
      hide Inv, EnabledIds;
      assert config.playlists[..|config.playlists|] == config.playlists;
      var outcomes, failed, reached, touched := RunCycle(planned);
      reported := if failed then [] else outcomes;
    }
  }

  /** Sessions are there, nothing is skipped, and destinations take what they are sent. */
  function Willing(k: nat): Tick {
    Tick(FetchFailed, true, true, true, false, false, Succeeds, NothingNew)
  }

  /** A list is sent, and then the record of it fails: the turn ends the cycle without an outcome. */
  method SentButNotReported(playlist: Playlist) returns (runner: EngineRunner, outcome: Option<PlaylistOutcome>)
    requires playlist.enabled && playlist.explicit == []
    ensures outcome == None && runner.attempts != [] && runner.attempts[0].kind == Replacement
  {
    runner := new EngineRunner(Config([], [playlist]), Willing, k => k == 1, (n, p) => [], (n, p, e) => [], 0, map[]);
    assert playlist in runner.config.playlists && runner.fails(1) && !runner.fails(0);
    var reload: bool;
    outcome, reload := runner.ReadyTurn(playlist, 0);
  }

  /** The attempts from this one on are for these playlists. */
  ghost predicate OnlyFor(attempts: seq<Attempt>, from: nat, playlists: seq<Playlist>) {
    forall k :: from <= k < |attempts| ==> attempts[k].playlist in playlists
  }

  /** Those made since then are for the next playlist. */
  lemma OnlyForNext(before: seq<Attempt>, after: seq<Attempt>, from: nat, playlists: seq<Playlist>, i: nat)
    requires from <= |before| && before <= after && i < |playlists|
    requires OnlyFor(before, from, playlists[..i])
    requires forall k :: |before| <= k < |after| ==> after[k].playlist == playlists[i]
    ensures OnlyFor(after, from, playlists[..i + 1])
  {
    forall k | from <= k < |after| ensures after[k].playlist in playlists[..i + 1] {
      if k < |before| {
        assert after[k] == before[k] && after[k].playlist in playlists[..i];
      } else {
        assert playlists[..i + 1][i] == playlists[i];
      }
    }
  }

  lemma NothingSince(attempts: seq<Attempt>)
    ensures forall ps :: OnlyFor(attempts, |attempts|, ps)
  {
  }

  ghost predicate OneMore(before: seq<Attempt>, after: seq<Attempt>, kind: Kind, playlist: Playlist) {
    && |after| == |before| + 1 && before < after
    && after[|before|].kind == kind && after[|before|].playlist == playlist
  }

  lemma {:induction false} RequiredDistinct(config: Config, sources: seq<Source>)
    requires DistinctSources(sources)
    ensures DistinctSources(Required(config, sources))
  {
    if sources != [] {
      var last := |sources| - 1;
      RequiredDistinct(config, sources[..last]);
      forall s | s in Required(config, sources[..last]) ensures s.id != sources[last].id {
        var i :| 0 <= i < last && sources[..last][i] == s;
        assert sources[i] == s;
      }
    }
  }
}
