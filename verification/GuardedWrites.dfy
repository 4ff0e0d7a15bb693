/**
 * The configuration re-check of engine_runtime.py and engine.py: a cycle plans its writes from the
 * configuration it loaded, and each write goes out under the configuration lock, after the durable
 * configuration was read again and found to yield the same write contract. Administration saves
 * configurations under the same lock, at any moment it is free.
 */
module GuardedWrites {
  import opened Basics
  import opened EngineConfig

  /** What the contract keeps of a source; its references are sorted, so they count as a multiset. */
  datatype SourceFacts = SourceFacts(id: string, enabled: bool, timezone: string, parser: string, strategy: string,
                                     releaseMode: string, filter: Option<string>, references: multiset<Reference>)
  datatype Contract = Contract(id: string, enabled: bool, adapter: string, destination: string, explicit: seq<string>,
                               retentionHours: nat, maxEpisodes: nat, ordering: string, maxSeconds: nat,
                               minSeconds: nat, exceptions: seq<DurationException>, sources: seq<SourceFacts>)

  function Facts(source: Source): SourceFacts {
    SourceFacts(source.id, source.enabled, source.timezone, source.parser, source.strategy, source.releaseMode,
                source.filter, multiset(source.references))
  }

  function WriteContract(config: Config, id: string): Option<Contract> {
    var playlist := FindPlaylist(config.playlists, id);
    if playlist.None? || !playlist.value.enabled then None
    else
      var p := playlist.value;
      var selected := SelectedFacts(config.sources, p.explicit);
      if selected.None? then None
      else Some(Contract(p.id, p.enabled, p.adapter, p.destination, p.explicit, p.retentionHours, p.maxEpisodes,
                         p.ordering, p.maxSeconds, p.minSeconds, p.exceptions, selected.value))
  }

  /** The loop over the selected sources: one that is missing spoils the contract. */
  function SelectedFacts(sources: seq<Source>, ids: seq<string>): Option<seq<SourceFacts>> {
    if ids == [] then Some([])
    else
      var init := SelectedFacts(sources, ids[..|ids| - 1]);
      var source := FindSource(sources, ids[|ids| - 1]);
      if init.None? || source.None? then None else Some(init.value + [Facts(source.value)])
  }

  /** Everything about a playlist but the words and the tags that no write depends on. */
  predicate WritesAlike(p: Playlist, q: Playlist) {
    q == p.(displayName := q.displayName, description := q.description,
            countries := q.countries, languages := q.languages)
  }

  /** Everything about a source but its display name and the order of its references. */
  predicate ReadsAlike(s: Source, t: Source) {
    && t == s.(displayName := t.displayName, references := t.references)
    && multiset(s.references) == multiset(t.references)
  }

  predicate SourcesAlike(c: Config, d: Config, ids: seq<string>) {
    forall id :: id in ids ==>
      && FindSource(c.sources, id).Some? && FindSource(d.sources, id).Some?
      && ReadsAlike(FindSource(c.sources, id).value, FindSource(d.sources, id).value)
  }

  /** Two configurations that make a cycle write the same for a playlist. */
  predicate SameWrite(c: Config, d: Config, id: string) {
    var p, q := FindPlaylist(c.playlists, id), FindPlaylist(d.playlists, id);
    && p.Some? && q.Some? && p.value.enabled
    && WritesAlike(p.value, q.value)
    && SourcesAlike(c, d, p.value.explicit)
  }

  lemma {:induction false} SelectedFactsDefined(sources: seq<Source>, ids: seq<string>)
    ensures SelectedFacts(sources, ids).Some? <==> forall id :: id in ids ==> FindSource(sources, id).Some?
    ensures SelectedFacts(sources, ids).Some? ==> |SelectedFacts(sources, ids).value| == |ids|
  {
    if ids != [] {
      var init, last := ids[..|ids| - 1], ids[|ids| - 1];
      SelectedFactsDefined(sources, init);
      assert ids == init + [last];
      if forall id :: id in ids ==> FindSource(sources, id).Some? {
        assert forall id :: id in init ==> id in ids && FindSource(sources, id).Some?;
        assert last in ids && SelectedFacts(sources, init).Some?;
      }
    }
  }

  lemma {:induction false} SelectedFactsDecide(c: Config, d: Config, ids: seq<string>)
    requires SelectedFacts(c.sources, ids).Some?
    ensures SelectedFacts(c.sources, ids) == SelectedFacts(d.sources, ids) <==> SourcesAlike(c, d, ids)
  {
    SelectedFactsDefined(c.sources, ids);
    SelectedFactsDefined(d.sources, ids);
    if ids != [] && SelectedFacts(d.sources, ids).Some? {
      var init, last := ids[..|ids| - 1], ids[|ids| - 1];
      SelectedFactsDecide(c, d, init);
      SelectedFactsDefined(c.sources, init);
      SelectedFactsDefined(d.sources, init);
      assert ids == init + [last];
      var s, t := FindSource(c.sources, last).value, FindSource(d.sources, last).value;
      assert Facts(s) == Facts(t) <==> ReadsAlike(s, t);
      var a, b := SelectedFacts(c.sources, init).value, SelectedFacts(d.sources, init).value;
      assert a + [Facts(s)] == b + [Facts(t)] <==> a == b && Facts(s) == Facts(t) by {
        assert (a + [Facts(s)])[..|a|] == a && (b + [Facts(t)])[..|b|] == b;
        assert (a + [Facts(s)])[|a|] == Facts(s) && (b + [Facts(t)])[|b|] == Facts(t);
      }
    }
  }

  /** Equal contracts mean exactly: the same destination, selection, limits and source knowledge. */
  lemma ContractDecides(c: Config, d: Config, id: string)
    requires WriteContract(c, id).Some?
    ensures WriteContract(c, id) == WriteContract(d, id) <==> SameWrite(c, d, id)
  {
    var p, q := FindPlaylist(c.playlists, id), FindPlaylist(d.playlists, id);
    SelectedFactsDecide(c, d, p.value.explicit);
  }

  /** A playlist of a configuration that names only known sources always has a contract while it is enabled. */
  lemma PlannedHasContract(config: Config, id: string)
    requires var p := FindPlaylist(config.playlists, id);
             p.Some? && p.value.enabled && forall s :: s in p.value.explicit ==> FindSource(config.sources, s).Some?
    ensures WriteContract(config, id).Some?
  {
    SelectedFactsDefined(config.sources, FindPlaylist(config.playlists, id).value.explicit);
  }

  // ---------------------------------------------------------------- the protocol

  datatype Holder = Free | Engine | Admin

  /** Where the engine is, with the configuration that its cycle was planned from. */
  datatype Pc =
    | Idle
    | InCycle(planned: Config)
    | AtGuard(planned: Config, id: string)
    | Locked(planned: Config, id: string)                            // the lock is held
    | Reloaded(planned: Config, id: string, current: Option<Config>) // and the configuration read again
    | Cleared(planned: Config, id: string)                           // and found to match: the request may go

  datatype Action =
    | BeginCycle | Plan(id: string) | EndCycle
    | Acquire | Reload(readable: bool) | Compare | Send
    | AdminAcquire | AdminSave(config: Option<Config>) | AdminRelease
    | RequestStop

  /** A request that went out: what it was planned from, and what was durable at that moment. */
  datatype Write = Write(id: string, planned: Config, durable: Option<Config>)

  ghost predicate Authorized(w: Write) {
    && WriteContract(w.planned, w.id).Some?
    && w.durable.Some?
    && WriteContract(w.durable.value, w.id) == WriteContract(w.planned, w.id)
  }

  /** An enabled playlist of the cycle's configuration, selecting only sources that it holds. */
  predicate Plannable(config: Config, id: string) {
    var p := FindPlaylist(config.playlists, id);
    p.Some? && p.value.enabled && forall s :: s in p.value.explicit ==> FindSource(config.sources, s).Some?
  }

  class Runtime {
    var durable: Option<Config>
    var holder: Holder
    var pc: Pc
    var stopRequested: bool
    ghost var sent: seq<Write>

    constructor (durable: Option<Config>)
      ensures Inv() && sent == [] && this.durable == durable
    {
      this.durable := durable;
      holder, pc, stopRequested, sent := Free, Idle, false, [];
    }

    ghost predicate Inv()
      reads this
    {
      && (holder == Engine <==> pc.Locked? || pc.Reloaded? || pc.Cleared?)
      && (pc.AtGuard? || pc.Locked? || pc.Reloaded? || pc.Cleared? ==> Plannable(pc.planned, pc.id))
      && (pc.Reloaded? ==> pc.current == durable)
      && (pc.Cleared? ==> Authorized(Write(pc.id, pc.planned, durable)))
      && forall w :: w in sent ==> Authorized(w)
    }

    /** Loading is one section under the lock, so it happens at a moment the lock is free. */
    method BeginCycle()
      requires Inv() && pc.Idle? && holder == Free
      modifies this`pc
      ensures Inv() && pc == if durable.Some? then InCycle(durable.value) else Idle
    {
      if durable.Some? {
        pc := InCycle(durable.value);
      }
    }

    method Plan(id: string)
      requires Inv() && pc.InCycle? && Plannable(pc.planned, id)
      modifies this`pc
      ensures Inv() && pc == AtGuard(old(pc).planned, id)
    {
      pc := AtGuard(pc.planned, id);
    }

    method Acquire()
      requires Inv() && pc.AtGuard? && holder == Free
      modifies this`pc, this`holder
      ensures Inv() && holder == Engine
    {
      holder := Engine;
      pc := Locked(pc.planned, pc.id);
    }

    /** The first stop test, then the second read of the configuration. */
    method Reload(readable: bool)
      requires Inv() && pc.Locked?
      modifies this`pc, this`holder
      ensures Inv() && (pc.Reloaded? <==> !stopRequested && readable)
    {
      if stopRequested || !readable {
        Abandon();
      } else {
        pc := Reloaded(pc.planned, pc.id, durable);
      }
    }

    /** The contracts must agree, and no stop may have arrived during the read. */
    method Compare()
      requires Inv() && pc.Reloaded?
      modifies this`pc, this`holder
      ensures Inv()
      ensures pc.Cleared? <==>
                && !stopRequested && durable.Some?
                && SameWrite(old(pc).planned, durable.value, old(pc).id)
    {
      var planned, id := pc.planned, pc.id;
      PlannedHasContract(planned, id);
      if durable.Some? {
        ContractDecides(planned, durable.value, id);
      }
      var current := if pc.current.None? then None else WriteContract(pc.current.value, id);
      if current != WriteContract(planned, id) || stopRequested {
        Abandon();
      } else {
        pc := Cleared(planned, id);
      }
    }

    /** The request itself, still under the lock, and the release. */
    method Send()
      requires Inv() && pc.Cleared?
      modifies this`pc, this`holder, this`sent
      ensures Inv() && holder == Free
      ensures sent == old(sent) + [Write(old(pc).id, old(pc).planned, durable)]
    {
      sent := sent + [Write(pc.id, pc.planned, durable)];
      Abandon();
    }

    method Abandon()
      requires holder == Engine && pc != Idle
      modifies this`pc, this`holder
      ensures holder == Free && pc == InCycle(old(pc).planned)
    {
      holder := Free;
      pc := InCycle(pc.planned);
    }

    /** Administration, on its own threads: the durable configuration changes only under its lock. */
    method AdminSave(config: Option<Config>)
      requires Inv() && holder == Admin
      modifies this`durable
      ensures Inv() && durable == config
    {
      durable := config;
    }

    /**
     * Any interleaving of cycles with administration: each request goes out while the durable
     * configuration makes a cycle write exactly what the request was planned from.
     */
    method Run(actions: seq<Action>)
      requires Inv()
      modifies this
      ensures Inv() && old(sent) <= sent
      ensures forall w :: w in sent ==> w.durable.Some? && SameWrite(w.planned, w.durable.value, w.id)
    {
      for k := 0 to |actions|
        invariant Inv() && old(sent) <= sent
      {
        match actions[k] {
          case BeginCycle => if pc.Idle? && holder == Free { BeginCycle(); }
          case Plan(id) => if pc.InCycle? && Plannable(pc.planned, id) { Plan(id); }
          case EndCycle => if pc.InCycle? { pc := Idle; }
          case Acquire => if pc.AtGuard? && holder == Free { Acquire(); }
          case Reload(readable) => if pc.Locked? { Reload(readable); }
          case Compare => if pc.Reloaded? { Compare(); }
          case Send => if pc.Cleared? { Send(); }
          case AdminAcquire => if holder == Free { holder := Admin; }
          case AdminSave(config) => if holder == Admin { AdminSave(config); }
          case AdminRelease => if holder == Admin { holder := Free; }
          case RequestStop => stopRequested := true;
        }
      }
      forall w | w in sent ensures w.durable.Some? && SameWrite(w.planned, w.durable.value, w.id) {
        assert Authorized(w);
        ContractDecides(w.planned, w.durable.value, w.id);
      }
    }
  }
}
