/** The configuration that a cycle works from: sources, and playlists that select some of them (models.py). */
module EngineConfig {
  import opened Basics

  type SourceId = string

  datatype Reference = Reference(system: string, kind: string, externalId: string)
  datatype Source = Source(id: SourceId, displayName: string, enabled: bool, timezone: string, parser: string,
                           strategy: string, releaseMode: string, filter: Option<string>,
                           references: seq<Reference>)
  datatype DurationException = DurationException(id: string, sourceId: SourceId, edition: string, maxSeconds: nat)
  datatype Playlist = Playlist(id: string, displayName: string, description: string, countries: seq<string>,
                               languages: seq<string>, enabled: bool, adapter: string, destination: string,
                               explicit: seq<SourceId>, retentionHours: nat, maxEpisodes: nat, ordering: string,
                               maxSeconds: nat, minSeconds: nat, exceptions: seq<DurationException>)
  datatype Config = Config(sources: seq<Source>, playlists: seq<Playlist>)

  function FindPlaylist(playlists: seq<Playlist>, id: string): (found: Option<Playlist>)
    ensures found.Some? ==> found.value in playlists && found.value.id == id
    ensures found.None? ==> forall p :: p in playlists ==> p.id != id
  {
    if playlists == [] then None
    else if playlists[0].id == id then Some(playlists[0])
    else FindPlaylist(playlists[1..], id)
  }

  /** A dictionary built from the list keeps the last source of each id. */
  function FindSource(sources: seq<Source>, id: SourceId): (found: Option<Source>)
    ensures found.Some? ==> found.value in sources && found.value.id == id
    ensures found.None? ==> forall s :: s in sources ==> s.id != id
  {
    if sources == [] then None
    else
      var last := |sources| - 1;
      if sources[last].id == id then Some(sources[last]) else FindSource(sources[..last], id)
  }

  /** The one Spotify show among a source's references. */
  function ShowId(references: seq<Reference>): string {
    if references == [] then ""
    else if references[0].system == "spotify" && references[0].kind == "show" then references[0].externalId
    else ShowId(references[1..])
  }
}
