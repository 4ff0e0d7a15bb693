# News Bulletin Playlist: a verified model

News Bulletin Playlist keeps playlists on Spotify equal to lists of news episodes. The remote side
paginates, hides items, loses answers, reports snapshot ids late and has other editors. The local
side can crash between any two steps. This project states, in Dafny, what the program promises under
those conditions, and proves it.

`dafny verify dfyconfig.toml` checks everything. The files follow the program's components:

| file | component |
|---|---|
| `Basics.dfy`, `Models.dfy` | results, exceptions, items, fingerprints |
| `PlaylistReader.dfy` | the bounded, paginated reader |
| `SpotifyClient.dfy` | the remote behind the rate-limit guard: version histories, snapshot ids, requests that are lost, late or held back |
| `SnapshotStore.dfy` | its two durable facts: attestations and pending confirmations |
| `Reconciliation.dfy` | full replacement: the decision before the write, the write, its verification |
| `Convergence.dfy` | many runs of one list: quiescence and convergence |
| `Counterexamples.dfy` | what the protocol does not promise, shown on concrete clients and stores |
| `PartialAdditions.dfy` | add-only reconciliation behind a durable intent |
| `DestinationRuns.dfy` | both on one destination, cycle after cycle |
| `Packing.dfy`, `PlaylistZip.dfy` | the portable playlist ZIP, its writer and its strict reader |
| `Provisioning.dfy` | crash-safe playlist creation |
| `EngineLifecycle.dfy`, `SchedulerLoop.dfy` | the engine's one worker thread, its restart, its wake-ups |
| `EngineConfig.dfy` | sources and playlists as a cycle sees them |
| `GuardedWrites.dfy` | the configuration re-check around each write |
| `EngineGate.dfy` | which playlists a cycle may replace, add to, or must leave alone |
| `Quarantine.dfy` | normal form of the owner's drafts |
| `Footer.dfy` | the project footer, stripped and rendered |
| `PlaylistState.dfy` | the per-playlist state row |

## How to read it

The environment is an oracle: a function from the tick to what happens at that tick (an answer is
lost, other editors publish, storage fails, the process dies). The oracle is arbitrary, so a
statement about one run is a statement about every run. A crash is an effect that reports `Crashed`;
the method that called it returns at once, so whatever a method ensures of every outcome holds at
each crash point inside it. Threads are modelled by their atomic sections and single steps, run in
any order by a `Run` method.

A remote playlist is the sequence of all its versions, and a snapshot id is an index into it. Ids in
ordinary reads may lag behind by any amount. Ghost fields log every request that is sent and every
complete read; "what was sent" and "what was seen" in the statements refer to these logs.

Assumptions about the remote: the closing snapshot read of a bracket is fresh (the opening one need
not be, which is less than the protocol might be thought to need; a late closing one is fatal, see
`Counterexamples.LateClosingIdBreaksBracket`); the answer to a write carries the id of the version
that the write made; the desired-list fingerprint is injective. For add-only reconciliation the
destination holds episodes only.

## What was found

- A shortcut that trusts a late snapshot id after its pending confirmation expired sends one
  redundant PUT (`Counterexamples.LateIdDefeatsShortcut`). `Reconciliation.PrewritePhase` says when it
  fires and when it is wrong; quiescence is proved run by run around it (`Convergence.RunRepeatedly`).
- NOT_ATTEMPTED is not quite "no PUT was sent". A 429 on the baseline read before the write is
  swallowed, the guard then holds the PUT back, and the outcome is UNKNOWN with nothing sent
  (`Counterexamples.SuppressedPutIsUnknown`). Exactly: no PUT was sent and none was held back. REJECTED
  misses a 429 on the PUT itself whose backoff cannot be saved: that failure hides the refusal, and the
  outcome stays UNKNOWN (`Counterexamples.HiddenRefusalIsUnknown`). `Reconciliation.Reconcile` gives both
  exact conditions, in terms of the tick at which the PUT is sent.
- The same guard keeps the intent of an addition that was never sent: a held-back POST is taken for one
  with an unknown outcome (`Counterexamples.HeldBackKeepsIntent`, and `PartialAdditions.Insert` for when it
  happens), until a full reconciliation clears it. Creation does the same with a request that was refused or
  never sent, if the backoff cannot be saved or read (`Provisioning.RefusalKeepsIntent`).
- A write whose answer was lost and which was then read back in full is still reported as a failure
  exactly if the backoff state cannot be read or saved during the optional attestation, or the process dies
  (`Reconciliation.AttestAmbiguousWrite`, `Counterexamples.VerifiedWriteIsLost`).
- A cycle whose journal read or record fails outside the handlers reports no playlist at all, although lists
  may have been sent (`EngineGate.SentButNotReported`, `EngineGate.EngineRunner.ReportCycle`).
- `zipfile` reads lengths past the end of the directory as shorter ones. A document whose last record
  declares a longer name, or any extra or comment length, is accepted although no export makes it
  (`PlaylistZip.OverrunIsAccepted`).
- "No prefix, gaps or hidden members" fails further with ZIP64 records, which the envelope check does not
  look for: with a record and a locator before the end record, any bytes may stand between the members and
  their directory (`PlaylistZip.GapIsAccepted`). `PlaylistZip.ReadFiles` says exactly which documents are
  accepted, and which of those are archives to the byte.
- Adoption after an uncertain creation checks ownership and name only. Naming another playlist is
  accepted and leaves the created one unmanaged (`Provisioning.AdoptsAnother`), and naming one that a paused or
  suspended record already uses gives the destination a second record
  (`Provisioning.SharedDestinationCompiles`). Without an adoption destinations stay distinct.
- An adoption whose template was lost to quarantine writes the journal and then fails an assertion
  (`Provisioning.AdoptsSuspended`); the journal keeps the destination, so nothing is lost.
- A description whose last line is the old attribution without its leading space survives stripping,
  and becomes a suffix when its line break is replaced by a space
  (`Footer.LineBreakDefeatsRender`). `Footer.RenderAgain` gives the exact condition.
- Files within their own limits always fit into the 1 MiB of an archive, so the export's last size
  check never fires for them (`PlaylistZip.PortableFits`).

## Model

| member | source | states |
|---|---|---|
| `PlaylistReader.RequirePage` | src/news_bulletin_playlist/reconciliation.py:940-996 | A page is accepted exactly if it has a usable list, total and `next`, and ends the list at its total, or is not empty and stops short of it with more to come |
| `PlaylistReader.ExtractSlot` | src/news_bulletin_playlist/reconciliation.py:1014-1065 | An entry gives the one URI its "item" and "track" agree on; contradictory URIs and malformed media fail; a hidden entry is an empty slot only where that is allowed |
| `PlaylistReader.ExtractSlots` | src/news_bulletin_playlist/reconciliation.py:1014-1052 | The loop succeeds exactly when every entry does, and returns their slots in order |
| `PlaylistReader.ReadPage` | src/news_bulletin_playlist/reconciliation.py:888-905 | An accepted page answers this very request, agrees with the total of the first page, and ends within it |
| `PlaylistReader.ReadOverflow` | src/news_bulletin_playlist/reconciliation.py:908-937 | The extra item agrees with the expected total; where the total says that there is one, one is read |
| `PlaylistReader.ReadPlaylist` | src/news_bulletin_playlist/reconciliation.py:825-885 | Against any server at all: at most 101 requests; a successful read has exactly the reported number of slots, or more than 100 of them. From an honest server each slot is what its page was shown, with one request for every 50 items and one more where those pages are full; a server that shows the same content in full throughout is always read |
| `PlaylistReader.PageShows` | src/news_bulletin_playlist/reconciliation.py:940-996 | An accepted page of an honest server is exactly its stretch of the content, and says "more" exactly when content is left |
| `PlaylistReader.PageExtends` | src/news_bulletin_playlist/reconciliation.py:843-885 | The offset-advancing step of the reader: the slots so far stay those of pages 0, 1, ... in order, and a last page completes the observation |
| `PlaylistReader.OverflowExtends` | src/news_bulletin_playlist/reconciliation.py:908-937 | The one extra item read past 100 completes the observation of a longer playlist |
| `PlaylistReader.OnePageIsOneVersion` | src/news_bulletin_playlist/reconciliation.py:843-885 | A read that needed one page saw one version, whatever was published meanwhile |
| `PlaylistReader.StableReadIsOneVersion` | src/news_bulletin_playlist/reconciliation.py:843-885 | If the content did not change between the requests, the slots are the first min(n, 101) items of that one version |
| `PlaylistReader.ReadDecidesEquality` | src/news_bulletin_playlist/reconciliation.py:1068-1074 | For a desired list of at most 100 items, comparing a complete, fully visible read decides equality with the whole remote playlist, in both directions |
| `PlaylistReader.SteadyPage` | src/news_bulletin_playlist/reconciliation.py:940-1065 | Every page of an honest server that hides nothing is accepted |
| `SpotifyClient.Client.Snapshot` | src/news_bulletin_playlist/reconciliation.py:1115-1137 | The answer is a function of the tick and the remote: held back, failed, without an id, or the id of a version of this destination, the current one for a closing read; the remote is only observed |
| `SpotifyClient.Client.ReadItems` | src/news_bulletin_playlist/reconciliation.py:825-885 | A successful read is recorded with the moment and the number of writes before it, and shows one version whenever it fits a page or nothing was published during it; while the guard remembers a backoff no read succeeds; a storage error gets out exactly if its last request meets a backoff that cannot be read or saved |
| `SpotifyClient.Client.Replace` | src/news_bulletin_playlist/reconciliation.py:347-378 | A PUT that backoff holds back is counted and changes nothing. Any other is logged with its payload, its tick and the fate that this tick gives it (`FateAt`), which also says what is raised, and leaves exactly the world that follows; an answered one left a version holding exactly the payload and carries that version's id |
| `SpotifyClient.Client.Deliver` | src/news_bulletin_playlist/spotify_backoff.py:444-472 | A write request is held back exactly while backoff is remembered, active or unreadable, and then nothing is served. One that is sent raises a storage error exactly on an HTTP 429 whose backoff cannot be saved, and any other refusal as it is |
| `SpotifyClient.Client.Add` | src/news_bulletin_playlist/partial_reconciliation.py:217-236 | A POST that backoff holds back is counted and changes nothing. Any other is logged with its payload, its tick and the fate that this tick gives it; it may be applied at once, later, or never; a refused one is never applied |
| `SpotifyClient.ReadSawVersions` | src/news_bulletin_playlist/reconciliation.py:825-885 | Any paginated read on a remote that others keep editing: an unchanged history gives one version, and a one-page read always saw a version current during it |
| `SpotifyClient.BracketIsOneVersion` | src/news_bulletin_playlist/reconciliation.py:603-616 | Equal snapshot ids around a read, of which only the closing one has to be fresh, make the read a read of one version, the current one |
| `SpotifyClient.ServeManyGrows` | src/news_bulletin_playlist/reconciliation.py:825-885 | However many requests are served while others edit, version histories only grow |
| `SpotifyClient.QuietRead` | src/news_bulletin_playlist/reconciliation.py:825-885 | On an undisturbed destination with everything visible, a read that succeeds is exactly the content |
| `SpotifyClient.SmoothIsSteady` | src/news_bulletin_playlist/reconciliation.py:825-885 | Where nothing fails and nobody publishes, the server shows the current version to every request |
| `SnapshotStore.Store.SetAttestation` | src/news_bulletin_playlist/persistence.py:331-377 | The single row keeps the newer attestation and is otherwise replaced; a failure leaves it as it was |
| `SnapshotStore.Store.SetPending` | src/news_bulletin_playlist/snapshot_pending.py:143-171 | One pending confirmation, replaced whole or left as it was |
| `Reconciliation.AttestedPrewriteSnapshot` | src/news_bulletin_playlist/reconciliation.py:1077-1108 | The shortcut fires exactly when another list is attested for this destination, storage can be read, and the reported id is the attested one; with settled ids the desired list is then not the current version |
| `Reconciliation.OpenPending` | src/news_bulletin_playlist/reconciliation.py:172-216 | A live exact confirmation is confirmed exactly when its expected id is the one reported and storage works; nothing is left waiting exactly when none is live and the journal can be read and cleared; no write, and every durable fact stays true |
| `Reconciliation.ResolvePending` | src/news_bulletin_playlist/reconciliation.py:634-732 | With a live confirmation and a matching read the outcome is decided by the id that was seen: the expected id confirms, the baseline id waits, and a third id confirms itself if a second bracketed read is exact; what gets attested is true of the remote |
| `Reconciliation.AcceptThirdSnapshot` | src/news_bulletin_playlist/reconciliation.py:705-728 | A third, metadata-only id is accepted only after a second complete exact read between two equal ids, and then attests that version |
| `Reconciliation.DecideFromRead` | src/news_bulletin_playlist/reconciliation.py:273-326 | A matching read settles without a write and attests only what a bracket proves; any other read asks for a write |
| `Reconciliation.BracketedRead` | src/news_bulletin_playlist/reconciliation.py:276-285 | An id is returned only if the closing id equals the opening one and the read was exact, and it then attests, if the closing id is timely; a storage error gets out exactly if the last request meets a backoff that cannot be read or saved |
| `Reconciliation.ReadAndClose` | src/news_bulletin_playlist/reconciliation.py:705-728 | A complete read and the id after it agree with an earlier id only where that id names the current version and its content is the desired list, if the id after it is timely |
| `Reconciliation.PrewritePhase` | src/news_bulletin_playlist/reconciliation.py:172-326 | All ways through the decision before the write. It skips the read exactly when the shortcut fires, and then a complete read would have decided to write exactly when the current version is not the desired list. Otherwise it settles honestly without a PUT, or asks for the write after a complete read |
| `Reconciliation.ReadOrSkip` | src/news_bulletin_playlist/reconciliation.py:218-326 | The read is skipped exactly when nothing waits and the shortcut fires; otherwise a complete read decides |
| `Reconciliation.AmbiguousWriteApplied` | src/news_bulletin_playlist/reconciliation.py:571-586 | A lost answer counts as applied only on a complete read after the PUT that was exact in every position; under backoff never; it errs exactly if the last request of that read meets a backoff that cannot be read or saved |
| `Reconciliation.AttestAmbiguousWrite` | src/news_bulletin_playlist/reconciliation.py:589-631 | A write whose answer was lost attests an id that brackets an exact read, and nothing else. The comment at :613-615 does not hold: the verified success ends in an error, exactly if the last request meets a backoff that cannot be read or saved, or the process dies while storing |
| `Reconciliation.VerifyReadback` | src/news_bulletin_playlist/reconciliation.py:396-556 | An answered write is reported only after a complete read of the desired length with every visible slot equal |
| `Reconciliation.SettleExactReadback` | src/news_bulletin_playlist/reconciliation.py:410-501 | With all items visible: a known, different baseline leaves the pending confirmation baseline to written for an hour; without one, the written id has to be stable now and is attested |
| `Reconciliation.SettleDegradedReadback` | src/news_bulletin_playlist/reconciliation.py:503-556 | With hidden items the id that is reported decides: the written one attests at once, the baseline one waits, and any third one or no answer fails |
| `Reconciliation.ReplaceAndVerify` | src/news_bulletin_playlist/reconciliation.py:347-556 | One PUT at this very tick: sent, held back by the guard, or cut off by a crash; success means it was verified by a read after it. REJECTED exactly when it was sent and, at its tick, turned down without the refusal's being hidden by an unsaved backoff. Where the answer is lost and the next request reads the list in full view, it errs exactly if the attestation does |
| `Reconciliation.ResolveLost` | src/news_bulletin_playlist/reconciliation.py:351-394 | A complete read decides about a lost answer; where it shows the list, an error can only come from the optional attestation |
| `Reconciliation.GuardedWrite` | src/news_bulletin_playlist/reconciliation.py:335-394 | Baseline, mutation guard and PUT: nothing is sent or held back behind a closed guard; the PUT follows in the next tick even if the baseline read failed, unless storage caused that; REJECTED exactly by what the tick of the PUT says |
| `Reconciliation.ReconcileItems` | src/news_bulletin_playlist/reconciliation.py:157-556 | Every path: durable facts stay true; `wrote` exactly when a PUT was sent; a result is honest (`HonestResult`); a PUT carries exactly the current list, and only if the preparation returned it unchanged; NOT_ATTEMPTED exactly when no PUT was sent and none was held back; REJECTED exactly when the PUT was turned down, and not silently, at its tick |
| `Reconciliation.Reconcile` | src/news_bulletin_playlist/reconciliation.py:735-822 | The preparation loop stays within its bound, never enters a desired key twice, and sends at most one PUT, behind an open guard, of exactly what the last preparation returned; once the list changed, or without the shortcut, a complete read comes first. On an exception NOT_ATTEMPTED exactly when no PUT was sent and none was held back, and REJECTED exactly when one was sent and its tick turned it down without hiding that behind an unsaved backoff (`TurnedDown`). What a result leaves in the store is stated |
| `Convergence.RunRepeatedly` | src/news_bulletin_playlist/reconciliation.py:172-326 | Quiescence over any number of runs whose times do not go back, whichever reads fail: on a remote that holds the desired list in full view and that nobody gives another list, nothing is sent if in each run the first confirmation has not expired, or no other list was attested, or ids are on time (above 50 items: a confirmation is live, or ids are on time and nothing is published during the run) |
| `Convergence.Converge` | src/news_bulletin_playlist/reconciliation.py:157-822 | Convergence: where nothing fails and nobody else publishes, every run succeeds and leaves the remote with the desired list, from any remote list and any stored rows; all runs together send one PUT at most, and none if the list was there already |
| `Convergence.RunOnce` | src/news_bulletin_playlist/reconciliation.py:157-822 | One cycle of either: it sends nothing where it is undemanding, and leaves the rows where the next one may rest on them; where nothing fails it succeeds with one PUT at most |
| `Convergence.SmoothIsQuiet` | src/news_bulletin_playlist/reconciliation.py:172-326 | ... because a remote that holds the list asks for no write then |
| `Reconciliation.BracketHolds` | src/news_bulletin_playlist/reconciliation.py:603-616 | An exact read between equal ids makes the attestation of that id true |
| `Reconciliation.ShortcutRefinesFullRead` | src/news_bulletin_playlist/reconciliation.py:218-326 | Where an attested version other than the desired list is current, no complete read, whatever it hides, would let the destination be kept |
| `Reconciliation.SkippingIsSound` | src/news_bulletin_playlist/reconciliation.py:1077-1108 | Where another list is attested, a complete read of the present remote would decide to write exactly when its current version is not the desired list |
| `Counterexamples.LateIdDefeatsShortcut` | src/news_bulletin_playlist/reconciliation.py:1077-1108 | The redundant PUT, on a concrete client and store: an undisturbed remote that holds the desired list, an expired confirmation, an attestation of the old list and a late id |
| `Counterexamples.LateClosingIdBreaksBracket` | src/news_bulletin_playlist/reconciliation.py:603-616 | A late closing id, on a concrete client: the bracket accepts an id whose version is not the list that was read |
| `Counterexamples.SuppressedPutIsUnknown` | src/news_bulletin_playlist/reconciliation.py:335-394 | HTTP 429 on the baseline read, on a concrete client: the PUT is held back, nothing was sent, and the outcome is UNKNOWN |
| `Counterexamples.HiddenRefusalIsUnknown` | src/news_bulletin_playlist/reconciliation.py:347-378 | HTTP 429 on the PUT whose backoff cannot be saved, on a concrete client: the PUT was refused, and the outcome is UNKNOWN |
| `Counterexamples.VerifiedWriteIsLost` | src/news_bulletin_playlist/reconciliation.py:589-631 | A lost answer, a complete read that shows the list, and an unsaved backoff during the optional attestation, on a concrete client: the verified write ends in a storage error |
| `Counterexamples.HeldBackKeepsIntent` | src/news_bulletin_playlist/partial_reconciliation.py:217-252 | Active backoff at the POST, on a concrete client: nothing was sent, and the intent stays |
| `PartialAdditions.IntentStore.Begin` | src/news_bulletin_playlist/partial_reconciliation.py:96-112 | An intent is stored only where there is none, before anything is sent |
| `PartialAdditions.IntentStore.Clear` | src/news_bulletin_playlist/partial_reconciliation.py:114-126 | A row is deleted only if it still holds the expected list |
| `PartialAdditions.StableDestination` | src/news_bulletin_playlist/partial_reconciliation.py:145-157 | Success means: fully visible, and, read between two equal ids, exactly the current version up to its 101st item |
| `PartialAdditions.ReadStable` | src/news_bulletin_playlist/partial_reconciliation.py:145-157 | A complete visible read that a current id closes is the current version up to its 101st item |
| `PartialAdditions.ConfirmExpected` | src/news_bulletin_playlist/partial_reconciliation.py:160-167 | True only after a stable read that found exactly the expected list; only a storage failure gets out |
| `PartialAdditions.ResolveIntent` | src/news_bulletin_playlist/partial_reconciliation.py:197-205 | An intent from an earlier run sends nothing: it is cleared by an exact stable read, or stays; where nothing fails, it is cleared exactly if the destination holds what it expects |
| `PartialAdditions.Send` | src/news_bulletin_playlist/partial_reconciliation.py:227-240 | The one place that sends an addition: it is logged with its intent, which is durable by then, and with the fate of its tick; a refused one leaves the fence without an intent in place |
| `PartialAdditions.Insert` | src/news_bulletin_playlist/partial_reconciliation.py:217-252 | The intent is durable before the POST. The POST goes out exactly if the intent was stored, no stop came, the process lives and backoff lets it through at its tick; where backoff does not, nothing is sent and the intent stays. A refused POST withdraws the intent, unless storage fails; nothing else clears it but an exact stable readback |
| `PartialAdditions.SendBegun` | src/news_bulletin_playlist/partial_reconciliation.py:227-252 | What follows the stored intent: sent or held back exactly by the tick of the POST, withdrawn on a refusal, settled by a stable read |
| `PartialAdditions.SettleSent` | src/news_bulletin_playlist/partial_reconciliation.py:217-252 | After a POST that was not refused, "added" means that a stable read found the additions in front of the old list |
| `PartialAdditions.AddMissing` | src/news_bulletin_playlist/partial_reconciliation.py:207-217 | All missing candidates are added or none; more than `max_items` together is never sent |
| `PartialAdditions.ReconcilePartialAdditions` | src/news_bulletin_playlist/partial_reconciliation.py:170-252 | At most one POST, and one only where no intent was on disk; each status says what a stable read found; the fence holds after every outcome, crashes included; with no other writer the destination stays free of duplicates and within its bound; where nothing fails it succeeds |
| `PartialAdditions.AdditionsAreSeparated` | src/news_bulletin_playlist/partial_reconciliation.py:186-252 | Of any two POSTs the earlier one was refused, was seen applied by an exact read, or a full reconciliation saw its own list in place, before the later one |
| `PartialAdditions.ClearIntent` | src/news_bulletin_playlist/partial_reconciliation.py:129-142 | Only a complete read at the present write count that shows nothing but the desired list entitles to it; the reason is recorded |
| `PartialAdditions.LayeredIsASuffixChain` | src/news_bulletin_playlist/partial_reconciliation.py:207-217 | With no other writer every older version is an unchanged suffix of every newer one |
| `PartialAdditions.ServeManyKeepsSolo` | src/news_bulletin_playlist/partial_reconciliation.py:207-217 | With no other writer, however long a POST is under way, the destination keeps its bound and its distinct items |
| `PartialAdditions.FenceExtends` | src/news_bulletin_playlist/partial_reconciliation.py:96-112 | A new addition keeps the fence if every earlier one is resolved and the row names the new one |
| `DestinationRuns.ReconcileAndClear` | src/news_bulletin_playlist/engine.py:1041-1121 | A full cycle: the intent of an addition goes after an honest full reconciliation whose outcome could be recorded, for the list it made sure of and exactly if storage works, and stays after every exception |
| `DestinationRuns.AddIfSettled` | src/news_bulletin_playlist/engine.py:895-936 | No addition is sent while a replacement waits for its snapshot id; with none waiting every durable fact of the replacement stays true; with no other writer the destination keeps its distinct items, its bound and its suffix chain |
| `DestinationRuns.Run` | src/news_bulletin_playlist/engine.py:444-550 | Any sequence of full cycles, add-only cycles, pauses and restarts on one destination, crashes and other editors included: attestations and pending confirmations stay true, and any two additions are separated |
| `DestinationRuns.RunAdditions` | src/news_bulletin_playlist/engine.py:895-936 | Any run of add-only cycles, pauses and new cycles on a destination that nobody else writes, with lost answers, late additions, held-back requests, crashes and storage failures: never an item twice, never over the bound, and every version it ever had is the unchanged tail of the current one |
| `DestinationRuns.FreshIsSound` | src/news_bulletin_playlist/engine.py:444-550 | Every run may begin where nothing was sent or stored yet |
| `DestinationRuns.HonestWarrants` | src/news_bulletin_playlist/engine.py:1120-1121 | What an honest result saw is what clearing an intent needs |
| `DestinationRuns.FenceOutlives` | src/news_bulletin_playlist/engine.py:1041-1121 | Reads and replacements leave the fence around additions as it was |
| `Packing.UnpackPack` | src/news_bulletin_playlist/playlist_bundle.py:83-132 | Unpacking a packed record of fields that fit gives the fields back |
| `Packing.PackUnpack` | src/news_bulletin_playlist/playlist_bundle.py:132-132 | Packing what was unpacked gives the bytes back |
| `PlaylistZip.HeaderSizes` | src/news_bulletin_playlist/playlist_bundle.py:83-132 | The formats take 30, 46 and 22 bytes (APPNOTE.TXT sections 4.3.7, 4.3.12 and 4.3.16) |
| `PlaylistZip.Zip64Sizes` | src/news_bulletin_playlist/playlist_bundle.py:90-90 | The ZIP64 record and its locator take 56 and 20 bytes (APPNOTE.TXT sections 4.3.14 and 4.3.15) |
| `PlaylistZip.RecordDecodes` | src/news_bulletin_playlist/playlist_bundle.py:90-95 | A directory record is decoded as itself, whatever follows it; the last one also where its lengths reach past the end |
| `PlaylistZip.RecordsInjective` | src/news_bulletin_playlist/playlist_bundle.py:90-95 | A directory can be read in one way only, lengths past the end included |
| `PlaylistZip.ReadDirectory` | src/news_bulletin_playlist/playlist_bundle.py:90-95 | The loop of `zipfile`: it finds the only records that make up the directory, of which the last may declare more than there is, or there are none |
| `PlaylistZip.DeclaredIsExact` | src/news_bulletin_playlist/playlist_bundle.py:90-95 | A directory ends where its records say exactly if the last one declares what it holds |
| `PlaylistZip.ReadMember` | src/news_bulletin_playlist/playlist_bundle.py:95-154 | One pass of the loop finds the member that lies at the running offset, or there is none |
| `PlaylistZip.ReadMembers` | src/news_bulletin_playlist/playlist_bundle.py:91-154 | The loop finds the only way in which the entries tile the document from its first byte, with distinct names, or there is none |
| `PlaylistZip.ReadFiles` | src/news_bulletin_playlist/playlist_bundle.py:79-159 | Without a ZIP64 locator the strict reader accepts exactly the archives of portable files up to the three lengths in the last directory record; with one, exactly the ZIP64 archives of portable files (`Laid`), which may hold any bytes between members and directory. It returns those files. What it accepts is the writer's output to the byte exactly if there is no locator and the directory ends where its records say |
| `PlaylistZip.OverrunIsAccepted` | src/news_bulletin_playlist/playlist_bundle.py:79-159 | For any portable files: a document whose last record declares a name one byte too long is accepted, and is nobody's archive |
| `PlaylistZip.GapIsAccepted` | src/news_bulletin_playlist/playlist_bundle.py:79-159 | For any portable files, any bytes that fit and either behaviour of `zipfile`: a document with those bytes hidden between members and directory is accepted as those files |
| `PlaylistZip.LocatedByRecord` | src/news_bulletin_playlist/playlist_bundle.py:90-95 | A directory that `zipfile` does not take from the end record ends at a ZIP64 record which its release admits |
| `PlaylistZip.RecordIsLocated` | src/news_bulletin_playlist/playlist_bundle.py:90-95 | ... and wherever a release admits the two records, that is the directory it finds |
| `PlaylistZip.LooseIsInjective` | src/news_bulletin_playlist/playlist_bundle.py:79-159 | Neither the files nor the declared lengths of an accepted document can be read in two ways |
| `PlaylistZip.NoLocator` | src/news_bulletin_playlist/playlist_bundle.py:79-95 | No archive of portable files shows a ZIP64 locator |
| `PlaylistZip.ArchiveIsInjective` | src/news_bulletin_playlist/portable_playlists.py:277-295 | Different portable files never make the same archive |
| `PlaylistZip.PortableFits` | src/news_bulletin_playlist/playlist_bundle.py:79-110 | Files within their own limits always make an archive within 1 MiB, all of whose header fields fit |
| `PlaylistZip.TilingIsUnique` | src/news_bulletin_playlist/playlist_bundle.py:91-154 | A document is tiled by its entries in one way only |
| `PlaylistZip.WriteArchive` | src/news_bulletin_playlist/portable_playlists.py:278-292 | The archive is members, directory and end record, with nothing before, between or after |
| `PlaylistZip.WriteBundle` | src/news_bulletin_playlist/portable_playlists.py:274-295 | The export refuses exactly a manifest over 256 KiB or an archive over 1 MiB |
| `PlaylistZip.BundleIsPortable` | src/news_bulletin_playlist/portable_playlists.py:277-289 | What the export puts together keeps the names and limits that the import demands |
| `PlaylistZip.ExportThenImport` | src/news_bulletin_playlist/playlist_bundle.py:79-159 | Export, then import: never refused, and exactly the four files come back |
| `Provisioning.ManagedAdminService.Activate` | src/news_bulletin_playlist/managed_admin.py:529-624 | No create request while the journal holds an intent; the intent is durable first; at every crash point a playlist that may exist is managed, named by the journal, or covered by it; with working storage, an answered request and a state that compiles it succeeds. A storage error of the guard leaves the intent, of a request that was refused or never sent |
| `Provisioning.ManagedAdminService.CreateUnder` | src/news_bulletin_playlist/managed_admin.py:581-605 | Suppressed or refused (below 500) clears the intent, unless the backoff cannot be read or saved; exactly then a storage error gets out and the intent stays. Anything else keeps it, or replaces it by the destination that was made |
| `Provisioning.RefusalKeepsIntent` | src/news_bulletin_playlist/managed_admin.py:581-605 | An unsaved backoff after a 429, on a concrete service: the one request was refused, and the journal says that it may have succeeded |
| `Provisioning.ManagedAdminService.FinalizeKnown` | src/news_bulletin_playlist/managed_admin.py:625-665 | Managed state gains at most the playlist the journal names; the journal goes only once that playlist is managed. With working storage, a known template and a destination that nothing else is managed for, one call empties the journal and leaves exactly one record for the template and for the destination |
| `Provisioning.ManagedAdminService.Adopt` | src/news_bulletin_playlist/managed_admin.py:667-697 | Only an unresolved request can be adopted for. With working storage any existing playlist is accepted, whichever the request made; naming another one gives the request's own up, and nothing else. With ownership confirmed and working storage it fails its assertion exactly if a quarantined draft suspends the template and nothing is managed for it, with the journal rewritten |
| `Provisioning.ManagedAdminService.ClearUncertain` | src/news_bulletin_playlist/managed_admin.py:699-703 | Only an unresolved request can be cleared, and only the request that was sent for this intent is given up, if one was |
| `Provisioning.ManagedAdminService.StopManaging` | src/news_bulletin_playlist/managed_admin.py:809-814 | Removes this playlist's record and no other; with working storage it does, unless the template is suspended or the rest does not compile |
| `Provisioning.ManagedAdminService.WriteJournal` | src/news_bulletin_playlist/managed_provisioning.py:103-157 | Old or new content, whatever fails and wherever it crashes |
| `Provisioning.ManagedAdminService.Step` | src/news_bulletin_playlist/managed_admin.py:529-814 | What one operation keeps: every request that may have made a playlist stays accounted for; only the operator's adopt, clear and stop give one up |
| `Provisioning.ManagedAdminService.Run` | src/news_bulletin_playlist/managed_admin.py:529-814 | Any run, crashes and restarts included: once the journal names a destination for a template, that is what the template ends up with, until it is stopped |
| `Provisioning.ExactlyOne` | src/news_bulletin_playlist/managed_admin.py:625-665 | ... and it is exactly one record, for the template and for the destination, if destinations are distinct |
| `Provisioning.HeadingFinishes` | src/news_bulletin_playlist/managed_admin.py:625-665 | A creation under way whose destination nothing else is managed for gets past the configuration check |
| `Provisioning.FinalizeKeepsSound` | src/news_bulletin_playlist/managed_admin.py:625-665 | Finalisation never uncovers a request |
| `Provisioning.FinalizeKeepsExclusive` | src/news_bulletin_playlist/managed_admin.py:625-665 | Finalisation never makes a second record for a destination that only its own template uses |
| `Provisioning.AdoptsAnother` | src/news_bulletin_playlist/managed_admin.py:667-697 | Adoption of a playlist that the request did not make, on a concrete service: it is managed, and the one that was made is given up |
| `Provisioning.AdoptsSuspended` | src/news_bulletin_playlist/managed_admin.py:667-697 | The failed assertion on a concrete service: nothing is managed, and the journal names the candidate |
| `Provisioning.SharedDestinationCompiles` | src/news_bulletin_playlist/managed_state.py:361-413 | The configuration check lets a second record for a destination through exactly when every other one is paused or suspended |
| `Provisioning.StopKeepsSound` | src/news_bulletin_playlist/managed_admin.py:809-814 | Stopping uncovers nothing but the stopped playlist's own request |
| `EngineLifecycle.Controller.Reconcile` | src/news_bulletin_playlist/engine_runtime.py:253-268 | Wakes the running worker, starts one where none lives, or registers the restart waiter where one still drains; without a wanted engine the worker is told to stop |
| `EngineLifecycle.Controller.RequestSchedulerStop` | src/news_bulletin_playlist/engine_runtime.py:336-353 | The worker is told to stop and woken, and is kept as draining while it lives |
| `EngineLifecycle.Controller.WaiterRuns` | src/news_bulletin_playlist/engine_runtime.py:387-401 | The waiter leaves exactly when no old worker lives, and then a wanted engine is running |
| `EngineLifecycle.Controller.EndShutdown` | src/news_bulletin_playlist/engine_runtime.py:275-299 | Reports success exactly when every joined worker is gone |
| `EngineLifecycle.Controller.Run` | src/news_bulletin_playlist/engine_runtime.py:253-401 | Any interleaving: never two live workers; if an engine was wanted last and the process is not stopping, one runs or a restart waiter is registered |
| `SchedulerLoop.Scheduler.Advance` | src/news_bulletin_playlist/engine.py:1435-1479 | While a wake-up is owed, every step of the worker brings the next cycle closer; the flag is never cleared without one |
| `SchedulerLoop.Scheduler.ServeWake` | src/news_bulletin_playlist/engine.py:1432-1479 | A wake-up that no stop overtakes is followed, within six steps of the worker, by a cycle that starts after it, however other threads interleave |
| `SchedulerLoop.Scheduler.Run` | src/news_bulletin_playlist/engine.py:1435-1468 | The worker ends only when it was told to |
| `GuardedWrites.ContractDecides` | src/news_bulletin_playlist/engine_runtime.py:536-593 | Two configurations have the same write contract exactly when destination, selection, limits, exceptions and source knowledge agree |
| `GuardedWrites.SelectedFactsDefined` | src/news_bulletin_playlist/engine_runtime.py:549-573 | A contract's source list exists exactly when every selected source does |
| `GuardedWrites.PlannedHasContract` | src/news_bulletin_playlist/engine_runtime.py:536-593 | What a cycle plans a write for always has a contract, so two absent contracts never count as equal |
| `GuardedWrites.Runtime.Compare` | src/news_bulletin_playlist/engine_runtime.py:507-533 | The request is cleared exactly when no stop arrived and the durable configuration writes the same |
| `GuardedWrites.Runtime.Reload` | src/news_bulletin_playlist/engine_runtime.py:507-523 | A stop before the lock, or a configuration that cannot be read, abandons the write and releases the lock |
| `GuardedWrites.Runtime.Run` | src/news_bulletin_playlist/engine_runtime.py:488-533 | Any interleaving with administration: each request is sent while the durable configuration writes exactly what it was planned from |
| `EngineGate.EngineRunner.BlockingSources` | src/news_bulletin_playlist/engine.py:832-856 | The assigned sources that are missing, disabled, read for another show, or not proven back to the playlist's cutoff: exactly those, unless a read fails, and then none are named |
| `EngineGate.EngineRunner.PartialEvidence` | src/news_bulletin_playlist/engine.py:865-896 | Additions are allowed only where each source is covered, or was read in this very cycle with hidden items and reaches the cutoff |
| `EngineGate.EngineRunner.PartialReconcile` | src/news_bulletin_playlist/engine.py:900-936 | An add-only attempt sends a non-empty list built from the evidence alone |
| `EngineGate.EngineRunner.ApplyRefresh` | src/news_bulletin_playlist/spotify/first_persistence.py:443-505 | Catalogue and trust change together or not at all, and never from an older refresh |
| `EngineGate.RefreshServesAll` | src/news_bulletin_playlist/engine.py:676-707 | A proven refresh at the longest retention covers the source for every enabled playlist it feeds |
| `EngineGate.EngineRunner.RefetchSources` | src/news_bulletin_playlist/engine.py:1174-1205 | Complete only if every assigned source was read again and proven at this playlist's cutoff |
| `EngineGate.EngineRunner.StaleRetry` | src/news_bulletin_playlist/engine.py:1161-1232 | A second replacement is attempted only after HTTP 400, with every source read again and proven, and only if that removed an item from the list |
| `EngineGate.EngineRunner.ReconcilePlaylist` | src/news_bulletin_playlist/engine.py:1029-1080 | At most one replacement and one retry; the replacement sends the list built from the current catalogue; a changed catalogue is always reported back to the cycle |
| `EngineGate.EngineRunner.Turn` | src/news_bulletin_playlist/engine.py:444-550 | A playlist with an unproven source gets only add-only attempts; the turn yields this playlist's one outcome exactly if no read or record of the stores fails in it |
| `EngineGate.EngineRunner.ReadyTurn` | src/news_bulletin_playlist/engine.py:487-550 | A replacement goes out exactly if the evidence can be read, does not allow skipping, and a session is there; it sends the list of the current catalogue |
| `EngineGate.SentButNotReported` | src/news_bulletin_playlist/engine.py:1090-1122 | A failing record after a replacement, on a concrete runner: the list was sent, and the turn has no outcome |
| `EngineGate.EngineRunner.RefreshSources` | src/news_bulletin_playlist/engine.py:388-437 | Exactly the required sources have an outcome, if and only if no read fails where nothing handles it |
| `EngineGate.EngineRunner.RunCycle` | src/news_bulletin_playlist/engine.py:388-568 | Exactly one outcome per enabled playlist, in order, as long as reads and records of the stores work. The first failure that nothing handles ends the cycle: the playlists before it have their outcomes, and at most one more destination was touched. Either way every attempt sends the list built from the catalogue of its moment, justified by the journal that belongs to that very catalogue, and none from an older catalogue than the attempt before |
| `EngineGate.EngineRunner.ReportCycle` | src/news_bulletin_playlist/engine.py:1435-1455 | The scheduler reports an outcome for every enabled playlist if no read or record failed in the cycle, and otherwise none at all |
| `Quarantine.ParseDocument` | src/news_bulletin_playlist/managed_state.py:633-703 | The loops compute `Parse` |
| `Quarantine.CountIds` | src/news_bulletin_playlist/managed_state.py:674-679 | The dictionary counts every contender for every id |
| `Quarantine.NothingIsLost` | src/news_bulletin_playlist/managed_state.py:633-703 | Accepted plus quarantined equals what the document held |
| `Quarantine.EachDraftIsKept` | src/news_bulletin_playlist/managed_state.py:633-703 | Where each draft goes: quarantined as invalid, quarantined as ambiguous, or accepted, by its validity and its contenders |
| `Quarantine.AcceptedIdsAreTheirOwn` | src/news_bulletin_playlist/managed_state.py:672-691 | No accepted draft shares its id with another accepted one or with anything in quarantine |
| `Quarantine.AcceptedCounts` | src/news_bulletin_playlist/managed_state.py:680-691 | An id keeps all its contenders or loses all of them |
| `Quarantine.ParseIsStable` | src/news_bulletin_playlist/managed_state.py:782-813 | The drafts of a parsed state are in order and compose, and parse after serialise after parse equals parse |
| `Quarantine.Compose` | src/news_bulletin_playlist/custom_playlist_templates.py:204-225 | The joint validation accepts exactly the drafts that each pass by themselves and share no id |
| `Quarantine.WriteDocument` | src/news_bulletin_playlist/managed_state.py:782-813 | What is written reads back as the state; it is refused exactly if the drafts do not compose or it would not read back |
| `Quarantine.LoadThenSave` | src/news_bulletin_playlist/managed_state.py:633-813 | What was read can always be written, and reads back as the same state |
| `Quarantine.SortSorts` | src/news_bulletin_playlist/managed_state.py:699-699 | The drafts come out ordered by id |
| `Footer.StripTerminalFooter` | src/news_bulletin_playlist/managed_admin.py:1044-1073 | The loop ends, with the text of which nothing more can be taken off |
| `Footer.StripIsIdempotent` | src/news_bulletin_playlist/managed_admin.py:1044-1073 | Stripping changes nothing exactly when no test of the loop succeeds; twice is once |
| `Footer.StripTakesOnlyFooters` | src/news_bulletin_playlist/managed_admin.py:1044-1073 | What was taken off the end is made of footers, suffixes and white space |
| `Footer.RenderedFits` | src/news_bulletin_playlist/managed_admin.py:958-973 | At most 300 characters, with the project footer at the end |
| `Footer.StripOfRender` | src/news_bulletin_playlist/managed_admin.py:958-999 | Stripping a rendered description gives back the flattened base, stripped |
| `Footer.RenderAgain` | src/news_bulletin_playlist/managed_admin.py:958-999 | Rendering twice is rendering once exactly when the flattened base has no footer at its end; stripping then gives exactly that base |
| `Footer.RenderOneLine` | src/news_bulletin_playlist/managed_admin.py:958-999 | Without CR and LF both round trips always hold |
| `Footer.LineBreakDefeatsRender` | src/news_bulletin_playlist/managed_admin.py:958-999 | With one they can fail: for every short one-line title, the title and then the old attribution on its own line |
| `PlaylistState.FoldMeans` | src/news_bulletin_playlist/persistence.py:283-306 | Records in any order fold to the latest attempt, the latest success, and the error of the last record among those that finished last |
| `PlaylistState.OrderDoesNotMatter` | src/news_bulletin_playlist/persistence.py:283-306 | The order of the records matters to neither time |
| `PlaylistState.Store.RecordPlaylistState` | src/news_bulletin_playlist/persistence.py:267-309 | The row is the fold of every accepted record; a record that ends before it starts is refused |
| `PlaylistState.Store.GetPlaylistState` | src/news_bulletin_playlist/persistence.py:311-328 | What is read back is the latest attempt, the latest success and the deciding error |

## Left out

- The standard library's `ZipFile`: how it finds the directory (with and without ZIP64 records, before and since it checks the locator against the record), its directory loop, its short reads, its refusal of members that reach into the directory and its CRC-32 check are modelled. Code pages for names that are not ASCII, which no limit admits, are not part of this model.
- SHA-256, CRC-32 and JSON: parameters. The manifest's own digest comparison and the validation of its fields are left out; the files' bytes are what is proved.
- Reconciliation without a store, warnings, hidden-item counts and other observability of a result: they decide nothing that is modelled.
- Playlist checks before reconciliation (enabled, adapter, non-empty destination) and the provider client's own argument checks: settled by one branch each.
- Authorization-context freshness: checked before a write but not held across it; only the configuration contract is claimed.
- A full replacement that races an addition still under way: outside the no-other-writer state, so nothing about duplicates is claimed for it.
- Deadlines of the rate-limit journal: what it says before each request is arbitrary (go, wait, unreadable), and so is whether a new backoff can be saved.
- HTTP, OAuth, metrics, detectors, catalogue fetch and the desired-state builder: abstract answers.
- Refresh planning: which sources a cycle reads again is arbitrary; gating is proved for every plan. Skipping a verified destination and the retention of audit records are arbitrary too.
- Source ids of a configuration are assumed distinct in the cycle, as its loaders enforce, and each source to name one Spotify show.
- Session acquisition: one yes or no per use.
- Reads and records of the engine's stores that no handler covers: consecutive ones for the same step of a playlist count as one operation, which works or fails; what a failing one has already written of the audit rows is left out.
- Cover upload after a creation, and editing a managed playlist: neither touches the journal.
- Journal and state files: atomic replacement and removal that may report failure after taking effect; fsync ordering, permissions and links are left out. A removal undone by a power loss would only bring an intent back.
- Threads: sections under the lock are atomic, thread start never fails, and a worker ends only through its loop.
- Draft validity and encoding: parameters, with the law that a decoded draft passes its own checks and survives its own encoding; portable ids, schema versions and migrations are left out.
- Unicode normalisation: text is code points; white space is what Python's `str.rstrip` removes.
- Timestamps: integers in microseconds; the fixed-width text form that SQLite compares is left out.
