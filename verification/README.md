# IPTV proxy core: a verified model

This project models the hard parts of the proxy's Go core (and one TypeScript parser) and proves
what they keep, undo and agree on. Go's `internal/cache`, `internal/stream`, `internal/proxy` and
`internal/routing` are the subject. Nothing here runs the original program.
`dafny verify dfyconfig.toml` checks everything.

## What is modelled

**Generational metadata cache** (`Cache*.dfy`). A manifest in Redis names a generation of 8 MiB
chunks. Replacements lock, read the old manifest, fetch, stage chunks with a TTL, switch the
manifest in one script, and delete or retire the old generation; readers pin generations.
`CacheProtocol` is a transition system whose step is one Redis command or one critical section of
the Manager's mutex, with a clock, TTLs, timed locks, any number of operations in flight, failing
commands and ended contexts. `CacheInvariant` is its inductive invariant, `CacheTheorems` what
follows for every reachable state and every run. `CacheGuards` and `CacheLeaks` state exactly which
steps take a manifest away from a replacement, empty a catalogue or leak chunks. `CacheOrigins` traces
every operation in flight to the steps that started it, read its manifest and fetched for it, and
`CacheRuns` says with those steps alone what whole runs empty, leak, publish and answer; `CacheClocks`
says how long locks and staged chunks live; `CacheExamples` holds runs that reach the defects. `CacheManager` is the Manager as an object: its critical sections and chunk loops are
methods, proved to do what the protocol's functions say whichever of their commands fail.

**Live stream multiplexer** (`Stream*.dfy`). One upstream per key, fanned out through queues of 32
entries. `StreamProtocol` is a transition system over its critical sections, channel operations and
the phases of the read loop; `StreamTheorems` holds what follows for reachable states and runs,
`StreamRuns` ties what viewers get to the reads of the run, `StreamLifetimes` says when sessions begin
and end, `StreamProgress` that none is ever stuck or forgotten, `StreamEndings` which viewers lose a
chunk or are never told of the end, `StreamExamples` runs in which that happens; `StreamSession` holds
the session and viewer objects.

**URLs and credentials** (`Text`, `Escaping`, `XtreamUrls`, `XtreamForms`, `XtreamRoundTrip`,
`XtreamLogins`, `CacheTemplate`, `UrlDocuments`, `UrlReading`, `CachedPlaylists`, `PlaylistLines`,
`CachedJson`, `JsonStrings`, `CacheInputs`, `Splicing`). Provider URLs are published under
the proxy's own address and requests are translated back. `XtreamForms` says on a URL's own text which
URLs are published, as what, and that they come back; `XtreamLogins` who is let in; `PlaylistLines` and
`JsonStrings` which lines and strings are rewritten; `UrlReading` that printed URLs can be read. Cached bodies hold placeholders for
credentials; a cache hit substitutes them. A cached text is modelled as a document of fixed pieces
and credential slots, and every rewriter is shown to write such a document; `CacheInputs` says which
provider texts have documents free of placeholders.

**Catch-up** (`CatchupTime`, `CatchupTexts`, `CatchupCandidates`, `CatchupOffers`, `CatchupProbe`,
`CatchupServe`). Start times, equivalent URL spellings, the candidate list, the probe of a response and
the cascade over the candidates of a request, each answer probed. `CatchupTexts` and `CatchupOffers`
spell the texts, formats and failures out.

**Small algorithms** (`CsvLine`, `RefreshSchedule`).

## Assumptions

- One Manager process. `newID` never repeats; chunk keys and lease keys are injective; a command
  whose error is reported did not take effect. Deletes may fail: what they leave behind is counted
  as written off. No crash between a swap and its clean-up. The cache's clock counts seconds.
- Chunks are stored as they are; manifests are read and written whole. A restart begins with an
  empty lease book and whole active generations.
- The URL and JSON parsers, URL printing up to percent-encoding, sorting of query names and
  regular-expression search are taken as functions: a search returns sorted disjoint ranges, a
  parsed URL with a host has an empty path or one that starts with a slash. Percent-encoding is
  written out after Go's `net/url`; a string holds one byte per character. Letter case is ASCII.
  The two passes over a playlist header (double and single quotes) are one search whose matches
  stand between quotes, since no replacement contains a quote.
- The claims about cached templates need provider text without placeholders, also in the URLs it
  names once they are percent-decoded (`CacheInputs`), and client credentials that are not empty and
  hold neither a slash nor a placeholder.
- The refresh factor 0.30 is exact; Go's floating-point product is truncated to nanoseconds.
- Whether a response is HLS and whether a prefix looks like a document are inputs of the probe.
- Times are civil fields: fractions of a second and zones are read over, as printing ignores them.

## Where the code does not do what its comments promise

- A body of length zero publishes a manifest that cannot be read back
  (`internal/cache/manager.go:588`): `CacheTheorems.StepRefinesMap` and
  `CacheManager.Manager.Publish` say what happens instead.
- `refillMissing` goes on when reading the manifest fails (line 324). Such a "blind" fill puts an empty
  catalogue over a known non-empty one, which happens in no other way (`CacheRuns.EmptiedInRun`,
  reached by `CacheExamples.BlindFillEmpties`), and a generation it overwrites unseen stays stored in
  every later state (`CacheRuns.LeakedInRun`, `CacheExamples.BlindFillHappens`). Without such fills
  and failing deletes nothing leaks: `CacheRuns.NoLeakInRun`. All three name the failed read as a step
  of the run; a fill is blind if and only if there is one (`CacheOrigins.BlindIff`).
- `Remove` has no deadline, so it can outlive its lock and delete a manifest that a live replacement
  has read: `CacheExamples.LateRemoveHappens`. No other step takes that manifest away
  (`CacheGuards.PrevStoredStep`), and a Remove that checked that it still owns its lock would not
  (`CacheGuards.OwnedCutIsHarmless`).
- A viewer registered between the end of `finish` and its own check of `done` gets neither chunks nor
  the end of the file: `StreamTheorems.LateViewerStarves`, `StreamExamples.LateViewerHappens`. That is
  the only way to starve: `StreamEndings.StarvesIff`.
- The send to a sole viewer may be given up whenever its session is cancelled, even with room in the
  queue, and then the viewer misses the last chunk before its end of file:
  `StreamExamples.CancelledChunkIsLost`. It cannot be given up while the session is not cancelled
  (`StreamEndings.SoleSendOutcome`), and a viewer that `finish`
  closed misses something in no other way (`StreamRuns.CompleteInRun`).
- A catch-up URL in query form is not described back when its base path holds a `timeshift` segment
  at least four from its end or its stream id has an extension:
  `CatchupCandidates.QueryFormBack` is an equivalence.

## Model

| member | source | states |
|---|---|---|
| CacheSwitching.StepKeepsInv | internal/cache/manager.go:353-390 | every enabled step of any operation keeps the inductive invariant: chunk contents, TTLs, locks, lease book, in-flight operations |
| CacheSwitching.RunKeepsInv | internal/cache/manager.go:653-757 | the invariant holds in every state of every run from a clean start |
| CacheTheorems.ActiveEntryWhole | internal/cache/manager.go:36-54 | a manifest naming chunks always has all of them, none with a TTL, and they spell the published body |
| CacheTheorems.StepRefinesMap | internal/cache/manager.go:653-725 | the cache is a map: only a successful swap or removal changes it, in one step; failed fetches, rejected catalogues, failed staging or scripts, expiry and clean-up leave it alone |
| CacheTheorems.HitIsSnapshot | internal/cache/manager.go:566-614 | in every run a hit returns exactly the entry stored at the moment its get pinned the manifest |
| CacheTheorems.GetStaysBound | internal/cache/manager.go:566-585 | from the pin on a get is bound to one published response, whatever interleaves |
| CacheTheorems.CleanSparesLeases | internal/cache/manager.go:816-861 | no clean-up step deletes a chunk of a generation somebody leases |
| CacheTheorems.LeasedChunksStored | internal/cache/manager.go:848-852 | a leased generation keeps every chunk with its data until the fallback TTL after it was given up |
| CacheTheorems.NextChunkReadable | internal/cache/manager.go:778-791 | a reader's next chunk is there to be read |
| CacheTheorems.ReplacementsExclude | internal/cache/manager.go:353-366 | two replacements of one key whose contexts are alive are the same replacement |
| CacheTheorems.SwapUnderLock | internal/cache/manager.go:695-725 | a swap in time runs under its own unexpired lock and finds its chunks; the manifest read at its start is the one it replaces if and only if it read none or one is stored |
| CacheTheorems.UnlockOnlyOwn | internal/cache/manager.go:35-35 | freeing a lock leaves another owner's lock untouched |
| CacheTheorems.KnownNonEmptyKept | internal/cache/manager.go:379-382 | a replacement that read the manifest never puts a known-empty catalogue over a known non-empty one |
| CacheTheorems.BookExact | internal/cache/manager.go:576-584 | `readers` counts exactly the outstanding leases; `retired` holds only inactive generations with a reader |
| CacheTheorems.QuietAccounting | internal/cache/remove.go:43-81 | with nothing in flight the lease book is empty, all active chunks are stored, and any other stored chunk was written off |
| CacheRuns.WrittenOffInRun | internal/cache/manager.go:854-861 | in every run chunks are written off in two ways only: a DEL fails, or a fill whose read of the manifest failed publishes over a generation |
| CacheTheorems.BlindSwapLeaks | internal/cache/manager.go:324-334 | right after such a fill every chunk of the generation it overwrote is stored without TTL and named by no manifest |
| CacheTheorems.ReleasedOnce | internal/cache/manager.go:66-76 | in every run a lease is given back at most once |
| CacheOrigins.AllTraced | internal/cache/manager.go:312-341 | in every run every operation in flight traces back to the acquisition, the manifest read and the fetch that made it what it is |
| CacheOrigins.LoadDecides | internal/cache/manager.go:324-326 | a fill stops exactly when its read succeeds and finds an entry, any other replacement exactly when its read fails |
| CacheOrigins.BlindIff | internal/cache/manager.go:324-326 | in every run an operation between its read and its swap is blind if and only if some earlier step was its failed read, and then it was started as a fill |
| CacheOrigins.GoesOnOnlyIf | internal/cache/manager.go:324-334 | a fill whose read succeeded fetches, stages or swaps only if the key had no manifest at that read; any other replacement does so with the manifest stored at its read |
| CacheRuns.FetchDecides | internal/cache/manager.go:374-383 | a fetched response is staged unless the fetch failed or it is known to be empty and would replace a catalogue known not to be |
| CacheRuns.ReplacementPublishes | internal/cache/manager.go:353-390 | in every run a replacement whose read, fetch, staging and script succeed leaves the key reading the fetched response, unless that is known to be empty and what was read is not |
| CacheRuns.GetAnswers | internal/cache/manager.go:566-614 | in every run a get of a chunked entry that is left alone has answered with the pinned response exactly when it has read as many chunks as the manifest names |
| CacheRuns.LegacyAnswers | internal/cache/manager.go:586-614 | a get of an old-style entry answers with its body field |
| CacheRuns.UnlockFrees | internal/cache/manager.go:462-464 | releasing frees the lock that the operation still owns and ends the operation |
| CacheRuns.ExpireSetsFallback | internal/cache/manager.go:848-852 | a chunk of a generation given up gets one hour to live and no other chunk changes |
| CacheClocks.LockLasts | internal/cache/manager.go:450-464 | in every run whoever takes a lock owns it, until it gives it back, exactly for thirty-five minutes |
| CacheClocks.LockExcludes | internal/cache/manager.go:450-460 | a replacement or removal fails to start if and only if the lock is held |
| CacheClocks.PublishesInTime | internal/cache/manager.go:353-366 | in every run a replacement publishes within thirty minutes of taking its lock |
| CacheClocks.StagedIsTemporary | internal/cache/manager.go:759-776 | in every run a staged chunk that is not published is gone two hours later, even if every DEL failed |
| CacheGuards.PrevStoredIff | internal/cache/manager.go:353-390 | while a replacement lives, the manifest it read is the one stored if and only if it read none or one is stored |
| CacheGuards.PrevStoredStep | internal/cache/manager.go:353-390 | over any step a live replacement keeps the manifest it read if and only if the step is not a Remove cutting that key |
| CacheGuards.OwnedCutIsHarmless | internal/cache/remove.go:14-57 | a Remove that cuts the key of a live replacement has lost its lock; one that still owns it leaves every live replacement the manifest it read |
| CacheRuns.EmptiedInRun | internal/cache/manager.go:324-334 | in every run a known non-empty catalogue becomes a known-empty one exactly at the steps that publish an empty response which a fill fetched after its read of the manifest had failed |
| CacheRuns.NoLeakInRun | internal/cache/manager.go:816-861 | in every run whose deletes succeed and in which no fill publishes over a generation that it failed to read, whenever nothing is in flight exactly the active chunks are stored |
| CacheRuns.LeakedInRun | internal/cache/manager.go:324-334 | when a fill whose read failed publishes over a generation, its chunks are stored without TTL, and named by no manifest, in every later state of the run |
| CacheExamples.BlindFillHappens | internal/cache/manager.go:312-341 | a reachable run in which a fill overwrites an entry it did not see |
| CacheExamples.BlindFillEmpties | internal/cache/manager.go:312-341 | a reachable run in which a fill replaces a catalogue of five items by an empty one |
| CacheExamples.LateRemoveHappens | internal/cache/remove.go:14-41 | a reachable run in which a Remove outlives its lock and cuts a manifest a replacement has read |
| CacheManager.PublishedReadsBack | internal/cache/manager.go:759-791 | staging any non-empty body and switching makes the key read back exactly that response |
| CacheManager.TailKeepsEntry | internal/cache/manager.go:729-755 | deleting or expiring an old generation does not show in any entry that does not name it, whichever commands fail |
| CacheManager.Manager.WriteGeneration | internal/cache/manager.go:759-776 | stages all chunks, or at the first failing SET deletes exactly what it staged |
| CacheManager.Manager.ReadGeneration | internal/cache/manager.go:778-791 | returns the assembled chunks, or nothing if one is missing or its GET fails |
| CacheManager.Manager.CleanupGeneration | internal/cache/manager.go:854-861 | deletes exactly the given chunks, but for those whose DEL fails |
| CacheManager.Manager.ExpireGenerationFallback | internal/cache/manager.go:848-852 | puts the fallback TTL on exactly the given chunks, but for those whose EXPIRE fails |
| CacheManager.Manager.PinActive | internal/cache/manager.go:570-585 | the critical section of get: the manifest read and the reader counted together, or neither if the read fails |
| CacheManager.Manager.ReleaseGenerationReader | internal/cache/manager.go:816-846 | the reader count drops by one; the last reader out of a retired generation deletes it |
| CacheManager.Manager.Get | internal/cache/manager.go:566-614 | answers with the entry, or fails exactly when a command fails or a chunk is missing; a chunked hit holds a fresh lease, a failed read gives its lease back |
| CacheManager.Manager.Release | internal/cache/manager.go:66-76 | the first release through any copy counts, later ones do nothing |
| CacheManager.Manager.Acquire | internal/cache/manager.go:450-460 | takes the lock exactly when the command succeeds and nobody holds it |
| CacheManager.Manager.ReleaseLock | internal/cache/manager.go:462-464 | frees the lock only if it is the caller's and the command succeeds |
| CacheManager.Manager.SwitchManifest | internal/cache/manager.go:36-54 | switches exactly when the script succeeds and all chunks are staged; the old generation is retired if it has readers, else handed to clean-up |
| CacheManager.Manager.Publish | internal/cache/manager.go:653-757 | fails exactly on a failing SET or script, and then entry, manifests and leases are as before and at most staged chunks whose DEL failed are left, under their TTL; on success the key reads the new response and of an unread old generation only chunks whose DEL failed are left |
| CacheManager.Manager.CutManifest | internal/cache/remove.go:31-57 | the critical section of Remove: manifest, timer and recipe go and the generation is retired or handed to clean-up, or a failing command leaves all of it |
| CacheManager.Manager.Remove | internal/cache/remove.go:14-93 | each of its five outcomes occurs exactly when stated; after an error entry, chunks, leases, timer and recipe are as before; after success the key is missing, its timer and recipe are gone, and its chunks too unless they are being read or their DEL failed |
| StreamPreservation.StepKeepsInv | internal/stream/manager.go:148-241 | every step of sessions, viewers and subscribing clients keeps the inductive invariant |
| StreamPreservation.RunKeepsInv | internal/stream/manager.go:63-106 | the invariant holds in every state of every run |
| StreamTheorems.OneUpstreamPerKey | internal/stream/manager.go:63-106 | unfinished sessions of one key are the same session, registered under the key, with at most one open |
| StreamTheorems.ReadOnlyWhenWatched | internal/stream/manager.go:169-173 | nothing is read before a viewer has registered |
| StreamTheorems.FirstViewerFromStart | internal/stream/manager.go:197-208 | a session's first viewer joins at chunk 0 |
| StreamTheorems.GapFree | internal/stream/manager.go:210-241 | what a viewer took and what waits in its queue form one contiguous in-order block of the upstream; queues never exceed 32 |
| StreamTheorems.RegisteredIsUpToDate | internal/stream/manager.go:175-194 | between reads every registered viewer has been given every chunk since it joined |
| StreamTheorems.StepExtendsGot | internal/stream/manager.go:268-291 | a step gives a viewer its next chunk or nothing, and a closed viewer stays closed |
| StreamRuns.ProducedIsRead | internal/stream/manager.go:175-194 | in every run what a session has produced is the non-empty chunks its reads returned, in order; it has ended, or been cancelled, exactly if a step of the run did that |
| StreamRuns.TakesWhatWasRead | internal/stream/manager.go:210-241 | in every run what a viewer took is a contiguous block of what the reads returned, from its joining point on |
| StreamRuns.JoinsAtNext | internal/stream/manager.go:197-208 | in every run a viewer joins at the first chunk not read yet, or at the one being handed out |
| StreamTheorems.SweptGetsEverything | internal/stream/manager.go:299-317 | a viewer closed by finish sees the end of the file with everything produced since it joined, but for exactly the last chunk if the blocking send to it was given up; unless somebody cancelled, that goes to the upstream's end |
| StreamRuns.SoleViewerReadsAll | internal/proxy/live_proxy.go:125-142 | in every run a viewer alone for the whole uncancelled session has, at its end of file, every non-empty chunk that the reads of the session returned, in order, the one that came with the end included |
| StreamTheorems.SoleViewerNeverDropped | internal/stream/manager.go:210-224 | overflow drops viewers only in sessions that had several |
| StreamTheorems.EofIsFinal | internal/stream/manager.go:268-297 | after its end of file nothing is enqueued for a viewer |
| StreamTheorems.LateViewerStarves | internal/stream/manager.go:97-103 | a viewer registered after finish emptied the map gets nothing, ever |
| StreamTheorems.SweptHasEnded | internal/stream/manager.go:175-194 | finish has closed the viewers of a session only after the upstream ended, failed to open, or somebody cancelled |
| StreamRuns.EndIsLast | internal/stream/manager.go:184-188 | in every run the read that reports the end is the last of its session |
| StreamLifetimes.CancelledReadsOnce | internal/stream/manager.go:175-194 | in every run a cancelled session reads at most once more |
| StreamLifetimes.EmptyIsCancelled | internal/stream/manager.go:243-266 | whoever leaves a session without viewers goes on to cancel it |
| StreamLifetimes.DroppingAllCancels | internal/stream/manager.go:225-241 | a broadcast that drops every viewer is followed by the cancellation, any other by the check |
| StreamLifetimes.EndedIsForgotten | internal/stream/manager.go:299-317 | in every run an ended session is no longer registered |
| StreamLifetimes.LookFinds | internal/stream/manager.go:63-89 | a client gets the registered session of its key, or registers a new one without viewers |
| StreamProgress.NeverStuck | internal/stream/manager.go:148-194 | in every run a session that has not ended has an enabled step of its loop, of a client on its way to start or cancel it, or of the viewer whose full queue it waits for |
| StreamProgress.AlwaysAttended | internal/stream/manager.go:63-106 | in every run a session neither started nor cancelled has a client that will start or cancel it, whichever clients give up |
| StreamProgress.DroppedIff | internal/stream/manager.go:225-235 | a step drops a viewer if and only if it broadcasts to several and the viewer's queue holds 32 chunks, which it keeps |
| StreamEndings.NothingAfterEnd | internal/stream/manager.go:175-194 | after the end that the upstream reported nothing more is read |
| StreamEndings.SoleSendOutcome | internal/stream/manager.go:210-224 | the send to an open sole viewer can be given up if and only if the session is cancelled; else it delivers the chunk |
| StreamRuns.CompleteInRun | internal/stream/manager.go:210-224 | in every run a viewer closed by finish gets all that was read since it joined if and only if no step gave up a send to it |
| StreamEndings.SweepReachesAll | internal/stream/manager.go:299-306 | finish closes every viewer registered at that moment |
| StreamEndings.StarvesIff | internal/stream/manager.go:94-104 | in every run a viewer that its handler does not remove is left open without an end of file if and only if finish had closed the session's viewers before it registered |
| StreamExamples.LateViewerHappens | internal/stream/manager.go:94-104 | such a viewer occurs in a reachable run |
| StreamExamples.CancelledChunkIsLost | internal/stream/manager.go:210-224 | a reachable run in which a viewer with an empty queue sees the end of the file without the chunk that was read for it |
| StreamSession.Viewer.Next | internal/stream/manager.go:268-291 | oldest chunk first, even for a client that has gone; end of file only from an empty queue of a closed viewer |
| StreamSession.Session.AddViewer | internal/stream/manager.go:197-208 | a fresh empty viewer under a new id, and the start signal |
| StreamSession.Session.Broadcast | internal/stream/manager.go:210-241 | one viewer: send if there is room, give up only if cancelled, else block, never drop; several: each gets the chunk or, if full, is dropped and closed with its queue intact |
| StreamSession.Session.OfferAll | internal/stream/manager.go:227-235 | the locked loop over the viewers |
| StreamSession.Session.Remove | internal/stream/manager.go:243-257 | removes and closes exactly this viewer; an empty session is cancelled |
| StreamSession.Session.Finish | internal/stream/manager.go:299-317 | every viewer is closed with its queue untouched and the session leaves the manager unless its key belongs to another |
| StreamSession.DrainClosed | internal/stream/manager.go:268-291 | a closed viewer yields every queued chunk in order before the end of the file |
| Splicing.SpliceBackToFront | internal/proxy/metadata_artwork.go:214-237 | in-place splicing from the last match, with the original's offsets, is the reference rewriting |
| Splicing.SpliceForward | internal/proxy/hls.go:141-162 | the forward pass is the same rewriting, or the error of the first match that fails |
| Splicing.GapKept | internal/proxy/m3u.go:127-149 | every character outside the matches reappears, moved by the replacements before it |
| Splicing.MatchReplaced | internal/proxy/xtream_urls.go:161-185 | every match becomes its replacement at its shifted place |
| Splicing.SplicedLength | internal/proxy/metadata_artwork.go:231-235 | the result is as long as the text plus what the replacements add |
| Splicing.DecliningKeepsText | internal/proxy/metadata_artwork.go:227-230 | declined matches leave the text as it was |
| Splicing.OffsetsMove | internal/proxy/metadata_artwork.go:220-221 | going front to back, every match still to do has moved by exactly what the replacements before it added |
| Splicing.MovedSplice | internal/proxy/metadata_artwork.go:231-235 | splicing the next match at its moved offsets is right |
| Splicing.OrderMatters | internal/proxy/metadata_artwork.go:220-221 | an example in which front-to-back splicing with original offsets goes wrong |
| Escaping.RoundTrip | internal/proxy/cache_template.go:64-72 | an escaped credential decodes to itself, in every position of a URL |
| Escaping.PathModesDecodeAlike | internal/proxy/cache_template.go:68-69 | path text reads the same whether escaped as a whole or by segment |
| XtreamUrls.RewriteXtreamAbsoluteURL | internal/proxy/xtream_urls.go:31-98 | the rewriter, branch by branch, computes the published URL; which URLs have one, and what it is, say the four rows below |
| XtreamForms.PublishedIff | internal/proxy/xtream_urls.go:31-90 | given slash-free provider credentials, a URL is published if and only if the client's are complete, it is on the provider's host, there is a public address, and its text below the base path is an API name, `R/U/P/x` with one of five stream routes in any letter case, `streaming/timeshift.php` with the provider's pair in the query, or `U/P/x` |
| XtreamForms.StreamPublished | internal/proxy/xtream_urls.go:63-69 | a stream URL is published with the client's credentials in place of the provider's and everything else kept |
| XtreamForms.BarePublished | internal/proxy/xtream_urls.go:79-87 | a bare URL is published as a live stream |
| XtreamForms.ScriptPublished | internal/proxy/xtream_urls.go:60-78 | an API or timeshift script keeps its path and gets the client's credentials in the query |
| XtreamUrls.BuildTransparentUpstreamURL | internal/proxy/xtream_request.go:205-300 | the translator with its query loop and index-skipping path loop computes the provider URL or its refusal |
| XtreamRoundTrip.ResolvesFirst | internal/routing/resolver.go:49-88 | every request goes to the first provider with its route, without that segment, else whole to the first default provider; it is refused only if there is neither |
| XtreamRoundTrip.ResolvesTo | internal/routing/resolver.go:65-75 | a provider's own route leads back to it and the rest of the path is kept |
| XtreamRoundTrip.RoundTrip | internal/proxy/xtream_urls.go:31-98 | publish, resolve, translate gives the provider URL back: path, query, provider credentials, host, and the client that asked (bare URLs as their live route), given a route of its own, a path below the base, slash-free credentials and nothing else that looks like credentials |
| XtreamForms.StreamComesBack | internal/proxy/xtream_urls.go:63-69 | the round trip on the text: any `R/U/P/x` of the provider is published, resolved and translated back to itself, given that no segment names a local user |
| XtreamForms.BareComesBack | internal/proxy/xtream_urls.go:79-87 | any `U/P/x` comes back as its live route |
| XtreamForms.ScriptComesBack | internal/proxy/xtream_urls.go:60-78 | any API or timeshift script comes back with the provider's credentials in its query |
| XtreamRoundTrip.PublishedResolves | internal/routing/resolver.go:58-75 | the published URL leads to the provider that published it |
| XtreamRoundTrip.PublishedTranslates | internal/proxy/xtream_request.go:205-300 | a request for the published path and query becomes the provider's URL |
| XtreamRoundTrip.QueryBack | internal/proxy/xtream_request.go:231-247 | query credentials are put back, other parameters kept |
| XtreamRoundTrip.PathBack | internal/proxy/xtream_request.go:249-271 | the path scan finds the one credential pair and restores the provider's segments |
| XtreamRoundTrip.ScanFailsClosed | internal/proxy/xtream_request.go:249-271 | a successful scan forwards no local username a password could follow, and changes segments only into provider credentials |
| XtreamRoundTrip.TranslateFailsClosed | internal/proxy/xtream_request.go:205-300 | requests are forwarded only off the denylist and for an enabled user with the right password; no segment of the forwarded path but the last is a local username other than the provider's own credential, and any complete credential pair in the forwarded query is the provider's |
| XtreamRoundTrip.ClientIsVerified | internal/proxy/xtream_request.go:52-67 | whoever authenticates, exactly or through the plus fallback, is one of the provider's enabled users |
| XtreamLogins.AuthenticatesIff | internal/proxy/xtream_request.go:52-55 | credentials authenticate if and only if an enabled user has them, and as the first such user |
| XtreamLogins.ClientIff | internal/proxy/xtream_request.go:52-67 | a client is let in if and only if an enabled user has its credentials as given or, failing that, with a plus for every blank |
| XtreamLogins.TwoPairs | internal/proxy/xtream_request.go:222-247 | two pairs in a query are accepted if and only if they belong to one user, and then both become the provider's |
| XtreamLogins.PathAfterQuery | internal/proxy/xtream_request.go:254-271 | a user in the path other than the query's is refused; the same one is swapped and the scan goes on behind it |
| XtreamLogins.LocalNameFailsClosed | internal/proxy/xtream_request.go:69-80 | a path that names a local user, enabled or not, is refused without that user's password |
| XtreamLogins.EndpointIs | internal/proxy/xtream_request.go:287-292 | a request of three segments or more that starts with a local user counts as live, any other as its first segment in lower case |
| XtreamRoundTrip.BlockedIff | internal/proxy/xtream_request.go:38-50 | whatever slashes stand around a path, it is refused if and only if its first segment is on the denylist or it is `server/load.php` |
| CacheTemplate.ContentTypeRoundTrip | internal/proxy/cache_template.go:44-53 | marked content types, and only those, are recognised and unmarked |
| CacheTemplate.PersonalizeCanonicalCache | internal/proxy/cache_template.go:60-81 | the loop, with its skipping, performs the four substitutions in order |
| CacheTemplate.ReplaceInDocument | internal/proxy/cache_template.go:74-79 | replacing one placeholder fills exactly its slots, whatever earlier substitutions put in |
| CacheTemplate.MarkersApart | internal/proxy/cache_template.go:11-17 | no placeholder occurs in another |
| CacheTemplate.EscapingAddsNoMarker | internal/proxy/cache_template.go:64-72 | an escaped credential contains a placeholder only if the credential does |
| CacheTemplate.PersonalizedIsFilled | internal/proxy/cache_template.go:60-81 | substituting into the cached rendering is rendering with the client's escaped credentials |
| UrlDocuments.CanonicalIsMarkers | internal/proxy/cache_template.go:35-42 | run with placeholders, the rewriter writes them unescaped |
| UrlDocuments.UrlRendered | internal/proxy/xtream_urls.go:31-98 | publishing succeeds for all clients or none, and its text depends on the client in the slots alone |
| UrlDocuments.FastDecodesLikeSlow | internal/proxy/cache_template.go:55-59 | the substituted document and the one rewritten for the client decode to the same segments |
| UrlReading.QueryReadsBack | internal/proxy/xtream_urls.go:95-95 | a printed query, cut at ampersands and equals signs and decoded, gives its names and values back in order |
| UrlReading.UrlParts | internal/proxy/xtream_urls.go:90-97 | in a printed URL the path ends at the first `?` or `#` and the query at the first `#` (section 3 of RFC 3986) |
| CachedPlaylists.RewriteM3UURLList | internal/proxy/m3u.go:155-175 | the loop over a guide list computes the rewritten list, and the list itself if nothing changed |
| CachedPlaylists.RewriteM3UPlaylist | internal/proxy/m3u.go:27-42 | the line loop computes the rewritten playlist |
| CachedPlaylists.PipeOptions | internal/proxy/m3u.go:177-183 | nothing is lost when player options are split off |
| PlaylistLines.CutAtBar | internal/proxy/m3u.go:177-183 | the URL of a line ends at the first bar and the options start there |
| PlaylistLines.StreamLine | internal/proxy/m3u.go:34-66 | a stream line that holds a URL of the provider in one of the media forms, told by its text, becomes the published URL's text followed by its options |
| PlaylistLines.KeptLine | internal/proxy/m3u.go:68-103 | a stream line that holds anything else is kept |
| PlaylistLines.LineByLine | internal/proxy/m3u.go:27-42 | line i of the result is the rewriting of line i |
| PlaylistLines.GuideElement | internal/proxy/m3u.go:155-175 | an element of a guide list that is a published URL becomes its public text between the same blanks |
| PlaylistLines.HeaderLine | internal/proxy/m3u.go:127-149 | in a header line each attribute value becomes the element-wise rewriting of its list, at its shifted place |
| CachedPlaylists.PlaylistRendered | internal/proxy/m3u.go:27-66 | a rewritten playlist is one document, the same for every client, with that client's credentials |
| CachedPlaylists.FastEqualsSlow | internal/proxy/cache_proxy.go:57-76 | for any playlist, placeholder rewriting then substitution decodes like rewriting for the client |
| CachedPlaylists.ServedAlike | internal/proxy/cache_proxy.go:52-76 | template and legacy generations serve the same content type and playlists that decode alike |
| CacheInputs.CleanPlaylistExact | internal/proxy/cache_template.go:55-59 | for a playlist free of placeholders, in its text and in the URLs looked at in it once decoded, a cache hit decodes like rewriting for the client |
| CachedJson.RewriteXtreamJSONValue | internal/proxy/xtream_urls.go:125-156 | the recursive rewriter replaces members and reports exactly whether it did |
| JsonStrings.ChangesIff | internal/proxy/xtream_urls.go:125-156 | a change is reported if and only if a published URL stands somewhere inside the value, at any depth |
| JsonStrings.ReportsChanges | internal/proxy/xtream_urls.go:137-139 | a value that the rewriting changes is reported as changed |
| JsonStrings.RewrittenAt | internal/proxy/xtream_urls.go:125-156 | at every place inside the value a published URL is replaced by its text and everything else is as it was |
| JsonStrings.CatalogueServed | internal/proxy/xtream_urls.go:108-123 | any catalogue that holds a published URL is served as text spelling the rewritten value, and from the cache as text of a value that reads alike |
| JsonStrings.BracketsAndBraces | internal/proxy/xtream_urls.go:118-122 | arrays are marshalled in brackets, objects in braces with a quoted key and a colon before each member |
| CachedJson.ChangesForAll | internal/proxy/xtream_urls.go:115-117 | whether a catalogue changes does not depend on the client |
| CachedJson.ValueRendered | internal/proxy/xtream_urls.go:108-123 | a rewritten catalogue's text is one document for all clients |
| CachedJson.MarshalSpells | internal/proxy/xtream_urls.go:118-122 | marshalled text reads back as the value |
| CachedJson.FastEqualsSlow | internal/proxy/cache_proxy.go:197-202 | for any JSON value, the substituted text spells a value of the same shape whose strings decode like those rewritten for the client |
| CacheInputs.CleanCatalogueExact | internal/proxy/cache_template.go:55-59 | for a catalogue free of placeholders in strings, keys, atoms and decoded URLs, a cache hit spells a value alike the one rewritten for the client |
| CatchupTime.ParseCatchupStart | internal/proxy/catchup.go:194-212 | the layout loop returns the first layout's reading |
| CatchupTime.ParsedIsValid | internal/proxy/catchup.go:194-212 | an accepted start is a time of the calendar |
| CatchupTime.NotCaptured | internal/proxy/catchup.go:196-210 | a layout rejects prints of any layout that diverges from it |
| CatchupTime.StartRoundTrip | internal/proxy/catchup.go:214-229 | a start printed in any format is read back truncated to its resolution; no earlier layout takes it |
| CatchupTexts.StartMeans | internal/proxy/catchup.go:194-212 | for all dates and times each of the eight spellings, written out digit by digit, is read as exactly the fields written, the others zero, a zone read over |
| CatchupTexts.FormatTexts | internal/proxy/catchup.go:214-229 | the text that each of the nine formats writes, digit by digit |
| CatchupTexts.MonthLengths | internal/proxy/catchup.go:206-210 | the lengths of the twelve months, leap years included |
| CatchupCandidates.TimeshiftPathParts | internal/proxy/catchup.go:103-118 | the backward search finds the last place of the route with room for six segments |
| CatchupCandidates.PathFormBack | internal/proxy/catchup.go:120-146 | a path-form candidate describes exactly what it was built from |
| CatchupCandidates.QueryFormBack | internal/proxy/catchup.go:148-184 | a query-form candidate does if and only if the base path holds no earlier route and the stream id no extension |
| CatchupCandidates.DescribeBuilt | internal/proxy/catchup.go:231-271 | describe after build recovers base path, user, password, duration, stream id and the truncated start |
| CatchupCandidates.DescribedFits | internal/proxy/catchup.go:120-146 | every described path-form URL meets the round trip's conditions |
| CatchupCandidates.RebuildsItself | internal/proxy/catchup.go:273-290 | the client's own path URL is rebuilt unchanged by the format it is taken for |
| CatchupCandidates.BuildCatchupCandidates | internal/proxy/catchup.go:292-330 | the list is what is offered, in order, without repeated texts |
| CatchupCandidates.CandidateList | internal/proxy/catchup.go:297-330 | distinct, at most eleven, complete, the preferred format or the client's URL first, nothing invented |
| CatchupOffers.NineInOrder | internal/proxy/catchup.go:297-330 | with a start that is understood the nine formats are offered in this order behind the client's own URL, with any other none is |
| CatchupOffers.PreferredFirst | internal/proxy/catchup.go:322-325 | a preferred format that can be built comes first and nothing else changes |
| CatchupOffers.OwnPathFormat | internal/proxy/catchup.go:273-290 | the format taken for a path-form request is the one of four whose spelling its start has, else the original one |
| CatchupOffers.OwnQueryFormat | internal/proxy/catchup.go:273-290 | and for a query-form request the one of five |
| CatchupOffers.PathText | internal/proxy/catchup.go:248-255 | a path-form URL reads base, `timeshift`, user, password, duration, start, stream, in this order |
| CatchupOffers.QueryText | internal/proxy/catchup.go:256-269 | a query-form URL asks the timeshift script with five parameters beside the client's own |
| CatchupProbe.FindMPEGTSSync | internal/proxy/catchup.go:385-401 | the least offset that passes the 188-byte test, or none exists |
| CatchupOffers.PacketsSync | internal/proxy/catchup.go:385-401 | what the test is: sync bytes at the offset and a packet behind it, and two packets behind it if the body is that long |
| CatchupProbe.ProbeCatchupResponse | internal/proxy/catchup.go:408-453 | exact acceptance condition and conservation of bytes: only what precedes the first sync of an accepted body is dropped, and a known length drops by as much |
| CatchupServe.ServeCatchupDirect | internal/proxy/direct_proxy.go:107-218 | exactly one reply; the candidates of the request are asked in order up to the first whose probed answer ends the cascade, which is relayed as the probe left it; otherwise all are asked and the fallback status follows; never two open responses |
| CatchupServe.TryCandidate | internal/proxy/direct_proxy.go:131-204 | one candidate is asked once and relayed exactly if its answer is decisive, a refused range, or a success the probe accepts; else its response is closed |
| CatchupOffers.WhatEnds | internal/proxy/catchup.go:354-366 | which answers end the cascade: six statuses, a refused range that was asked for, or a success the probe accepts |
| CatchupOffers.FailurePrecedence | internal/proxy/direct_proxy.go:205-218 | which failure is reported: no candidates, then a success that was no archive, then the last error status, then a failed request, then nothing available |
| CsvLine.ParseCsvLine | lib/services/vpn/vpngate.ts:10-33 | the loop computes the fields |
| CsvLine.RoundTrip | lib/services/vpn/vpngate.ts:10-33 | any non-empty list of fields, quoted in any permitted way (section 2 of RFC 4180), is read back |
| CsvLine.AlwaysQuotedRoundTrip | lib/services/vpn/vpngate.ts:16-23 | also with every field in quotes |
| CsvLine.MinimallyQuotedRoundTrip | lib/services/vpn/vpngate.ts:24-29 | also with quotes only where needed |
| CsvLine.CommasByParity | lib/services/vpn/vpngate.ts:15-31 | on any line a comma separates exactly when an even number of quotes precedes it |
| RefreshSchedule.RefreshTimers.Schedule | internal/cache/manager.go:430-437 | one timer per key: arming replaces it and leaves the others |
| RefreshSchedule.RefreshTimers.ScheduleFromMeta | internal/cache/manager.go:416-424 | arms the later of now and the instant the metadata asks for |
| RefreshSchedule.RefreshTimers.ScheduleAtThreshold | internal/cache/manager.go:426-428 | arms 0.7 TTL from now |
| RefreshSchedule.DueNearArmed | internal/cache/manager.go:666-670 | the persisted instant is less than a second early and late only by truncation, exactly when stated |
| RefreshSchedule.RearmNeverLater | internal/cache/manager.go:416-428 | a re-armed refresh never fires after the one armed at publish, unless overdue |

## Left out

- RefreshSchedule.DueNearArmed: its late case needs a TTL that is no multiple of ten nanoseconds; the program's TTLs are whole hours (`internal/proxy/cache_spec.go:16`) or whole seconds (`internal/proxy/cache_rehydrate.go:58`), for which `RefreshSchedule.RearmNeverLater` holds.
- RefreshSchedule.RefreshTimers.Schedule: timers are not part of the interleaved protocol; a timer that has already fired can re-arm after Remove, so nothing is claimed about a removed key staying unscheduled.
- CacheManager.Manager.Publish: one call without interference; the interleaved claims are in `CacheTheorems`.
- CacheTheorems.StepRefinesMap: the abstract value of a key is its response; the descriptor and the expiry fields of the metadata are not part of it.
- StreamSession.Session.Broadcast: a send that blocks, and a `Next` that waits, are result values here; the interleaved forms are in `StreamProtocol`.
- CachedPlaylists.RewriteM3UPlaylist: the passes over double and single quotes in a header are one search.
- CachedPlaylists.ServedAlike: the rewriting of opaque media URLs, which both branches apply afterwards, is not modelled.
- CachedJson.RewriteXtreamJSONValue: values are rebuilt, not changed in place; object members have a fixed order, where Go visits a map in any order.
- XtreamUrls.BuildTransparentUpstreamURL: GET requests only; credentials in form and JSON bodies of other methods are not modelled.
- XtreamRoundTrip.RoundTrip: the scheme, the fragment and the order of query parameters are not compared; the application base URL has no path of its own, since requests are resolved by their whole path.
- CatchupServe.ServeCatchupDirect: a provider's answer depends on the URL alone; tracing and headers are left out.
- CatchupProbe.ProbeCatchupResponse: the sniffing of document-like prefixes and of HLS is an input.
- CatchupTime.ParseCatchupStart: fractions and zones are read over, not kept.
- `retireGeneration` has no caller in the repository's cache package and is not modelled.
- Migration of legacy keys, duplicate deletion, bulk status, statistics and listing of the cache: start-up only or display.
- Artwork and opaque media tokens, HLS playlist rewriting beyond the splice, third-party URLs.
- HTTP clients, headers, tracing, hashing, random ids, JSON and URL parsing, regular expressions.
- The VPN, WireGuard, OpenVPN, WARP and routing services, the database services, sessions, passwords and rate limits, and the admin UI.
- Retry delays after failed refreshes: a cache hit past the threshold re-arms at once, so no backoff holds in general.
