# Verified model of Glyphoxa's stateful core

Glyphoxa runs AI voice characters at a Discord gaming table. This project models the parts of
it whose correctness depends on order, time or structure, and proves what they promise:

- **Campaign bundles** (`internal/bundle`). A campaign is flattened into a document keyed by
  source ids and read back under fresh ids. Importing the export of any well-formed stored
  campaign yields an isomorphic campaign; any import, of any document, either commits a
  campaign closed under its own references or leaves the database as it was.
- **Highlight media** (`internal/highlight`, `internal/rpc`, `internal/storage`). Workers that
  claim, generate, store and land one shared asset, interleaved with a GM who re-requests and
  deletes, and with a clock; the boot sweep against savers mid-flight; the saver; the detector.
- **Model replies** (`internal/assist`). The brace scanner against the grammar of RFC 8259, and
  the filter that turns a reply into a draft as a normal form.
- **Audio mixdown** (`internal/mixdown`). In-place lane buffers refine a per-sample definition;
  the WAV writer and reader undo each other byte for byte.
- **Bus projections** (`internal/busproject`). Sessions folded from one interleaved stream, with
  bounded tombstones, and a write queue with a flush barrier.
- **Idle Close** (`internal/idleclose`). A watchdog that samples counters.
- **Jobs, usage ledger, prompt facts** (`internal/jobs`, `internal/billing`, `internal/kgfacts`).

## How it is laid out

| file | module | what it holds |
|---|---|---|
| common.dfy | Common | options and time units |
| bundle_types.dfy | BundleTypes | the document and the stored rows |
| bundle_spec.dfy | BundleSpec | which documents are importable, and what an import leaves behind |
| bundle_import_steps.dfy, bundle_import.dfy | BundleImportSteps, BundleImport | the importer, a class over tables and a blob store with failing calls |
| bundle_export.dfy | BundleExport | the exporter |
| bundle_laws.dfy | BundleLaws | what the importer's specification comes to, spelled out on the document |
| bundle_roundtrip.dfy, bundle_closure.dfy, bundle_copy.dfy | BundleRoundTrip, BundleClosure, BundleCopy | the two together |
| media_claim.dfy, orphan_sweep.dfy | MediaClaim, OrphanSweep | the shared asset; the boot sweep |
| saver.dfy, detector.dfy | Saver, Detector | saving and finding highlights |
| json_scan.dfy, draft.dfy | JsonScan, Draft | model replies |
| mixdown.dfy, wav.dfy | Mixdown, Wav | clips |
| projection.dfy, write_queue.dfy | Projections, WriteQueue | bus projections |
| idle_close.dfy | IdleClose | the watchdog |
| jobs.dfy, ledger.dfy, facts.dfy | Jobs, Ledgers, Facts | the job runner, the usage ledger, prompt facts |

Code that updates fields or buffers is modelled as classes and methods; each method is tied to a
function of the old state, and the promises are proved about that function over all inputs or
all runs. Concurrent protocols are state machines: a run is any sequence of atomic steps from an
initial state, and a theorem about runs quantifies over all of them. A store call that may be
refused asks an arbitrary oracle, so every failure point is covered.

## Where a promise is false, and exactly when it holds

- *Whenever a row's sound is set, its blob is there.* A GM call drops the blob it read from the
  row before it updates the row (`internal/rpc/highlight.go:427-445`). On every run a landed row's
  asset is gone if and only if, since an asset was last stored, a call dropped it while a worker
  was between its put and its landing, or dropped it and has not updated the row since
  (`MediaClaim.LandedAssetExactly`). Both happen, and for good: a single call whose row update
  fails (`MediaClaim.FailedUpdateLosesTheAsset`), and two calls that both complete
  (`MediaClaim.UntimelyDropLosesTheAsset`). Calls that avoid both lose nothing
  (`MediaClaim.CarefulDropsNeverLoseAnAsset`).
- *One generation at a time.* The release carries no owner token
  (`internal/storage/highlight.go:510-516`). It holds on every run if and only if the job lease
  plus the release timeout is at most the claim's life: `MediaClaim.MutualExclusionExactly`.
- *The boot sweep reaps no live clip.* It holds on every run if and only if the sweep reads its
  clock within the grace less one save budget of the row check: `OrphanSweep.SweepIsSafeExactly`.
- *A trigger's range is ordered.* The clamp to the tape can push its start past its end; it is
  ordered if and only if confirmation lags by at most the tape window plus the tail:
  `Detector.RangeIsOrderedExactly`. `Detector.LateConfirmationInvertsTheRange` is a run where it
  is not.
- *A closed session is never resurrected, and each session is folded as if alone.* It stays closed
  until 1024 more sessions have been tombstoned, and not longer (`Projections.TombstoneLife`);
  sessions are isolated at every moment of a stream if and only if fewer than 1024 are tombstoned
  after theirs (`Projections.SessionsAreIsolated`). `Projections.EvictedSessionRestarts` starts a
  closed session again.
- *Overlapping speakers never wrap.* True up to 65536 lanes (`Mixdown.MixNeverWraps`) and false
  at 65537 (`Mixdown.OneLaneMoreWraps`).
- *A failed import leaves no image behind.* What it leaves is exactly the images written whose
  delete fails and, if the write that failed stored its bytes all the same, that one: its key is
  recorded for the sweep only after the write returns (`internal/bundle/import.go:377-380`).
  `BundleImport.Store.Import` says so, and `BundleImport.StrandedImage` leaves one though no
  delete fails.
- *A re-parent that would make a map its own ancestor is refused*
  (`internal/storage/campaign_map.go:229-231`). Only a map as its own parent is
  (`internal/storage/campaign_map.go:206-208`): imported maps are a forest if and only if the
  document's are (`BundleImportSteps.ImportedForestExactly`), and two maps inside one another are
  importable (`BundleImportSteps.CyclicMapsAreImportable`).
- *An adapter without a blob store imports maps without their pictures*
  (`internal/bundle/store.go:138-140`). The code refuses a document that carries an image
  instead (`internal/bundle/import.go:358-360`); the model follows the code.
- *A fact's content is at most 500 characters.* It is 501 exactly when one side is empty and the
  other is longer than 500 (`internal/kgfacts/kgfacts.go:465-474`): `Facts.ContentIsBounded`. Two
  sides over budget come to exactly 500: `Facts.OverBudgetFillsTheBudget`.

## Model

| member | source | states |
|---|---|---|
| BundleImport.Store.Import | internal/bundle/import.go:83-132 | All or nothing across two stores: a finished import has restored an importable document (`Restored`) and stored each of its images under a fresh key; otherwise the database is exactly as before, every old blob stands, and a new blob remains if and only if it was written and its delete failed, or it is the one whose write reported failure and stored it. A document is refused only if it is not importable; without a refused store call every importable document is imported. Reports exactly the participant references no agent answers to. |
| BundleImport.StrandedImage | internal/bundle/import.go:377-380 | An import that fails at its first image write leaves that image behind when the write stored it, though the database is as before and no delete fails |
| BundleImport.Store.ImportInTx | internal/bundle/import.go:143-302 | The transaction body meets the same specification before commit and rollback, and reports every image it knows it wrote |
| BundleImport.Store.ImportGraph | internal/bundle/import.go:152-285 | Campaign, agents, entries, relations and characters end as specified, every other table untouched; refuses exactly the malformed graphs |
| BundleImport.Store.CreateCampaign | internal/bundle/store.go:82-85 | A new campaign has a Butler at once, with the default grants |
| BundleImport.Store.ImportAgent | internal/bundle/import.go:166-184 | A Butler is merged into the row the campaign was created with, once; any other agent is a new row |
| BundleImport.Store.ImportAgents | internal/bundle/import.go:165-185 | Every agent of the document has its row and its reference; a repeated reference or a second Butler is refused |
| BundleImport.Store.MergeButler | internal/bundle/import.go:676-719 | The trigger-created Butler becomes the document's: its grants replaced exactly, its role and address-only kept |
| BundleImport.Store.CreateCharacterAgent | internal/bundle/import.go:724-749 | A new row with exactly the document's grants; a voice that does not parse is refused |
| BundleImport.Store.CreateGrants | internal/bundle/import.go:753-764 | An agent without grants ends with exactly the listed ones; a repeated tool is refused |
| BundleImport.Store.DeleteGrants | internal/bundle/import.go:703-711 | Every existing grant is gone, whatever the order they are listed in |
| BundleSpec.GrantMapEntries | internal/bundle/import.go:753-764 | The grants of an agent are those listed, no others, each with a listed config |
| BundleImport.Store.CreateNode | internal/bundle/import.go:195-239 | One entry with its aspects, tags and agent link, or refused for an unknown agent |
| BundleImport.Store.ImportNodes | internal/bundle/import.go:187-240 | Every entry has its row and its reference, no reference twice |
| BundleImport.Store.CreateEdge | internal/bundle/import.go:242-269 | One relation with its note and disposition, between two entries of this import |
| BundleImport.Store.ImportEdges | internal/bundle/import.go:241-270 | Every relation is added, or the document has one with an unknown end |
| BundleImport.Store.ImportCharacters | internal/bundle/import.go:271-285 | Every character is added as it stands |
| BundleImport.Store.StoreImage | internal/bundle/import.go:346-381 | Bytes before the row and a key only for bytes; refuses bad base64, a non-raster type, and an image without a blob store |
| BundleImport.Store.CreateFlatMap | internal/bundle/import.go:328-397 | One map without a parent, its image stored first |
| BundleImport.Store.CreateFlatMaps | internal/bundle/import.go:327-397 | Pass one: every map flat, every image stored, each new blob recorded |
| BundleImport.Store.NestMap | internal/bundle/import.go:400-425 | The parent is set and every other field kept; an unknown parent, or the map itself, is refused |
| BundleImport.Store.NestMaps | internal/bundle/import.go:399-425 | Pass two: every map has the document's parent |
| BundleImportSteps.NestedPrefixIsForest | internal/bundle/import.go:399-425 | If the document's nesting is a forest, the rows are one after every single step of pass two, in whatever order the maps are listed: no intermediate cycle |
| BundleImportSteps.ImportedForestExactly | internal/bundle/import.go:399-425 | The imported maps are a forest if and only if the document's are |
| BundleImportSteps.CyclicMapsAreImportable | internal/storage/campaign_map.go:205-208 | Two maps inside one another are accepted, and are no forest |
| BundleImport.Store.PlacePins | internal/bundle/import.go:429-446 | A map's pins, in order, or refused for an unknown entry |
| BundleImport.Store.CreatePins | internal/bundle/import.go:427-448 | Every map has its pins and nothing else of it changes |
| BundleImport.Store.ImportMaps | internal/bundle/import.go:312-450 | Maps, images, nesting and pins end as specified; refuses exactly the malformed ones |
| BundleImport.Store.RestoreBoard | internal/bundle/import.go:461-481 | One board with its entries in order |
| BundleImport.Store.ImportBoards | internal/bundle/import.go:453-483 | Every board is added, or one names an unknown entry |
| BundleImport.Store.ImportThreads | internal/bundle/import.go:498-519 | Every planning thread with its messages in order; a third role refuses the document |
| BundleImport.Store.UpsertLines | internal/bundle/import.go:559-583 | One line per replay key: the last text, the first sequence number |
| BundleSpec.LineMapKeys | internal/bundle/store.go:96-98 | The stored lines are keyed by exactly the replay keys given |
| BundleImport.Store.RecordAppearances | internal/bundle/import.go:585-623 | An appearance of an unknown entry or line is dropped, never fatal; every other is recorded once |
| BundleImport.Store.RemapParticipants | internal/bundle/import.go:627-638 | Participants that are agents of this import, in order, and how many are not |
| BundleImport.Store.InsertChunks | internal/bundle/import.go:625-654 | Every chunk in order, and the participants dropped |
| BundleImport.Store.ImportSession | internal/bundle/import.go:537-654 | One session: ended, terminal, with its lines, appearances and chunks |
| BundleImport.Store.ImportHistory | internal/bundle/import.go:532-657 | Every session, and the participants dropped in all of them |
| BundleImport.Store.ImportRecords | internal/bundle/import.go:291-300 | Boards, threads and history end as specified |
| BundleImport.Store.ImportRest | internal/bundle/import.go:287-300 | Maps, images, boards, threads and history end as specified; refuses exactly the malformed ones |
| BundleImport.Store.Sweep | internal/bundle/import.go:105-121 | Of the images written, exactly those whose delete fails remain; nothing else is deleted |
| BundleImport.Store.Rollback | internal/bundle/store.go:152-158 | The database is as it was saved |
| BundleImportSteps.RestoredIsValid | internal/bundle/import.go:83-132 | After an import every id in use is still below the next one minted |
| BundleLaws.ImportableExactly | internal/bundle/import.go:143-302 | The importable documents entry by entry: versions 1 to 3, one reference and one Butler at most, no bad voice, no tool twice, links, ends, anchors, pins and board entries that are entries of the document, a parent that is another of its maps, images of the four raster types with a blob store, messages of the two roles |
| BundleLaws.DefaultButlerStands | internal/bundle/store.go:82-85 | Without a Butler in the document, the campaign keeps the one it was created with, as it was created |
| BundleLaws.ImagesKeepTheirType | internal/bundle/import.go:362-381 | A stored image has the document's bytes and its type, a PNG when none is given |
| BundleLaws.ImportedSessionsAreOver | internal/bundle/import.go:537-557 | No imported session is running: failed if and only if the document says so, ended otherwise, at the end it gives or at its start |
| BundleLaws.LastTextFirstNumber | internal/bundle/import.go:559-583 | Of all lines with one replay key, the last one's fields are stored under the first one's sequence number |
| BundleLaws.RecordedExactly | internal/bundle/import.go:598-616 | An entry and line have an appearance if and only if the document has one of them with both known |
| BundleLaws.FirstRecorded | internal/bundle/import.go:598-616 | Of several appearances of one entry and line, the first is recorded |
| BundleLaws.KeptOrUnknown | internal/bundle/import.go:627-638 | Every participant is either kept or counted as unknown |
| BundleLaws.KnownInPlace | internal/bundle/import.go:627-638 | Every known participant is kept as the agent it names, after those before it |
| BundleLaws.UnknownCounts | internal/bundle/import.go:627-638 | The participants counted as dropped are those no agent answers to |
| BundleLaws.DroppedExactly | internal/bundle/import.go:625-654 | The number an import reports is that of all participant references, over all chunks of all sessions, that no agent answers to |
| BundleExport.List | internal/bundle/store.go:33-43 | A list read returns a campaign's rows, each once, in an order of the store's own |
| BundleExport.CampaignTags | internal/bundle/export.go:85-91 | One campaign-wide read carries every entry's labels in that entry's own order |
| BundleExport.GroupTags | internal/bundle/export.go:92-95 | Grouping the read by entry gives each entry its labels back |
| BundleLaws.TagsCount | internal/bundle/export.go:85-95 | An entry has as many labels as were read with its id |
| BundleLaws.TagInPlace | internal/bundle/export.go:85-95 | Each label read is after those read before it for the same entry |
| BundleExport.ExportGrants | internal/bundle/export.go:189-202 | One grant per tool, with its config, none lost |
| BundleExport.ExportAgents | internal/bundle/export.go:54-79 | Every agent is described with a canonical voice; fails only on a voice that does not parse |
| BundleExport.ExportNodes | internal/bundle/export.go:81-117 | Every entry with its link, private aspects and labels |
| BundleExport.ExportEdges | internal/bundle/export.go:119-132 | Every relation with its note and disposition |
| BundleExport.ExportRows | internal/bundle/export.go:134-145 | Characters, and likewise planning threads, are described as they stand |
| BundleExport.ExportMaps | internal/bundle/export.go:317-370 | Every map with its nesting, anchor and pins; if images are asked for and the bytes of its key still exist, its type and image are those bytes, and otherwise both are empty |
| BundleExport.ExportBoards | internal/bundle/export.go:406-423 | Every board with its entries in order |
| BundleExport.ListLines | internal/bundle/export.go:265-281 | Every stored line, one per replay key, read back to the same lines |
| BundleExport.ExportAppearances | internal/bundle/export.go:282-291 | Every recorded appearance once |
| BundleExport.GroupChunks | internal/bundle/export.go:241-261 | Each session gets its own chunks in order; a chunk bound to none is skipped |
| BundleLaws.ChunksCount | internal/bundle/export.go:241-261 | A session has as many chunks as were read with its id |
| BundleLaws.ChunkInPlace | internal/bundle/export.go:241-261 | Each chunk read is after those read before it for the same session |
| BundleExport.ExportHistory | internal/bundle/export.go:231-308 | Every session with its lines, chunks and appearances |
| BundleExport.Export | internal/bundle/export.go:48-185 | The document describes every row of the campaign, and carries exactly the images asked for whose bytes exist; fails only for a missing campaign or a voice that does not parse |
| BundleRoundTrip.CanonicalVoiceIsSame | internal/bundle/export.go:209-223 | Canonicalising a voice changes nothing a reader sees, and twice is once; it is absent exactly for the zero voice, and its settings are never empty text |
| BundleRoundTrip.ReadParticipants | internal/bundle/import.go:627-638 | Rendered participants are read back renamed, those outside the campaign dropped |
| BundleRoundTrip.ReadAppearances | internal/bundle/import.go:598-616 | Under an injective renaming every appearance is recorded under its own renamed key |
| BundleRoundTrip.ReadSession | internal/bundle/import.go:536-654 | A described session is read back as its copy: same lines, chunks and appearances, terminal and ended |
| BundleRoundTrip.ReadMap | internal/bundle/import.go:328-446 | A described map is read back with its references renamed and its image under the new key |
| BundleRoundTrip.AgentsRead | internal/bundle/import.go:165-185 | Agents are copied one to one and onto, and the reference map agrees with that renaming |
| BundleRoundTrip.NodesRead | internal/bundle/import.go:187-240 | Entries likewise, their agent links renamed |
| BundleRoundTrip.EdgesRead | internal/bundle/import.go:241-270 | Relations likewise, both ends renamed |
| BundleRoundTrip.MapsRead | internal/bundle/import.go:312-450 | Maps likewise: nesting, anchors and pins renamed; with images asked for, bytes that exist and are not empty are under the new key, and any other map has no key |
| BundleRoundTrip.BoardsRead | internal/bundle/import.go:453-483 | Boards likewise, their entries renamed in order |
| BundleRoundTrip.SessionsRead | internal/bundle/import.go:532-657 | Sessions likewise |
| BundleRoundTrip.RowsRead | internal/bundle/import.go:271-285 | Characters and threads are copied unchanged, one to one and onto |
| BundleRoundTrip.ExportIsImportable | internal/bundle/import.go:346-381 | The export of every well-formed campaign is importable if and only if its images have somewhere to go |
| BundleRoundTrip.RoundTrip | internal/bundle/import.go:143-657 | Importing the export of any well-formed campaign yields an isomorphic one: bijections on every table under which every row is its renamed copy, every image asked for stored again byte for byte, modulo exactly terminal status, a filled end, participants and chunks with no home, canonical voices and an address-only Butler |
| BundleClosure.LinesKeyed | internal/bundle/store.go:96-98 | Every stored line is under its own replay key |
| BundleClosure.AppearancesKnown | internal/bundle/import.go:598-616 | Every recorded appearance is of an entry and a line of this import |
| BundleClosure.ParticipantsKnown | internal/bundle/import.go:627-638 | Every kept participant is an agent of this import |
| BundleClosure.ImportedIsNew | internal/bundle/import.go:83-132 | For any document, every row of the new campaign was minted by this import and no other row changed, table by table |
| BundleClosure.ImportedIsWellFormed | internal/bundle/import.go:143-302 | For any document, every reference of every imported row is to a row of the same campaign, there is exactly one Butler, and the campaign can be exported again |
| BundleClosure.NewCampaignIsWellFormed | internal/bundle/store.go:82-85 | A campaign as the store creates it, with its Butler alone, is already well-formed |
| BundleClosure.TwoImportsAreDisjoint | internal/bundle/import.go:83-132 | Two imports, even of one document, share no row of any table |
| BundleCopy.CopyCampaign | internal/bundle/export.go:48-185 | Export then import: isomorphic when done, the target unchanged when not, and always done if no call is refused |
| MediaClaim.ClaimIsFree | internal/storage/highlight.go:491-505 | A claim that can be taken has no live owner, when lease plus release fits its life |
| MediaClaim.SingleOwnerAlways | internal/highlight/enrich_sound.go:194-216 | On every run at most one worker owns the claim, and the row carries its stamp |
| MediaClaim.MutualExclusionExactly | internal/highlight/enrich.go:70-75 | No two generations overlap on any run, if and only if lease plus release is at most the claim's life |
| MediaClaim.LongLeaseOverlaps | internal/highlight/enrich.go:70-75 | With a lease longer than the claim's life, a run with two generations at once |
| MediaClaim.LateReleaseOverlaps | internal/highlight/enrich_sound.go:206-216 | With a release that can outlive the claim, a run in which it clears a successor's claim and a third worker generates beside it |
| MediaClaim.DeployedBoundsAreSafe | internal/jobs/jobs.go:75-88 | Five minutes, ten seconds and ten minutes are safe |
| MediaClaim.LandedAssetExactly | internal/rpc/highlight.go:427-445 | On every run a landed row's blob holds the row's current kind unless, since an asset was last stored, a call dropped it while a worker was between its put and its landing, or dropped it and has not updated the row; in exactly those runs it is gone, and it never is of another kind |
| MediaClaim.CarefulDropsNeverLoseAnAsset | internal/rpc/highlight.go:323-350 | If no drop runs under a worker about to land and every dropping call goes on to update the row, a landed row has its asset |
| MediaClaim.FailedUpdateLosesTheAsset | internal/rpc/highlight.go:431-445 | A run of one call that drops under no worker and whose row update fails: at rest, the row is landed and its asset gone |
| MediaClaim.UntimelyDropLosesTheAsset | internal/rpc/highlight.go:396-445 | A run of two calls that both complete, no update failing, that ends at rest with a landed row whose asset is gone |
| MediaClaim.NoBlobIsForgotten | internal/highlight/enrich_sound.go:297-331 | On every run a blob was put by the last store, and its worker still has it in hand, or failed, crashed, landed it, or found the row there: what a worker stored for a row deleted meanwhile is gone once it has found that out |
| MediaClaim.RowGoneExactly | internal/rpc/highlight.go:323-350 | On every run the row is gone if and only if a deletion has updated it |
| MediaClaim.LandedExactly | internal/storage/highlight.go:442-483 | On every run a row is landed if and only if a worker of its kind landed on it and no request followed, and its kind is the one last requested |
| MediaClaim.StartsExactly | internal/highlight/enrich_sound.go:176-192 | A worker goes on to claim if and only if the row asks for its kind and has no sound |
| MediaClaim.ClaimsExactly | internal/storage/highlight.go:491-505 | A claim is taken if and only if a sound is requested, not landed, and unclaimed or claimed longer ago than a claim lives; else nothing changes |
| OrphanSweep.BlobStore.List | internal/highlight/enrich.go:365-368 | Every key once |
| OrphanSweep.BlobStore.Candidates | internal/highlight/enrich.go:369-380 | Exactly the keys owned by a Highlight and named image, clip.wav or sound |
| OrphanSweep.BlobStore.Sweep | internal/highlight/enrich.go:381-410 | Removes precisely the Highlight images, clips and sounds without a row, stored a minute ago or more or at no known time, whose inspection and delete succeed, and counts them |
| OrphanSweep.OrphansExactly | internal/highlight/enrich.go:447-468 | The owner kind, the three names and the minute of grace that make an orphan |
| OrphanSweep.PastGraceIsGone | internal/highlight/enrich.go:447-468 | A candidate past the grace has no row and no save that could still insert one |
| OrphanSweep.SweepIsSafeExactly | internal/highlight/enrich.go:359-410 | With savers mid-flight, no deleted blob belongs to a row that exists then or later on any run, if and only if the clock is read within grace less save budget of the row check |
| OrphanSweep.SlowCheckReaps | internal/highlight/enrich.go:386-390 | With a slower check, a run that reaps a live clip |
| OrphanSweep.DeployedSweepIsSafe | internal/highlight/enrich.go:447-450 | As deployed, a row check of up to one save timeout is safe |
| JsonScan.ExtractJsonObject | internal/assist/parse.go:123-151 | The text from the first brace to where the scan first closes, or nothing if it never does |
| JsonScan.PlainIsIgnored | internal/assist/parse.go:131-149 | For any text whatever: outside strings only quotes and braces matter |
| JsonScan.QuotedIsIgnored | internal/assist/parse.go:131-138 | Inside a string only the quote that ends it and the backslash matter |
| JsonScan.MarksAre | internal/assist/parse.go:131-149 | A backslash in a string hides any one character, a quote opens or closes it, braces outside count, and the one that returns to zero ends the scan |
| JsonScan.ValueStays | internal/assist/parse.go:131-149 | Any value of the grammar, inside an object, leaves depth, string and escape state as they were |
| JsonScan.OpenObject | internal/assist/parse.go:141-142 | An object without its last brace is exactly one level deeper |
| JsonScan.ObjectClosesAtItsEnd | internal/assist/parse.go:143-147 | The scan of an object's text is done at its last character and at no earlier one |
| JsonScan.OnlyObjectCloses | internal/assist/parse.go:123-151 | Around an object, the scan closes at one position only |
| JsonScan.ObjectIsExtracted | internal/assist/parse.go:120-151 | For any prefix without a brace, any object derivable from the grammar, and any suffix, exactly the object is extracted |
| JsonScan.CutObjectIsNot | internal/assist/parse.go:120-151 | A reply cut anywhere inside its object yields nothing |
| JsonScan.ObjectsArePrefixFree | internal/assist/parse.go:143-147 | No object's text is a proper prefix of another's |
| Draft.FilterNodes | internal/assist/parse.go:50-74 | The first twelve well-formed nodes, and each node's place or none |
| Draft.FilterEdges | internal/assist/parse.go:79-115 | The first twenty-four distinct valid edges between kept nodes, renumbered |
| Draft.ValidateDraft | internal/assist/parse.go:50-117 | The draft the declarative filter defines, or an error when no node is left |
| Draft.PlacedExactly | internal/assist/parse.go:50-74 | A node has a place if and only if its trimmed name is not empty, its kind is of the vocabulary and fewer than twelve such nodes come before it, and its place is how many do |
| Draft.NothingOnlyOfNothing | internal/assist/parse.go:75-77 | There is no draft if and only if no node has a name and a kind of the vocabulary |
| Draft.EveryAllowedEdgeIsInTheDraft | internal/assist/parse.go:79-115 | Unless there are more than twenty-four, every edge between two different placed nodes whose relation the matrix allows is in the draft, renumbered |
| Draft.PlaceIsKept | internal/assist/parse.go:58-73 | A node with a place is kept there, trimmed |
| Draft.PlacesKeepOrder | internal/assist/parse.go:50-74 | Places are injective and keep the order of the reply |
| Draft.EveryKeptNodeHasAPlace | internal/assist/parse.go:50-74 | Every kept node is the place of some node |
| Draft.DraftIsSound | internal/assist/parse.go:32-39 | Every kept edge is in range, not to itself, allowed by the matrix and kept once; names are not empty; caps hold |
| Draft.EveryGoodEdgeIsKept | internal/assist/parse.go:85-115 | No valid edge is lost but to the cap |
| Draft.ValidatingTwiceIsOnce | internal/assist/parse.go:40-118 | Validating a validated draft gives it back unchanged |
| Mixdown.TimeOrderIsStable | internal/mixdown/mixdown.go:154-156 | Frames sorted by arrival, none lost, simultaneous ones in their own order |
| Mixdown.RunStart | internal/mixdown/mixdown.go:165-180 | The first frame of the maximal run a frame belongs to |
| Mixdown.HeardIsTheLastCover | internal/mixdown/mixdown.go:171-182 | What is heard at a sample is the last frame in time order that covers it, silence if none does |
| Mixdown.OffsetIsNearest | internal/mixdown/mixdown.go:234-237 | The offset of an instant is its nearest sample from the start of the window, halves away from zero, and no other number is |
| Mixdown.LengthIsNearest | internal/mixdown/mixdown.go:225-232 | A window's length is its nearest number of samples at the rate, none for an empty window |
| Mixdown.LaneSampleExactly | internal/mixdown/mixdown.go:154-190 | From times and payloads alone: frames placed at their nearest sample after a gap of more than 100 ms and else 960 after the last, decoded by one decoder fed all of them in order; a lane's sample is that of the last frame reaching over it, else silence |
| Mixdown.LaneIsPlaced | internal/mixdown/mixdown.go:154-182 | Every lane whose frames all decode has such places and samples |
| Mixdown.FrameAtTheStart | internal/mixdown/mixdown.go:170-184 | A frame that arrives as the window opens is heard from the first sample |
| Mixdown.EachLaneAddsItsSample | internal/mixdown/mixdown.go:114-127 | A sample of the clip is the sum of one sample of each lane, saturated at 16 bits |
| Mixdown.SumIsNarrowed | internal/mixdown/mixdown.go:254-262 | The accumulator agrees with the true sum modulo 2^32; the narrowing keeps 16-bit values and saturates others |
| Mixdown.MixMovesWithItsWindow | internal/mixdown/mixdown.go:234-237 | Moving the window and every frame by one duration leaves the clip unchanged |
| Mixdown.LayFrames | internal/mixdown/mixdown.go:158-184 | The run-cadence loop leaves exactly that in the lane buffer; it succeeds if and only if every frame decodes |
| Mixdown.LayFrame | internal/mixdown/mixdown.go:174-183 | One more frame laid over the earlier ones, clipped to the window |
| Mixdown.Fold | internal/mixdown/mixdown.go:186-190 | The lane is added where it was written |
| Mixdown.MixLane | internal/mixdown/mixdown.go:142-192 | Adds the lane's per-sample definition to the accumulator, or changes nothing and says why |
| Mixdown.MixAll | internal/mixdown/mixdown.go:114-127 | All or nothing: the clamped sum over the lanes, or the first failure |
| Mixdown.Mix | internal/mixdown/mixdown.go:100-137 | Exactly the window's length at every rate; at 48 kHz exactly the clamped sum, and else its resampling cut or padded; refused exactly when over 32 MB or when a lane does not decode |
| Mixdown.MixIgnoresLaneOrder | internal/mixdown/mixdown.go:114-122 | The clip does not depend on the order of the lanes |
| Mixdown.SumIsBounded | internal/mixdown/mixdown.go:87-91 | n lanes of 16-bit samples sum to within n times the 16-bit range |
| Mixdown.MixNeverWraps | internal/mixdown/mixdown.go:87-91 | Up to 65536 lanes the 32-bit accumulator holds the true sum |
| Mixdown.OneLaneMoreWraps | internal/mixdown/mixdown.go:186-190 | 65537 lanes can wrap full scale to the other end |
| Mixdown.FitLen | internal/mixdown/mixdown.go:239-252 | Exactly n samples: the given ones, then silence |
| Wav.EncodeWav | internal/mixdown/mixdown.go:196-223 | The buffer holds the header of the form and the samples, byte for byte |
| Wav.HeaderIsComplete | internal/mixdown/mixdown.go:206-218 | Every field of the header by its place: sizes, byte rate, block size and the rest |
| Wav.StoreSamples | internal/mixdown/mixdown.go:219-221 | Every sample is stored little-endian after the header, which stays |
| Wav.PcmAt | internal/mixdown/mixdown.go:219-221 | Sample i is the two bytes at 2i |
| Wav.TwosComplement | internal/mixdown/mixdown.go:219-221 | Every 16-bit sample is read back from its two bytes |
| Wav.SamplesOfPcm | internal/mixdown/mixdown.go:219-221 | Every sequence of 16-bit samples is read back from its bytes |
| Wav.ChunkBytes | internal/mixdown/decodewav.go:57-62 | A chunk is a positive, even number of bytes |
| Wav.ChunkIsATenth | internal/mixdown/decodewav.go:57-62 | It is a tenth of a second of whole samples, one sample below ten a second |
| Wav.AcceptedExactly | internal/mixdown/decodewav.go:28-56 | The accepted clips byte for byte |
| Wav.Slice | internal/mixdown/decodewav.go:64-77 | Chunks that join to the data, all full but the last, which is not empty |
| Wav.DecodeWav | internal/mixdown/decodewav.go:28-78 | Accepts exactly the whole mono 16-bit PCM clips, and cuts exactly their data |
| Wav.WrittenClipIsRead | internal/mixdown/mixdown.go:194-223 | Within the size cap, at every rate a header can hold, what is written is accepted with the same data and rate |
| Wav.WriteThenRead | internal/mixdown/decodewav.go:22-78 | Writing then reading: accepted, and the chunks join to the samples written |
| Projections.Projection.Project | internal/busproject/projection.go:156-191 | One event moves the projection as the specification says; the tombstone set stays the duplicate-free queue of at most 1024 |
| Projections.Projection.Close | internal/busproject/projection.go:199-222 | One close likewise: tombstoned, and finished while the host can still look the session up, then deleted |
| Projections.Projection.Turn | internal/busproject/projection.go:246-257 | A known turn of a known session is returned as it is and nothing changes; an unknown turn is created blank; none for an unknown session |
| Projections.TombstonesAreLatest | internal/busproject/projection.go:116-120 | After any run the tombstones are the latest 1024 ever set |
| Projections.TombstoneLife | internal/busproject/projection.go:204-214 | A session stays closed if and only if fewer than 1024 sessions were tombstoned after it |
| Projections.TombstonedIsSilent | internal/busproject/projection.go:166-171 | An event of a tombstoned session changes nothing and calls nothing |
| Projections.TurnsAreFolds | internal/busproject/projection.go:156-191 | On every run, an open session's entry appeared with an event of its own and the registry's answer to it; its turns are exactly those with an event since, each the left fold of its events, in order, from the blank turn; and the host was told of that start and then of each of those events |
| Projections.StartsAndEnds | internal/busproject/projection.go:172-222 | A session opens if and only if an event of its own finds it unclosed, with a good id and registered, and the host is told start then fold; it ends with its close, and the host is told finish; otherwise the host hears nothing of a session that is not open |
| Projections.EventFolds | internal/busproject/projection.go:186-191 | While a session is open, each event of its own is one fold and no other event touches it |
| Projections.SessionsAreIsolated | internal/busproject/projection.go:148-191 | In any interleaving, at every moment, a session's entry, turns, hook calls and closedness are those of running its own events alone, if and only if fewer than 1024 sessions are tombstoned after it |
| Projections.EvictedSessionRestarts | internal/busproject/projection.go:204-214 | Whatever the host, a session closed and followed by 1024 other closes is started again by its next event, where alone it would make no call |
| Projections.FewClosesIsolate | internal/busproject/projection.go:116-120 | Up to 1024 closes, that is every session |
| WriteQueue.EveryAcceptedItemIsAccountedFor | internal/busproject/queue.go:39-75 | On every run, written items, the item in progress and the channel are the accepted items, in order |
| WriteQueue.HistoriesGrow | internal/busproject/queue.go:39-101 | Nothing accepted, written or run is ever taken back |
| WriteQueue.FlushIsABarrier | internal/busproject/queue.go:77-101 | When Flush returns nil, every item accepted before the call has been written, in order, and fn ran after them and before the return |
| WriteQueue.FnRunsOnce | internal/busproject/queue.go:47-58 | Once a flush's fn has run, its barrier is never queued and the writer never serves that flush again |
| WriteQueue.AcceptedExactly | internal/busproject/queue.go:65-75 | An item can be accepted if and only if there is room, and is refused only when the buffer is full, changing nothing |
| WriteQueue.ChannelIsBounded | internal/busproject/queue.go:39-43 | On every run the channel holds at most its buffer |
| IdleClose.SweepInterval | internal/idleclose/idleclose.go:346-362 | Positive, at most half of the window, the configured value when that fits, half the window when it does not, thirty seconds by default |
| IdleClose.Guard.Enroll | internal/idleclose/idleclose.go:237-247 | A new session, last in order, not yet live |
| IdleClose.Guard.Mark | internal/idleclose/idleclose.go:256-261 | Only the counter moves |
| IdleClose.Guard.Activate | internal/idleclose/idleclose.go:268-273 | Only liveness is set |
| IdleClose.Guard.MediaSuspect | internal/idleclose/idleclose.go:281-286 | Only the verdict is set |
| IdleClose.Guard.CycleStarted | internal/idleclose/idleclose.go:292-297 | Only the cycle count moves |
| IdleClose.Guard.Release | internal/idleclose/idleclose.go:301-318 | Only that session leaves the order; again, nothing |
| IdleClose.Guard.SweepOnce | internal/idleclose/idleclose.go:378-443 | The pass in place is the sweep the specification defines |
| IdleClose.Guard.JudgeSessions | internal/idleclose/idleclose.go:392-424 | Every enrolled session refreshed and judged, the breaches in order |
| IdleClose.Guard.JudgeSession | internal/idleclose/idleclose.go:393-423 | Moved marks refresh activity and retire the verdict; churn before silence; inert sessions spared |
| IdleClose.Guard.ShedQuietest | internal/idleclose/idleclose.go:453-482 | Over a ceiling the quietest open session is marked closed; else nothing |
| IdleClose.QuietestIsQuietest | internal/idleclose/idleclose.go:445-449 | The victim is open, heard from longest ago, the first enrolled of several; none only if none is open |
| IdleClose.BreachesAre | internal/idleclose/idleclose.go:392-424 | Exactly the enrolled sessions over a limit of their own are reported, each once, with its reason |
| IdleClose.OwnClosingsExactly | internal/idleclose/idleclose.go:392-424 | A sweep closes, for reasons of their own, exactly the open sessions over the cycle limit, as churn, and of the others those not heard for the window, as dead media if they were suspect and no mark came since, else as idle |
| IdleClose.ShedsExactly | internal/idleclose/idleclose.go:425-482 | A sweep sheds if and only if a ceiling that is set is exceeded, no session has a reason of its own, and one is open |
| IdleClose.ShedsAtMostTheQuietest | internal/idleclose/idleclose.go:369-377 | A sweep that sheds for resources closes nothing else, is over a ceiling, found no session over its own limit, and chose the quietest |
| IdleClose.ClosedWhileLive | internal/idleclose/idleclose.go:403-407 | A sweep closes only enrolled, activated, not yet closed sessions, each once |
| IdleClose.ClosedAtMostOnce | internal/idleclose/idleclose.go:226-230 | On every run no session is closed twice |
| IdleClose.SessionStep | internal/idleclose/idleclose.go:237-443 | One event, for one session: counters and flags move by its own calls only; activity, the seen count and the verdict only by a sweep that finds new marks; closed only by a sweep that reports it |
| IdleClose.FieldsAreTheCalls | internal/idleclose/idleclose.go:256-297 | On every run marks and cycles are the numbers of calls, a session is live if and only if activated, and suspect if and only if a verdict has not been followed by a sweep that heard it |
| IdleClose.IdleMeansSilent | internal/idleclose/idleclose.go:393-422 | On every run a session closed for silence received no mark within the window and was enrolled before it |
| IdleClose.ClosedByDeadline | internal/idleclose/idleclose.go:346-362 | On every run a live session silent since t is closed by t plus the window plus two sweep intervals |
| Ledgers.UsageIsConserved | internal/billing/ledger.go:106-165 | Under any interleaving of accumulations and overlapping flushes, each succeeding or failing, for every key and each of the five quantities: the sum of the amounts of every accumulation so far is what is persisted, buffered and in flight |
| Ledgers.Ledger.Accumulate | internal/billing/ledger.go:108-126 | The key's row holds what it held, nothing if new, plus the amount; every other row keeps its amount, and no other buffer's rows change |
| Ledgers.Ledger.Fold | internal/billing/ledger.go:125-126 | The amount goes into the one row |
| Ledgers.SettledMovesOn | internal/billing/ledger.go:146-162 | A settled flush adds its snapshot to what is stored when it succeeded and to the buffer when not, and the other stays |
| Ledgers.Ledger.Bucket | internal/billing/ledger.go:114-124 | The key's row, created on first use, shared with no snapshot |
| Ledgers.Ledger.Swap | internal/billing/ledger.go:133-140 | The buffer becomes the snapshot and an empty one takes its place |
| Ledgers.Ledger.CopyRows | internal/billing/ledger.go:142-145 | The store is handed exactly what the snapshot holds |
| Ledgers.Ledger.Stored | internal/billing/ledger.go:146-164 | A flush that succeeded settles its snapshot |
| Ledgers.Ledger.MergeBack | internal/billing/ledger.go:146-162 | A flush that failed leaves the buffer the sum of itself and the snapshot |
| Ledgers.Ledger.MergeAll | internal/billing/ledger.go:150-160 | The merge loop, whatever the order of the keys |
| Ledgers.Ledger.MergeRow | internal/billing/ledger.go:150-160 | One key merged, the other rows and snapshots unchanged |
| Ledgers.Ledger.MoveRow | internal/billing/ledger.go:157-159 | A key the buffer does not have takes the snapshot's own row, which then leaves the snapshot |
| Ledgers.Ledger.BuffersShareNoRow | internal/billing/ledger.go:138-145 | What an accumulation writes, no flush in flight is reading |
| Saver.TriggersAreConserved | internal/highlight/saver.go:138-314 | On every run, triggers handed in = outcomes counted, drops included, + triggers queued or being saved |
| Saver.AcceptedIsCountedOrHeld | internal/highlight/saver.go:245-314 | What a sink accepted is counted, in hand or queued |
| Saver.TakenExactly | internal/highlight/saver.go:172-198 | A trigger is taken if and only if its session is still bound to its sink and fewer than sixteen wait; else it is counted as dropped |
| Saver.EverySaveHasARow | internal/highlight/saver.go:256-314 | On every run there are as many rows as outcomes counted as saved |
| Saver.QueuesCloseOnce | internal/highlight/saver.go:138-216 | No queue is closed twice and none is sent to after closing |
| Saver.FinalizeDrains | internal/highlight/saver.go:214-222 | A Finalize that saw its worker exit leaves no accepted trigger without an outcome |
| Saver.RowsBelongToTheirSession | internal/highlight/saver.go:161-186 | Every saved row carries the ids of the session whose own sink accepted its trigger |
| Jobs.JobsEndOnce | internal/jobs/jobs.go:229-302 | A job becomes done or dead at most once, and its handler starts at most as often as its attempts allow |
| Jobs.TerminalIsFinal | internal/storage/job.go:154-180 | A done or dead job never changes again |
| Jobs.ClaimsAreFenced | internal/storage/job.go:154-162 | Two runners on one job hold different generations, and the older one's write changes nothing |
| Jobs.AttemptsGrow | internal/storage/job.go:125-153 | A job's claim count never goes back |
| Jobs.SupersededClaimIsInert | internal/storage/job.go:154-162 | Once a job was claimed anew, nothing the earlier claim's runner does, however late, changes any job |
| Jobs.OutcomesAreEffectiveWrites | internal/jobs/jobs.go:283-302 | On every run the outcomes counted are the terminal writes that took effect, less those whose reply was lost; and the writes that took effect are what happened to the jobs: as many done, as many dead beside the swept ones, as many returned to pending |
| Jobs.ReportExactly | internal/jobs/jobs.go:248-272 | The current claim's report makes the job done on success, pending at the next run time while attempts remain, dead when none do; a superseded one changes nothing |
| Jobs.ClaimExactly | internal/storage/job.go:125-153 | A claim takes a due pending job or a running one whose lease is over with attempts left, counts one attempt and leases it; no other job changes |
| Jobs.ClaimableExactly | internal/storage/job.go:125-153 | Every such job can be claimed, and every running job whose lease is over with no attempts left can be swept; no other |
| Jobs.LeaseProtects | internal/storage/job.go:125-162 | While a lease lasts, only a runner that holds the claim changes the job |
| Jobs.EndsHaveAReason | internal/jobs/jobs.go:229-272 | On every run a done job was reported a success by its claim, and a dead one failed its last attempt, had no handler, or was swept with none left |
| Facts.TruncateRunes | internal/kgfacts/kgfacts.go:463-474 | Unchanged when it fits, else the first max runes and the mark |
| Facts.FitRunes | internal/kgfacts/kgfacts.go:417-438 | Unchanged when it fits, else exactly max runes |
| Facts.BuildAspects | internal/kgfacts/kgfacts.go:344-384 | The line builder leaves the public aspects and the relation, joined by line breaks |
| Facts.ComposeContent | internal/kgfacts/kgfacts.go:343-415 | The composed content of the specification |
| Facts.OverBudgetFillsTheBudget | internal/kgfacts/kgfacts.go:401-414 | Two sides over budget compose to exactly 500 runes, each keeping its own length or at least its share, 299 and 199 |
| Facts.ContentIsBounded | internal/kgfacts/kgfacts.go:387-415 | At most 501 runes, and more than 500 if and only if one side is empty and the other is longer than 500 |
| Facts.UncutFactSaysAll | internal/kgfacts/kgfacts.go:312-400 | A fact within its budgets is its heading, each public aspect and the relation on a line of its own in order, an empty line, and the body, whichever of these there are |
| Facts.PrivateAspectsAreNeverRendered | internal/kgfacts/kgfacts.go:345-348 | Two nodes that differ only in private aspects render the same fact |
| Facts.RenderPreview | internal/kgfacts/kgfacts.go:246-288 | Keeps exactly the longest prefix within both caps; included then dropped is the input; the length is that of the assembled block, in bytes, and at most 4000; counts the facts with content |
| Facts.FitsExactly | internal/kgfacts/kgfacts.go:258-271 | The caps: twenty facts, and four thousand bytes of the block as assembled |
| Facts.BlockIsMeasured | internal/kgfacts/kgfacts.go:246-275 | The running total is the length in bytes of header and facts joined by empty lines |
| Facts.HasContentExactly | internal/kgfacts/kgfacts.go:207-210 | A fact has content if and only if what follows its first line break is not blank |
| Facts.FirstNodeFits | internal/kgfacts/kgfacts.go:246-271 | The first node always fits, given runes of at most four bytes and a bounded label |
| Detector.WithDefaults | internal/highlight/highlight.go:112-139 | Every number of a configuration is positive, and the configured one where that is |
| Detector.Worker.HandleFinal | internal/highlight/detector.go:263-277 | One final moves the worker as the specification says |
| Detector.Worker.AppendLine | internal/highlight/detector.go:294-304 | A blank final counts for nothing; otherwise the latest forty lines |
| Detector.Worker.Classify | internal/highlight/detector.go:309-365 | Cap, disarm, cooldown and gate in that order, then one pass and its bookkeeping |
| Detector.Worker.Emit | internal/highlight/detector.go:371-401 | A trigger on the anchor, its start clamped to the tape |
| Detector.TriggersAreConfirmed | internal/highlight/detector.go:306-365 | On every input at most the cap of triggers, each a cooldown after the last, each on exactly the confirming number of uninterrupted high passes made since, and anchored on the first of them; and a trigger falls exactly where such a streak, starting fresh or straight after the last trigger, is completed |
| Detector.NoPassAfterDenial | internal/highlight/detector.go:313-335 | After a gate denial, or at the cap, no pass and no trigger ever again |
| Detector.PassesExactly | internal/highlight/detector.go:263-345 | On every input, a final makes a pass, with its own score, time and anchor, if and only if it has words and is a classify-interval-th such final, fewer triggers than the cap were made, none within the cooldown, the gate allows it, and no earlier final was denied; in a cooldown it breaks the streak |
| Detector.EveryPassWasAllowed | internal/highlight/detector.go:327-335 | Every pass is of a due final that the gate allowed |
| Detector.DenialIsFinal | internal/highlight/detector.go:317-335 | Whatever follows a final that is denied, passes and triggers stay as they were before it |
| Detector.DisarmedExactly | internal/highlight/detector.go:317-335 | The worker is disarmed if and only if a final was denied |
| Detector.RangeIsOrderedExactly | internal/highlight/detector.go:376-382 | A trigger ends the tail after its anchor and starts the lead before it or at the tape's edge; From is at most To if and only if confirmation lags at most the tape window plus the tail |
| Detector.LateConfirmationInvertsTheRange | internal/highlight/detector.go:376-382 | Two high passes 200 seconds apart confirm a trigger that starts after it ends |
| Detector.BlankFinalsCountForNothing | internal/highlight/detector.go:263-277 | The window is the last forty lines spoken, and passes are at most one in every classify interval of them |

## Left out

- Import result counters other than dropped participant references: each only counts loop turns.
- SQL checks beyond the store contracts (lengths, ranges, uniqueness of names, tag normalisation): a call they refuse is a refused call.
- Base64, gzip and JSON encoding: an image's text is absent, a faithful encoding, or does not decode; a voice column is absent, a voice, or does not parse; ExportedAt is dropped.
- Failing reads during export: a read error aborts the export without a document; only the voice and missing-campaign failures are modelled.
- A present image of zero bytes: it exports as no image, which the round trip states.
- A commit whose reply is lost: a commit that reports failure is taken to have rolled back. A landing that commits and reports failure takes the same steps as one that succeeds.
- `OrphanSweep` has one clock for the creation of blobs and the sweep; `JsonScan` works on characters, which agrees with bytes because every character the scanner looks for is a single byte of UTF-8.
- Provider configuration links, embeddings and speaker colours: never part of a document.
- `PurgeHandler` against a concurrent promote, and the enqueue halves of the boot reconciliation sweep.
- The image enrichment handler as its own machine: it is the sound protocol with one kind that never changes and a success that does not release.
- Prompt builders, provider errors by status and usage metering inside the media handlers: they end in the same success or failure step.
- A re-read failing in the media handler other than by a missing row is one of its failure steps; a compensating delete that fails is a worker that stops.
- Decoding the reply into wire structs, and stripping code fences, which the draft path does not use.
- Vocabulary, relation matrix, label, trimming and disposition texts: parameters. `Draft.ValidatingTwiceIsOnce` asks that normalising twice is normalising once.
- The Opus decoder is an arbitrary stateful function of the payloads so far; the resampler an arbitrary function of the 48 kHz clip.
- Floating-point rounding of sample counts: whole nanoseconds rounded half away from zero; amounts of money and seconds are exact reals.
- Writes of the saver's `save` are one step with one of four outcomes in `Saver`; their order is modelled in `OrphanSweep`.
- The purge job that Finalize enqueues.
- Projections: the host's fold rule touches only the turn its event names; what the registry would answer accompanies each event.
- The write queue, saver, jobs and media protocols are state machines over atomic steps rather than goroutines; channels and mutexes are taken at their documented meaning.
- Idle Close: a sweep is one step, so a mark that lands during it counts as before or after it; close callbacks are recorded, not run; counters do not wrap at 64 bits; a disabled guard and nil handles are not modelled.
- Jobs: a claim may take any runnable job rather than the oldest; backoff and its jitter are an arbitrary next run time.
- Detector: mailbox coalescing, audio features, the classifier's prompt and reply, excerpts and speaker sets, and the wait before the cut.
- Facts: `Recaller` and its timeouts.
- Logging, metrics other than the outcome counts named above, and tracing.
