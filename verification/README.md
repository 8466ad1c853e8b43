# Local audio server: a verified model

This project models the four connected cores of a local pronunciation-audio server and its Anki
add-on, and proves that each agrees with a simple specification.

1. **The compiled lookup index.** Rows of `entries.db` are compiled to one file: interned strings,
   hash-sorted terms with a fanout, a CHD minimal perfect hash, fixed-width records and audio entries
   over a deduplicated pack. `Query.Candidates` answers on those bytes exactly what the add-on's own
   selection answers on the rows (`Compile`, `Tables`, `Mph`, `Layout`, `Bundle`, `Lookup`,
   `Structure`, `Selection`, `Query`, `AudioPacker`). `Pipeline.BuildAndAsk` joins the parts, from
   the rows and the audio files to the answer of a query.
2. **The resumable pack builder and the bundle import.** A fold over sorted (source, file) groups,
   with checkpoints, cancellation, crashes and resumes (`Groups`, `PackBuilder`, `Resume`,
   `Acceptance`, `BuildRuns`, `PackIndex`), and the merge of two sorted streams (`ImportMerge`).
3. **The concurrent lookup store.** The LRU cache (`LruCache`), pack leases (`PackLeases`), what
   readers are answered while the store changes (`StoreSnapshot`), and freedom from deadlock
   (`StoreGates`).
4. **The quarantine, Trash and restore protocol** (`Slots`, `Cleanup`).

Code that updates state in place is modelled by classes and methods with loops, each proved against a
specification function or predicate; threads and crashes are step relations, with theorems over every
run.

Conventions:

- Text is a sequence of UTF-8 bytes; SQLite's BINARY order, Rust's `str` order and Python's code point
  order all agree with the byte order used.
- XXH3, its seeded form, BLAKE2b, BLAKE3 and SHA-256 are function parameters. Nothing is assumed about
  them, so collisions are possible, except where a lemma says otherwise (`AudioPacker.NoCollision`) and
  in `Cleanup`, where equal SHA-256 stands for equal bytes.
- Crashes and cancellation in `Cleanup` come from a `signals` function polled before every file-system
  effect; a contract that holds for every such function holds at every crash point. What the Trash does
  and whether the pack passes its checks, each time it is checked, are parameters.
- In `BuildRuns` a crash keeps what was synced before the last checkpoint: the records of groups up to
  its key and the pack bytes it counts. All other records of database rows and the pack tail may hold
  anything afterwards.
- `Common` holds `Wrappers`, `Text` and `Sorting`, `Bytes` holds `LittleEndian`, `Tables` holds
  `CompileTables`; every other file is named after its module.
- Reader and query counts of `StoreGates` are kept as sets of threads; each thread is in at most once,
  so a count is zero exactly when its set is empty. A re-entrant use of a guard already held is left
  out of a method's program, since it changes nothing. `selected_rows` runs the program of `Rows`,
  `invalidate_database` that of a publication.

Five places where the code does less than one would expect, each with its exact condition:

- `lookup_first` waits for a transition while holding a state lease; it can get stuck if and only if
  it meets a method that runs one (`StoreGates.SticksExactly`).
- The default path of `best_candidate` ignores the speaker rank (`Query.FastPathExact`,
  `Query.FastPathDiffers`).
- The string table accepts a text at the null offset (`Strings.FullTableReadsAsNull`), so the theorems
  about answers assume texts of less than 2^32-1 bytes.
- A bundle whose audio files are all empty is built, but cannot be opened (`Pipeline.Open`).
- A restore that ends right before the marker is cleared can be misreported by the next cleanup
  (`Cleanup.Collection.CleanAfterRestore`, `Cleanup.VanishedMisreport`, `Cleanup.CompletedMisreport`).

`dafny verify dfyconfig.toml` checks the whole project.

## Model

| member | source | states |
|---|---|---|
| Strings.StringTable.Intern | rust-server/src/compiler.rs:87-97 | Equal texts share one reference, a new text is appended, earlier references stay good; it fails exactly when the table or the text has reached 2^32 bytes. |
| Strings.StringTable.Optional | rust-server/src/compiler.rs:99-107 | NULL gets the null offset; a present text is readable exactly when its offset is not the null offset, that is unless the table held exactly 2^32-1 bytes. |
| Strings.StringTable.HasRoom | rust-server/src/compiler.rs:87-97 | A table of texts that together, each counted once, stay below 4 GiB never refuses one of them, and is never longer than they are. |
| Strings.SmallTableReadable | rust-server/src/compiler.rs:86-108 | A table below the null offset never hands that offset to a text. |
| Strings.FullTableReadsAsNull | rust-server/src/compiler.rs:86-108 | The corner left by the 4 GiB check: one text interned at offset 2^32-1 is stored, but reads back as NULL. |
| Strings.StringBytes | rust-server/src/compiler.rs:778-786 | Succeeds exactly on references inside the table, with the bytes they denote. |
| Layout.WriteLookup | rust-server/src/compiler.rs:808-884 | Refuses exactly a fanout of the wrong width or a file of 2^64 bytes; otherwise every section and header field is at its computed place, gaps are zero and the checksum covers the payload. |
| Layout.WriteTables | rust-server/src/compiler.rs:828-875 | Header and all seven sections are in the buffer, without overlap. |
| Layout.WriteSection | rust-server/src/compiler.rs:845-875 | A table written item by item equals the concatenation of its items, with zeros up to the next section and everything before it unchanged. |
| Layout.WriteHeader | rust-server/src/compiler.rs:829-843 | All header fields, and nothing after them, are written. |
| LittleEndian.DecodeEncode | rust-server/src/bundle.rs:742-767 | Fixed-width little-endian fields round-trip. |
| LittleEndian.DecodeEncodeI32 | rust-server/src/bundle.rs:457-467 | Signed displacements round-trip, the sentinel included. |
| LittleEndian.TableSlice | rust-server/src/bundle.rs:703-712 | Item i of an equal-width table is at start + i * width. |
| Bundle.ParseHeaderAccepts | rust-server/src/bundle.rs:575-683 | Every file the writer produces is accepted, with and without checksum verification, and its layout is recovered. |
| Bundle.ParseHeaderExactly | rust-server/src/bundle.rs:575-701 | A file is accepted if and only if magic, version, header size and, when verified, checksum are right, and every section its header names begins in order and lies inside the file; none of the overflow checks decides alone. |
| Bundle.WrittenDecodes | rust-server/src/bundle.rs:318-402 | Layout round trip: on a written file every accessor gives back what was written, nulls and negative displacements included. |
| Bundle.ParseRecordEncoded | rust-server/src/bundle.rs:342-361 | A record survives encoding and parsing field by field. |
| Bundle.ParseTermEncoded | rust-server/src/bundle.rs:685-693 | A term entry survives encoding and parsing. |
| Bundle.ParseAudioEncoded | rust-server/src/bundle.rs:363-376 | An audio entry survives encoding and parsing, its media type included. |
| Bundle.StringDecodes | rust-server/src/bundle.rs:378-394 | A readable reference gives back its text. |
| Mph.FillBuckets | rust-server/src/compiler.rs:679-683 | Each bucket lists, once and in term order, exactly the terms hashed to it. |
| Mph.BucketOrderVisitsOnce | rust-server/src/compiler.rs:684-685 | Every bucket is visited, and visited once. |
| Mph.LargestFirst | rust-server/src/compiler.rs:684-685 | A bucket visited earlier is at least as large as one visited later. |
| Mph.TryDisplacement | rust-server/src/compiler.rs:697-709 | A displacement is accepted exactly when the bucket lands on distinct free slots. |
| Mph.FindDisplacement | rust-server/src/compiler.rs:695-720 | The search returns the least displacement that fits, or gives up having tried every one up to i32::MAX. |
| Mph.PlaceColliding | rust-server/src/compiler.rs:691-725 | One bucket takes its least fitting displacement and exactly the slots that lands on, without disturbing placed terms; it fails exactly when no displacement fits the slots in use. |
| Mph.PlaceCollidingBuckets | rust-server/src/compiler.rs:690-726 | Succeeds exactly when the search, each bucket at its least fitting displacement over the slots left by the earlier ones, never gets stuck; then exactly the terms of multi-key buckets are placed. |
| Mph.SearchStep | rust-server/src/compiler.rs:690-726 | One bucket of the search: the slots in use afterwards are those before and those its least fitting displacement lands on. |
| Mph.FreeSlotExists | rust-server/src/compiler.rs:728-745 | The counting argument: while a term is unplaced some slot is free. |
| Mph.PlaceSingletons | rust-server/src/compiler.rs:728-745 | Single terms never run out of free slots. |
| Mph.EverythingPlaced | rust-server/src/compiler.rs:746-753 | After both phases every slot is filled. |
| Mph.PlacedIsPerfect | rust-server/src/compiler.rs:668-776 | The result is a bijection from terms to slots in which no stored displacement of a used bucket equals the empty-bucket sentinel. |
| Mph.Validate | rust-server/src/compiler.rs:755-771 | The self-check passes exactly when every key resolves to its own bytes. |
| Mph.BuildMph | rust-server/src/compiler.rs:668-776 | For distinct keys and any hash functions construction fails exactly past i32::MAX terms or when the displacement search reaches a bucket it cannot separate; otherwise the hash is perfect, so singletons, filling and validation never fail. |
| Lookup.MakeFanout | rust-server/src/compiler.rs:656-666 | Entry b counts the terms whose top sixteen hash bits are below b, and cuts the sorted terms there. |
| Lookup.CutCounts | rust-server/src/compiler.rs:656-666 | A cut position is that count, so it is unique. |
| Lookup.LowerBound | rust-server/src/bundle.rs:263-272 | Binary search finds the first position whose hash is not below the target. |
| Lookup.ScanCollisions | rust-server/src/bundle.rs:274-287 | Equal hashes are told apart by whole keys; the scan misses no key and takes no error exit. |
| Lookup.LookupTerm | rust-server/src/bundle.rs:253-288 | Sorted lookup equals the plain map for every text, under arbitrary hash collisions. |
| Lookup.MphAgrees | rust-server/src/bundle.rs:292-316 | Perfect-hash lookup equals the plain map for every text, present or absent, without an error. |
| Lookup.PreloadHashmap | rust-server/src/bundle.rs:426-437 | On a compiled index the preloaded map is the plain map; on any readable one it fails exactly when a text is listed twice. |
| Lookup.NewBackend | rust-server/src/query.rs:63-70 | Every lookup mode can be prepared on a compiled index; on any readable one only preloading can fail, on a text listed twice. |
| Lookup.TermEntryOf | rust-server/src/query.rs:84-90 | Whatever lookup the engine uses, the answer is the plain map's; on any readable index only the perfect hash can fail. |
| Structure.ValidateStructure | rust-server/src/bundle.rs:469-561 | Accepts exactly the indexes on which every accessor call succeeds, ranges are inside the tables, hashes are sorted and both lookups agree. |
| Structure.AcceptedMeans | rust-server/src/bundle.rs:515-557 | On an accepted index every record, string, source and byte range a query can reach is there. |
| Structure.CheckedTerm | rust-server/src/bundle.rs:493-513 | On an accepted index a sorted term names existing records, and the perfect hash finds the same ones under its text. |
| Structure.TermsAscend | rust-server/src/bundle.rs:493-513 | On an accepted index term hashes ascend, as the binary search trusts. |
| Structure.CompiledStructureValid | rust-server/src/bundle.rs:469-561 | Every compiled file passes the structure check. |
| Structure.CompiledFanoutPasses | rust-server/src/bundle.rs:473-491 | A compiled fanout starts at zero, ends at the term count and never decreases. |
| Compile.AssetKeyInjective | rust-server/src/compiler.rs:902-908 | Two assets never share a key. |
| Compile.DisplayName | rust-server/src/compiler.rs:586-590 | There are pieces free of the marker that joined with the marker are the template, and joined with the display text are the name; without a display text the name is the template. |
| Compile.NameUnique | rust-server/src/compiler.rs:586-590 | No other text is the name of that template and display text in this sense. |
| Compile.CompileRow | rust-server/src/compiler.rs:622-635 | A record carries its row's source, audio, reading, speaker and filled-in display name; it succeeds when the texts fit the table. |
| Compile.FlushTerm | rust-server/src/compiler.rs:607-645 | One term's records are its rows in compiler order (source, reading with NULL first, row id), under one entry; it fails past 2^32 records, and not when the texts fit the table. |
| Compile.CollectRecords | rust-server/src/compiler.rs:554-605 | Over rows ordered by expression, every expression gets one entry with exactly its rows; when the texts fit the table it fails exactly on a row of unknown source or audio. |
| Compile.OrderedContiguous | rust-server/src/compiler.rs:563-572 | ORDER BY expression keeps the rows of a term adjacent. |
| CompileTables.AssetIds | rust-server/src/compiler.rs:225-232 | Distinct assets get distinct ids; the duplicate error cannot fire. |
| CompileTables.SerializeAudioTable | rust-server/src/compiler.rs:788-806 | Audio entry i describes asset i; it succeeds when the texts fit the table. |
| CompileTables.CompileIndex | rust-server/src/compiler.rs:213-281 | All tables of the index are the compiled form of the rows and assets; when its texts, each counted once, stay below 4 GiB, it fails exactly on a row of unknown source or audio, past i32::MAX terms, or when the perfect hash search gets stuck. |
| CompileTables.SortedEntriesMean | rust-server/src/compiler.rs:261-265 | Sorting by hash permutes entries together with their meaning. |
| CompileTables.CompiledFits | rust-server/src/compiler.rs:213-281 | Every value fits the width the file gives it. |
| CompileTables.CompiledSound | rust-server/src/compiler.rs:213-281 | With a string table below the null offset, the tables keep every promise the lookups and the structure check rely on. |
| Selection.BuildRanks | anki-addon/fast_store.py:302-307 | Each name ranks by its first occurrence. |
| Selection.SelectRows | anki-addon/fast_store.py:290-314 | Filtering and sorting in the requested order. |
| Selection.MatchingMeaning | anki-addon/fast_store.py:30-37 | A lookup reads the rows of its expression that have the asked reading or none, each as often as the database has it. |
| Selection.SelectedMeaning | anki-addon/fast_store.py:290-314 | Rows of requested sources whose speaker is unknown or requested, each as often as found; a row is never placed before one preferred to it: earlier requested source, then no speaker, then earlier requested user, then no reading before any, then smaller reading, then smaller id. |
| Selection.SelectedOrderFree | anki-addon/fast_store.py:290-314 | The answer does not depend on the order the database returns rows in. |
| Selection.FirstRow | anki-addon/fast_store.py:381-404 | The single best row, found without sorting, is always the head of the full selection. |
| Query.SourceRank | rust-server/src/query.rs:160-183 | A source index ranks exactly when its id is requested, by the first occurrence of that id. |
| Query.ComparatorFollowsKey | rust-server/src/query.rs:242-272 | The candidate comparator is the total order of (source rank, speaker rank, reading with NULL first, ordinal). |
| Query.RecordResolves | rust-server/src/query.rs:185-231 | A compiled record resolves to its row when the row passes every filter and never to an error; the source check never fails. |
| Query.ForeignFails | rust-server/src/query.rs:185-231 | On an accepted record the only error left is the source check, raised exactly when the record passes every filter and its audio has another source. |
| Query.OrdinalsFollowIds | rust-server/src/compiler.rs:614-619 | Among rows of one source and reading, record positions rise exactly as row ids do. |
| Query.KeysAlike | rust-server/src/query.rs:242-263 | The query's comparator orders candidates exactly as the add-on's selection orders their rows. |
| Query.Candidates | rust-server/src/query.rs:92-110 | Compilation preserves meaning: on every compiled bundle the answer is the add-on's selection over the database rows, row for row and in order, each with its name filled in from its source's template, and no error exit is taken. On any other accepted index it fails exactly when the perfect hash does or a passing record's audio belongs to another source. |
| Query.BestCandidate | rust-server/src/query.rs:112-139 | The best candidate is the head of the selection; on the default path it is the first passing row in compiler order. |
| Query.FastPathExact | rust-server/src/query.rs:119-131 | The default path returns the head of the candidates if and only if the first passing row is speakerless or no passing row of its source is. |
| Query.FastPathDiffers | rust-server/src/query.rs:119-131 | A concrete term on which the default path and the head of the candidates differ. |
| Query.CompiledFileServes | rust-server/src/bundle.rs:182-239 | The file written for a compiled index parses with and without checksum, passes the structure check and is ready to answer. |
| Pipeline.PackedAssetsGood | rust-server/src/compiler.rs:406-551 | Collected and packed assets are distinct, fit their fields, lie inside the pack, and their slices are their files. |
| Pipeline.PackedAssetsTagged | rust-server/src/compiler.rs:425-434 | Every packed asset has the media type of its file's extension and the digest prefix of its file's bytes. |
| Pipeline.Build | rust-server/src/compiler.rs:213-291 | Building fails exactly on a file that cannot be collected or packed, past i32::MAX terms, or when the perfect hash search gets stuck, provided the database texts stay below 4 GiB; the limits on records and file size never bite. What it writes has every asset's range, media type and digest prefix. |
| Pipeline.Open | rust-server/src/bundle.rs:182-239 | A built bundle passes the manifest comparison and the structure check and opens in every mode, if and only if its pack is not empty. |
| Pipeline.BuildAndAsk | rust-server/src/query.rs:92-110 | From ordered rows and files to an answer: every query, by any of the three lookups, returns the add-on's selection of the rows, each candidate with the name, the media type and the bytes of its row's file; opening fails exactly when no audio byte was packed. |
| AudioPacker.WritePack | rust-server/src/compiler.rs:452-551 | Working in chunks of 1024 gives the result, or the error, of working asset by asset. |
| AudioPacker.PackSucceeds | rust-server/src/compiler.rs:477-530 | Packing fails exactly on an unreadable file or on 2^64 bytes of audio. |
| AudioPacker.EmptyPack | rust-server/src/compiler.rs:489-530 | A finished pack is empty exactly when all files are. |
| AudioPacker.PackIsFaithful | rust-server/src/compiler.rs:489-530 | Every asset's slice of the pack is its file even under digest collisions, ranges coincide or are disjoint, and asset bytes equal pack bytes plus deduplicated bytes. |
| AudioPacker.EqualFilesShareRange | rust-server/src/compiler.rs:497-518 | Without digest collisions equal files share one range. |
| AudioPacker.BlobsAreContents | rust-server/src/compiler.rs:519-529 | Without digest collisions the blobs counted are exactly the distinct contents. |
| AudioPacker.PlainPackKeepsEverything | rust-server/src/compiler.rs:497-529 | With deduplication off every asset is stored. |
| AudioPacker.CollidingFilesAreKept | rust-server/src/compiler.rs:497-529 | Under a digest collision a repeated file is stored again, still faithfully. |
| Groups.GroupRows | anki-addon/fast_pack.py:333-363 | The generator yields the runs of equal keys within the boundaries, in order. |
| Groups.GroupsGood | anki-addon/fast_pack.py:333-363 | Group keys strictly rise, ids are disjoint, and groups and rows say the same about every id. |
| Groups.GroupsSplit | anki-addon/fast_pack.py:333-363 | Groups up to a key followed by groups after it are all groups, cut right after that key's group. |
| PackBuilder.ReadGroup | anki-addon/fast_pack.py:413-431 | Data is returned exactly for supported readable files of 1 byte to 64 MiB. |
| PackBuilder.Builder.Consume | anki-addon/fast_pack.py:1422-1471 | One group updates index, pack, dedupe table, counters and hash inputs as specified; what those come to over all groups is stated by the rows of PackIndex. |
| PackBuilder.Builder.PackGroups | anki-addon/fast_pack.py:1420-1512 | With a read-ahead window, what is done is always the fold of a prefix of the groups, and all of it if and only if none of the polls asks to cancel: one before, two for each group, one after. |
| PackBuilder.Builder.SearchCopy | anki-addon/fast_pack.py:1433-1444 | The first dedupe candidate with equal bytes is found; digests alone never decide. |
| Resume.RestorePartial | anki-addon/fast_pack.py:1080-1197 | The restore loop computes the restored state or the first failure, and does not get through when a poll before any of its groups asks to cancel. |
| Resume.GroupRestored | anki-addon/fast_pack.py:1119-1173 | One group of a restore retraces what consuming it did. |
| Resume.RecordStays | anki-addon/fast_pack.py:1073-1077 | Later groups leave the records of earlier groups alone. |
| Resume.RestoreExact | anki-addon/fast_pack.py:1080-1197 | From a checkpoint's index records and pack bytes a restore never fails and returns the very counters, dedupe table with list order and hash inputs the builder held. |
| Resume.NullBoundaryRefused | anki-addon/fast_pack.py:1105-1191 | A checkpoint without a last key is refused whatever the files hold, unless the database is empty. |
| Acceptance.AcceptedExactly | anki-addon/fast_pack.py:1080-1197 | A checkpoint is accepted if and only if the rows of every group through its key share a record that is empty or a range of real audio it counts, no offset has two lengths, its key is still in the database, its counters are those of the records and the source files hash as they did. |
| Acceptance.TallyBalanced | anki-addon/fast_pack.py:1154-1187 | In an accepted checkpoint unique files are the different offsets, duplicates the other readable files, and every other group is missing. |
| BuildRuns.OpenedSound | anki-addon/fast_pack.py:1354-1415 | Opening any directory a run can leave behind continues exactly at the checkpoint or starts clean. |
| BuildRuns.CheckpointResumed | anki-addon/fast_pack.py:1354-1415 | Nothing a checkpoint covers is done again: a run that finds the files of a build goes on with the very state of its checkpoint, unless no group had been finished. |
| BuildRuns.CrashSound | anki-addon/fast_pack.py:1331-1353 | A crash keeps the checkpoint's part of the files usable, whatever happens to stale records and the pack tail. |
| BuildRuns.InterruptedEqualsStraight | anki-addon/fast_pack.py:1331-1555 | After any sequence of cancels, crashes and resumes, what is published is the index, pack, counters and version input of one straight run. |
| BuildRuns.FinalVersionNeverContradicts | anki-addon/fast_pack.py:1533-1537 | The check of a checkpoint's final version never fails. |
| BuildRuns.ResumeCompletes | anki-addon/fast_pack.py:1346-1555 | From every directory a run can leave behind one undisturbed run publishes. |
| PackIndex.ReadableRowServed | anki-addon/fast_pack.py:290-308 | A row of a readable file gets exactly that file and its type, inside the pack. |
| PackIndex.PartServed | anki-addon/fast_pack.py:306-308 | Any part of a readable row's audio that is asked for is that part of its file. |
| PackIndex.OtherRowsNotServed | anki-addon/fast_pack.py:290-303 | Every other id, negative ones included, is answered with nothing. |
| PackIndex.CountersAddUp | anki-addon/fast_pack.py:1422-1471 | Every path is unique, a duplicate or missing; rows and valid rows are counted; every byte is stored or saved. |
| PackIndex.UniqueFilesCounted | anki-addon/fast_pack.py:1432-1455 | Whatever the digests collide with, unique_files is the number of different contents of readable files, content_duplicates is how many readable files there are beyond that, the pack holds each content once, and the saved bytes are the rest. |
| PackIndex.VersionIdentifies | anki-addon/fast_pack.py:1467-1471 | Two packs of one database get the same version input if and only if the same files were readable, in the same order and with the same digests. |
| PackIndex.ValidRowsCounted | anki-addon/fast_pack.py:1456-1466 | valid_rows is the number of valid records in the index. |
| PackIndex.EqualFilesStoredOnce | anki-addon/fast_pack.py:1432-1455 | Files with equal bytes share one offset, whatever their digests collide with. |
| ImportMerge.Merge | anki-addon/fast_pack.py:722-789 | The merge succeeds if and only if counts agree and every audio record pairs with its group; then every row carries its own asset's range and none is left out. |
| ImportMerge.RowGetsItsAsset | anki-addon/fast_pack.py:763-775 | The record a row received is that of the asset with the row's own source and file, with a safe path and a length of 1 byte to 64 MiB inside the pack, and it is served. |
| ImportMerge.CollectAssets | rust-server/src/compiler.rs:406-442 | One asset per distinct (source, file), in group order; it fails exactly on an unconfigured source, an unsafe path, an unknown extension or 2^32 assets. |
| ImportMerge.CollectedDistinct | rust-server/src/compiler.rs:406-442 | No asset is listed twice. |
| ImportMerge.CompiledBundleImports | anki-addon/fast_pack.py:700-789 | The merge succeeds on every bundle compiled from the same rows with safe paths and lengths of 1 byte to 64 MiB, if and only if there are rows. |
| LruCache.Cache.Lookup | anki-addon/fast_store.py:60-69 | A hit returns the last value put since the last clear; a miss touches nothing. |
| LruCache.Cache.Store | anki-addon/fast_store.py:71-78 | At most the least recently touched key is evicted. |
| LruCache.Cache.Reset | anki-addon/fast_store.py:80-82 | Clearing empties the cache. |
| LruCache.HeldExactly | anki-addon/fast_store.py:54-86 | A key is held exactly when it was put since the last clear and fewer than capacity other keys were touched after it; never more than capacity keys are held. |
| PackLeases.PackTable.AcquireSnapshot | anki-addon/fast_store.py:593-611 | The active pack, or a pack of the requested version, is leased; it has not been handed off for closing. |
| PackLeases.ChosenIsAskedFor | anki-addon/fast_store.py:593-611 | A request for a version gets a pack of that version, or nothing if none is open under it and none can be opened; a request without one gets the active pack. |
| PackLeases.PackTable.ReleaseSnapshot | anki-addon/fast_store.py:577-591 | The last lease of a replaced pack hands it off, once; any other release hands off nothing. |
| PackLeases.PackTable.Retire | anki-addon/fast_store.py:619-632 | A replaced pack stays known while leased and is handed off otherwise. |
| PackLeases.PackTable.ReloadActive | anki-addon/fast_store.py:634-644 | The replacement is active under a new epoch, every lease stays, and the old pack is handed off exactly when nobody leases it. |
| PackLeases.PackTable.CloseAll | anki-addon/fast_store.py:788-807 | Closing hands off every unleased pack and retires the leased ones: afterwards exactly the packs without a lease have been handed off. |
| PackLeases.EveryRunSafe | anki-addon/fast_store.py:577-644 | Over every run of acquire, release, reload and close, leases are counted, historical and retired packs are leased, and every opened pack is known or handed off, never both. |
| PackLeases.SafeMeans | anki-addon/fast_store.py:577-644 | A leased pack is not handed off; an opened pack neither current nor leased is; nothing is handed off twice. |
| PackLeases.HandedStaysHanded | anki-addon/fast_store.py:577-644 | A pack handed off for closing is never leased again. |
| StoreSnapshot.ProgramCleans | anki-addon/fast_store.py:634-769 | Whatever a change does on the way, it ends with caches that are right for the new database, pack and sources. |
| StoreSnapshot.ProgramDelivers | anki-addon/fast_store.py:634-807 | Each of the four changes ends with exactly what it asked for in place of what it replaces, the rest untouched, and new epochs for what they cover. |
| StoreSnapshot.StepKeeps | anki-addon/fast_store.py:150-182 | Every step of readers, writers and evictions keeps the caches and the readers' locals current. |
| StoreSnapshot.LeaseFreezesTriple | anki-addon/fast_store.py:150-182 | Database, pack and sources do not change while anyone holds a state lease. |
| StoreSnapshot.AnswersAreCurrent | anki-addon/fast_store.py:498-512 | Over every interleaving each answer is the uncached answer for the single triple current during its lease. |
| StoreSnapshot.CachesNeverStale | anki-addon/fast_store.py:271-284 | Nothing cached under the current epochs is stale, even though replacing sources changes no epoch. |
| StoreSnapshot.ChangeTakesEffect | anki-addon/fast_store.py:634-807 | Over every interleaving, a change that gets to its end leaves what it asked for in place of what was current when it was requested; only a publication can end otherwise, and then nothing has changed. |
| StoreSnapshot.AnswersAfterChange | anki-addon/fast_store.py:498-512 | Until the next change is at work, every lookup is answered from what the last one asked for. |
| StoreGates.MethodsProper | anki-addon/fast_store.py:150-225 | Every path of every method but lookup_first keeps the guard order state, database, pack, and waits only where the discipline allows. |
| StoreGates.MethodsDoTheirPart | anki-addon/fast_store.py:150-807 | Every method passes exactly the gates that are its part: readers lease, changes claim a transition and drain it, publications drain queries, only close marks the store closed. All but leased_packed_audio touch rows, connections and packs only under a lease or a drained transition. |
| StoreGates.StepKeeps | anki-addon/fast_store.py:150-225 | Every step keeps the shared fields in agreement with where each thread is; no waiter misses its notification. |
| StoreGates.PublishingWithoutReaders | anki-addon/fast_store.py:697-706 | Publication happens only with zero state readers. |
| StoreGates.ClosedStaysEmpty | anki-addon/fast_store.py:150-182 | Over every run, a closed store stays closed and never has a reader again. |
| StoreGates.SomeoneSteps | anki-addon/fast_store.py:150-225 | While some thread has work left, some thread can take a step. |
| StoreGates.NeverStuck | anki-addon/fast_store.py:150-225 | No reachable state is stuck, for any number of threads whose programs keep the discipline, under any schedule. |
| StoreGates.QuietNeverStuck | anki-addon/fast_store.py:552-575 | Programs that never start a transition are never stuck, even if they wait for one inside a lease. |
| StoreGates.LookupFirstCanStick | anki-addon/fast_store.py:445-451 | lookup_first, on each of its paths, and any change: a reachable state in which each waits for the other. |
| StoreGates.SticksExactly | anki-addon/fast_store.py:150-225 | A stuck state is reachable if and only if the methods include lookup_first and one that runs a transition. |
| Slots.SourceSlotsInjective | anki-addon/cleanup.py:810-814 | Different sources never share a quarantine slot, whatever their hashes are. |
| Cleanup.Collection.StageFiles | anki-addon/cleanup.py:1156-1368 | Staging, interrupted anywhere, loses no audio and can go on later; when it finishes every planned file is staged and journaled. Undisturbed it finishes; under a standing cancel request it ends in a journaled pause, or with no trace if nothing had moved. |
| Cleanup.Collection.PauseStaging | anki-addon/cleanup.py:1320-1350 | Cancelling forgets a cleanup that has moved nothing, and otherwise journals the pause with what was moved so far; only a crash keeps it from either. |
| Cleanup.Collection.VerifyStage | anki-addon/cleanup.py:1371-1502 | Passes exactly when the quarantine holds exactly the planned files with their original bytes. |
| Cleanup.Collection.TrashQuarantine | anki-addon/cleanup.py:1505-1617 | The Trash is asked exactly when nothing interrupts, the pack passes again and the quarantine is complete; a request that returns is journaled as completed, trash-failed or recovery-required according to where the files are and whether the pack passes after it. |
| Cleanup.Collection.TrashVerified | anki-addon/cleanup.py:1726-1895 | The whole cleanup keeps every file in exactly one place at every crash point. No file moves unless the active pack passes its checks, and none reaches the Trash unless it passes again or while a cancel request stands. It finishes on the word of a completed journal or by handing everything to the Trash; a vanished quarantine is taken to be there; otherwise, undisturbed, it reaches the Trash. |
| Cleanup.Collection.StartCleanup | anki-addon/cleanup.py:1783-1895 | Plan, inventory, journal, staging and Trash; undisturbed it makes its request, and it finishes exactly when the Trash took everything and the pack still passes. Cancelled at once it changes nothing. |
| Cleanup.Collection.Restore | anki-addon/cleanup.py:1900-2142 | Restoring ends with every file at its original path with its original bytes; the marker is cleared only after every destination was verified. |
| Cleanup.Collection.FinishRestore | anki-addon/cleanup.py:2051-2127 | The quarantine is removed empty, destinations are read again, then the marker goes. |
| Cleanup.Collection.RestoreAfter | anki-addon/cleanup.py:1900-2142 | After any history of cleanups, restores and put-backs, each interrupted anywhere, putting back and restoring once leaves the collection as it was found. |
| Cleanup.Collection.FinishAfter | anki-addon/cleanup.py:1709-1895 | A cleanup always gets there: after any number of attempts, each cancelled, ended anywhere or refused by the Trash, one undisturbed attempt hands exactly the planned files to the Trash. |
| Cleanup.Collection.CleanAfterRestore | anki-addon/cleanup.py:1733-1755 | With every file at home and the marker still there, a cleanup takes the files to the Trash if and only if the journal does not say they are there: not completed, and not quarantined or trash-failed with all files moved. Otherwise it misreports. |
| Cleanup.VanishedMisreport | anki-addon/cleanup.py:1741-1755 | A run from an untouched collection to the report that the quarantine is in the Trash, while every file is at home. |
| Cleanup.CompletedMisreport | anki-addon/cleanup.py:1733-1740 | A run from an untouched collection to the report of a completed cleanup, while every file is at home. |
| Cleanup.WithoutMarkerUntouched | anki-addon/cleanup.py:1865-1867 | Without a marker the source folder is exactly as it was found. |
| Cleanup.StagingIsSafe | anki-addon/cleanup.py:1271-1275 | One rename into the quarantine keeps every file in exactly one place. |
| Cleanup.UnstagingIsSafe | anki-addon/cleanup.py:2017-2036 | One rename back keeps every file in exactly one place. |
| Cleanup.TrashingIsSafe | anki-addon/cleanup.py:1547-1552 | Handing a complete quarantine to the Trash loses nothing. |

## Left out

- Mph.BuildMph: buckets of equal size are visited in index order, where the unstable sort of the code leaves their order open; whether the search gets stuck may depend on it, what a built hash promises does not.
- Compile.CollectRecords: rows are assumed ordered by expression with unique ids and fewer than 2^32 in number, as the query and the database give them; the code itself checks the bound only before each term.
- Layout.WriteLookup: items are encoded to bytes before they are copied, where the code writes the fields of an item one by one into the buffer.
- Bundle.StringDecodes: UTF-8 validation of a slice is not modelled, because the table only ever receives whole UTF-8 texts.
- Bundle.ParseHeaderAccepts: intermediate sums that overflow a platform word in the code are compared with 2^64 here.
- CompileTables.CompileIndex: `sort_unstable_by` is modelled by a stable sort; the two differ only on terms with equal hash and offset, of which all but one are empty texts.
- AudioPacker.WritePack: files do not change while they are packed, and the incremental pack digest is not compared with the file's, because both hash the same bytes.
- PackBuilder.ReadGroup: path resolution, suffixes and file metadata are one opaque token and media type per key.
- PackBuilder.Builder.PackGroups: checkpoints written by the clock between two groups are steps of `BuildRuns`, not of this loop.
- PackBuilder.Builder.Consume: offsets beyond 64 bits and negative row ids, for which `struct` or the memory map would fail, do not occur in the model.
- BuildRuns.InterruptedEqualsStraight: database and source files are fixed, so the checks that they changed are not modelled; the directory a finished pack is moved to is not either.
- ImportMerge.Merge: manifest, integrity and header checks before the merge are not modelled; decoding and path safety are one predicate.
- StoreSnapshot.AnswersAreCurrent: rendering an answer from rows, pack and sources is one function; SQLite itself and the in-memory row table are a sequence of rows; a closed store does not refuse readers here, which only adds runs.
- StoreGates.NeverStuck: exceptions inside a method other than a failing publication are not modelled, because their handlers run the same releases; fairness and termination of a whole method are not claimed.
- PackLeases.EveryRunSafe: closing a pack's files after it has been handed off is not modelled.
- Pipeline.Open: the format number and version text of the manifest are not modelled.
- Cleanup.Collection.TrashVerified: link, junction and inode checks, case-insensitive paths, directories inside the quarantine and fsync are not modelled; a rename is atomic and durable once the next step begins; `moved_bytes` in the journal is bookkeeping only.
- Cleanup.Collection.Restore: verifying the active pack and disabling `active.json` after the files are back is not modelled.
- HTTP servers, byte ranges, URL building and JSON output: plumbing.
- Qt and Anki user interface, configuration loading, source adapters, migration, progress reporting.
- Benchmarks, audits and the repository's own checks.
