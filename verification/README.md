# A verified model of the holder's blob cache

The holder keeps downloaded objects in *triplets*: a binary log, an index file and a manifest file that are only
appended to. A `Put` reserves space, picks an open triplet (or creates one of its own for a large blob), appends the blob
to the log, then an index entry over the closing `]` of the index file, then a manifest entry, and settles the
reservation. A background loop replaces full open triplets by fresh ones; another purges evicted ones; a table of rows
says which file is in which triplet. After a crash everything is rebuilt from the files and the rows.

The project models that logic and proves what it is for:

* **Durable, all or nothing** (`SystemStore`, `SystemDurability`): over every interleaving of workers, swaps, evictions,
  readers, torn log appends, crashes and restarts, a stored blob reads back as exactly its bytes if and only if no step
  has purged its triplet and every restart has found a ready row that owns it. A blob whose index step has not happened
  is never read, before the crash that interrupts it or after.
* **Space** (`SystemBudget`): the bytes on disk never exceed the maximum plus eight for every open since the last size
  test that passed, although the running total itself may overshoot; with nothing in flight the total equals the bytes on
  disk.
* **Nothing dangles** (`SystemRows`, `SystemEviction`, `SystemTiming`): every ready row names a live triplet that holds the blob with the
  size the row records, and files are deleted only when no row names them, as long as no eviction or purge comes too
  early. The code does not exclude that: over every run of it, whatever the timing, no ready row ever dangles if and only
  if no commit is to a triplet queued for purging while the file still has a row (`SystemTiming`).
* **Hot swap** (`SystemSwap`): a reader that looks into the open and then into the closed dictionary misses only what is
  being purged; the open dictionary is never empty and complete swaps leave its size unchanged.
* **LRU with two-phase eviction** (`LruSpec`, `LruEviction`, `LruCaching`): the pointer graph refines a recency
  sequence, and over runs with any number of evictions, unlinking evicted nodes a second time through their stale pointers
  ends in a well-formed list exactly when the last purge is that of the node evicted last.
* **Formats**: the log in both modes (`BlobBinary`), the index and the manifest as JSON arrays written in place
  (`Json`, `AppendArray`, `BlobIndex`, `BlobManifest`), tokens (`Tokens`), file metadata (`FileMetadata`).
* **Segmented files** (`RangeList`, `FileReader`, `RangeKey`) and **scheduling** (`CacheScheduling`, `CacheServer`).

`CacheSystem` is one state machine; each of its actions is an atomic step of one goroutine. `SystemShape`,
`SystemBudget`, `SystemStore`, `SystemSwap` and `SystemRows` each prove one invariant of its steps, and `SystemRuns` puts
them together over runs. `SystemDurability` follows a blob through a run, `SystemStart` start-up on any files and rows,
`SystemManifest` the manifests, `SystemPut` a whole `Put`, `SystemResults` states what follows in every state that a run can reach, and `SystemEviction`
what evictions do at moments that the machine excludes and the code does not; `SystemTiming` has the runs of the code
with no such exclusion. `PhyBlobHandler` is the blob handler as an object with loops over directories and dictionaries;
its methods are proved to be runs of the machine. The other classes (`BinHeader`, `IndexHeader`, `MFHeader`, `LruCache`,
`RangeCodeList`, `CacheManager`, `OssHolderServer`) are proved against specification functions, and the properties are
proved of those functions.

`dafny verify dfyconfig.toml` checks the whole project.

## What turned out false of the code

Each of these has a lemma with the exact condition under which the code is right, or with an input on which it is not.

* A returned token is not yet durable: if the process dies between the return of `Put` and the commit of the row, and no
  other ready row owns the triplet, the restart deletes it (`SystemResults.LostBeforeCommit`; the condition is in
  `SystemResults.CrashIsAllOrNothing`, over whole runs in `SystemResults.TokenStaysReadable`).
* The rows of a triplet are deleted once, when it is evicted. A worker that commits to it after that leaves a ready row
  whose triplet the purge then deletes, at whatever step of its `Put` the eviction came
  (`SystemEviction.EarlyEvictionDangles`, `SystemEviction.PurgedUnderRow`); over runs of any timing this is the only way
  (`SystemTiming.CodeRowsExactly`). The wait of 500 ms before the purge protects readers that already hold a row, not
  this commit: `SystemEviction.EarlyEvictionHappens` is a run of the code, wait included.
* In the middle of a swap a triplet is in the closed dictionary, where the eviction may take it, and still in the open one,
  where a later worker may pick it, with the same outcome (`SystemEviction.SwapWindowDangles`); a purge at that moment
  leaves an open triplet without files (`SystemEviction.EarlyPurgeStrands`). Both are reached from the first start
  (`SystemEviction.SwapWindowHappens`).
* An empty blob cannot be read back in 4K mode: its record has no chunk (`BlobBinary.ReadBack`). After a torn append its
  read can even yield bytes of the record that follows (`BlobBinary.EmptyReadsForeign`).
* When the last purge of a batch of evictions is not that of the node evicted last, the tail's back pointer stays on an
  evicted node (`LruEviction.EvictThenPurge`), and the next eviction picks that node again (`LruEviction.EvictsAgain`). A
  Get of the survivor nearest the tail between eviction and purge loses the rest of the list
  (`LruEviction.GetOfAnchorLosesEntries`), and so does a Get of an evicted key when the node evicted just before it is
  purged later (`LruEviction.GetOfEvictedLosesEntries`). When nothing survives, the purge of the node evicted last loses
  whatever was put in between (`LruEviction.NoSurvivor`).
* `DeleteFromCache` does not lower `size`, which exceeds the length by the number of deletions that hit
  (`LruSpec.RunRefinesRecency`).
* The triplet id `bb` would break the extraction of the blob id from a token (`Tokens.BlobIdComesBack`).
* `ReadAt` fails when a segment ends exactly at the offset (`FileReader.FailsAtBoundary`).
* Keys of segments do not always sort by start across the tenth digit (`RangeKey.KeyOrder`, `RangeKey.OrderBreaks`).
* `InsertRangeCodeList` leaves its dummy in the list for a start below -1
  (`RangeList.RangeCodeList.InsertRangeCodeList`), and a commit whose range is longer than the stored one can break the
  order of the list (`RangeList.LongerRangeOverlaps`), which takes another caller than the one there is.
* File metadata without owners comes back with one empty owner (`FileMetadata.MetaRoundTrip`), and a bar in a token, which
  delimits the ranges, makes the next reading of the row end the process (`FileMetadata.WrittenReadsBack`).
* An index or manifest append that a crash cuts in the middle leaves a file that does not load
  (`BlobIndex.TornIndexIsLost`, `BlobManifest.TornManifestIsLost`), and no later start succeeds while a ready row names the
  triplet (`SystemStart.TornIndexStops`). A torn log append does no such harm.
* A comment in `LoopHotSwap` says that the binary follows the state of the index header. The closed state reaches only
  the file, not the header in memory, and a write in flight into a triplet just closed still succeeds
  (`BlobIndex.IndexHeader.Close`, `SystemResults.PutErrorsAreDead`).

## Model

| member | source | states |
|---|---|---|
| Bytes.AddComplementSubtracts | server/holder/src/blob_handler/physical_blob_handler.go:164-168 | adding `^int64(x-1)` subtracts x in wrapping 64-bit arithmetic, for every int64 x |
| Bytes.Int64RoundTrip | server/holder/src/blob_handler/blob_binary.go:298-303 | the eight little-endian bytes of an int64 read back as that int64 |
| Bytes.LittleEndianAt | server/holder/src/blob_handler/blob_binary.go:196-215 | the k-th byte of the encoding is the k-th digit to the base 256, lowest first |
| BlobBinary.RecordLength | server/common/util/persistence_format.go:8-17 | a record is exactly as long as `GetPayloadSize` says, for every length: 136 bytes more than the data, or 4096 for every 3928 bytes of it or part of them |
| BlobBinary.PlainLayout | server/holder/src/blob_handler/blob_binary.go:196-219 | every byte of a plain record: the id filled up to 128 with zeros, eight of length, the data |
| BlobBinary.ChunkLayout | server/holder/src/blob_handler/blob_binary.go:233-264 | every byte of a 4K chunk: id, bytes from here on, 12345678 repeated for the checksum, 3928 of content |
| BlobBinary.ChunkAt | server/holder/src/blob_handler/blob_binary.go:233-264 | the k-th 4096 bytes of a record are the chunk of the k-th 3928 bytes of the data |
| BlobBinary.DecodeInverts | server/holder/src/blob_handler/blob_binary.go:196-231 | `Decode` of `Encode` returns the data and the first eight bytes of the padded id |
| BlobBinary.UnchunkInverts | server/holder/src/blob_handler/blob_binary.go:233-285 | `Decode4K` of `Encode4K` does the same for non-empty data and stops the process on empty data |
| BlobBinary.Encode4K | server/holder/src/blob_handler/blob_binary.go:233-265 | the loop over chunks computes the recursive chunked form |
| BlobBinary.Decode4K | server/holder/src/blob_handler/blob_binary.go:266-285 | the loop over chunks strips headers and cuts to the size in the first one; crashes on anything malformed |
| BlobBinary.ReadBack | server/holder/src/blob_handler/blob_binary.go:121-185 | a read at the offset of a record returns its data, whatever was written before and after, if and only if the id has eight bytes and, in 4K mode, the data is not empty |
| BlobBinary.ReadStable | server/holder/src/blob_handler/blob_binary.go:77-119 | appending never changes what an earlier read returned |
| BlobBinary.NeverReadsEmpty | server/holder/src/blob_handler/blob_binary.go:155-185 | a 4K read never returns empty data |
| BlobBinary.ReadsWhatIsThere | server/holder/src/blob_handler/blob_binary.go:121-153 | a plain read yields only bytes that stand in the file behind the name asked for |
| BlobBinary.TornNeverRead | server/holder/src/blob_handler/blob_binary.go:121-185 | a record whose end is missing is never read, wherever it is cut, in both modes |
| BlobBinary.EmptyReadsForeign | server/holder/src/blob_handler/blob_binary.go:155-185 | in 4K mode a read at the offset of an empty blob can yield 256 bytes of what follows: an append torn after one byte and then a one-byte blob |
| BlobBinary.LogReadsBack | server/holder/src/blob_handler/blob_binary.go:77-185 | in a log of any number of records the read at the k-th offset returns the k-th data, with the same exact condition |
| BlobBinary.BinHeader.constructor | server/holder/src/blob_handler/blob_binary.go:55-75 | opening any file, torn records included, sets the offset to the file size |
| BlobBinary.BinHeader.Put | server/holder/src/blob_handler/blob_binary.go:77-119 | appends the record, returns the old end and the payload size; the new record reads back and every earlier read is undisturbed |
| BlobBinary.BinHeader.Get | server/holder/src/blob_handler/blob_binary.go:93-185 | reads a record by offset, comparing the stored name, in both modes |
| AppendArray.AppendGrowsArray | server/holder/src/blob_handler/blob_index.go:262-298 | writing an item over the trailing bracket gives the array text with that item added at the end |
| AppendArray.ArrayParses | server/holder/src/blob_handler/blob_index.go:127-197 | the array text of any list of objects is valid JSON and parses to these objects in order |
| AppendArray.WriteItem | server/holder/src/blob_handler/blob_index.go:262-298 | the write of `flush` and its length check: growth is returned exactly when it is the entry width, two less on an empty file |
| AppendArray.ArrayLooks | server/holder/src/blob_handler/blob_index.go:139-142 | the text of the empty array, of one item and of more |
| AppendArray.TornIsNoArray | server/holder/src/blob_handler/blob_index.go:262-298 | a write over the bracket that is cut anywhere before its end leaves no JSON array |
| Json.ParsePrintedObject | server/holder/src/blob_handler/blob_index.go:76-91 | whatever follows a printed object, the parser takes exactly the object and returns its members |
| BlobIndex.IdFits | server/holder/src/blob_handler/blob_index.go:262-298 | ids of up to 143 characters leave room for the padding with any offset and size, so padding is not negative |
| BlobIndex.EntryText | server/holder/src/blob_handler/blob_index.go:76-91 | the JSON text of an entry, key by key |
| BlobIndex.IndexFileLength | server/holder/src/blob_handler/blob_index.go:127-153 | the file is 5 characters long when empty and 252n + 3 with n entries that fit |
| BlobIndex.FlushGrowsIndex | server/holder/src/blob_handler/blob_index.go:262-298 | a flush turns the file of n entries into the file of n + 1 and grows it by the width exactly when the entry fits |
| BlobIndex.LoadReadsBack | server/holder/src/blob_handler/blob_index.go:155-197 | loading returns the state and every entry in order, up to padding |
| BlobIndex.PaddingIrrelevant | server/holder/src/blob_handler/blob_index.go:155-197 | the reloaded entries describe the same file |
| BlobIndex.TornIndexIsLost | server/holder/src/blob_handler/blob_index.go:155-298 | a flush cut anywhere before its end leaves an index file that does not load |
| BlobIndex.RefMapFinds | server/holder/src/blob_handler/blob_index.go:233-246 | the map from ids has an id exactly when an entry has it, and yields such an entry |
| BlobIndex.IndexHeader.New | server/holder/src/blob_handler/blob_index.go:93-197 | creates an empty file of 5 bytes with the state in memory reset to open, or loads an existing one: same entries, `Empty` exactly when there are none |
| BlobIndex.IndexHeader.Put | server/holder/src/blob_handler/blob_index.go:200-231 | adds the entry in memory and in the file and returns the growth; an error exactly when the header in memory is closed, a crash exactly when the entry does not fit |
| BlobIndex.IndexHeader.Flush | server/holder/src/blob_handler/blob_index.go:262-298 | the file becomes that of the entries plus the new one; the returned count is the growth |
| BlobIndex.IndexHeader.Get | server/holder/src/blob_handler/blob_index.go:233-246 | finds an entry with the id exactly when one was put |
| BlobIndex.IndexHeader.Close | server/holder/src/blob_handler/blob_index.go:302-323 | only the state character on disk changes, and only when the header in memory is not closed |
| BlobManifest.ManifestFileLength | server/holder/src/blob_handler/blob_manifest.go:131-141 | 3 characters when empty, 202n + 1 with n records |
| BlobManifest.FlushGrowsManifest | server/holder/src/blob_handler/blob_manifest.go:165-201 | as for the index |
| BlobManifest.ActionText | server/holder/src/blob_handler/blob_manifest.go:165-201 | the JSON text of a record, key by key |
| BlobManifest.TornManifestIsLost | server/holder/src/blob_handler/blob_manifest.go:96-201 | a flush cut anywhere before its end leaves a manifest that does not load |
| BlobManifest.ManifestReadsBack | server/holder/src/blob_handler/blob_manifest.go:96-129 | loading returns every action in order, and they describe the same file |
| BlobManifest.MFHeader.New | server/holder/src/blob_handler/blob_manifest.go:60-141 | creates or loads any existing file, or crashes when it does not parse: same records in order, `Empty` exactly when there are none, and the deletion log in memory is exactly the set of ids with a delete record |
| BlobManifest.MFHeader.Put | server/holder/src/blob_handler/blob_manifest.go:143-152 | appends a put record and returns the growth of the file |
| BlobManifest.MFHeader.Delete | server/holder/src/blob_handler/blob_manifest.go:154-163 | appends a delete record; the deletion log in memory is not changed |
| BlobManifest.MFHeader.Flush | server/holder/src/blob_handler/blob_manifest.go:165-201 | the file becomes that of the records plus the new one |
| LruSpec.UnlinkListed | server/holder/src/blob_handler/lru.go:75-80 | unlinking a listed node leaves the well-formed list without it |
| LruSpec.LinkUnlisted | server/holder/src/blob_handler/lru.go:66-73 | linking an unlisted node at the head gives the well-formed list with it in front |
| LruSpec.RunRefinesRecency | server/holder/src/blob_handler/lru.go:29-121 | over any sequence of Put, Get and DeleteFromCache the list in both directions is the reference recency sequence, keys are distinct and equal the dictionary's, values are those last put, and `size` is the length plus the deletions that hit |
| LruSpec.RecencySorted | server/holder/src/blob_handler/lru.go:39-64 | in the reference sequence earlier means used later, and its keys are those of the reference map |
| LruSpec.TailIsLeastRecentlyUsed | server/holder/src/blob_handler/lru.go:98-107 | after any run the node before the tail has the key whose last use is oldest |
| LruEviction.StaleUnlink | server/holder/src/blob_handler/lru.go:75-121 | unlinking an unlinked node again keeps the list exactly when its back pointer is still the node before the tail |
| LruEviction.EvictShape | server/holder/src/blob_handler/lru.go:98-107 | evicting k tails leaves the list of the others, with every evicted node pointing at the one evicted next |
| LruEviction.RunPending | server/holder/src/blob_handler/lru.go:39-121 | after any allowed run of Puts, Gets, purges and further evictions the forward list and the dictionary are right, evicted nodes point as they were left, and only the tail's back pointer depends on the last purge |
| LruEviction.EvictThenPurge | server/holder/src/cache_ops/cache_manager.go:71-143 | over any such run from a well-formed cache, once every evicted key is purged, the cache is a well-formed list of survivors and new entries, with matching dictionary and size, exactly when nothing was evicted or the last purge was of the node evicted last |
| LruEviction.EvictsAgain | server/holder/src/blob_handler/lru.go:98-107 | after a purge the next eviction picks a node that was evicted before exactly when that purge was not of the node evicted last |
| LruEviction.GetOfAnchorLosesEntries | server/holder/src/blob_handler/lru.go:39-121 | after a Get of the survivor nearest the tail between eviction and purge, the list from the head is that one node; the cache stays well-formed exactly when there were two entries |
| LruEviction.GetOfEvicted | server/holder/src/blob_handler/lru.go:39-47 | after any allowed run a Get of a key that is evicted and not yet purged puts its node back in front of the others; the list is well-formed exactly when that node was the one evicted last, and otherwise the tail points back at an evicted node |
| LruEviction.GetOfEvictedLosesEntries | server/holder/src/blob_handler/lru.go:39-121 | a later purge of the node evicted just before it leaves that one node as the list |
| LruEviction.NoSurvivor | server/holder/src/blob_handler/lru.go:39-121 | over any allowed run, the eviction of the only entry left, and any run of Puts, Gets and purges of earlier victims after it: the purge of the node evicted last leaves an empty list, while the dictionary keeps every key put since, so it is right exactly when nothing was put |
| LruCaching.LruCache.New | server/holder/src/blob_handler/lru.go:29-37 | two sentinels that point at each other |
| LruCaching.LruCache.Get | server/holder/src/blob_handler/lru.go:39-47 | the pointer writes of the specification, and the value of the key |
| LruCaching.LruCache.Put | server/holder/src/blob_handler/lru.go:49-64 | the pointer writes of the specification for a known and for a new key |
| LruCaching.LruCache.AddToHead | server/holder/src/blob_handler/lru.go:66-73 | writes exactly the four pointers of the specification |
| LruCaching.LruCache.DeleteNode | server/holder/src/blob_handler/lru.go:75-80 | writes exactly the two pointers of the specification, on listed and on stale nodes |
| LruCaching.LruCache.GetCurTailNameForEvict | server/holder/src/blob_handler/lru.go:98-107 | unlinks the node before the tail, lowers `size`, leaves the dictionary, returns the key |
| LruCaching.LruCache.DeleteFromCache | server/holder/src/blob_handler/lru.go:113-121 | unlinks the node of a known key and drops the key, `size` stays |
| LruCaching.GetTailNameForEvict | server/holder/src/blob_handler/physical_blob_handler.go:172-179 | evicts the tail of the closed list, or of the large one when the closed one is empty, and leaves the other list alone |
| Tokens.TripletIdComesBack | server/common/util/blob_token.go:14-22 | the triplet id is extracted from every token, with and without the prefix, for ids without underscore and line break |
| Tokens.BlobIdComesBack | server/common/util/blob_token.go:14-28 | the blob id is extracted from every token if and only if the triplet id is not `bb` |
| Tokens.NoTripletId | server/common/util/blob_token.go:18-22 | the extraction fails exactly when nowhere in the token stand `tr_`, characters of one line and `_bb_` |
| Tokens.PartialTokenMatches | server/common/util/blob_token.go:30-32 | the partial token keeps the blob id and drops the triplet id |
| Tokens.LargePrefix | server/holder/src/blob_handler/physical_blob_handler.go:262-270 | the prefix test sees a large token exactly when `Put` wrote the prefix |
| SystemShape.ReloadOk | server/holder/src/blob_handler/physical_blob_handler.go:65-79 | reloading a triplet never panics, keeps the files, takes the state from disk and restarts the log offset at the file size |
| SystemShape.NewTripletIs | server/holder/src/blob_handler/blob_index.go:126-153 | the files of a new triplet to the character, and its header, open in memory for a large one too |
| SystemShape.StepKeepsShape | server/holder/src/blob_handler/physical_blob_handler.go:187-364 | every step keeps files and headers in agreement, every triplet in the right dictionaries, and every worker on a triplet that is neither evicted nor closed in memory |
| SystemBudget.ClaimsCovered | server/holder/src/blob_handler/physical_blob_handler.go:192-198 | what workers may still write is never more than what the total holds for them, so the check sees enough |
| SystemBudget.CheckBudget | server/holder/src/blob_handler/physical_blob_handler.go:192-198 | a passed size test keeps disk plus outstanding claims within the budget |
| SystemBudget.JobStepBudget | server/holder/src/blob_handler/physical_blob_handler.go:187-257 | every step of a `Put` keeps the balance between the total, the disk, the reservations and the debts |
| SystemBudget.StepKeepsBudget | server/holder/src/blob_handler/physical_blob_handler.go:81-364 | so does every step of the machine, restart included |
| SystemStore.StepKeepsStore | server/holder/src/blob_handler/physical_blob_handler.go:81-258 | every step keeps: the blobs acknowledged are exactly the index entries, each with its record in the log at the offset the index has, and a worker's blob is stored exactly when its index step is done |
| SystemStore.PaddedRefs | server/holder/src/blob_handler/blob_index.go:155-197 | reloading finds the same ids at the same offsets |
| SystemRows.StepKeepsBlob | server/holder/src/blob_handler/physical_blob_handler.go:81-364 | a step that neither purges the triplet nor is a restart without a ready row that owns it leaves a stored blob and its family of triplets alone |
| SystemRows.CommitRow | server/holder/src/db_ops/files_db.go:552-580 | the row a commit writes is owned by the triplet in its token and names the blob that was put, with its size as an int32 |
| SystemRows.StepKeepsRows | server/holder/src/db_ops/files_db.go:509-706 | every step keeps every ready row on a stored blob and every row off evicted triplets, evictions in the middle of a swap included |
| SystemSwap.SwapStepServed | server/holder/src/blob_handler/physical_blob_handler.go:352-362 | closing inserts before it removes, so no step of a swap leaves a stored blob's triplet in neither dictionary |
| SystemSwap.StepKeepsServed | server/holder/src/blob_handler/physical_blob_handler.go:282-364 | every step keeps blobs, workers and pending readers on triplets some dictionary lists or a purge awaits |
| SystemSwap.LooksExactly | server/holder/src/blob_handler/physical_blob_handler.go:282-294 | a reader finds its triplet at the first look exactly when it is open and at the second exactly when it is closed |
| SystemSwap.StepKeepsCount | server/holder/src/blob_handler/physical_blob_handler.go:336-364 | every step but a restart keeps the number of open triplets not about to be closed |
| SystemRuns.RunInv | server/holder/src/blob_handler/physical_blob_handler.go:81-364 | all invariants hold in every state that any run reaches |
| SystemRuns.BudgetHolds | server/holder/src/blob_handler/physical_blob_handler.go:187-257 | in every run the bytes on disk are at most the maximum plus 8 per unchecked open, where every size test that passes takes up the earlier opens |
| SystemRuns.CheckFits | server/holder/src/blob_handler/physical_blob_handler.go:187-199 | right after a size test that passes, the disk and the whole request together are within the maximum, plus 8 for an open not yet in the total |
| SystemRuns.OnlyOpensCount | server/holder/src/blob_handler/physical_blob_handler.go:192-198 | only an open, by a swap or a start, adds one to the opens that the budget counts |
| SystemRuns.TotalConserved | server/holder/src/blob_handler/physical_blob_handler.go:164-168 | in every run, whenever no swap or purge is under way and every worker there is has returned, committed or not, the total is the sum of all file sizes |
| SystemResults.StoredBlobReads | server/holder/src/blob_handler/physical_blob_handler.go:262-303 | in every reachable state a stored blob's token returns exactly its data, if and only if it is not the empty blob in 4K mode |
| SystemDurability.StepKeepsExactly | server/holder/src/blob_handler/physical_blob_handler.go:81-364 | a step keeps a stored blob if and only if it does not purge the triplet and, if it is a restart, finds a ready row that owns it; a blob that is not kept is gone for good: no worker has it and its id is used up |
| SystemDurability.RunKeepsGone | server/holder/src/blob_handler/physical_blob_handler.go:81-364 | what is gone stays gone over every run |
| SystemDurability.RunKeepsExactly | server/holder/src/blob_handler/physical_blob_handler.go:81-364 | over any run a stored blob is kept if and only if every step spares its triplet, and is gone otherwise |
| SystemDurability.CrashForgets | server/holder/src/blob_handler/physical_blob_handler.go:231-243 | a worker whose index step has not happened leaves nothing behind when the process dies |
| SystemResults.MissedExactly | server/holder/src/blob_handler/physical_blob_handler.go:262-303 | in every reachable state `Get` misses a token if and only if nothing is stored under it in the family its prefix names |
| SystemResults.MissedWhy | server/holder/src/blob_handler/physical_blob_handler.go:262-303 | it is the error exactly when the dictionaries of that family do not list the triplet, and no data without an error exactly when they do and nothing is stored under the blob id |
| SystemResults.FatalExactly | server/holder/src/blob_handler/physical_blob_handler.go:262-303 | a token that is too short or does not match ends the process; any other does so only in 4K mode and by naming an empty blob |
| SystemResults.InterruptedPutNeverRead | server/holder/src/blob_handler/physical_blob_handler.go:81-258 | a `Put` whose index step has not happened is not read under any token, and if the process dies, not in any later run either |
| SystemResults.CrashIsAllOrNothing | server/holder/src/blob_handler/physical_blob_handler.go:81-258 | what a worker has put is there after a crash if and only if its index step was done and some ready row owns the triplet |
| SystemResults.ReturnedTokenReads | server/holder/src/blob_handler/physical_blob_handler.go:187-258 | in every reachable state, when `Put` has returned a token, that token reads the data put, with the same exact condition |
| SystemResults.ReadyRowHolds | server/holder/src/db_ops/files_db.go:509-588 | a ready row names a live triplet and a stored blob of the recorded size, its owner is the id in its token, and the token reads the blob |
| SystemResults.PurgeAfterRows | server/holder/src/cache_ops/cache_manager.go:71-85 | when files are purged no row, ready or pending, names the triplet |
| SystemResults.Durable | server/holder/src/blob_handler/physical_blob_handler.go:81-258 | over any run of steps, crashes and restarts a stored blob keeps its bytes if and only if no step purges its triplet and every restart finds a ready row that owns it |
| SystemResults.TokenStaysReadable | server/holder/src/blob_handler/physical_blob_handler.go:81-303 | its token reads the same bytes if and only if that is so and it is not the empty blob in 4K mode; otherwise the token is missed |
| SystemResults.LostBeforeCommit | server/holder/src/blob_handler/physical_blob_handler.go:81-258 | from the first start a `Put` runs through and its token reads the data; a restart before the commit then makes the token miss |
| SystemTiming.DanglingExactly | server/holder/src/cache_ops/cache_manager.go:71-177 | one step of the code, at whatever moment: from a state in which no ready row is owned by a triplet queued for purging it leads to one in which some is exactly when it is a commit to such a triplet with a row still there for the file |
| SystemTiming.CodeRowsExactly | server/holder/src/cache_ops/cache_manager.go:71-177 | over every run of the code from the first start, with nothing assumed of its timing, no ready row ever dangles if and only if no commit comes that late; and then the triplet of every ready row is on disk |
| SystemTiming.RowChanges | server/holder/src/db_ops/files_db.go:509-706 | a row disappears exactly when it is pending and rolled back or left behind by a start, or when its triplet is evicted; it appears only by a miss; it becomes ready only by the commit of its file |
| SystemEviction.RunIsCode | server/holder/src/cache_ops/cache_manager.go:71-177 | every run of the machine is a run of the code |
| SystemEviction.RunCommutes | server/holder/src/cache_ops/cache_manager.go:71-85 | evicting first and then running any steps that touch neither rows nor the queue for purging is running them and then evicting |
| SystemEviction.EarlyEvictionDangles | server/holder/src/cache_ops/cache_manager.go:71-85 | evicting a triplet in any reachable state, a worker being at any step of its `Put`, lets the code run on as without it, and the commit then leaves a ready row owned by an evicted triplet if and only if the worker wrote to that triplet and its file has a row that the triplet does not own |
| SystemEviction.PurgedUnderRow | server/holder/src/cache_ops/cache_manager.go:120-177 | and the purge then leaves a ready row whose triplet is gone and whose token is missed |
| SystemEviction.EarlyEvictionHappens | server/holder/src/cache_ops/cache_manager.go:71-85 | a reachable state in which that happens: a miss and a `Put` of a large file |
| SystemEviction.SwapWindowDangles | server/holder/src/blob_handler/physical_blob_handler.go:352-363 | between the insertion into the closed dictionary and the removal from the open one the eviction may take a triplet nobody writes to; a worker that then picks it runs through, and its commit leaves a ready row on an evicted triplet if and only if its file has a row that the triplet does not own |
| SystemEviction.EarlyPurgeStrands | server/holder/src/blob_handler/physical_blob_handler.go:164-168 | a purge leaves every open triplet with its files if and only if the triplet is not open any more |
| SystemEviction.SwapWindowHappens | server/holder/src/blob_handler/physical_blob_handler.go:336-364 | a run from the first start to the middle of a swap in which both happen |
| SystemRuns.NoSpuriousMiss | server/holder/src/blob_handler/physical_blob_handler.go:282-294 | in every run a reader that finds its triplet in neither dictionary was looking for one that is being purged |
| SystemRuns.AlwaysOpen | server/holder/src/blob_handler/physical_blob_handler.go:213-229 | in every run some triplet is open and not queued for purging, so the random pick has something to pick from |
| SystemRuns.SwapGivesBack | server/holder/src/blob_handler/physical_blob_handler.go:336-364 | between two scans any number of swaps leaves as many open triplets as there were |
| SystemResults.CrashRecovers | server/holder/src/blob_handler/physical_blob_handler.go:81-142 | after a crash in any reachable state every triplet a row needs is there and loads with a known state |
| SystemStart.StartReconciles | server/holder/src/blob_handler/physical_blob_handler.go:81-153 | on any files and rows that load, the triplets after start-up are the owners of ready rows plus one fresh one exactly when none of them is open, each in the dictionary its state character names; the total is the bytes on disk if and only if no owner was without files |
| SystemStart.StartRows | server/holder/src/blob_handler/physical_blob_handler.go:97-105 | a start deletes exactly the pending rows, keeps the others as they are, and forgets workers, readers, debts and the queue for purging |
| SystemStart.StartTriplets | server/holder/src/blob_handler/physical_blob_handler.go:106-159 | the triplets after a start are those that a ready row names, their files untouched, and the fresh one exactly when it is the only open one |
| SystemStart.StartsExactly | server/holder/src/blob_handler/physical_blob_handler.go:124-142 | a start succeeds exactly when index and manifest of every triplet that a ready row names can be read and its state character is one of the three |
| SystemStart.TornIndexStops | server/holder/src/blob_handler/physical_blob_handler.go:124-142 | an index append cut in the middle stops every later start when a ready row names the triplet |
| SystemRuns.AppendInRange | server/holder/src/blob_handler/physical_blob_handler.go:187-199 | the reservation covers the log append: it stays within int64 whenever the budget does |
| SystemPut.PutRuns | server/holder/src/blob_handler/physical_blob_handler.go:187-258 | wherever the request fits and no log is locked, the eight steps of `Put` run through in every state the machine keeps |
| SystemPut.RefusedOnlyWhenFull | server/holder/src/blob_handler/physical_blob_handler.go:188-198 | a request is refused only if what it would add to the disk, were it let through, exceeds the free space less 16 bytes, and accepted only if that fits |
| SystemResults.PutErrorsAreDead | server/holder/src/blob_handler/physical_blob_handler.go:231-252 | the error branches behind the log append are dead: the record has the reserved size, the header is not closed, the entry fits |
| SystemResults.WorkerMovesOn | server/holder/src/blob_handler/physical_blob_handler.go:187-258 | once its check has passed a worker always has a next step, which the machine's timing allows, unless a torn append keeps its log locked |
| SystemManifest.NothingDeleted | server/holder/src/blob_handler/blob_manifest.go:96-129 | in every reachable state every manifest can be read from its file, and a reload puts nothing in the deletion log |
| SystemManifest.ReturnedIsRecorded | server/holder/src/blob_handler/physical_blob_handler.go:244-252 | when a `Put` has returned, the file of the manifest of its triplet holds a put record of its blob |
| PhyBlobHandler.PhyBH.ScanLocalFS | server/holder/src/blob_handler/physical_blob_handler.go:375-402 | returns the ids on disk and the sum of their file sizes |
| PhyBlobHandler.PhyBH.DeleteTripletFilesOnDisk | server/holder/src/blob_handler/physical_blob_handler.go:416-444 | removes the files and returns what the disk loses, zero for an absent id |
| PhyBlobHandler.PhyBH.DeleteOrphans | server/holder/src/blob_handler/physical_blob_handler.go:106-113 | keeps exactly the triplets that rows own and returns what the disk loses |
| PhyBlobHandler.PhyBH.LoadAll | server/holder/src/blob_handler/physical_blob_handler.go:124-142 | succeeds exactly when every owned file loads with a known state, and sorts the triplets by that state |
| PhyBlobHandler.PhyBH.New | server/holder/src/blob_handler/physical_blob_handler.go:81-159 | on any files and rows: succeeds exactly when the files load that the ready rows name; deletes exactly the pending rows; has the triplets that the rows name and a fresh one when no other is open; and then is the machine's restart |
| PhyBlobHandler.PhyBH.Put | server/holder/src/blob_handler/physical_blob_handler.go:187-258 | refused exactly when data and 602 bytes, or in 4K mode its chunks and 466 bytes, exceed the free space, and then changes nothing; otherwise the record, an index entry with its place and length and a put record go into a fresh large or an open triplet, nothing else changes, the disk gains exactly the bytes stated, the token says where and reads the data, and it is a run of the machine's eight steps |
| PhyBlobHandler.PhyBH.PlaceBlob | server/holder/src/blob_handler/physical_blob_handler.go:200-230 | a fresh triplet exactly for payloads over the threshold, an open one otherwise, and the token that says which |
| PhyBlobHandler.PhyBH.Get | server/holder/src/blob_handler/physical_blob_handler.go:262-303 | computes the machine's `Get`: prefix, extraction, the right family of triplets, the index, the log |
| PhyBlobHandler.PhyBH.PurgeTriplet | server/holder/src/blob_handler/physical_blob_handler.go:164-168 | removes an evicted triplet from files and dictionaries, changes nothing else, and subtracts exactly what the disk loses |
| PhyBlobHandler.PhyBH.HotSwap | server/holder/src/blob_handler/physical_blob_handler.go:336-364 | moves exactly the triplets over the threshold from open to closed, changes only their state character, opens as many empty ones, and adds to the total what the disk gained |
| CacheScheduling.SingleFlight | server/holder/src/cache_ops/cache_manager.go:87-118 | in every run no two workers in flight have the same file, and there are at most five |
| CacheScheduling.FetchWhenIdle | server/holder/src/cache_ops/cache_manager.go:87-118 | a batch starts exactly when the workers of the one before have finished and some name waits |
| CacheScheduling.StartsInOrder | server/holder/src/cache_ops/cache_manager.go:58-118 | files start in the order they were accepted, and what is accepted and not started is the queue |
| CacheScheduling.StartedInTime | server/holder/src/cache_ops/cache_manager.go:87-118 | whatever else happens, the request at position i of the queue is started, with its fid, exactly when more than i/5 fetches have followed |
| CacheScheduling.DownloadsRun | server/holder/src/cache_ops/cache_manager.go:58-118 | in every run the queue has no duplicates, its names are the keys of the map, and started plus pending requests are those accepted, with their fids |
| CacheScheduling.CacheManager.EnqueueWriteReq | server/holder/src/cache_ops/cache_manager.go:58-69 | adds a name and its fid at the end unless the name is queued already |
| CacheScheduling.CacheManager.FetchBatch | server/holder/src/cache_ops/cache_manager.go:87-107 | the first five names of the queue, or all when there are fewer, leave queue and map and start with the fids found there |
| CacheScheduling.CacheManager.EnqueueDeletionReq | server/holder/src/cache_ops/cache_manager.go:71-85 | deletes exactly the rows of the triplet and then queues it |
| CacheScheduling.CacheManager.CollectGarbage | server/holder/src/cache_ops/cache_manager.go:120-143 | purges an id if and only if some triplet waits, the id is queued, and its time is gone or at least 500 ms ago; the map keeps exactly the entries younger than that |
| CacheScheduling.PurgedExactly | server/holder/src/cache_ops/cache_manager.go:120-143 | a pass purges an id if and only if some triplet waits, the id is queued, and it waits no more or has waited 500 ms |
| CacheScheduling.PurgedAgain | server/holder/src/cache_ops/cache_manager.go:128-140 | an id purged once loses its time, and a later pass purges it again if and only if some triplet waits then |
| CacheScheduling.RepeatedPurgeIsNothing | server/holder/src/blob_handler/physical_blob_handler.go:164-168 | and that changes nothing |
| RangeList.RangeCodeList.IsRangeCollision | server/holder/src/db_ops/blobs_db.go:287-297 | true exactly when some range of the list is not apart from the given one |
| RangeList.ApartIsDisjoint | server/holder/src/db_ops/blobs_db.go:287-297 | the test calls two non-empty ranges apart exactly when they share no byte |
| RangeList.RangeCodeList.IsRangeFullCoverage | server/holder/src/db_ops/blobs_db.go:299-307 | a nil dereference on the empty list, otherwise whether every neighbour begins where the one before ends |
| RangeList.FullCoverage | server/holder/src/db_ops/blobs_db.go:299-307 | on a non-empty sorted disjoint list that is so exactly when every position between first start and last end is covered |
| RangeList.RangeCodeList.InsertRangeCodeList | server/holder/src/db_ops/blobs_db.go:309-325 | from a start of -1 on, inserts exactly the range at its place and removes the dummy; below that leaves the dummy when no place is found |
| RangeList.InsertKeepsOrder | server/holder/src/db_ops/blobs_db.go:287-325 | insertion keeps the list sorted and disjoint if and only if the collision test passes |
| RangeList.CommitKeepsOrder | server/holder/src/db_ops/blobs_db.go:206-260 | a commit keeps the list in order if and only if the range given would have passed the test itself, which a range no longer than the stored one does |
| RangeList.LongerRangeOverlaps | server/holder/src/db_ops/blobs_db.go:230-260 | a list, a stored and a longer given range for which it does not; the one caller gives the range it stored |
| FileReader.FlatByteIs | server/holder/src/file_handler/file_reader.go:27-70 | the flat file in words: a covering segment decides, uncovered bytes are zero |
| FileReader.Dispatch | server/holder/src/file_handler/file_reader.go:37-46 | the loop with its `continue` and `break` starts workers for exactly the specified segments |
| FileReader.WantedAre | server/holder/src/file_handler/file_reader.go:37-46 | on a sorted list the early end loses nothing: the segments are those that reach the offset and start before the limit |
| FileReader.RunWorker | server/holder/src/file_handler/file_reader.go:47-62 | a worker writes the bytes of its segment in the places the read covers and nothing else |
| FileReader.CopyFills | server/holder/src/file_handler/file_reader.go:50-62 | the order of the workers does not matter: one more worker, whichever ran before, leaves what the others wrote |
| FileReader.ReadAt | server/holder/src/file_handler/file_reader.go:27-70 | with workers in any order, fails exactly when a segment spoils the read or a blob it wants is missing, and otherwise returns the bytes of the flat file |
| FileReader.FailsAtBoundary | server/holder/src/file_handler/file_reader.go:38-40 | with no empty segment, a read fails exactly when a segment ends at its offset |
| FileReader.CachedRead | server/holder/src/file_handler/file_reader.go:72-110 | a read from a cached file is exact inside the blob, zero behind its end, and an error from its end on |
| FileReader.FailedRead | server/holder/src/file_handler/file_reader.go:72-110 | a whole cached file whose blob is missing, empty or shorter than its range is an error, and only an answer that stops the process does |
| FileReader.WholeRead | server/holder/src/file_handler/file_reader.go:72-110 | reading a committed blob as a whole gives its bytes if and only if it is not empty and its length is an int32 |
| FileReader.EmptyRead | server/holder/src/file_handler/file_reader.go:72-110 | an empty file reads back if and only if its token yields bytes that are not its own |
| RangeKey.CountDigits | server/common/range_code/range_code.go:57-67 | the loop counts the decimal digits, none for negative numbers |
| RangeKey.ToDbEntry | server/common/range_code/range_code.go:46-55 | the loops build the padded key |
| RangeKey.KeyText | server/common/range_code/range_code.go:46-55 | the key text: `rg(`, the start in nine digits, `)_tk(`, the token, `)` |
| RangeKey.NegativeKeyText | server/common/range_code/range_code.go:46-67 | a negative start is written behind nine zeros |
| RangeKey.KeysSortByStart | server/holder/src/db_ops/blobs_db.go:116-119 | below ten to the nine keys sort as starts do, and equal starts by token |
| RangeKey.TenthDigit | server/common/range_code/range_code.go:46-55 | a nine-digit start sorts before a ten-digit one if and only if it is at most a tenth of it |
| RangeKey.KeyOrder | server/holder/src/db_ops/blobs_db.go:116-119 | for all starts of up to ten digits the smaller start has the smaller key if and only if it is not one of nine digits above a tenth of one of ten |
| RangeKey.OrderBreaks | server/common/range_code/range_code.go:46-55 | two starts in the wrong order |
| FileMetadata.SplitInverts | server/holder/src/db_ops/files_db.go:128-176 | splitting gives back what was joined if and only if there was something and no part holds the delimiter |
| FileMetadata.CodeReadsBack | server/common/range_code/range_code.go:25-43 | a range code survives its JSON form |
| FileMetadata.CodeText | server/common/range_code/range_code.go:25-33 | the JSON text of a range |
| FileMetadata.OneMember | server/common/range_code/range_code.go:35-43 | a member of the wrong type or outside int32 ends the process, a missing one is zero, an unknown one is ignored |
| FileMetadata.TokenWithout | server/common/range_code/range_code.go:35-43 | a token parsed from any text holds no character that the text does not |
| FileMetadata.MetaRoundTrip | server/holder/src/db_ops/files_db.go:128-199 | reading metadata back is the identity if and only if there are owners, none with a comma, the range list is not nil and no token holds a bar |
| FileMetadata.WrittenReadsBack | server/holder/src/db_ops/files_db.go:128-199 | the columns written for any metadata and what they read back as: a crash if and only if some token holds a bar, otherwise all of it, with an empty list for a nil one and one empty owner for none |
| FileMetadata.BarCrashes | server/holder/src/db_ops/files_db.go:145-160 | a bar in any token makes the reading of the row end the process |
| FileMetadata.EmptyPartsSkipped | server/holder/src/db_ops/files_db.go:145-160 | bars with nothing between them read back as no range |
| FileMetadata.FileMeta2DBFileMeta | server/holder/src/db_ops/files_db.go:164-199 | the loops write the six columns, empty text for a nil or empty list, which read back as stated there |
| FileMetadata.DBFileMeta2FileMeta | server/holder/src/db_ops/files_db.go:128-162 | the loops compute the decoding, an unreadable range ends the process |
| CacheServer.OssHolderServer.TryReadFromCache | server/holder/src/oss_cache_main.go:155-226 | a miss and a changed etag leave a pending row, the rest of its metadata kept, and a queued download; a pending row and a nil range list give no data, an unknown state, a slow look-up and a failing read an error, an empty range list or a fatal read the end of the process; every other ready row with that etag is served; all else changes nothing |
| CacheServer.HitIsExact | server/holder/src/oss_cache_main.go:189-220 | in every reachable state the file of a ready row reads back as the bytes that were put if and only if there are some and their number fits an int32, or there are none and in 4K mode the token yields foreign bytes |
| CacheServer.MissIsError | server/holder/src/file_handler/file_reader.go:72-110 | a token that the store misses is an error to the reader, and only a read that stops the store stops the reader |

## Left out

- CacheSystem.Careful: the machine evicts a triplet only while no worker between its place and its commit is on it, places no worker on an evicted triplet, and purges only what a swap has taken from the open dictionary. The code has none of the three conditions; what happens without them is `SystemEviction.EarlyEvictionDangles`, `SystemEviction.SwapWindowDangles` and `SystemEviction.EarlyPurgeStrands`, in this order. What the rows of runs without the conditions come to is `SystemTiming.CodeRowsExactly`; their files, sizes and reads are not followed further, and a worker whose triplet is purged under it stands still in the model, where the code's index or manifest write fails and `Put` returns an error.
- CacheSystem.CanAppend: the three steps of a `Put`, the creation and removal of a triplet's files, and each method of the LRU list are atomic steps, except that the log append may be torn (a torn index or manifest append is `SystemStart.TornIndexStops`); `moveToHead` takes its lock twice in the source.
- CacheSystem.CanCheck: `totalBytes` is an unbounded integer in the machine; that subtraction by complement is exact in 64 bits is `Bytes.AddComplementSubtracts`.
- CacheSystem.GoodId: generated ids are taken to be fresh and eight characters long without underscore, line break or JSON escape.
- CacheSystem.DoRestart: a restart keeps the configuration; a lowered maximum is not modelled, nor is a crash during start-up.
- BlobIndex.Printable: strings with characters that JSON escapes are not modelled.
- LruEviction.EvictThenPurge: a run that goes on after a Get of an evicted key or of the survivor nearest the tail, or after the purge that empties the list, is not followed further than `LruEviction.GetOfEvicted`, `LruEviction.GetOfEvictedLosesEntries`, `LruEviction.GetOfAnchorLosesEntries` and `LruEviction.NoSurvivor` do.
- BlobBinary.Decode4K: a size between the length and the capacity of the decoded buffer crashes in the model, where Go extends the slice with zeros; a read by offset takes as many chunks as the size asks for, so it does not get there.
- PhyBlobHandler.PhyBH.Put: the method runs while the other workers stand still and no open triplet is queued for purging, which `SystemSwap.OutsideWindow` says of every moment but the middle of a swap; interleavings are those of the machine. The branches that refund a reservation after bytes were written need a failing write and are not modelled.
- FileReader.ReadAt: the workers share the variable `err`; one worker overwriting it between another's call and test is not modelled, each worker is one step. The flat-file result is stated for positions inside the int32 range.
- CacheServer.OssHolderServer.TryReadFromCache: failing queries, which leave the mutex locked, are not modelled, and whether the remote object changes while it is downloaded is not either.
- CacheScheduling.CacheManager.EnqueueDeletionReq: a failing row deletion is not modelled; the tail it takes is a parameter here and is computed by `LruCaching.GetTailNameForEvict`.
- A reader that has found a triplet and reads its log only after the files are purged: the wait before a purge is a matter of time.
- `IndexHeader.Delete`, the replay of the deletion log and the checksum, which nothing uses.
- HTTP, downloads, SQL, connections, retries, logging, configuration, clocks and sleeps.
- The tagging, owner and upload operations on files and segments that only pass values to SQL.
