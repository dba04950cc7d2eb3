# CodeCompass, verified

CodeCompass keeps fast structures beside slower, simpler ones that they must agree with, and runs several protocols that
must not lose an edit. This project models them in Dafny and proves the agreement, over all inputs and all runs.

| files | what they model | main results |
|---|---|---|
| `GlobPattern`, `WildMatch`, `IgnoreFiles`, `IgnoreFileSet` | ignore files: git's wildmatch with its two abort codes, the patterns of a folder, the memo table over all folders | the search matches exactly what the pattern means; table and top-down walk agree |
| `LedgerTrust`, `ChangeTimes` | when size and modified time may stand in for content | trust is sound over every run of writes, listings and reads, with clocks that need not agree; and with modified times set back, where change times tell |
| `Bloom`, `Utf8`, `TextScan`, `ScanLaws`, `BlockIndexer`, `BlockSearch`, `BlockAgreement`, `SeamSearch`, `SeamJunk` | cutting big files into blocks with Bloom filters, and searching only those that are admitted | the block search is the whole-file scan; across forced cuts nothing is missed and nothing made up, and when U+FFFD breaks that |
| `Ordinal`, `LedgerFiles`, `LedgerMerge`, `DiskSnapshot` | the change ledger on disk: sorted base, overlay, tombstones, journal | it is one map under any sequence of operations, and safe wherever a file step stops |
| `RepoIndex`, `RepoUpdate`, `RepoHistory`, `RepoChanges` | indexing one file, updating by a walk, any history of both, applying a batch of changed paths | after every history, what an update skips is what the file holds, and it ends where a build would; a batch does if and only if it covers what was wrong |
| `WriteProtocol` | any number of processes that write and serve the caches, re-pointed at any time | no commit drops what another writer committed |
| `PendingEdits`, `EditSteps`, `EditInvariant`, `EditRuns`, `EditsLost`, `EditProgress` | the edits one server session was told of: the sections that change its fields, and every order of them, with other processes at work on the cache | an edit is forgotten exactly by a named exit that nothing else makes up for; a rebuild or a drain can bring in the rest |
| `WatchCommand` | the watch command's batches, any step of which may throw | held and unsure paths are lost only by a completed apply or rebuild |
| `PathParts`, `MerkleText`, `MerkleTree`, `MerkleDiff` | the hash tree over a snapshot | the difference lists exactly the changed paths, each once |
| `CFamilyTokens`, `LexicalSpans` | comments and literals of C-family text | the scanner with jumps is the one without; the binary search is exact |
| `WatcherFlush` | the debounced single-flight flush of the file watcher | no lost wake-up, no late timer, no lost path, folder or overflow, nothing made up, nothing after Dispose |
| `ByteBudget` | the FIFO byte gate | conservation, ticket order, no deadlock |
| `Common` | options, lookups, and the ways loading an index can fail | |

Code that changes things in place is a class or a loop here as it is there (the ignore table, the Bloom filter, the cutter's
trigrams, the ledger, the index, a session's and the watch command's fields, the scanners); rules that are expressions are
functions; protocols between threads or processes are transition systems whose every step is a section under one lock. A
session's sections are methods of a class, each proved equal to a function; the transition system is made of these functions.

## Where the code does less than its comments say

Each of these is a property that fails as it is usually put. The model keeps the code; the members named say when the
property holds, and give an input or a run where it fails.

- The final forced drain leaves a last line unclosed, so that no block holds it and its trigrams are not collected, exactly
  where what the forced cuts leave of it is 1 MB or longer: a last line of 1 MB up to 16 MB, but also one of 20 MB
  (`BlockIndexer.ClosedUpTo` in the contracts of `BlockIndexer.BuildBlocks` and `BlockIndexer.StreamIndex`;
  `BlockIndexer.LongLineUnclosed`).
- A seam that starts inside a character decodes to U+FFFD there. A query that holds U+FFFD can then be reported where it does
  not occur, and be missed where it does (`SeamJunk.JunkReported`, `SeamJunk.CrossingMissed`); any other query, or seam, is
  searched rightly (`SeamSearch.MeetsJunk`).
- With a dropped folder, an update keeps the absent paths exactly while its changes stay within the rebuild threshold; past it
  the rebuild's own walk decides (`RepoUpdate.Update`, `RepoUpdate.ChangeCount`; `RepoUpdate.DroppedFolderForgets`).
- A batch brings the index to a build's result exactly when it covers every wrong path. It covers what is in it or under it,
  but for a path's own entry as a file where it is a folder now, the entries under a path that is a file now, and a file under
  a changed folder that is there but that the walk leaves out without an ignore file: over the size cap, a link, a name rule
  (`RepoChanges.ApplyChanges`, `RepoChanges.BatchCovers`; `RepoChanges.EachLeftWrong`).
- A path that the share does not answer for is returned as unsure exactly if it is not passed over as one of an ignored type
  (`RepoChanges.ApplyChanges`; `RepoChanges.PassedOver`).
- A session re-pointed between its epoch check and the section that writes uses the new workspace's cache under the old
  one's lock. That is harmless where it finds nothing to apply there, as with workspaces that lie apart and nothing pending;
  everything about the write protocol is proved for runs where it is (`WriteProtocol.Slipped`). With one workspace inside the
  other it can drop what another process wrote (`WriteProtocol.SlippedDrops`).
- A step forgets an edit a session was told of if and only if it is one of five exits for it (`EditRuns.Exit`), and nothing
  that the step does not touch has the edit too (`EditRuns.ForgottenExactly`). Two exits have a reason: the index is a newer
  version's, and other sessions take over (`EditsLost.NewerTakesOver`); or work throws while no index is served, or the first
  build does, and a terminal build is asked for - but a rebuild that began for the old workspace does this to the new one's
  edits too (`EditsLost.StaleThrowForgets`). A callback that found the session free, and finds none served when it looks
  again, gives its batch up without a word (`EditsLost.LookAgainForgets`). An apply throws, or a callback that holds a batch:
  only a log line is left, but for paths that were being retried (`EditRuns.ThrewKeepsRetries`, `EditRuns.ThrewInSection`;
  `EditsLost.ThrowForgets`, `EditsLost.CallbackThrowForgets`). A reload takes the note away by a time that a prune stamped, or
  one that is later only because the note's time was set back to when an ignore file's change was taken up
  (`EditRuns.ReloadClears`; `EditsLost.PruneForgets`, `EditsLost.SetBackForgets`).
- A full reconcile of the watch command that throws leaves nothing that would retry it: what it was for comes in only by a
  later rebuild, or a walk for an ignore file. Nor does a retry that throws arm the timer again
  (`WatchCommand.Watch.OnBatch`; `WatchCommand.ReconcileForgotten`, `WatchCommand.RetryUnarmed`).
- A character literal that holds a backslash and a newline shifts every later span up by a line (`CFamilyTokens.LinesLost`;
  `CFamilyTokens.SpanTooHigh`).
- A modified time that is put back long after it was last seen, on a file that is trusted, hides the new text from the
  listing, which has no change time. Put back within a gap that leaves time to settle, it does not
  (`ChangeTimes.SoundByChangeTimes`, `ChangeTimes.PutBackSoon`; `ChangeTimes.PutBackIsMissed`).
- A future-dated file that was trusted is pending again after one more unchanged read (`LedgerTrust.ReadOnceMorePending`,
  with the exact condition in `LedgerTrust.TrustedOnSecondRead`).

## Model

| member | source | states |
|---|---|---|
| `WildMatch.Search` | src/CodeCompass.Core/Ignore/IgnoreFile.cs:112-233 | returns Matched exactly when the pattern's declarative meaning holds; for a pattern that does not start with `*`, AbortAll says that no suffix of the text matches, AbortToStarStar that none does that starts before the next slash |
| `WildMatch.SearchStar` | src/CodeCompass.Core/Ignore/IgnoreFile.cs:124-168 | a run of stars: what it tries, and the abort code it hands on, are right for every place the rest of the pattern could be tried from |
| `WildMatch.SearchOne` | src/CodeCompass.Core/Ignore/IgnoreFile.cs:116-124 | one step of a pattern that is no star: the search may go on exactly where the step stands for the pattern's meaning |
| `WildMatch.TryFrom` | src/CodeCompass.Core/Ignore/IgnoreFile.cs:150-168 | the places tried for the rest of a pattern: a match is one within reach; the prunes rule out every later place |
| `WildMatch.ScanClass` | src/CodeCompass.Core/Ignore/IgnoreFile.cs:170-233 | a bracket expression holds of a character exactly when one of its items does, negated where it is |
| `GlobPattern.ClassReadsBack` | src/CodeCompass.Core/Ignore/IgnoreFile.cs:170-233 | a bracket expression that is written from its items - escaped characters, ranges from lower to upper end, POSIX classes - and negated or not, is read as just these |
| `WildMatch.NoSuffixFolders` | src/CodeCompass.Core/Ignore/IgnoreFile.cs:130-148 | `**/` prunes only from places after a slash, and that rules out every suffix |
| `IgnoreFiles.SpelledIsParsed` | src/CodeCompass.Core/Ignore/IgnoreFile.cs:47-69 | a raw line gives a pattern exactly when, its carriage returns and unescaped trailing spaces apart, it starts no comment and is the glob with the pattern's own markers around it, nothing in it being readable as a marker the pattern lacks |
| `IgnoreFiles.TrimmedEnd` | src/CodeCompass.Core/Ignore/IgnoreFile.cs:52-55 | what is trimmed of a line is exactly its trailing spaces that no backslash escapes |
| `IgnoreFiles.Match` | src/CodeCompass.Core/Ignore/IgnoreFile.cs:72-82 | the last pattern that applies decides, by the declarative meaning of its glob; none where none applies |
| `IgnoreFiles.VerdictIs` | src/CodeCompass.Core/Ignore/IgnoreFile.cs:72-82 | there is one last pattern that applies, and its negation mark is the verdict |
| `IgnoreFileSet.IsIgnoredBy` | src/CodeCompass.Core/Ignore/IgnoreFile.cs:256-265 | the deepest ignore file with a pattern that applies decides |
| `IgnoreFileSet.IgnoreFileSet.ScopeIn` | src/CodeCompass.Core/Ignore/IgnoreFile.cs:303-318 | the memo table gives the scope that the files give, whatever was asked before; in it a path is left out exactly if some folder above the path has a file whose patterns say so, and no folder between the two has one that says anything |
| `IgnoreFileSet.IgnoreFileSet.IsIgnored` | src/CodeCompass.Core/Ignore/IgnoreFile.cs:320-335 | a path is ignored exactly when it, or a folder above it, is left out by what the ignore files above say, the deepest that says anything deciding; the same for every order of questions |
| `IgnoreFileSet.LeftOutIs` | src/CodeCompass.Core/Ignore/IgnoreFile.cs:255-265 | a path is left out in its parent's scope exactly if a file in a folder above it says so, and none in a deeper folder above it says anything: no scopes in the statement |
| `IgnoreFileSet.IgnoredIs` | src/CodeCompass.Core/Ignore/IgnoreFile.cs:268-335 | the same for being ignored, over the path and every folder above it |
| `IgnoreFileSet.IgnoreFilesStay` | src/CodeCompass.Core/Ignore/IgnoreFile.cs:328-335 | no pattern leaves out an ignore file itself |
| `IgnoreFileSet.ScopeStep` | src/CodeCompass.Core/Ignore/IgnoreFile.cs:305-318 | a folder's scope is its parent's, entered, or none where it is ignored |
| `IgnoreFileSet.UnderClosed` | src/CodeCompass.Core/Ignore/IgnoreFile.cs:268-335 | nothing under a folder that is left out is judged kept |
| `IgnoreFileSet.WalkAgrees` | src/CodeCompass.Core/Walking/FileWalker.cs:284-304 | a top-down walk of a folder comes to exactly its files that the table does not judge ignored |
| `IgnoreFileSet.TableAgreesWithWalk` | src/CodeCompass.Core/Walking/FileWalker.cs:143-163 | from the root: table and walk agree on every file |
| `LedgerTrust.InvKept` | src/CodeCompass.Core/Changes/LedgerTrust.cs:75-113 | every step of writes, listings, reads and records keeps what is known of an entry and of a read |
| `LedgerTrust.LaterWritesShow` | src/CodeCompass.Core/Changes/LedgerTrust.cs:75-88 | a write that began after the read of a trusted entry left another modified time - by the first look's margin, or by the second look's, without any agreement of clocks |
| `LedgerTrust.TrustIsSound` | src/CodeCompass.Core/Changes/LedgerTrust.cs:53-113 | over every run: a trusted entry with a recorded time that matches a listing holds the hash of what the file holds then |
| `LedgerTrust.TrustedOnSecondRead` | src/CodeCompass.Core/Changes/LedgerTrust.cs:75-112 | a file left alone is trusted on a later read exactly where the first read left it pending, or its times alone vouch for it |
| `LedgerTrust.VouchedIfStable` | src/CodeCompass.Core/Changes/LedgerTrust.cs:94-113 | a read vouches for something, now or for a second look, exactly if listing, handle before and after, and what was read agree; otherwise no listing lets an update skip the file |
| `LedgerTrust.ChangedIsPending` | src/CodeCompass.Core/Changes/LedgerTrust.cs:80-87 | a file of another size, change time or id than its pending entry has is pending again, unless its times alone vouch for it |
| `LedgerTrust.ReadOnceMorePending` | src/CodeCompass.Core/Changes/LedgerTrust.cs:80-87 | a future-dated file that was trusted, read once more unchanged, is pending again |
| `ChangeTimes.SoundByChangeTimes` | src/CodeCompass.Core/Changes/LedgerTrust.cs:33-35 | over every run, modified times set back or not: where handles tell change times, and a modified time is not put back long after it was last seen, a trusted entry that matches a listing holds the hash of what the file holds then |
| `ChangeTimes.ToldKept` | src/CodeCompass.Core/Changes/LedgerTrust.cs:75-113 | every step keeps what a handle told of the last write, and of a trusted entry that its last write came so long before the read that no later one can leave its modified time |
| `ChangeTimes.FirstLookTold` | src/CodeCompass.Core/Changes/LedgerTrust.cs:75-80 | by the first look, over the newer of the two times, the last write came a settle margin before the read began |
| `ChangeTimes.SecondLookTold` | src/CodeCompass.Core/Changes/LedgerTrust.cs:81-86 | by the second look, with the change time unmoved, no write but those of one tick came since the pending entry |
| `ChangeTimes.PutBackIsMissed` | src/CodeCompass.Core/Changes/LedgerTrust.cs:53-60 | a run in which a modified time is put back long after: the listing matches, and the new text is skipped |
| `TextScan.ScanText` | src/CodeCompass.Core/Indexing/FileScanner.cs:22-45 | appends the greedy occurrences of the query, each with its line and column, up to the limit |
| `TextScan.FindIsFirst` | src/CodeCompass.Core/Indexing/FileScanner.cs:25-27 | the occurrence found is the first one at or after the place searched from; none means there is none |
| `ScanLaws.ScanAppend` | src/CodeCompass.Core/Indexing/FileScanner.cs:22-45 | scanning a text that ends where a line does, and then what follows, is scanning both at once |
| `ScanLaws.Covered` | src/CodeCompass.Core/Indexing/FileScanner.cs:39 | every occurrence is a hit, or is overlapped by a hit that starts before it |
| `ScanLaws.SameLine` | src/CodeCompass.Core/Indexing/FileScanner.cs:40-43 | an occurrence of a one-line query and what overlaps it are on one line |
| `Bloom.BloomFilter.Add` | src/CodeCompass.Core/Indexing/BloomFilter.cs:29-37 | afterwards the key is admitted, and the bits that are set are exactly those that were and the key's: no false negatives |
| `Bloom.BloomFilter.MayContain` | src/CodeCompass.Core/Indexing/BloomFilter.cs:39-48 | admits exactly the keys all of whose probes are set |
| `Bloom.ProbeIs` | src/CodeCompass.Core/Indexing/BloomFilter.cs:49-57 | the probes of a key are h1 + i * h2, in 64 bits |
| `Bloom.SetInSeq` | src/CodeCompass.Core/Indexing/BloomFilter.cs:34-35 | setting a bit of the filter sets that bit, and no other |
| `Utf8.TrimToCharBoundary` | src/CodeCompass.Core/Indexing/LargeFileIndexer.cs:237-246 | always makes progress, gives up at most three bytes, and on valid UTF-8 cuts on a character boundary |
| `Utf8.DecodeAppend` | src/CodeCompass.Core/Indexing/LargeFileIndexer.cs:193-196 | cut between two characters, the parts decode to the parts of the text |
| `Utf8.DecodeTails` | src/CodeCompass.Core/Indexing/LargeFileIndexer.cs:202-208 | bytes cut out of the middle of a character decode to replacement characters and nothing else |
| `Utf8.EncodedReads` | src/CodeCompass.Core/Indexing/LargeFileIndexer.cs:251-268 | the bytes of a text are valid, and decode to the text |
| `Utf8.ReadEncodes` | src/CodeCompass.Core/Indexing/LargeFileIndexer.cs:251-268 | valid bytes are those of the text that they decode to |
| `BlockIndexer.TextReadsBack` | src/CodeCompass.Core/Indexing/LargeFileIndexer.cs:303-318 | a text's bytes, after a byte order mark or without one, are taken for UTF-8, and what follows the mark decodes to the text |
| `BlockIndexer.TrigramAccumulator.Add` | src/CodeCompass.Core/Indexing/LargeFileIndexer.cs:321-342 | the trigrams of a text that comes in pieces are those of the whole text |
| `BlockIndexer.AddTrigrams` | src/CodeCompass.Core/Indexing/LargeFileIndexer.cs:251-268 | the filter admits every trigram of the decoded bytes, and what it admitted before |
| `BlockIndexer.CloseBlock` | src/CodeCompass.Core/Indexing/LargeFileIndexer.cs:195-227 | a block's filter admits its own text and its seam; the rest stays buffered |
| `BlockIndexer.DrainFullBlocks` | src/CodeCompass.Core/Indexing/LargeFileIndexer.cs:173-231 | the closed blocks lie end to end from byte 0, start lines count the newlines before them, ends split no character, seams hold no newline; forced, everything is closed exactly where the last line buffered is not 1 MB to 16 MB long, and else the blocks end where the last forced cut of the last line is |
| `BlockIndexer.CutsStay` | src/CodeCompass.Core/Indexing/LargeFileIndexer.cs:184-231 | the forced cuts of a line, each where the chunk ends by which a block has reached its cap, do not move when more of the line comes |
| `BlockIndexer.FinalTail` | src/CodeCompass.Core/Indexing/LargeFileIndexer.cs:182-193 | what the final drain cannot close is, for every file, what the forced cuts leave of the last line, if that is as long as a block |
| `BlockIndexer.BuildBlocks` | src/CodeCompass.Core/Indexing/LargeFileIndexer.cs:141-168 | blocks of a file in memory: as for a drain, over all its chunks. Where each one ends is told for every file: with a line, at the forced cut of a line that goes on, or - the last one, if it is short - with the file. They reach its end unless what the forced cuts leave of its last line is as long as a block. There are none exactly for an empty, binary, non-UTF-8 or wholly unclosed file |
| `BlockIndexer.StreamIndex` | src/CodeCompass.Core/Indexing/LargeFileIndexer.cs:62-133 | blocks of a streamed file, under the same contract as those of the file in memory; the hash of its bytes, whatever the chunks; and its trigrams: exactly those of the text the blocks hold |
| `BlockIndexer.ShortLineOpen` | src/CodeCompass.Core/Indexing/LargeFileIndexer.cs:184-193 | for a last line below 16 MB the condition is its length: left open exactly from 1 MB on |
| `BlockIndexer.TwentyLeftOpen` | src/CodeCompass.Core/Indexing/LargeFileIndexer.cs:184-193 | a file that is one line of 20 MB is cut once, and left open from there |
| `BlockIndexer.LongLineUnclosed` | src/CodeCompass.Core/Indexing/LargeFileIndexer.cs:141-193 | indexing a file that is one line of 1 MB to 16 MB, or of 20 MB: every block ends before the file does |
| `BlockSearch.QueryTrigrams` | src/CodeCompass.Core/Indexing/PositionalSidecar.cs:88-110 | exactly the trigrams of the query |
| `BlockSearch.Admit` | src/CodeCompass.Core/Indexing/PositionalSidecar.cs:111-125 | a block is admitted exactly when its filter admits every trigram of the query |
| `BlockSearch.ScanSeamBlock` | src/CodeCompass.Core/Indexing/PositionalSidecar.cs:178-195 | the hits of a block that continues a line: those wholly in the seam dropped, the rest in columns from the cut |
| `BlockSearch.SearchBlock` | src/CodeCompass.Core/Indexing/PositionalSidecar.cs:120-150 | one block: given up exactly if it has no filter, or is admitted and sized but does not answer or does not lie in the file; else exactly what is taken from it is added |
| `BlockSearch.TryScan` | src/CodeCompass.Core/Indexing/PositionalSidecar.cs:88-176 | handled exactly unless the query is short, there is no sidecar, or a block reached before the limit cannot be gone by - one that is to be read and does not lie in the file, or does not answer; then nothing is added, and else the hits of the admitted blocks in order up to the limit |
| `BlockSearch.AllWereRead` | src/CodeCompass.Core/Indexing/PositionalSidecar.cs:120-150 | handled with room left: every block that is admitted and sized lies in the file and answered |
| `BlockSearch.ShortenedIsNotHandled` | src/CodeCompass.Core/Indexing/PositionalSidecar.cs:120-142 | a file shortened since it was indexed, so that a block that is to be read ends past it, is not handled; nor is one whose block does not answer |
| `BlockAgreement.NeverTurnedAway` | src/CodeCompass.Core/Indexing/BloomFilter.cs:39-48 | a filter that admits a text's trigrams turns away no query in the text |
| `BlockAgreement.DecodedNewlines` | src/CodeCompass.Core/Indexing/LargeFileIndexer.cs:212 | newline bytes of valid UTF-8 are the newlines of its text |
| `BlockAgreement.SearchIsScan` | src/CodeCompass.Core/Indexing/PositionalSidecar.cs:88-155 | with no block that starts mid-line, the block search adds the same hits in the same order, up to the same limit, as a scan of the whole text |
| `SeamSearch.ReportedOccurs` | src/CodeCompass.Core/Indexing/PositionalSidecar.cs:138-144 | every hit reported from any block, however it was cut, is an occurrence, on its line and in its column (on a split line, in the column from the cut) - for every query that does not hold U+FFFD where the block's seam starts inside a character |
| `SeamSearch.CrossingAdmitted` | src/CodeCompass.Core/Indexing/LargeFileIndexer.cs:198-210 | the filter of the block after a cut admits a query of no more bytes than a seam that crosses it |
| `SeamSearch.CrossingReported` | src/CodeCompass.Core/Indexing/PositionalSidecar.cs:178-195 | a query that crosses a cut is reported on its line, from the block after the cut or from the one before, under the same condition |
| `SeamSearch.InsideReported` | src/CodeCompass.Core/Indexing/PositionalSidecar.cs:126-150 | a query within a block is reported from it on its line |
| `SeamSearch.OccurrenceReported` | src/CodeCompass.Core/Indexing/PositionalSidecar.cs:88-155 | a query of at most 1024 bytes that occurs anywhere, across a cut too, is reported on its line by some block - for U+FFFD, where it crosses no cut whose seam starts inside a character |
| `SeamJunk.JunkReported` | src/CodeCompass.Core/Indexing/PositionalSidecar.cs:138-144 | the condition is needed: a file whose blocks, as BuildBlocks makes them, report a query with U+FFFD that occurs nowhere in it |
| `SeamJunk.CrossingMissed` | src/CodeCompass.Core/Indexing/PositionalSidecar.cs:178-195 | the condition is needed: a file and a query with U+FFFD that crosses the cut, is shorter than a seam, and is reported from none of the blocks that BuildBlocks makes |
| `Ordinal.PrefixRange` | src/CodeCompass.Core/Changes/DiskSnapshot.cs:171-179 | what lies between a prefix and a path that starts with it starts with it too: the prefix is a range of the sorted base |
| `Ordinal.LessIs` | src/CodeCompass.Core/Changes/DiskSnapshot.cs:241-242 | where two paths differ first, the smaller character comes first; a proper prefix comes before what it is a prefix of |
| `Ordinal.Sorted` | src/CodeCompass.Core/Changes/DiskSnapshot.cs:241-242 | the paths of a set, strictly in order |
| `LedgerFiles.CacheDir.WriteBase` | src/CodeCompass.Core/Changes/Segments/SnapshotBaseFile.cs:33-96 | a base is whole exactly when its declared count and path length are those of its rows |
| `LedgerFiles.ByteCountIs` | src/CodeCompass.Core/Changes/DiskSnapshot.cs:212-223 | the length a path is counted with is that of its UTF-8 bytes |
| `LedgerFiles.CacheDir.CleanupOrphans` | src/CodeCompass.Core/Storage/AtomicFile.cs:137-143 | only base files that are neither kept nor held open go |
| `LedgerFiles.CacheDir.NextBaseNumber` | src/CodeCompass.Core/Storage/AtomicFile.cs:124-135 | a number above every base file's |
| `LedgerFiles.UnnamedBase` | src/CodeCompass.Core/Changes/DiskSnapshot.cs:218-226 | a base that no manifest names yet changes nothing that is read |
| `LedgerFiles.BaseUnderJournal` | src/CodeCompass.Core/Changes/DiskSnapshot.cs:226-227 | between the new manifest and the old journal's end, each path reads as it did or as it is in the new base |
| `LedgerMerge.MergeSorted` | src/CodeCompass.Core/Changes/DiskSnapshot.cs:239-284 | the merged rows are strictly ordered and spell out the whole live map |
| `DiskSnapshot.LowerBound` | src/CodeCompass.Core/Changes/Segments/SnapshotBaseFile.cs:239-248 | the first row that does not come before the key |
| `DiskSnapshot.IndexOf` | src/CodeCompass.Core/Changes/Segments/SnapshotBaseFile.cs:225-236 | the row of a path, or -1 exactly where there is none |
| `DiskSnapshot.RowsCount` | src/CodeCompass.Core/Changes/Segments/SnapshotBaseFile.cs:100-122 | rows are as many as their paths, and their path length is that of the set |
| `DiskSnapshot.LiveCount` | src/CodeCompass.Core/Changes/DiskSnapshot.cs:184-193 | base count less tombstones plus added paths is the size of the live map |
| `DiskSnapshot.CountsFit` | src/CodeCompass.Core/Changes/DiskSnapshot.cs:212-223 | the count and path-blob length that Compact declares are those of the rows it writes |
| `DiskSnapshot.Snapshot.Open` | src/CodeCompass.Core/Changes/DiskSnapshot.cs:54-63 | opening shows what the files show, tombstones inside the base and apart from the overlay |
| `DiskSnapshot.Snapshot.TryGetValue` | src/CodeCompass.Core/Changes/DiskSnapshot.cs:78-85 | the value that the one map has for the path |
| `DiskSnapshot.Snapshot.Set` | src/CodeCompass.Core/Changes/DiskSnapshot.cs:111-114 | the map with the path set |
| `DiskSnapshot.Snapshot.Remove` | src/CodeCompass.Core/Changes/DiskSnapshot.cs:147-153 | the map without the path; whether it was there |
| `DiskSnapshot.Snapshot.Keys` | src/CodeCompass.Core/Changes/DiskSnapshot.cs:156-168 | each live path once |
| `DiskSnapshot.Snapshot.KeysWithPrefix` | src/CodeCompass.Core/Changes/DiskSnapshot.cs:171-182 | each live path that starts with the prefix, once |
| `DiskSnapshot.Snapshot.Count` | src/CodeCompass.Core/Changes/DiskSnapshot.cs:184-193 | the size of the map |
| `DiskSnapshot.Snapshot.UnseenKeys` | src/CodeCompass.Core/Changes/DiskSnapshot.cs:97-109 | exactly the live paths that are not marked, each once |
| `DiskSnapshot.Install` | src/CodeCompass.Core/Changes/DiskSnapshot.cs:218-236 | wherever replacing the base stops, each path reads as before or as it is to be; completed, the files show the new map |
| `DiskSnapshot.Snapshot.Compact` | src/CodeCompass.Core/Changes/DiskSnapshot.cs:212-236 | keeps the map, empties overlay and tombstones, and is safe at every file step |
| `DiskSnapshot.Snapshot.WriteJournal` | src/CodeCompass.Core/Changes/DiskSnapshot.cs:388-406 | the files show the map, in one step |
| `DiskSnapshot.Snapshot.Save` | src/CodeCompass.Core/Changes/DiskSnapshot.cs:202-209 | keeps the map; the files show it; safe at every file step |
| `DiskSnapshot.WriteFullBase` | src/CodeCompass.Core/Changes/DiskSnapshot.cs:287-304 | the files show the given map; safe at every file step |
| `DiskSnapshot.Replay` | src/CodeCompass.Core/Changes/DiskSnapshot.cs:24-438 | any sequence of sets, removes, saves, compactions, reopenings and rebuilds shows what a plain map with a saved copy would |
| `RepoIndex.AppliedShows` | src/CodeCompass.Core/Indexing/RepositoryIndexer.cs:1175-1248 | indexing a file keeps index and ledger in step, and shows what was read |
| `RepoIndex.DocumentsAreLedger` | src/CodeCompass.Core/Changes/FileState.cs:15-19 | the documents are exactly the ledger's paths that are not binary, made of the content hashed; symbols and sidecar are those of the text, or of a streamed one; without a document there are none |
| `RepoIndex.StreamedBySize` | src/CodeCompass.Core/Indexing/RepositoryIndexer.cs:1192-1248 | which of the two, the listed size decides |
| `RepoIndex.Repo.ApplyExistingFile` | src/CodeCompass.Core/Indexing/RepositoryIndexer.cs:1175-1248 | what one file leaves - streamed or whole, binary, unreadable, unchanged or new; it is counted as a change exactly if its document changed; nothing else changes |
| `RepoUpdate.Build` | src/CodeCompass.Core/Indexing/RepositoryIndexer.cs:229-372 | a full build shows exactly the walked files that were read; each entry is the one the trust rule records for a file without an entry |
| `RepoUpdate.TrustedByRuns` | src/CodeCompass.Core/Changes/LedgerTrust.cs:53-113 | after any run of writes, listings, reads and records, an entry recorded with its time that matches what the listing shows may stand in for the listed file: the trust an update relies on |
| `RepoUpdate.UpdateOne` | src/CodeCompass.Core/Indexing/RepositoryIndexer.cs:721-741 | a file the ledger vouches for is skipped rightly; any other shows what was read; it counts exactly if its document changed |
| `RepoUpdate.WalkTree` | src/CodeCompass.Core/Indexing/RepositoryIndexer.cs:715-770 | after a complete walk nothing but the walked files is left; after one that dropped a folder, no path it did not find is touched; the changes are the walked files whose document changed and, with nothing dropped, the paths that are gone |
| `RepoUpdate.Update` | src/CodeCompass.Core/Indexing/RepositoryIndexer.cs:676-795 | after a complete, readable walk the index shows exactly the walked files, each skipped or indexed and recorded by the trust rule. It is built anew exactly if the changes, a function of the index before and the walk, are more than the threshold; so, with a dropped folder, a path that the walk did not find is kept if and only if they are not, or the second walk finds it again and reads it |
| `RepoUpdate.AllNew` | src/CodeCompass.Core/Indexing/RepositoryIndexer.cs:715-770 | a walk of n new files makes n changes |
| `RepoUpdate.DroppedFolderForgets` | src/CodeCompass.Core/Indexing/RepositoryIndexer.cs:744-795 | a walk drops one folder, and in another finds one new file more than the threshold: the entry of the file in the dropped folder is gone |
| `RepoUpdate.FreshAgree` | src/CodeCompass.Core/Indexing/RepositoryIndexer.cs:906-915 | an update and a build that show the same files hold the same documents and ledger hashes |
| `RepoUpdate.PruneIgnored` | src/CodeCompass.Core/Indexing/RepositoryIndexer.cs:804-846 | exactly the ignored paths leave index and ledger, which stay in step |
| `RepoHistory.HistoryTracks` | src/CodeCompass.Core/Indexing/RepositoryIndexer.cs:676-795 | over every history of builds, updates, single files indexed and removals, with writes, listings and reads of every file in between: each entry of the ledger is one that the trust rule recorded in its file's run |
| `RepoHistory.RecordsByRule` | src/CodeCompass.Core/Indexing/RepositoryIndexer.cs:1184-1191 | indexing a file that was read records its entry as the trust rule does, by the clock that the entry was recorded by |
| `RepoHistory.TrustedAfter` | src/CodeCompass.Core/Indexing/RepositoryIndexer.cs:721-741 | after every history: the entry of every path may stand in for its file at the next listing |
| `RepoHistory.Replay` | src/CodeCompass.Core/Indexing/RepositoryIndexer.cs:676-795 | the same done to a repository: each of its updates may skip what it skips, by the repository's own history, and it holds what the history says |
| `RepoHistory.UpdateAfter` | src/CodeCompass.Core/Indexing/RepositoryIndexer.cs:676-795 | after every history, an update from a walk that shows the files as they are leaves the index as a build would |
| `RepoHistory.RacyIsReadAgain` | src/CodeCompass.Core/Changes/LedgerTrust.cs:75-88 | a file modified too close before it was first read is skipped by no update, and only such a file is |
| `RepoHistory.SkippedAfterTwo` | src/CodeCompass.Core/Changes/LedgerTrust.cs:75-113 | a file left alone, read twice: an update skips it exactly if it is listed as it was, and the second read came safely after its times, or a settle margin after the first was recorded as pending |
| `RepoHistory.LeftAlone` | src/CodeCompass.Core/Indexing/RepositoryIndexer.cs:721-741 | the same of a build and two updates: the second skips the file exactly if one of the reads came safely after its times, or the update's a settle margin after the build's was recorded |
| `RepoChanges.RemovePathAndChildren` | src/CodeCompass.Core/Indexing/RepositoryIndexer.cs:1259-1284 | the path and what is under it go; nothing else does |
| `RepoChanges.ApplyFile` | src/CodeCompass.Core/Indexing/RepositoryIndexer.cs:1110-1156 | what a targeted file leaves: ignored, link, over the cap, unreadable, or indexed; it counts as changed exactly if its document changed, or it was turned down and had an entry |
| `RepoChanges.ApplyFolder` | src/CodeCompass.Core/Indexing/RepositoryIndexer.cs:988-1025 | what a changed folder leaves for every path, and exactly the paths it leaves unsure |
| `RepoChanges.StepKept` | src/CodeCompass.Core/Indexing/RepositoryIndexer.cs:963-1040 | a changed path keeps index and ledger in step, and what it settles is as a build would leave it |
| `RepoChanges.ApplyChanges` | src/CodeCompass.Core/Indexing/RepositoryIndexer.cs:918-1056 | where the disk answers and no ignore file changed, the index ends as a fresh build would leave it if and only if every path that was wrong is covered by the batch; what is not covered is untouched. An ignore file is reported as changed if and only if some path of the batch changes one, and then every path below it that is ignored by now is gone. A path of the batch that the disk did not answer for is returned as unsure if and only if it was not passed over as irrelevant, and it is unchanged; while a share's root does not answer, nothing that is missing there is forgotten; untouched means nothing changed |
| `RepoChanges.MovedAlone` | src/CodeCompass.Core/Indexing/RepositoryIndexer.cs:976-1055 | a path changes an ignore file exactly if it is one, not left out, and is gone with its entry, or has another document than before, or is turned down and had an entry |
| `RepoChanges.NewPatternDrops` | src/CodeCompass.Core/Indexing/RepositoryIndexer.cs:976-1055 | a new .gitignore with *.log: the log file that was indexed is gone, and the change is reported |
| `RepoChanges.SettlesAllBut` | src/CodeCompass.Core/Indexing/RepositoryIndexer.cs:963-1040 | a changed path settles itself and what is under it, if and only if it is none of three cases: its own entry where it is a folder now, what was under it where it is a file now, an unwanted file that no ignore file leaves out |
| `RepoChanges.BatchCovers` | src/CodeCompass.Core/Indexing/RepositoryIndexer.cs:918-1056 | a batch covers exactly the paths that are in it or under a folder in it, but for those three cases |
| `RepoChanges.UnknownUnsettled` | src/CodeCompass.Core/Indexing/RepositoryIndexer.cs:1066-1108 | a path that the disk did not answer for is settled by nothing but an ignore file or a walk that found it |
| `RepoChanges.PassedOver` | src/CodeCompass.Core/Indexing/RepositoryIndexer.cs:944-962 | a path that the disk does not answer for, and that is passed over |
| `RepoChanges.SwitchMissed` | src/CodeCompass.Core/Indexing/RepositoryIndexer.cs:988-1007 | a path that was a file and is a folder by now is not covered by itself |
| `RepoChanges.EachLeftWrong` | src/CodeCompass.Core/Indexing/RepositoryIndexer.cs:988-1056 | a tree for each of the three cases: an index built before, and a batch of the changed folder alone, after which the index is still wrong |
| `RepoChanges.RightIsFresh` | src/CodeCompass.Core/Indexing/RepositoryIndexer.cs:918-1056 | an index that is right about every path shows what a build of the tree shows |
| `WriteProtocol.NextKeeps` | src/CodeCompass.Mcp/ServerContext.cs:2023-2160 | whatever any process does next keeps the lock order, the reload rule and every document of every cache, unless a write slips: a section under the old workspace's lock that finds an edit to apply in the new workspace |
| `WriteProtocol.NothingDropped` | src/CodeCompass.Mcp/ServerContext.cs:690-707 | over every run of any number of processes: what a cache once shows, it shows ever after |
| `WriteProtocol.AppliedToCurrent` | src/CodeCompass.Mcp/ServerContext.cs:2051-2067 | an incremental write is applied to an index that holds all that is on disk (and nothing else, unless an earlier apply to it failed), by the holder of the lock of that cache |
| `WriteProtocol.ServesItsOwn` | src/CodeCompass.Mcp/ServerContext.cs:1625-1663 | nothing built or loaded before a re-point is installed after it |
| `WriteProtocol.OwnWriteIsCurrent` | src/CodeCompass.Mcp/ServerContext.cs:2051-2067 | once it has published a write, a process has the index of the token on disk in memory, free of any lock |
| `WriteProtocol.SlippedDrops` | src/CodeCompass.Mcp/ServerContext.cs:2042-2059 | a run that drops a document, with one workspace inside the other: a session is re-pointed between its epoch check and the section that writes, and its batch lies in both |
| `EditInvariant.StepKeeps` | src/CodeCompass.Mcp/ServerContext.cs:1987-2431 | whatever any thread or process does next - callbacks, drains, rebuilds, reloads, re-points, other writers and prunes, each section one step, in any order - keeps the gates, the order of their times, and what the note and the pending rebuild speak for |
| `EditRuns.LookPlaces` | src/CodeCompass.Mcp/ServerContext.cs:1993-2012 | a callback that finds the session busy or not ready leaves its edits listed, or to a rebuild that no reload may cancel - or, with a newer format on disk, to another session; else it goes on with them |
| `EditRuns.HeldPlaces` | src/CodeCompass.Mcp/ServerContext.cs:714-733 | edits that are held back stay pending, or - past the cap - a rebuild is wanted for its own sake; what is unsure stays so |
| `EditRuns.SectionPlaces` | src/CodeCompass.Mcp/ServerContext.cs:2043-2090 | whatever reloading the index and applying come to, the section that applies a batch leaves each edit shown or in its place, hands it over, or its apply threw |
| `EditRuns.TakePlaces` | src/CodeCompass.Mcp/ServerContext.cs:2295-2401 | the same of a drain's section, in every branch: the pending paths, the retries, the hold and the rebuild |
| `EditRuns.StepKeepsEdit` | src/CodeCompass.Mcp/ServerContext.cs:1987-2431 | an edit that the session was told of is listed, in a thread's hands, left to a rebuild that no reload may cancel, spoken for by the note, or shown on disk - after every step that is not a named exit for it |
| `EditRuns.ForgottenExactly` | src/CodeCompass.Mcp/ServerContext.cs:1987-2431 | a step forgets an edit if and only if it is an exit for it, and nothing the step does not touch - the disk, another thread, the note, a list - has it too |
| `EditRuns.NeverForgotten` | src/CodeCompass.Mcp/ServerContext.cs:1987-2431 | over every run: an edit of the workspace served is in its place or on disk, unless a step of the run forgot it |
| `EditRuns.FromTheStart` | src/CodeCompass.Mcp/ServerContext.cs:225-277 | the same from a session that was just pointed to its workspace |
| `EditRuns.InCare` | src/CodeCompass.Mcp/ServerContext.cs:714-764 | what is left to a rebuild has one pending for its own sake; what the note speaks for has the note on |
| `EditRuns.ThrewKeepsRetries` | src/CodeCompass.Mcp/ServerContext.cs:2195-2223 | of a drain whose apply throws, an edit that is nowhere else is kept if and only if its path was a retry and not edited since |
| `EditRuns.ThrewInSection` | src/CodeCompass.Mcp/ServerContext.cs:2195-2223 | of a callback whose apply throws, if and only if the disk had not answered for its path before |
| `EditRuns.ReloadClears` | src/CodeCompass.Mcp/ServerContext.cs:648-656 | when a reload takes the note away by its time, an edit that only the note spoke for is kept if and only if the cache shows it; and it does, unless the time is a prune's, or the note was set back |
| `EditRuns.NoteGoesOff` | src/CodeCompass.Mcp/ServerContext.cs:648-656 | the note goes off exactly after a rebuild of the session's own, or a reload whose stamp is later than the note |
| `EditProgress.DrainBrings` | src/CodeCompass.Mcp/ServerContext.cs:2295-2401 | from every state with the gates free and an index served: a drain that the disk answers brings in what is pending, unsure or left to a rebuild |
| `EditProgress.RebuildRecovers` | src/CodeCompass.Mcp/ServerContext.cs:2095-2160 | from every state with the gates free: one rebuild brings in every edit the session was told of, serves the index, and leaves no note |
| `EditsLost.ThrowForgets` | src/CodeCompass.Mcp/ServerContext.cs:2195-2223 | a run in which an apply throws: the edit is on no list, not on disk, and no note tells |
| `EditsLost.CallbackThrowForgets` | src/CodeCompass.Mcp/ServerContext.cs:2126-2153 | a run in which a callback throws with its batch in hand: the same |
| `EditsLost.NewerTakesOver` | src/CodeCompass.Mcp/ServerContext.cs:2051-2082 | a run in which the index on disk is found to be a newer version's: the edit is left to other sessions |
| `EditsLost.LookAgainForgets` | src/CodeCompass.Mcp/ServerContext.cs:2031-2032 | a run in which a callback that found the session free finds none served when it looks again: it gives its batch up |
| `EditsLost.PruneForgets` | src/CodeCompass.Mcp/ServerContext.cs:648-656 | a run in which a prune after the loss stamps the cache, and the next reload takes the note away |
| `EditsLost.SetBackForgets` | src/CodeCompass.Mcp/ServerContext.cs:1064-1092 | a run in which the note's time is set back to when an ignore file's change was taken up: a cache built since, but before the edits, takes the note away |
| `EditsLost.StaleThrowForgets` | src/CodeCompass.Mcp/ServerContext.cs:2095-2160 | a run in which a rebuild for the old workspace throws after a re-point, and clears what is pending for the new one |
| `WatchCommand.Watch.OnBatch` | src/CodeCompass.Cli/Program.cs:1004-1135 | whatever step throws: which outcome a batch has is told exactly; edits delivered by name are lost only by a completed apply or rebuild; what a full reconcile was for is brought in exactly by a rebuild, or where a walk for an ignore file finds it; a batch that throws arms no timer; nothing is applied to a stale copy, and no document on disk is lost |
| `WatchCommand.ReconcileForgotten` | src/CodeCompass.Cli/Program.cs:1004-1135 | a full reconcile throws, the next change is applied: nothing is held, unsure or timed, and what the watcher lost is not in the index |
| `WatchCommand.RetryUnarmed` | src/CodeCompass.Cli/Program.cs:1004-1135 | a timer fires and the retry throws: the path is still unsure, and no timer is armed |
| `WatchCommand.Watch.Rebuild` | src/CodeCompass.Cli/Program.cs:987-1002 | a completed rebuild clears what is held and unsure; one that throws clears nothing |
| `WatchCommand.Watch.ApplyHeld` | src/CodeCompass.Cli/Program.cs:1055-1124 | applies what is held, the batch and the retries together, or holds them all |
| `WatchCommand.Watch.NotLoaded` | src/CodeCompass.Cli/Program.cs:1021-1048 | an index that cannot be reloaded is never written: held, rebuilt, or stopped |
| `PathParts.SplitJoin` | src/CodeCompass.Core/Changes/MerkleTree.cs:44 | the parts of a path come back from it |
| `PathParts.JoinInjective` | src/CodeCompass.Core/Changes/MerkleTree.cs:94 | different parts make different paths |
| `MerkleText.RenderInjective` | src/CodeCompass.Core/Changes/MerkleTree.cs:61-71 | a folder's entries can be read back from the text its hash is taken of |
| `MerkleTree.InsertLookup` | src/CodeCompass.Core/Changes/MerkleTree.cs:42-56 | putting a path into the tree changes what it holds for that path and no other |
| `MerkleTree.ComputeHash` | src/CodeCompass.Core/Changes/MerkleTree.cs:61-72 | every folder's hash is that of its entries; the files stay as they are |
| `MerkleTree.Build` | src/CodeCompass.Core/Changes/MerkleTree.cs:39-59 | the tree holds the snapshot's paths and hashes, and nothing else |
| `MerkleTree.EqualHash` | src/CodeCompass.Core/Changes/MerkleTree.cs:84-85 | folders with one hash are equal, all the way down |
| `MerkleDiff.DiffNodes` | src/CodeCompass.Core/Changes/MerkleTree.cs:82-120 | lists exactly what differs below two folders, each once, although folders with equal hashes are skipped |
| `MerkleDiff.Diff` | src/CodeCompass.Core/Changes/MerkleTree.cs:75-80 | exactly the added, removed and modified paths of the two snapshots, each once |
| `MerkleDiff.RootHashTells` | src/CodeCompass.Core/Changes/MerkleTree.cs:35 | equal root hashes mean equal snapshots |
| `CFamilyTokens.SpansSorted` | src/CodeCompass.Semantics/LexicalSpanFilter.cs:203-288 | spans are not empty, strictly ordered and apart |
| `CFamilyTokens.SpansTrue` | src/CodeCompass.Semantics/LexicalSpanFilter.cs:203-300 | where no character literal holds a newline, every span is at the true place of its token |
| `CFamilyTokens.LinesLost` | src/CodeCompass.Semantics/LexicalSpanFilter.cs:268-278 | otherwise a span is too high by exactly the newlines in the character literals before it |
| `CFamilyTokens.SpanTooHigh` | src/CodeCompass.Semantics/LexicalSpanFilter.cs:268-278 | a text whose comment, on the second line, gets a span on the first |
| `CFamilyTokens.CharOpensAfter` | src/CodeCompass.Semantics/LexicalSpanFilter.cs:259-266 | a quote opens a character literal exactly if no identifier ends at it, or one that is an encoding prefix |
| `CFamilyTokens.RawOpensAfter` | src/CodeCompass.Semantics/LexicalSpanFilter.cs:302-315 | a double quote opens a raw string exactly if the identifier that ends at it is R, alone or after an encoding prefix |
| `CFamilyTokens.RawEndsAtItsClose` | src/CodeCompass.Semantics/LexicalSpanFilter.cs:327-354 | a raw string ends at the first place that closes it with the delimiter it opened with |
| `CFamilyTokens.QuotedEnds` | src/CodeCompass.Semantics/LexicalSpanFilter.cs:238-256 | a string literal ends at its first quote that no backslash escapes |
| `CFamilyTokens.SeparatorOpensNothing` | src/CodeCompass.Semantics/LexicalSpanFilter.cs:259-266 | the digit separator in 1'000 opens nothing |
| `LexicalSpans.Advance` | src/CodeCompass.Semantics/LexicalSpanFilter.cs:293-300 | moves the place over a stretch as stepping one character at a time does |
| `LexicalSpans.ScanRawString` | src/CodeCompass.Semantics/LexicalSpanFilter.cs:327-354 | ends a raw string, and moves the place, as the one-character scanner does |
| `LexicalSpans.ScanString` | src/CodeCompass.Semantics/LexicalSpanFilter.cs:238-256 | ends a string literal, over continued lines too, or finds it unterminated |
| `LexicalSpans.CFamilySpans` | src/CodeCompass.Semantics/LexicalSpanFilter.cs:203-288 | the scanner with its jumps gives the spans of the scanner that looks at every character |
| `LexicalSpans.IsInSpan` | src/CodeCompass.Semantics/LexicalSpanFilter.cs:92-104 | the binary search answers exactly whether some span holds the place |
| `LexicalSpans.InsideTokens` | src/CodeCompass.Semantics/LexicalSpanFilter.cs:81-105 | a place is held by a span exactly when the character there is in a comment or a literal |
| `LexicalSpans.Occurrences` | src/CodeCompass.Semantics/LexicalSpanFilter.cs:138-151 | the places of all occurrences of a name |
| `WatcherFlush.NextKeeps` | src/CodeCompass.Core/Changes/RepositoryWatcher.cs:199-293 | every step of every thread keeps the wake-up, the due time and the quiet after Dispose |
| `WatcherFlush.WorkIsOnItsWay` | src/CodeCompass.Core/Changes/RepositoryWatcher.cs:217-239 | no lost wake-up, in every interleaving |
| `WatcherFlush.DueIsBounded` | src/CodeCompass.Core/Changes/RepositoryWatcher.cs:199-215 | the timer, whether or not its window was reset since, is due a quiet time after it was armed, and so no later than the first event of its window plus longest wait plus quiet time - or it was armed when that wait was over, or too many paths had piled up, and then for the moment it was armed at |
| `WatcherFlush.WindowIsNew` | src/CodeCompass.Core/Changes/RepositoryWatcher.cs:199-245 | once a callback has closed a window, the timer is the one it was, or armed for events that came later |
| `WatcherFlush.NothingAfterDispose` | src/CodeCompass.Core/Changes/RepositoryWatcher.cs:279-293 | no batch is handed over after Dispose returned |
| `WatcherFlush.RecordedIsKept` | src/CodeCompass.Core/Changes/RepositoryWatcher.cs:148-275 | over every run: a path that an event recorded is pending (and stays structural), about to be handed over, or was handed over since - or, only if no event said more than that it changed, it was found to be a folder |
| `WatcherFlush.OverflowIsKept` | src/CodeCompass.Core/Changes/RepositoryWatcher.cs:148-275 | over every run: once events were lost, a full reconcile is pending, about to be handed over, or was handed over since |
| `WatcherFlush.FolderIsKept` | src/CodeCompass.Core/Changes/RepositoryWatcher.cs:161-275 | a path recorded to count only as a folder is pending, in a batch, or covered by a full one, or was taken when it was no folder |
| `WatcherFlush.NothingMadeUp` | src/CodeCompass.Core/Changes/RepositoryWatcher.cs:148-275 | conversely: a path in a batch was recorded, one that only changed was no folder when it was taken, one that was to count only as a folder was one, and a batch is full only if events were lost |
| `ByteBudget.StepKeeps` | src/CodeCompass.Core/Indexing/ByteBudget.cs:29-57 | what is available and what is held always make the budget |
| `ByteBudget.Conserved` | src/CodeCompass.Core/Indexing/ByteBudget.cs:19-57 | the same over every run of a new gate, and nothing is ever overdrawn |
| `ByteBudget.HeldAsAsked` | src/CodeCompass.Core/Indexing/ByteBudget.cs:25-57 | each request waits for, and holds from grant to release, what it asked for - or, where it asked for more, the whole budget |
| `ByteBudget.GrantsInOrder` | src/CodeCompass.Core/Indexing/ByteBudget.cs:34-37 | the n-th grant is that of ticket n |
| `ByteBudget.HeadCanGoOn` | src/CodeCompass.Core/Indexing/ByteBudget.cs:55-57 | with somebody waiting and nobody holding, the head can go on, whatever it asked for |
| `ByteBudget.DistanceFalls` | src/CodeCompass.Core/Indexing/ByteBudget.cs:34-38 | a waiter's distance to the head only falls |
| `ByteBudget.AlwaysServable` | src/CodeCompass.Core/Indexing/ByteBudget.cs:29-53 | from any state, releases and grants alone lead to any waiter's grant |

## Left out

- A file that is deleted and made anew is a write of it; between the two nothing lists it (`RepoHistory`).
- Disk, network and process I/O: files, tokens and locks are records with atomic replacement, time is a number, process death
  in the middle of a write is the ledger's alone (every file step of it).
- Text decoding beyond UTF-8: characters are code points, not UTF-16 units; a UTF-16 or UTF-32 file gets no blocks here as
  there, and its trigrams are not modelled; an invalid byte decodes to one replacement character.
- Case-insensitive search and line snippets: easy variants of the same scan.
- Hash functions: content and tree hashes are injective, a streamed hash does not depend on the pieces, the Bloom mix is any
  function; a probe's bit is taken modulo the number of bits, where the code masks for a power of two.
- Linked structures: tree nodes and ignore scopes are values; that the code shares and fills them in place is not captured.
- The growing memory buffer of the block cutter is a sequence: that the remainder is moved to its front in place is not
  captured.
- Entries of old ledgers without a recorded time (`LedgerTrust.MatchesListing`, second rule): a heuristic, no claim is made.
- The ledger's numbers of the last upsert and of its files' write times, and the migration of the legacy blob: plumbing.
- In-memory effects of an exception between two file steps of a compaction: only what the files show is claimed.
- Links to folders: the tree of `RepoChanges` has none; links to files are dropped as the code drops them.
- What is under a path that is gone is taken to be gone, and a local disk is believed (`RepoChanges.WorldOk`).
- Symbol extraction, segments and their merging, meta files, memory budgets, the parallel build: a document stands for the
  bytes it was made of; a build is sequential.
- A file read at one size and listed at another may be indexed as streamed or as whole: `RepoIndex.InStep` allows either.
- C# spans come from a foreign lexer; the C-family scanner alone is modelled, with any notion of an identifier character.
- Linked roots, the C# model, idle release, status text and timers of the server; the watch command's messages.
- Replacing a dead file-system watcher, and which events are recorded at all: easy filters.
- In `EditSteps` a section that begins with the right epoch ends with it: a re-point between the check and the section is
  what `WriteProtocol` is about. A walk there sees all that it looks at: what a walk leaves out is `RepoUpdate`'s. A cache's
  stamp and the note's time are read from one clock.
- That a timer that is armed fires, or a thread that can go on does, in the end: what is proved of progress is that a state
  can be left (`ByteBudget.AlwaysServable`, `EditProgress.DrainBrings`), not that it is.
