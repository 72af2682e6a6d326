# LiNa Store, modelled

LiNa Store keeps files by name. A name is a link, a link points to a source, and a
source is a reference-counted row that owns one payload on disk, hashed and optionally
compressed in blocks. Around this store stand a server that takes requests over a framed
protocol and passes them through an order queue to a porter and its workers, a mounted
filesystem with a write-back buffer, clients that compute the checksum of the protocol, a
limiter for failed handshakes, and a tool that replaces duplicate files by links. This
project models these parts and proves what they promise. `dafny verify dfyconfig.toml`
checks all of it.

**The store.** `Disks` holds the tables, the payload files with their temporary and
tombstone names, and the primitive steps, foreign key included. `Plans` names the branches
of put and the stages of each. `Storage` is the store manager: a class whose methods run
the database and file steps one at a time with their compensations. Its `weather` says
what may strike: in a `Stormy` process one step may fail without effect or be the last
before a crash, a `Calm` one meets no more trouble, a process that is `Down` does nothing
more. `Recovery` is the restart scan. `Guarantees` says what each outcome means for what
names read, `Runs` puts steps, crashes and restarts together and compares them with a map
from names to bytes, `Sessions` ties the methods to these steps, and `Linear` lets any
number of callers take their steps under the store's lock. The hash and gzip are
parameters: gzip is only assumed to give back what it encoded, and of the hash only that
no two contents of a run, those stored at first and those put on the way, have the same.

Two promises hold with an exception, and the statements say exactly which. A crash between
the new link and the count of a dedup hit with a tight count leaves a source with more
links than it counts: covering one of its names in place then sets the others too, which
shows exactly when the bytes differ, and deleting or replacing any is refused. A crash
between the bytes and the row of a cover in place leaves a payload that fails its check,
exactly when the new bytes do not pass the old row's; later puts of the torn contents then
succeed and read as corrupt. Both are reached from the empty store, and what the store
still promises after them is stated for whole runs. README section 2.2 of the repository
draws cover as moving other files too; the code and its comment leave other links alone,
and so does the model.

**The block codec.** `Codec`: chunks, frames with a 16-bit length, the index scan and the
copy loop over a buffer whose bytes start uninitialised.

**The checksum and the frames.** `Registers` and `Crc` prove the two table-driven clients
equal to the bit-serial definition in section 8 of RFC 1952, and what the checksum detects.
`Protocol` parses from a stream that hands out its bytes in pieces of any size.

**The queue, the porter and the shutdown.** `Conveyer` is the queue and the waiter table,
call by call. `Exchange` runs any number of request handlers, workers and clean-up tasks
over them, one lock acquisition or locked section at a time. `Shutdown` and `Porter` do the
same for the shutdown signal and the porter's loop.

**The rest.** `WriteBuffer` is the mounted filesystem's buffer against plain byte files;
a write of nothing past the end, and a release that counts on a flush while a write is
pending, are the only operations that part from them. `Limiter` is the failure limiter
against the history of failures and successes; at a limit of zero, and only there, its
answers also depend on when the table was swept. `Tidy` is the duplicate remover over a
tree of files and relative links.

## Model

| member | source | states |
|---|---|---|
| `Storage.StoreManager.Put` | linabase/src/service.rs:264-310 | on any disk that a restart can find, a lost count included: a put returns success only when one of its five branches ran to its end; an error in a process that lives leaves links, rows, counts and payloads as they were, up to temporary files; a crash leaves one of the stages of the branch; a move whose last row deletion the database refuses is undone; an empty name is refused; and from the tables it found, what a success has done to links, rows and payloads: a new name shares a row with the hash of its data if there is one, raising exactly one count by one and writing no payload, and adds one row and one payload if there is none; a known name is rewritten in place, left alone or moved to a row of its own |
| `Storage.StoreManager.Seal` | linabase/src/service.rs:275-297 | the row has the hash, the encoding flag and the size of the data, the bytes are the data or its packed form |
| `Plans.PutTakesEffect` | linabase/src/service.rs:425-614 | whichever branch a put takes, its last stage is that effect: sharing, storing, rewriting, keeping and moving are told apart by the names, hashes, counts and encodings found, not by the branch |
| `Storage.StoreManager.PutLocked` | linabase/src/service.rs:425-440 | the same outcome for the part under the write lock, for any row and any bytes handed to it |
| `Storage.StoreManager.PutOver` | linabase/src/service.rs:441-552 | which branch a put over an existing name takes: nothing when hash and encoding match and cover is off, in place for a source of its own, a new source otherwise |
| `Storage.StoreManager.PutNew` | linabase/src/service.rs:553-614 | which branch a put of a new name takes: any source with the hash is shared, else a fresh one is stored |
| `Storage.StoreManager.MoveToNewSource` | linabase/src/service.rs:457-485 | cover of a shared source and replace without cover end with the link on the new source and the old one released, or with everything taken back, or stopped at a stage, whichever step is struck; where the old source counts one and has another link they never end, and are taken back |
| `Storage.StoreManager.OverwriteSource` | linabase/src/service.rs:486-505 | cover in place ends with new bytes and row, or with the previous bytes restored, or stopped at a stage |
| `Storage.StoreManager.ShareSource` | linabase/src/service.rs:554-582 | a new link on an existing source and one more reference, or neither, or stopped between the two |
| `Storage.StoreManager.StoreFresh` | linabase/src/service.rs:584-610 | payload, row and link, or none of them, or stopped at a stage |
| `Storage.StoreManager.ReleaseSource` | linabase/src/service.rs:616-664 | one reference less, the source gone with the last one; undone on a fault, and on the refusal that a row with another link meets; after a crash a restart sees the state before or after, nothing between |
| `Storage.StoreManager.DropSource` | linabase/src/service.rs:634-662 | tombstone, row and file go together or not at all, as a restart sees it; a row that a link still names stays, and its file with it |
| `Storage.StoreManager.DropTombstone` | linabase/src/service.rs:646-661 | the end of a drop: the file goes, or row and file come back |
| `Storage.StoreManager.StoreNewSource` | linabase/src/service.rs:458-468 | payload and row, or neither; a crash between them leaves only a file that the restart removes |
| `Storage.StoreManager.RewriteRow` | linabase/src/service.rs:491-504 | the end of a cover in place: the row, or the previous bytes again |
| `Storage.StoreManager.UndoMove` | linabase/src/service.rs:481-484 | the link back on its old source, and the new source gone |
| `Storage.StoreManager.PersistSourceBytes` | linabase/src/service.rs:689-707 | whatever strikes, the payload holds its old bytes or all of the new ones |
| `Storage.StoreManager.RemoveSourceFileIfExists` | linabase/src/service.rs:709-722 | an absent payload is no error |
| `Storage.StoreManager.DeleteOne` | linabase/src/service.rs:361-389 | one link and its reference go, or come back on a fault or a refusal, or stop at a stage |
| `Storage.StoreManager.Delete` | linabase/src/service.rs:353-393 | on success exactly these links go: without stars, or without expansion, the link of that very name; with a star alone all of them; with stars inside those the database finds like the pattern with per cent signs for stars; otherwise a first part of them, and at most the next is between two stages; every row counts one less for each of its links that went and is gone with its payload when nothing is left; undisturbed it stops only at a link whose row the database does not let go; an empty pattern is refused |
| `Plans.DeleteAllReckoned` | linabase/src/service.rs:361-389 | deleting listed links in turn lowers each count by the number of its links that went, whatever the counts were, and drops row and payload exactly when that leaves nothing |
| `Storage.StoreManager.DeleteRows` | linabase/src/service.rs:361-389 | the links go in turn up to the first that fails |
| `Storage.StoreManager.ListLocked` | linabase/src/service.rs:398-423 | every link the pattern asks for, once, and no other: the one of that very name, or all, or those like the pattern with per cent signs for stars |
| `Storage.StoreManager.GetLocked` | linabase/src/service.rs:192-214 | under the read lock: a row and raw bytes that decode to what the name reads as, or the absence of the name |
| `Storage.StoreManager.Unseal` | linabase/src/service.rs:215-233 | after the lock: the raw bytes or what they unpack to if they have the hash in the row; an error exactly when they do not unpack or have another hash |
| `Storage.StoreManager.Get` | linabase/src/service.rs:187-234 | on any disk whose links have rows and whose rows have payloads: the bytes the name reads as; an integrity error exactly where the payload fails its check; not found only where there is no such name; the disk is unchanged |
| `Storage.StoreManager.ReconcileOrphans` | linabase/src/service.rs:724-842 | visiting the leaves in any order reaches the recovered disk: no temporary file, no tombstone, a payload exactly where there is a row and some file of it, with the tombstone's bytes if there was one; stopped half-way it loses nothing a later scan would have kept; the tables are untouched |
| `Storage.StoreManager.VisitLeaf` | linabase/src/service.rs:793-831 | one leaf is disposed of or restored, and no new stray file appears |
| `Storage.StoreManager.InsertLinkWithId` | linabase/src/dao.rs:130-150 | a row is added unless its id is taken or its source does not exist |
| `Storage.StoreManager.DeleteLinkById` | linabase/src/dao.rs:240-248 | a row is deleted; one that is not there is no error |
| `Storage.StoreManager.InsertSourceRow` | linabase/src/dao.rs:338-361 | a row is added unless its id is taken |
| `Storage.StoreManager.UpdateSourceRow` | linabase/src/dao.rs:425-445 | a row is replaced; one that is not there is no error |
| `Storage.StoreManager.GetSourceById` | linabase/src/dao.rs:371-389 | the row of this id, or None only when there is none |
| `Storage.StoreManager.DeleteSourceById` | linabase/src/dao.rs:447-455 | a row is deleted unless a link still refers to it |
| `Storage.StoreManager.UpdateLinkSourceId` | linabase/src/dao.rs:411-423 | a link changes its source only to one that exists |
| `Storage.StoreManager.GetLinkByName` | linabase/src/dao.rs:152-179 | a link with this name, or None only when there is none |
| `Storage.StoreManager.GetSourceByHash` | linabase/src/dao.rs:391-409 | some source with this hash, or None only when there is none |
| `Recovery.RecoverStage` | linabase/src/service.rs:724-842 | a restart turns every disk around a clean stage into that stage without temporary files |
| `Recovery.RecoverTwice` | linabase/src/service.rs:724-842 | a second reconcile changes nothing |
| `Recovery.RecoverRestores` | linabase/src/service.rs:724-842 | which payloads a restart leaves, and which bytes they hold, from the payloads, tombstones and rows it found |
| `Recovery.NothingStray` | linabase/src/service.rs:724-842 | a disk without temporary files, tombstones or orphans is what reconcile leaves alone |
| `Guarantees.PutIsMapUpdate` | linabase/src/service.rs:264-310 | on any disk that a restart can find, every branch of put sets the names it touches to one reading and leaves every other name alone; these are its own name, unless it covers in place a source with another link; it keeps the layout, counts that are not lost, and exact counts |
| `Guarantees.OthersUnchangedIff` | linabase/src/service.rs:425-614 | a put leaves what every other name reads if and only if it does not cover in place, with other bytes than it reads, a source that has another link |
| `Plans.TouchedIffClobbers` | linabase/src/service.rs:447-505 | a put touches its own name alone if and only if it does not cover such a source |
| `Guarantees.PutReadsBackIff` | linabase/src/service.rs:441-583 | on any disk that a restart can find: after a put that is not refused a get returns its input in every cover, compress and dedup combination if and only if no source it may reuse, the name's own or any with the hash, fails the check of a get or holds colliding bytes |
| `Guarantees.KnownIsSafe` | linabase/src/service.rs:554-583 | where known contents do not collide, only contents that a crash has torn can break that |
| `Guarantees.StageView` | linabase/src/service.rs:425-614 | at every stage of every branch, on any disk that a restart can find, the untouched names read as before and the touched ones alike, as the stage says |
| `Guarantees.StageShape` | linabase/src/service.rs:425-614 | no stage of any branch has a source with more links than it counts, but for exactly the one that loses a count |
| `Guarantees.StageLayout` | linabase/src/service.rs:425-614 | at every stage of every branch each name has one link, each link a row, each row a count of at least one and exactly one payload |
| `Guarantees.StageIsAtomicIff` | linabase/src/service.rs:425-614 | a stage shows the map before or after the put if and only if it is neither the one between bytes and row of a cover in place whose new bytes fail the old row's check, nor the end of a cover in place that changes another name |
| `Guarantees.TearsSameEncoding` | linabase/src/service.rs:486-505 | under one encoding they fail it if and only if the hash differs |
| `Guarantees.CrashedPut` | linabase/src/service.rs:425-842 | a put stopped at any step and restarted, on any disk that a restart can find: one canonical payload per row and nothing else; untouched names as before, the touched ones all old, all new, or, between the bytes and the row of a cover in place, what the old row makes of the new bytes; the put's own name alone is touched if and only if it does not cover a source with another link; counts stay safe if and only if the crash was not between link and count of a dedup hit with a tight count; a second reconcile changes nothing |
| `Guarantees.LostCountIsUnsafe` | linabase/src/service.rs:453-505 | on any disk where two links share a source that counts one, covering the one name makes the other read the covering data |
| `Guarantees.LostCountIsReached` | linabase/src/service.rs:554-582 | such a disk comes from a consistent one by a crash of a dedup hit and a restart, and then a cover of the old name changes what the new one reads |
| `Guarantees.LostCountHappens` | linabase/src/service.rs:453-610 | with concrete requests from the empty store, for all names and contents |
| `Guarantees.TornHappens` | linabase/src/service.rs:486-505 | from the empty store, a put and a crashed cover leave a name that fails its check, for all contents with different hashes |
| `Guarantees.TornIsReused` | linabase/src/service.rs:506-582 | after a torn cover in place, putting the old contents again, under a new name or under their own without cover, succeeds and reads as corrupt |
| `Plans.PinnedIsRefused` | linabase/src/service.rs:634-645 | where a source counts one and has two links, the database refuses the row deletion in which deleting either link or replacing it without cover ends |
| `Plans.NothingPinned` | linabase/src/service.rs:634-645 | without a lost count it refuses none |
| `Guarantees.EmptyIsSound` | linabase/src/service.rs:54-85 | the empty store satisfies every invariant |
| `Disks.SoundSize` | linabase/src/service.rs:215-233 | what passes its check has the size in its row |
| `Guarantees.CrashedDelete` | linabase/src/service.rs:353-393 | a delete stopped at any step and restarted leaves a consistent store with the link whole or gone |
| `Guarantees.PayloadsAreTheLinkedSources` | linabase/src/service.rs:353-393 | a pattern delete over links that share sources frees a payload exactly at its last link |
| `Guarantees.Restarted` | linabase/src/service.rs:724-842 | what names read after a restart is what they read at the stage the crash stopped at |
| `Runs.StepRefines` | linabase/src/service.rs:264-393 | one put, delete, crash or failure off the two gaps is the corresponding step of a map, and keeps the invariants |
| `Runs.RunRefinesMap` | linabase/src/service.rs:187-393 | every run, crashes and restarts included, that avoids the two gaps behaves as a map from names to bytes with atomic puts and deletes; of the contents it is asked only that no two of those stored at first or put on the way, nor what new bytes read as under an old row at a crash between the two, have one hash |
| `Runs.StepShows` | linabase/src/service.rs:187-393 | on any disk that a restart can find, torn payloads and lost counts included, a step changes at most the names it touches, all alike, and a put reads back unless its hash is that of torn contents |
| `Runs.StepKeepsInv` | linabase/src/service.rs:264-393 | a step keeps counts safe if and only if it is not the crash between link and count |
| `Runs.RunPastCrashes` | linabase/src/service.rs:187-393 | the same over every run, whatever has been torn, lost or covered on the way |
| `Runs.EmptyIsGapless` | linabase/src/service.rs:54-85 | a run from the empty store asks nothing of its first disk |
| `Runs.CountsStayExact` | linabase/src/service.rs:361-389 | over every run without crashes each count equals the number of links and is at least one, so no count of zero and no refused row deletion is ever met |
| `Sessions.PutAndRestart` | linabase/src/service.rs:264-310 | whatever strikes a put, the disk after the restart is one step of such a run; undisturbed it succeeds, or is refused without a trace, and without a lost count it succeeds |
| `Sessions.DeleteAndRestart` | linabase/src/service.rs:353-393 | whatever strikes a delete, the disk after the restart is one step of such a run that takes away matching links only, on success all of them; undisturbed and without a lost count it succeeds |
| `Sessions.Restart` | linabase/src/service.rs:54-85 | a new process on a dead one's disk starts from the recovered disk |
| `Linear.InterleavingsAreSequential` | linabase/src/service.rs:187-393 | from any disk that a restart can find, with one writer or many readers under the lock, reads of a get and stages of a put or delete as steps of their own, and any of them failing: every interleaving of any number of callers equals the sequential run in the order in which they took the lock; a failed delete has taken away a first part of what matches; each get answers with the map's value at its lock point; an empty name or pattern is refused before the lock |
| `Linear.StepTracks` | linabase/src/service.rs:192-193 | every step keeps the lock: one writer, or any number of readers, each inside its section |
| `Linear.OtherKnows` | linabase/src/service.rs:192-213 | no step of another caller changes what a reader has read |
| `Linear.GetKnows` | linabase/src/service.rs:194-211 | the three reads of a get tell together what the name read when the lock was taken |
| `Linear.PutSettles` | linabase/src/service.rs:299-309 | a finished put under the lock does to the map what its entry in the sequential run says |
| `Linear.PutIsLegal` | linabase/src/service.rs:264-310 | and its entry says no more than a put may do: its own name reads its data; but for torn contents it may read as corrupt, and after a lost count a cover may set names with it that read the same before |
| `Linear.LegalPutIsUpdate` | linabase/src/service.rs:264-310 | with no lost count and nothing torn at the beginning a put in the sequential run is the plain map update of its request |
| `Linear.GoneIsLegal` | linabase/src/service.rs:358-389 | the names that went match the pattern, and all that match went if the delete succeeded |
| `Linear.StepTicketed` | linabase/src/service.rs:192-390 | entries of the sequential run are in the order of lock acquisition, each after its caller arrived |
| `Linear.ReturnedBeforeCalled` | linabase/src/service.rs:192-390 | an operation that had returned before another was called comes before it in the sequential run |
| `Codec.RoundTrip` | linabase/src/utils.rs:155-304 | decompression returns what was compressed, for every input |
| `Codec.ExpansionBound` | linabase/src/utils.rs:155-227 | the output is at most the input and three bytes per started chunk of 64512 |
| `Codec.ChunkFitsItsFrame` | linabase/src/utils.rs:159-187 | every frame length fits in 16 bits, so the error for more than 64 KiB cannot occur and no cast truncates |
| `Codec.CompressAll` | linabase/src/utils.rs:155-227 | the compressor always succeeds; the output is one frame for each 64512 bytes and for the rest, end to end: flag 1 and the packed chunk if packing does not make it longer, else flag 0 and the chunk, after the body's length in two octets, low first |
| `Codec.CompressChunks` | linabase/src/utils.rs:159-198 | each chunk becomes its frame, in order, and none fails |
| `Codec.CompressedIsLaid` | linabase/src/utils.rs:155-227 | octet by octet where flag, length and body of every frame lie |
| `Codec.CompressedConcat` | linabase/src/utils.rs:159-198 | the output for a whole chunk followed by more is the two outputs end to end |
| `Codec.DecompressAll` | linabase/src/utils.rs:229-304 | the decompressor computes the decoding of the scanned frames, or fails where there is none |
| `Codec.Scan` | linabase/src/utils.rs:234-262 | the index loop succeeds exactly on complete frames, and its ranges with their headers tile the input with no gap or overlap |
| `Codec.Assemble` | linabase/src/utils.rs:200-226 | the copy loop writes every byte of the output exactly once, each part at its place |
| `Codec.ScanAcceptsExactlyFrames` | linabase/src/utils.rs:234-262 | the scan recovers a list of frames if and only if the input is their concatenation |
| `Codec.DecompressAcceptsExactly` | linabase/src/utils.rs:229-304 | decoding gives an output if and only if the input is made of complete frames that stand for it part by part: flag 0 for the body itself, flag 1 for what gzip makes of it, no other flag for anything |
| `Codec.DecompressConcat` | linabase/src/utils.rs:229-304 | decoding a concatenation is the concatenation of the decodings; after a first part that decodes, the whole fails exactly when the rest does |
| `Disks.BlocksAreLossless` | linabase/src/utils.rs:155-304 | the block codec is what the store needs of an encoding: what is packed unpacks |
| `Crc.RegisterIsFold` | client/c/src/crc32.c:17-23 | the bit-serial register of section 8 of RFC 1952 advances a byte at a time as eight rounds on the register with the byte folded in |
| `Crc.CheckValue` | client/c/src/crc32.c:3-29 | the checksum of the nine digits 1 to 9 is the published 0xCBF43926 |
| `Crc.RegisterAppend` | client/c/src/crc32.c:17-23 | however a message is split into updates, the register ends the same |
| `Crc.LookupIsStep` | client/c/src/crc32.c:17-23 | one table lookup of the C client does the eight rounds, for every register and byte |
| `Crc.LookupIsStepCpp` | client/cpp/src/crc32.cpp:44-67 | the same for the lookup as the C++ client writes it |
| `Crc.TableEntry` | client/c/src/crc32.c:8-12 | the inner loop computes the eight rounds |
| `Crc.CClient.Init` | client/c/src/crc32.c:3-15 | the wrapping 8-bit index fills all 256 entries |
| `Crc.CClient.Update` | client/c/src/crc32.c:17-23 | the table-driven update computes the bit-serial register |
| `Crc.CClient.Finalize` | client/c/src/crc32.c:25-29 | the complement of the register, and the register reset |
| `Crc.CppClient.constructor` | client/cpp/src/crc32.cpp:8-23 | the table is filled and the register preset |
| `Crc.CppClient.UpdateEight` | client/cpp/src/crc32.cpp:49-60 | one round of the unrolled loop takes the next eight bytes in order |
| `Crc.CppClient.Update` | client/cpp/src/crc32.cpp:44-67 | eight bytes a round and then the tail computes the bit-serial register, for every length |
| `Crc.CppClient.Finalize` | client/cpp/src/crc32.cpp:69-73 | the complement of the register, and the register reset |
| `Crc.ChecksumByC` | client/c/src/crc32.c:3-29 | the C client over any number of updates gives the bitwise checksum of the whole |
| `Crc.ChecksumByCpp` | client/cpp/src/crc32.cpp:8-73 | the C++ client over any number of updates gives the bitwise checksum of the whole |
| `Crc.ShiftInverse` | client/c/src/crc32.c:11 | one round can be undone |
| `Crc.UnshiftInverse` | client/c/src/crc32.c:11 | and every register is the result of a round: the round is a bijection on 32-bit states |
| `Crc.RegisterInjective` | client/c/src/crc32.c:17-23 | for every message the register after it determines the register before it |
| `Crc.BurstDetected` | client/c/src/crc32.c:17-23 | a change confined to four consecutive bytes of a message of any length changes its checksum |
| `Protocol.IdentifierChangeDetected` | linastore-server/src/dtos.rs:49-61 | a message that verifies no longer does when its identifier changes within four consecutive bytes |
| `Protocol.DataChangeDetected` | linastore-server/src/dtos.rs:49-61 | nor when its data changes so |
| `Protocol.IdentifierLengthChangeDetected` | linastore-server/src/dtos.rs:49-61 | nor when the identifier length changes |
| `Protocol.DataLengthChangeDetected` | linastore-server/src/dtos.rs:49-61 | nor when the data length does |
| `Protocol.VerifiesIff` | linastore-server/src/dtos.rs:49-61 | a message verifies if and only if its checksum is that of the octets with the identifier length at 0, the identifier at 1, the data length after it, low octet first, and then the data |
| `Protocol.LiNaProtocol.ParseProtocolMessage` | linastore-server/src/front/advanced_service.rs:65-155 | unless the connection breaks, the outcome is a function of the stream's bytes and of how many bytes the data reads took |
| `Protocol.LiNaProtocol.ReadHeader` | linastore-server/src/front/advanced_service.rs:72-120 | the fields before the data, or the error of a stream that ends early or announces too much |
| `Protocol.LiNaProtocol.ReadLengthAndChecksum` | linastore-server/src/front/advanced_service.rs:98-120 | length and checksum, with the size limit between them |
| `Protocol.LiNaProtocol.ReadData` | linastore-server/src/front/advanced_service.rs:122-147 | at least the announced bytes, in order, or an error when there are fewer |
| `Protocol.ChunkingIrrelevant` | linastore-server/src/front/advanced_service.rs:122-147 | on a stream with a single message the sizes of the reads do not matter |
| `Protocol.FramingRoundTrip` | linastore-server/src/dtos.rs:63-74 | parsing a serialised well-formed message gives the same fields, however the reads fall |
| `Protocol.SerializedOnWire` | linastore-server/src/dtos.rs:63-74 | where each field lies on the wire, octet by octet |
| `Protocol.TruncatedIsDisconnected` | linastore-server/src/front/advanced_service.rs:72-147 | a well-formed message cut short anywhere parses as a lost connection |
| `Protocol.OversizedIsRejected` | linastore-server/src/front/advanced_service.rs:98-112 | a message that announces more than the limit is refused as soon as its length is there |
| `Protocol.CorruptIsRejected` | linastore-server/src/front/advanced_service.rs:122-155 | a complete message within the limit whose checksum is wrong is refused |
| `Protocol.AcceptedIsSerialized` | linastore-server/src/front/advanced_service.rs:65-155 | whatever is accepted verifies, is within the limit, and serialises to a first part of the stream |
| `Protocol.PrefixFree` | linastore-server/src/dtos.rs:63-74 | no well-formed message is a proper prefix of another |
| `Protocol.Le32RoundTrip` | linastore-server/src/dtos.rs:63-74 | a little-endian word reads back |
| `Protocol.FromLe32RoundTrip` | linastore-server/src/front/advanced_service.rs:98-120 | and four bytes read as a word write back |
| `Limiter.HandshakeRateLimiter.constructor` | linastore-server/src/auth.rs:385-396 | a new limiter has no history |
| `Limiter.HandshakeRateLimiter.Check` | linastore-server/src/auth.rs:399-411 | for every limit: an untracked address may try; else the failures of the address in the history that are less than a window old and have no success of the address after them are counted in 32 bits against the limit; and exactly when that is the true answer; no address comes or goes |
| `Limiter.HandshakeRateLimiter.RecordFailure` | linastore-server/src/auth.rs:413-433 | the failure enters the history; the table gains the address and, if it is then over its threshold, keeps exactly the addresses with a failure that still counts |
| `Limiter.HandshakeRateLimiter.RecordSuccess` | linastore-server/src/auth.rs:435-439 | the success enters the history, the address leaves the table, and the others are untouched |
| `Limiter.PruningForgetsNothing` | linastore-server/src/auth.rs:405-418 | dropping aged entries never changes what is live later |
| `Limiter.StandingAreLive` | linastore-server/src/auth.rs:399-439 | the pruned entries number as many as the positions of the history that hold a failure of the address, younger than the window, with no success of the address after it |
| `Limiter.SweepsAreInvisibleIff` | linastore-server/src/auth.rs:399-439 | over all histories and thresholds, when a table is swept never shows in an answer if and only if the limit is not zero |
| `Limiter.UntrackedIsIdle` | linastore-server/src/auth.rs:413-439 | in every history an address that is not tracked has no live failure |
| `Limiter.SweepShows` | linastore-server/src/auth.rs:413-433 | at a limit of zero two limiters with one history and different thresholds answer differently: a failure, and another address's failure a window later |
| `Limiter.SweepIsHarmlessIff` | linastore-server/src/auth.rs:423-432 | a sweep leaves a later answer as it was if and only if the limit is not zero, or the address was not tracked, or it still had a live failure |
| `Limiter.AnswerIsTrueIff` | linastore-server/src/auth.rs:399-411 | the answer is that of the true count if and only if the count fits in 32 bits or its remainder is not below the limit; at a limit of zero, if and only if the address is tracked |
| `Limiter.ComparisonExactIff` | linastore-server/src/auth.rs:405-407 | the 32-bit comparison is the true one if and only if the count fits in 32 bits or its remainder is not below the limit |
| `WriteBuffer.WriteIsFaithfulIff` | linafs/src/fuse.rs:462-487 | the write handler does what a zero-filling file does if and only if it is not a write of nothing past the end |
| `WriteBuffer.StepIsFileStepIff` | linafs/src/fuse.rs:403-610 | an operation does to what readers see what it does to a plain file if and only if it is not such a write and not a release that drops a buffer the store does not hold |
| `WriteBuffer.OthersUntouched` | linafs/src/fuse.rs:403-610 | no operation changes what another file reads as |
| `WriteBuffer.FlushStores` | linafs/src/fuse.rs:490-526 | after a flush the store holds what readers saw |
| `WriteBuffer.RunIsFileRun` | linafs/src/fuse.rs:403-610 | over every orderly run what a reader sees of any file is the plain file under the same operations, and a buffer is there exactly while a write is pending |
| `WriteBuffer.LinaFs.Read` | linafs/src/fuse.rs:403-447 | octet by octet the visible bytes from the offset on, as many as were asked for or as there are; a buffered file always replies, a file that is not there never does |
| `WriteBuffer.LinaFs.WriteAt` | linafs/src/fuse.rs:449-488 | octet by octet the data at its offset, the old bytes elsewhere and zeros in a gap, in the buffer and not in the store; nothing on an error |
| `WriteBuffer.LinaFs.SetSize` | linafs/src/fuse.rs:282-307 | store and readers have the old bytes up to the new size and zeros beyond; a truncation the store refuses has still cut the buffer |
| `WriteBuffer.LinaFs.WriteBack` | linafs/src/fuse.rs:490-526 | the store has the buffer's bytes under the file's name and nothing else new, and the buffer is gone; where the file is gone or the store refuses, the pending writes are lost |
| `WriteBuffer.LinaFs.ReleaseFile` | linafs/src/fuse.rs:528-572 | after a flush the buffer is dropped and the store left alone; otherwise it is written back |
| `Conveyer.ConveyQueue.constructor` | linastore-server/src/conveyer.rs:34-47 | an empty queue and no waiters |
| `Conveyer.ConveyQueue.ProduceOrder` | linastore-server/src/conveyer.rs:49-71 | the order goes to the end; a queue of 32 or more gives up its first order and that order's waiter, a shorter one nothing; 32 are never exceeded |
| `Conveyer.ConveyQueue.ConsumeOrder` | linastore-server/src/conveyer.rs:78-89 | the oldest order leaves the queue, or the queue was empty |
| `Conveyer.ConveyQueue.ProduceService` | linastore-server/src/conveyer.rs:91-106 | the waiter of the response's own id is answered and gone; without one nothing changes |
| `Conveyer.ConveyQueue.RegisterWaiter` | linastore-server/src/conveyer.rs:111-127 | a new id gets an open channel; a registered one is refused |
| `Conveyer.ConveyQueue.UnregisterWaiter` | linastore-server/src/conveyer.rs:129-133 | the entry is gone and its channel closed |
| `Conveyer.ConveyQueue.RemoveOrder` | linastore-server/src/conveyer.rs:135-142 | exactly the orders of the id are gone, the rest in order; the answer says whether the queue got shorter |
| `Conveyer.ConveyQueue.CleanupExpiredWaiters` | linastore-server/src/conveyer.rs:163-184 | a waiter registered at a time is there afterwards if and only if the clean-up comes at most 20000 milliseconds later, and exactly the orders of the others' ids go with them |
| `Conveyer.ConveyQueue.ExpireWaiters` | linastore-server/src/conveyer.rs:163-179 | exactly the entries past their time are dropped and reported |
| `Conveyer.WithoutInOrder` | linastore-server/src/conveyer.rs:135-142 | removing orders keeps the rest in order of arrival |
| `Exchange.InvNext` | linastore-server/src/conveyer.rs:49-184 | every lock acquisition and every locked section of every thread keeps the invariant |
| `Exchange.LocksNext` | linastore-server/src/conveyer.rs:49-142 | each lock has at most one holder, and it is the thread inside its section |
| `Exchange.BookNext` | linastore-server/src/conveyer.rs:49-142 | every step keeps each order in exactly one place and the order of arrival |
| `Exchange.BoundedNext` | linastore-server/src/conveyer.rs:56-64 | the room a producer made under the lock is still there when it pushes |
| `Exchange.AnswerableNext` | linastore-server/src/conveyer.rs:49-184 | every step keeps the order of a waiting id queued or in the hands of a thread that is to serve it or to report its eviction |
| `Exchange.EveryRunServes` | linastore-server/src/front/advanced_service.rs:485-546 | over every interleaving of any number of handlers, workers and clean-up tasks: at most 32 queued; each produced order queued, consumed, evicted or removed and in one of these only; consumed once and in order of arrival; each handler answered at most once, with its own id, out of its own order; registration never refused; a handler that waits on an open channel is in the table of waiters, and its order is queued or in the hands of a thread that is to serve it or to report its eviction; a finished handler is in neither table; what was evicted is older than all that is queued; the answer a handler finishes with is the one on its channel |
| `Exchange.EvictsOldest` | linastore-server/src/conveyer.rs:56-64 | over every run an order is given up only by a queue of 32, and it is the first |
| `Exchange.AnswersStay` | linastore-server/src/conveyer.rs:91-106 | over every run the handler's channel holds what the worker answered, from then on |
| `Exchange.NoDeadlock` | linastore-server/src/conveyer.rs:49-184 | in every run, for a thread that has not finished and does not wait for an answer, the thread it waits for can take its next step; a handler with an answer on its channel can finish with it |
| `Shutdown.InvNext` | linastore-server/src/shutdown.rs:33-47 | every atomic access of any number of callers and waiters keeps the invariant of flag and notification |
| `Shutdown.NeverMissed` | linastore-server/src/shutdown.rs:33-47 | over every interleaving, once the flag is raised no waiter sleeps for good: it can go on, or the one notifier can, and then it can; and none returns before the flag is raised |
| `Porter.InvNext` | linastore-server/src/porter.rs:52-129 | every step of the porter, the producers, the workers and a shutdown keeps the invariant |
| `Porter.EveryRunKeeps` | linastore-server/src/porter.rs:52-129 | in every run: workers within the limit; the wait for a permit never blocks; the select always has an enabled branch; with room to spare a queued order has an unseen notification or a producer about to send, and with none no order wakes the porter; every order taken goes to exactly one worker, in order of arrival, none twice and none made up; the porter stops only after a shutdown and with no worker left |
| `Porter.NeverSleepsOnWork` | linastore-server/src/porter.rs:52-129 | when no one else can move, the porter can go on, or has left after a shutdown, or there is neither shutdown nor order |
| `Porter.HeedsShutdown` | linastore-server/src/porter.rs:52-129 | once a shutdown is raised, each of the porter's own steps brings it nearer to stopping, however many orders arrive, and no other step takes it away |
| `Porter.StoppingLeaves` | linastore-server/src/porter.rs:52-129 | once stopping, the porter takes no order, every step of its own or of a worker's end brings it nearer to leaving, and one of them can be taken until it has left |
| `Tidy.RelativePath` | linabase/src/service.rs:950-975 | the loop climbs out of the longest common part and descends to the second path, and so leads there unless the first path is a prefix of the second |
| `Tidy.RelativeResolvesIff` | linabase/src/service.rs:950-975 | the computed path leads from the first file's directory to the second file if and only if the first path is not a prefix of the second |
| `Tidy.LinkedIffSuperseded` | linabase/src/service.rs:864-899 | in a group reduced to its chosen date a file is a link if and only if another with the same contents has a better date |
| `Tidy.FindExtreme` | linabase/src/service.rs:933-948 | the first of the newest, or the first of the oldest |
| `Tidy.TidyManager.constructor` | linabase/src/service.rs:846-850 | a new manager has no groups |
| `Tidy.TidyManager.Collect` | linabase/src/service.rs:904-931 | every readable file is listed, with its date, in the group of its contents' hash, and nothing else is |
| `Tidy.TidyManager.Replace` | linabase/src/service.rs:880-897 | a duplicate becomes a link that leads to the kept file, or stays; only a link that cannot be made loses a path |
| `Tidy.TidyManager.TidyGroup` | linabase/src/service.rs:864-899 | no path of the group reads otherwise, a readable and removable one is left as a file exactly if it has the chosen date, and nothing outside the group changes |
| `Tidy.TidyManager.Tidy` | linabase/src/service.rs:852-902 | after a whole run every walked path reads the same bytes, each as an untouched file or a link to one, and nothing else has changed; on success a readable and removable file has become a link if and only if a readable file with the same contents is newer, or older; what may not be read or removed stays; on an error only the one whose link could not be made is gone |
| `Tidy.LinkKeeps` | linabase/src/service.rs:880-897 | replacing a path by a link to the keeper leaves every other path leading to an untouched file of its contents |

## Left out

- Hashing, gzip, encryption and password hashing themselves: parameters or absent; that gzip returns an error while encoding is not modelled.
- Two failures in one operation: after a step that was struck or refused the compensation is assumed to succeed, as is everything until the call returns.
- Durability of the database and the directory under power loss: a crash here stops the process between steps, and each step is atomic.
- The identifiers drawn for new links and sources are assumed new; overflow of a count beyond 64 bits, timestamps and error texts are not modelled.
- The matching of SQL LIKE patterns: an abstract predicate; only the empty pattern and the added per cent signs are the program's own.
- Storage.StoreManager.MoveToNewSource: one method for cover of a shared source and for replace without cover, because their steps and compensations are the same.
- Linear.InterleavingsAreSequential: a crash of the process among concurrent callers is not modelled, because it ends them all; what it leaves is in the runs.
- Storage.StoreManager.ListLocked: listing by extension and with a limit is not modelled, because delete uses neither.
- WriteBuffer.LinaFs.WriteBack: flush, fsync and the unflushed release share one method, because their code is the same; the store behind the buffer is a map with puts that may fail.
- Limiter.HandshakeRateLimiter.Check: a poisoned lock, which lets every attempt through, is not modelled; time is an input that never goes back.
- Exchange.EveryRunServes: request ids are assumed distinct, and a lock is assumed never to be poisoned by a panic.
- Porter.EveryRunKeeps: the error branches for a poisoned queue lock, a closed semaphore and a closed watch channel are not modelled, because nothing closes them; orders still queued when the porter stops stay there, as in the program.
- Tidy.TidyManager.Tidy: walks regular files below one root, none of them already a link; a path whose removal or linking is refused is refused throughout the run.
- Directories, modes and renames in the store and the mounted filesystem, attributes, seeking and the interplay of unlink or rename with buffered data.
- The mapping of statuses in the workers' answers, the bucket mapper, the HTTP and S3 front ends, sessions, migrations and administration.
- The hardware paths of the C++ checksum and all network clients.
- Protocol.FramingRoundTrip: the serialised message is the one a client sends, with its flags in the first octet; the server's own serialiser (linastore-server/src/dtos.rs:68) writes the status of its answer there, and reading an answer back is the clients' part.
- Several messages in one stream: a read of the data may take bytes of the next message, so the framing results are about a stream with one message.
