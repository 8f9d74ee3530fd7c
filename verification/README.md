# Verified models of the Raft, file system and allocation code

A Dafny model of the parts of this repository where a mistake is easy to make and hard
to see, with proofs of what they promise. `dafny verify dfyconfig.toml` checks all of
it.

**Raft** (`raft/raft.go`). `RaftPeer` has each handler as a function on one server's
state, and `RaftEffects` says what each answers and changes without naming them;
`RaftServer` has the code itself, updating fields in place, proved equal to those
functions. `RaftCluster` runs any number of servers over a network that loses, repeats
and reorders messages, with crashes between and inside the handlers' lock regions,
wherever something has just been persisted. `RaftCore` and `RaftMoves` are the history
of a cluster and the moves it makes; `RaftLink`, `RaftSteps` and `RaftAppend` tie every
step of the code to a move; `RaftSafety` draws the conclusions.

What holds in every run is stated for every run. Election Safety, Log Matching, Leader
Completeness and State Machine Safety need *orderly* runs, because the code does not
enforce three things: an election starts, and asks for votes, only while its server is
still a candidate in that term; a reply is acted on only while its sender is still in
the term and role it asked in (the higher-term step-down aside); the quorum-loss
step-down, which clears `votedFor` inside a term, does not happen. `RaftUnorderly` and
`RaftStale` have, for each way of breaking one of the three, a run that breaks it once
and elects two leaders in one term, loses a committed entry or crashes a server;
`RaftStale` also has an orderly run in which a command is applied by leader and
follower. An odd number of servers is not needed: the element at `len/2` is reached by
`n-n/2` servers, and those meet every election quorum of `n/2+1`.

**File system** (`mCertiKOS/kern/fs`). `RedoLog` reasons about the sector writes of
`log.c` cut anywhere; `LogDevice` is `log.c` updating its fields. `Volume` says when a
volume is in order, `VolumeOps`, `FileState`, `Truncation` and `Accounting` what each
change keeps, `FreeSpace` how many blocks are left, `FileSteps`, `FileCrash` and
`FlatFiles` what whole operations and runs of calls do, and `FileSystem` is `block.c`,
`inode.c` and `file.c` updating buffers, inodes and log in place. Kernel panics come
back as a status with the condition under which they happen, so that the ones shown
impossible are visible in the contracts; `Device` stands for a file whose reads and
writes go to a driver. `FreshVolume` is a volume that meets every invariant, and its
mount.

**Buffer cache and disk queue** (`bufcache.c`, `ide.c`). `SectorCache` is their state
machine at lock granularity, with a disk that may fail any request; `CacheRuns` counts
the buffers a transaction pins and has the runs in which things go wrong; `BufferCache`
is the pointer code.

**Consistency checker** (`checker.go`): `Checker` is the code, `CheckerRuns` its
clients, and `CheckerDetects` what it reports when the store answers as it likes.
**Reentrant lock** (`reentrant_lock.c`): `ReentrantLock`. **GPU coordinator**
(`gpu_coordinator.go`): `DeviceAllocator`.

Things the proofs turned up:

- `UpdateCommitIndex` indexes the log with the median of matchIndex, which nothing in
  the code bounds by the log's length. `StaleReplyPanics` is a run whose last step, an
  append reply of an earlier term, ends in that panic; `OrderlyNeverPanics` says that
  orderly runs do not. The model restarts the server from the persister.
- `file_write` returns -1 when a later chunk does not fit although earlier chunks are
  already in the file; `FileWrite` says exactly how many bytes, and `DoneShort` has
  an instance.
- A failed disk read still marks the buffer valid, so stale data is then served as
  the sector's (`StaleRead`); `FailedRead` says exactly when that shows.
- A failed disk write still marks the buffer clean, so it can be recycled and the
  sector reads as before the write (`LostWrite`); `CompletedBuffer` says exactly when
  buffer and sector differ, and `HealthyDisk` that neither happens without an error.
- Logged blocks stay in the cache (`B_DIRTY` keeps them from being recycled) and
  `log_write` needs one buffer more for the log block, so k sectors need k + 1 buffers
  (`LogBlockBuffer`). With `NBUF` equal to `LOGSIZE` the tenth sector of a transaction
  finds none although the log has room (`TenthSectorPanics`). The chunk size of
  `file_write` allows ten sectors. `ChunkBuffers` says for which chunks nine are
  enough: all but unaligned ones that take a file into its indirect block; two blocks
  instead of three would be safe (`SafeChunks`).
- `CommInit` asked for no devices marks every free one as taken and then panics.
- `CommFinalize` leaves the recorded status in progress.
- A read that finds nothing is reported as wrong when the only writes so far failed
  without effect (`FalseAlarm`); `MissingWhen` says exactly when.
- The flag by which `BeginRead` reports pending writes never changes a verdict.
- The reentrant lock counts modulo 2^32, so one acquire past that depth breaks it.

## Model

| member | source | states |
|---|---|---|
| `RaftSafety.StateMachineSafety` | raft/raft.go:272-287 | In every orderly run, across crashes at any persisted point and restarts, two servers that have applied something at the same position have applied the same command there. |
| `RaftSafety.CommittedStays` | raft/raft.go:397-429 | Leader Completeness: what any server counts as committed is a prefix of the log of every leader of that term or a later one, at that moment or later in the run. |
| `RaftSafety.LogMatching` | raft/raft.go:240-265 | Two logs, at any two points of an orderly run, that agree on the term at an index are equal up to it. |
| `RaftSafety.ElectionSafety` | raft/raft.go:758-764 | At most one server ever leads a term, at any two points of an orderly run. |
| `RaftSafety.OrderlyStep` | raft/raft.go:215-292 | Every orderly step of the cluster extends the history (who voted for whom with which log, what each leader wrote, what was acknowledged) and keeps its invariant and its correspondence with the running servers. |
| `RaftSafety.History` | raft/raft.go:831-867 | Every orderly run has a history satisfying that invariant, growing from state to state. |
| `RaftSafety.OrderlyNeverPanics` | raft/raft.go:397-429 | In no orderly run does handling an append reply index past the log. |
| `RaftSafety.RunExplained` | raft/raft.go:831-867 | A concrete orderly run of five servers, 49 steps long and ending in term 4 with a cut log, meets the history invariant all along. |
| `RaftAppend.CrashMergingStep` | raft/raft.go:252-265 | Dying with any number of a request's entries merged and persisted keeps the history invariant and its correspondence. |
| `RaftSteps.CrashAdoptingStep` | raft/raft.go:326-330 | So does dying right after a higher term is persisted. |
| `RaftCore.LeaderCompleteness` | raft/raft.go:339-343 | From quorum-elected leaders and voters that only vote for logs holding what they acknowledged: everything acknowledged by a commit quorum is in the log of every later leader. |
| `RaftCore.OneLeader` | raft/raft.go:340-343 | Two candidates with election quorums in the same term are the same server. |
| `RaftMoves.GrantKeeps` | raft/raft.go:339-347 | Granting a vote keeps the history invariant. |
| `RaftMoves.ElectKeeps` | raft/raft.go:762-771 | Becoming leader with a quorum of votes keeps the history invariant. |
| `RaftMoves.CreateKeeps` | raft/raft.go:558-566 | A leader appending a command keeps the history invariant. |
| `RaftMoves.AcceptKeeps` | raft/raft.go:252-267 | A follower merging a request and acknowledging it keeps the history invariant. |
| `RaftMoves.CutKeeps` | raft/raft.go:240-250 | A follower cutting its log at a rejected request keeps the history invariant. |
| `RaftMoves.RunKeeps` | raft/raft.go:694-698 | Starting an election keeps the history invariant. |
| `RaftMoves.BumpKeeps` | raft/raft.go:326-330 | Moving to a higher term keeps the history invariant. |
| `RaftTypes.QuorumsMeet` | raft/raft.go:707-707 | An election quorum (n/2+1) and a commit quorum (n-n/2) share a server for every n, odd or even. |
| `RaftUnorderly.StaleDecisionElectsTwo` | raft/raft.go:808-812 | A run of three servers, orderly but for one step in which an election starts on a decision that no longer holds, elects two leaders in one term. |
| `RaftUnorderly.StaleVoteElectsTwo` | raft/raft.go:758-764 | The same, the one step being a vote counted after its candidate moved to another term. |
| `RaftUnorderly.QuorumLossElectsTwo` | raft/raft.go:799-807 | The same, the one step being the quorum-loss step-down that clears votedFor inside a term. |
| `RaftStale.StaleRequestElectsTwo` | raft/raft.go:716-731 | A run of five servers, orderly but for one vote request built after its election's term, elects two leaders in one term. |
| `RaftStale.StaleReplyLosesCommit` | raft/raft.go:478-487 | A run of five servers, orderly but for one append reply acted on in a later term, commits an entry that a later leader does not have. |
| `RaftStale.StaleReplyPanics` | raft/raft.go:478-487 | A run of five servers whose steps are all orderly but the last, an append reply of an earlier term; handling it indexes past the log. |
| `RaftStale.FollowerApplies` | raft/raft.go:272-287 | For every command there is an orderly run of five servers in which a leader takes it and both the leader and a follower apply it. |
| `RaftEffects.AppendAnswer` | raft/raft.go:219-250 | AppendEntries succeeds exactly when the request is not of an older term and the log holds PrevLogIndex with PrevLogTerm; a conflict names its term and the index recorded for it, any other failure names none. |
| `RaftEffects.AppendCommits` | raft/raft.go:271-287 | A successful request leaves commitIndex at the smaller of LeaderCommit and the last log index if LeaderCommit is ahead, else where it was, and exactly the commands up to it are applied, each once, in order. |
| `RaftEffects.AppendLog` | raft/raft.go:228-265 | The rest of AppendEntries: a higher term is adopted and the vote dropped; the log is kept, cut before the conflict, or cut at the first entry that differs in term and extended by the remaining ones; a failure commits nothing. |
| `RaftEffects.MergeRecords` | raft/raft.go:257-263 | firstIndexEachTerm gains, for each term a merge brings in, the index where it begins, and no other record changes. |
| `RaftEffects.RequestCarries` | raft/raft.go:444-456 | A leader sends to a peer exactly when it lacks entries, and then all it lacks: log[..prev+1] with the entries is the leader's whole log. |
| `RaftEffects.BacksUp` | raft/raft.go:488-500 | A failed reply of a term not above the leader's sets the peer's nextIndex to max(1, nextIndex - 1), or to max(1, FirstIndex) if the peer names one, and changes nothing else. |
| `RaftEffects.BacksUpToStart` | raft/raft.go:488-500 | After j such failures in a row that name no index, nextIndex is max(1, nextIndex - j). |
| `RaftEffects.SentinelMatches` | raft/raft.go:435-500 | So after at most nextIndex - 1 of them the leader's next request starts right after the sentinel, carries its whole log, and is accepted by every server of no later term. |
| `RaftEffects.ReplyRecords` | raft/raft.go:478-486 | A successful reply sets the peer's matchIndex to the last index sent and nextIndex to the one after. |
| `RaftEffects.ReplyCommits` | raft/raft.go:397-429 | It commits the largest index that n - n/2 servers hold if that is new and of the leader's own term, and applies exactly what that covers; it panics exactly if that index is new and past the log. |
| `RaftEffects.VoteGranted` | raft/raft.go:319-360 | RequestVote grants exactly when the term is not older, no other candidate has the term's vote, and the candidate's log ends in a later term, or in the same and is no shorter; the vote is persisted and nothing but term, vote and role changes. |
| `RaftEffects.VoteCounts` | raft/raft.go:744-778 | Granted votes are counted, and a server leads exactly when the count is more than half of n; it then assumes nothing of its peers. |
| `RaftEffects.StartAppends` | raft/raft.go:540-566 | Start appends the command in the leader's term, persisted, and counts the leader as holding it; a server that does not lead is unchanged. |
| `RaftCluster.EveryRunSound` | raft/raft.go:115-134 | In every run, orderly or not: each log starts with the term-0 sentinel and has non-decreasing terms no greater than currentTerm; the persisted term, vote and log equal the volatile ones; applied indices are 1, 2, 3, ...; every AppendEntries in flight has PrevLogTerm <= entry terms <= Term. |
| `RaftCluster.EveryRunTerms` | raft/raft.go:326-330 | In every run a server's currentTerm never decreases, crashes included. |
| `RaftCluster.SoundStep` | raft/raft.go:215-292 | Each step of the cluster keeps all of that, and lowers nobody's term. |
| `RaftPeer.HandleVoteSound` | raft/raft.go:319-360 | RequestVote keeps the per-server invariant, the server's identity and a non-decreasing term. |
| `RaftPeer.HandleAppendSound` | raft/raft.go:215-292 | AppendEntries, on a well-ordered request, does the same. |
| `RaftPeer.HandleAppendReplySound` | raft/raft.go:468-501 | So does handling an append reply, when it does not panic. |
| `RaftPeer.UpdateCommitSound` | raft/raft.go:397-429 | Committing keeps the invariant, and panics (index out of range) exactly when the median exceeds both commitIndex and the log. |
| `RaftPeer.ElectionSound` | raft/raft.go:694-818 | The ticker, the quorum-loss step-down, starting an election and counting a vote keep the invariant. |
| `RaftPeer.StartSound` | raft/raft.go:540-566 | Start keeps the invariant and the term. |
| `RaftPeer.BootSound` | raft/raft.go:831-867 | Restarting from what was persisted establishes the invariant. |
| `RaftPeer.RequestsSound` | raft/raft.go:445-455 | Every request a leader builds has PrevLogTerm <= entry terms <= Term, and a replication request reaches the end of its log. |
| `RaftPeer.DeliverSound` | raft/raft.go:276-286 | Applying extends the applied sequence by exactly the next log entries, numbered on without gap or repeat. |
| `RaftPeer.MergeResult` | raft/raft.go:240-267 | A successful merge leaves the log unchanged up to PrevLogIndex and term-equal to the sent entries after it; the old log survives as a prefix unless an entry conflicts in term. |
| `RaftPeer.MergeIdempotent` | raft/raft.go:252-265 | Merging the same request twice is merging it once. |
| `RaftPeer.MergeClosedForm` | raft/raft.go:252-265 | The entry-by-entry loop equals: keep the agreeing stretch, cut at the first term conflict, append the rest. |
| `RaftPeer.MergeStep` | raft/raft.go:252-265 | What the loop has persisted after any number of entries is what merging just those entries gives. |
| `RaftPeer.MergeSorted` | raft/raft.go:252-265 | A merge of well-ordered entries keeps terms non-decreasing. |
| `RaftMedian.MedianReached` | raft/raft.go:400-406 | x is at most the sorted element at len/2 iff at least n - n/2 entries reach x, for every non-empty matchIndex. |
| `RaftMedian.MedianMajority` | raft/raft.go:400-406 | For an odd number of servers that is: iff a strict majority reaches x. |
| `RaftMedian.MedianTie` | raft/raft.go:400-406 | The element at len/2 falls short of a strict majority exactly when precisely half of the servers reach it. |
| `RaftMedian.ReachIsCount` | raft/raft.go:400-406 | The count used above is the number of servers whose matchIndex reaches x. |
| `RaftServer.Persister.SaveRaftState` | raft/persister.go:39-43 | What is read back is what was saved last. |
| `RaftServer.Persister.Copy` | raft/persister.go:30-37 | A copy is a new store reading the same state. |
| `RaftServer.Server.constructor` | raft/raft.go:831-867 | Make: the server boots from its persister, with the sentinel log when there is nothing. |
| `RaftServer.Server.Save` | raft/raft.go:115-134 | persist: the stored term, vote and log become the volatile ones. |
| `RaftServer.Server.Retire` | raft/raft.go:228-232 | Adopting a higher term makes a follower that has not voted, persisted. |
| `RaftServer.Server.RequestVote` | raft/raft.go:319-360 | The in-place handler computes exactly the reply and new state of the value-level handler the theorems are about. |
| `RaftServer.Server.AppendEntries` | raft/raft.go:215-292 | Likewise for AppendEntries, log merge, commit and apply included; AppendAnswer, AppendLog and AppendCommits say what that is. |
| `RaftServer.Server.MergeEntries` | raft/raft.go:252-265 | The loop over the entries, index by index, is the value-level merge. |
| `RaftServer.Server.Overwrite` | raft/raft.go:257-263 | One overwritten entry: the log is cut, extended, persisted, and the first index of a new term is recorded. |
| `RaftServer.Server.ApplyCommitted` | raft/raft.go:276-286 | The apply loop is the value-level delivery. |
| `RaftServer.Server.UpdateCommitIndex` | raft/raft.go:397-429 | Sorting a copy and taking the element at len/2 commits, or panics, as the value-level function does. |
| `RaftServer.Server.BuildAppend` | raft/raft.go:445-455 | A request is built exactly when the peer lags, from nextIndex on. |
| `RaftServer.Server.OnAppendReply` | raft/raft.go:468-501 | Handling a reply is the value-level handler: step down, advance and commit, or back up nextIndex, as ReplyRecords, ReplyCommits and BacksUp say. |
| `RaftServer.Server.Start` | raft/raft.go:540-566 | A leader appends the command at the returned index and term; others change nothing. |
| `RaftServer.Server.LaunchElection` | raft/raft.go:694-698 | The term goes up by one and the vote goes to the server itself, persisted. |
| `RaftServer.Server.Tick` | raft/raft.go:793-812 | A leader that lost contact steps down; a non-leader that timed out becomes a candidate. |
| `RaftServer.Server.OnVoteReply` | raft/raft.go:744-778 | Counting a vote, and becoming leader at n/2 + 1. |
| `RedoLog.CrashAtomic` | mCertiKOS/kern/fs/log.c:119-174 | Cut the sector writes of a transaction anywhere and cut recovery any number of times: the home blocks end exactly as before if the cut came before the first header write, exactly with all logged writes if not, and the log is clean. |
| `RedoLog.CrashBetween` | mCertiKOS/kern/fs/log.c:119-174 | The same for a series of transactions: a crash leaves the homes as a whole number of them made them, that number being the headers written before the cut. |
| `RedoLog.RunAtomic` | mCertiKOS/kern/fs/log.c:54-142 | Over any run of transactions, crashes and recoveries, the homes hold exactly the transactions whose header write was reached, in order. |
| `RedoLog.EventAtomic` | mCertiKOS/kern/fs/log.c:129-142 | One completed or crashed transaction has all of its effect or none. |
| `RedoLog.CutRecoverable` | mCertiKOS/kern/fs/log.c:129-142 | After any prefix of a transaction's writes the disk is recoverable, and to which homes. |
| `RedoLog.RecoveryCut` | mCertiKOS/kern/fs/log.c:111-117 | Recovery cut after any write leaves a disk that recovers to the same homes; completed, exactly those homes and a clean log. |
| `RedoLog.RebootsRecover` | mCertiKOS/kern/fs/log.c:54-67 | Any number of cut recoveries followed by a complete one gives the same homes. |
| `RedoLog.HeaderCommits` | mCertiKOS/kern/fs/log.c:129-136 | The header write alone turns a staged transaction into one that recovery installs, and what commit_trans writes after it is what recovery would write. |
| `RedoLog.StageAll` | mCertiKOS/kern/fs/log.c:152-174 | Installing the staged blocks is applying the logged writes in order, absorbed re-writes included. |
| `RedoLog.AbsorbAllFacts` | mCertiKOS/kern/fs/log.c:162-172 | Absorption keeps the header's sectors distinct. |
| `RedoLog.HeaderBytes` | mCertiKOS/kern/fs/log.c:37-40 | On disk the header is a count and then the sectors, four bytes each, lowest byte first. |
| `RedoLog.HeaderRoundTrip` | mCertiKOS/kern/fs/log.c:84-109 | Reading a written header gives the sectors back. |
| `LogDevice.Log.constructor` | mCertiKOS/kern/fs/log.c:54-67 | log_init on a recoverable disk leaves the recovered homes and a clean log. |
| `LogDevice.Log.WriteHead` | mCertiKOS/kern/fs/log.c:98-109 | The header block is written with exactly the in-memory sectors. |
| `LogDevice.Log.ReadHead` | mCertiKOS/kern/fs/log.c:84-96 | The in-memory sectors become those on disk. |
| `LogDevice.Log.InstallTrans` | mCertiKOS/kern/fs/log.c:69-82 | Every log block is copied to its home and nothing in the log area changes. |
| `LogDevice.Log.RecoverFromLog` | mCertiKOS/kern/fs/log.c:111-117 | The sector writes are those RecoveryCut reasons about. |
| `LogDevice.Log.BeginTrans` | mCertiKOS/kern/fs/log.c:119-127 | The transaction starts. |
| `LogDevice.Log.LogWrite` | mCertiKOS/kern/fs/log.c:152-174 | One log block is written and the header absorbs the sector; it panics, with nothing written, exactly on a full log or outside a transaction. |
| `LogDevice.Log.CommitTrans` | mCertiKOS/kern/fs/log.c:129-142 | The sector writes are header, installs, cleared header, and the header in memory is empty. |
| `LogDevice.Log.LogAll` | mCertiKOS/kern/fs/log.c:152-174 | The log_write calls of a transaction, in order, up to the first that finds no room. |
| `LogDevice.Log.Transaction` | mCertiKOS/kern/fs/log.c:119-174 | A whole transaction completes iff each of its writes finds room; then its sector writes are exactly those CrashAtomic reasons about and the homes hold them all. If not it panics, and recovery gives the homes as they were. |
| `Bitmap.FlipInBit` | mCertiKOS/kern/fs/block.c:42-44 | Setting or clearing bit k of a bitmap block changes bit k and no other. |
| `Volume.InodeRoundTrip` | mCertiKOS/kern/fs/dinode.h:11-18 | Decoding an encoded inode gives it back. |
| `Volume.InodeBytes` | mCertiKOS/kern/fs/dinode.h:11-28 | Where each field of an inode is on disk: four two-byte fields, the size and thirteen addresses, 64 bytes to an inode, eight inodes to a block from block 2 on. |
| `Volume.StoreThenRead` | mCertiKOS/kern/fs/inode.c:63-78 | After inode_update of i, reading i gives what was stored and every other inode reads as before. |
| `Volume.Exclusive` | mCertiKOS/kern/fs/inode.c:227-255 | No block is referred to by two slots, of one file or of two, and a block referred to is marked in use. |
| `VolumeOps.AllocKeeps` | mCertiKOS/kern/fs/block.c:31-53 | Taking a free block keeps the volume in order, marks and zeroes that block, and changes no file. |
| `VolumeOps.LinkKeeps` | mCertiKOS/kern/fs/inode.c:232-242 | Putting a fresh block into a direct slot or the indirect slot keeps the volume in order and every file's bytes. |
| `VolumeOps.LinkEntryKeeps` | mCertiKOS/kern/fs/inode.c:243-251 | So does putting one into an entry of the indirect block. |
| `VolumeOps.PatchByte` | mCertiKOS/kern/fs/inode.c:353-357 | Overwriting part of a file's block changes exactly those bytes of that file and no byte of another. |
| `VolumeOps.UpdateKeeps` | mCertiKOS/kern/fs/inode.c:63-78 | Writing an inode's block keeps the volume in order and every file's bytes. |
| `FileState.PatchedOk` | mCertiKOS/kern/fs/inode.c:353-357 | Writing inside one block splices the file and leaves all other files. |
| `FileState.ReadBlock` | mCertiKOS/kern/fs/inode.c:324-329 | A stretch of a file inside one block is that stretch of the block bmap names. |
| `FileState.UpdatedOk` | mCertiKOS/kern/fs/inode.c:63-78 | inode_update makes the stored inode the cached one and no other. |
| `Truncation.StillUsed` | mCertiKOS/kern/fs/inode.c:264-287 | The next block inode_trunc frees is still marked in use and was not freed before. |
| `Truncation.EmptiedOk` | mCertiKOS/kern/fs/inode.c:264-291 | Once all of a file's blocks are freed and its slots cleared, the volume is in order and the file empty. |
| `Truncation.TrimDone` | mCertiKOS/kern/fs/inode.c:264-291 | The bits that changed are exactly those of the blocks the file referred to. |
| `Accounting.InUseIff` | mCertiKOS/kern/fs/block.c:31-73 | In every quiet state a data block is marked in use iff some file refers to it: nothing leaks. |
| `Accounting.LinkedFull` | mCertiKOS/kern/fs/inode.c:232-242 | Allocating and linking a block keeps that account. |
| `Accounting.LinkedEntryFull` | mCertiKOS/kern/fs/inode.c:243-251 | Also through the indirect block. |
| `Accounting.EmptiedFull` | mCertiKOS/kern/fs/inode.c:264-291 | Truncation keeps it. |
| `FreeSpace.LeftCounts` | mCertiKOS/kern/fs/block.c:31-55 | The number of clear bits in the bitmap is the number of data blocks less what the files need by their sizes, indirect blocks included. |
| `FreeSpace.OwnedCount` | mCertiKOS/kern/fs/inode.c:227-255 | The blocks referred to are as many as the files' fills add up to. |
| `FileSteps.NoHoles` | mCertiKOS/kern/fs/inode.c:319-330 | Between operations block k of a file is allocated iff k*BSIZE < size, the indirect block iff the file outgrows the direct ones, and the stored inode is the cached one. |
| `FileSteps.Committed` | mCertiKOS/kern/fs/log.c:129-142 | Committing what the buffers show leaves the homes equal to the buffers and a clean log. |
| `FileSteps.BitsFail` | mCertiKOS/kern/fs/inode.c:264-287 | Freeing a block of a file being truncated finds no log space or no buffer only if the log or the cache has no room for all blocks of the bitmap. |
| `FileSteps.PinsLeaveOne` | mCertiKOS/kern/fs/log.c:152-174 | A transaction that found buffers so far leaves one, so committing finds a buffer for the header. |
| `FileSteps.TrimFinish` | mCertiKOS/kern/fs/inode.c:289-290 | Truncation ends with a quiet volume, the file empty, the inode stored. |
| `FileSteps.Resizes` | mCertiKOS/kern/fs/inode.c:360-363 | A grown file whose size and inode are then updated is settled again. |
| `FileCrash.ChunkBound` | mCertiKOS/kern/fs/file.c:125-139 | At any offset and alignment, direct or indirect, a chunk of at most 1536 bytes logs at most nine sectors besides the inode. |
| `FileCrash.ChunkBuffers` | mCertiKOS/kern/fs/params.h:8-13 | With one buffer more for the log block, the sectors a chunk may log fit NBUF = 10 buffers iff the chunk is not squeezed: not starting in the last of the file's blocks, one of the last three direct ones, and ending three blocks later. |
| `FileCrash.SafeChunks` | mCertiKOS/kern/fs/file.c:125-139 | Chunks of up to two blocks, and aligned ones, are never squeezed; one byte into the last direct block is. |
| `FileCrash.SqueezedChunk` | mCertiKOS/kern/fs/file.c:131-151 | A squeezed chunk of file_write means an unaligned write that took the file from direct to indirect blocks. |
| `FileCrash.WriteFits` | mCertiKOS/kern/fs/inode.c:336-365 | A write that went in had the blocks it needed free before it. |
| `FileCrash.ChunkFails` | mCertiKOS/kern/fs/file.c:131-151 | What a later chunk of file_write lacks in blocks or log space, counted from the file's size and offset before the call. |
| `FileCrash.ChainCrash` | mCertiKOS/kern/fs/file.c:133-149 | A crash anywhere in a series of chunk transactions, with any number of cut recoveries, comes back up in one of the states between chunks, inodes included. |
| `FileCrash.DoneAt` | mCertiKOS/kern/fs/file.c:131-151 | How many bytes are in when a chunk is refused: the whole chunks that fit below 140 blocks. |
| `FileCrash.DoneShort` | mCertiKOS/kern/fs/file.c:131-155 | One byte more than the largest file: 70656 of 71681 bytes go in. |
| `FlatFiles.FlatChain` | mCertiKOS/kern/fs/inode.c:35-365 | Single calls that behave like flat files compose into any sequence of them. |
| `FlatFiles.QuietLeft` | mCertiKOS/kern/fs/inode.c:35-365 | Between operations the blocks left are those the files, by their lengths alone, leave. |
| `FlatFiles.Stopped` | mCertiKOS/kern/fs/inode.c:35-365 | A run of calls that stops does so at a call that is not safe on the flat files its predecessors leave. |
| `FreshVolume.FreshIsQuiet` | mCertiKOS/kern/fs/dinode.h:23-41 | A concrete volume of the on-disk layout, with free inodes and blocks, meets every invariant used. |
| `FreshVolume.MountFresh` | mCertiKOS/kern/fs/log.c:54-67 | Mounting that volume gives a valid, quiet file system with every file empty. |
| `FreshVolume.FreshCrash` | mCertiKOS/kern/fs/log.c:119-174 | A crash in a one-block transaction on it leaves that block old or new. |
| `FileSystem.FileSys.constructor` | mCertiKOS/kern/fs/log.c:54-67 | Mounting recovers the log and reads the inodes; the files are those of the recovered homes. |
| `FileSystem.FileSys.Put` | mCertiKOS/kern/fs/log.c:152-174 | Get, modify, log and release a block while holding others: it panics exactly when the pinned sectors leave no buffer, on a full log or outside a transaction, else the buffers and the header change by that block only. |
| `FileSystem.FileSys.FindFree` | mCertiKOS/kern/fs/block.c:39-50 | The nested bitmap scan finds the lowest free block, or none iff every block is in use. |
| `FileSystem.FileSys.BlockAlloc` | mCertiKOS/kern/fs/block.c:31-55 | The lowest free block is marked and zeroed and nothing else changes; out of blocks iff every bit is set; out of buffers only if two sectors more than are logged or held leave none. |
| `FileSystem.FileSys.AllocInto` | mCertiKOS/kern/fs/inode.c:233-241 | A slot of the inode gets a fresh block, out of blocks iff every one is in use; at most two sectors are logged. |
| `FileSystem.FileSys.AllocEntry` | mCertiKOS/kern/fs/inode.c:246-249 | An entry of the indirect block gets a fresh block, out of blocks iff every one is in use; at most two sectors besides the indirect block are logged. |
| `FileSystem.FileSys.BMapDirect` | mCertiKOS/kern/fs/inode.c:232-236 | Direct blocks: found, or allocated if next. |
| `FileSystem.FileSys.BMapIndirect` | mCertiKOS/kern/fs/inode.c:239-251 | Indirect blocks: found, or allocated, with the indirect block itself if missing. |
| `FileSystem.FileSys.BMap` | mCertiKOS/kern/fs/inode.c:227-255 | The block of a file position; nothing at all changes when it exists, exactly that block is added when it is the next one, it panics exactly past 140 blocks, and is out of blocks only if fewer are free than the grown file needs more. |
| `FileSystem.FileSys.ReadPiece` | mCertiKOS/kern/fs/inode.c:324-329 | One turn of the read loop. |
| `FileSystem.FileSys.InodeRead` | mCertiKOS/kern/fs/inode.c:308-331 | A device file is the driver's; else -1 iff off is past the end or off+n wraps; else the slice clipped to size. Nothing is allocated, logged or changed. |
| `FileSystem.FileSys.WriteBlock` | mCertiKOS/kern/fs/inode.c:352-358 | One turn of the write loop splices one piece in; it is out of blocks only if fewer are free than that piece needs. |
| `FileSystem.FileSys.WriteBlocks` | mCertiKOS/kern/fs/inode.c:352-358 | The loop splices all of the bytes in, allocating and logging no more than Touched allows; it is out of blocks only if fewer are free than the whole write needs. |
| `FileSystem.FileSys.InodeUpdate` | mCertiKOS/kern/fs/inode.c:63-78 | The cached inode goes to its slot on disk. |
| `FileSystem.FileSys.InodeWrite` | mCertiKOS/kern/fs/inode.c:336-365 | A device file is the driver's; else -1, with nothing changed, iff off is past the end, off+n wraps or exceeds 140 blocks; else the bytes are spliced, all other files are as before, no block leaks and every inode is settled. It is out of blocks only if fewer are free than the file's new size needs beyond its old one, indirect block included, and out of log or buffers only if the sectors it may touch do not fit. |
| `FileSystem.FileSys.BlockFree` | mCertiKOS/kern/fs/block.c:58-73 | The block's bit is cleared; it panics iff the bit was clear, and else fails exactly as logging that bitmap block does. |
| `FileSystem.FileSys.FreeDirect` | mCertiKOS/kern/fs/inode.c:270-275 | The first loop frees the direct blocks. |
| `FileSystem.FileSys.FreeIndirect` | mCertiKOS/kern/fs/inode.c:277-287 | The second frees the entries, then the indirect block. |
| `FileSystem.FileSys.FinishTrunc` | mCertiKOS/kern/fs/inode.c:289-290 | Size zero, inode stored. |
| `FileSystem.FileSys.InodeTrunc` | mCertiKOS/kern/fs/inode.c:264-291 | The file is empty, exactly its blocks are freed, and "freeing free block" cannot happen. It fails only if the log or the cache has no room for all blocks of the bitmap. |
| `FileSystem.FileSys.InodeFree` | mCertiKOS/kern/fs/inode.c:185-203 | The last reference to an unlinked inode frees contents and inode; it fails only for want of room for the bitmap and the inode. |
| `FileSystem.FileSys.FindInode` | mCertiKOS/kern/fs/inode.c:44-56 | The lowest free inode but number 0, or none iff all are taken. |
| `FileSystem.FileSys.InodeAlloc` | mCertiKOS/kern/fs/inode.c:35-58 | That inode becomes an empty file of the given type. |
| `FileSystem.FileSys.BeginTrans` | mCertiKOS/kern/fs/log.c:119-127 | Buffers and homes agree when a transaction starts. |
| `FileSystem.FileSys.CommitTrans` | mCertiKOS/kern/fs/log.c:129-142 | The transaction's sector writes are the ones crash atomicity is proved for, and the homes end equal to the buffers. |
| `FileSystem.FileSys.WriteChunk` | mCertiKOS/kern/fs/file.c:138-143 | One chunk is one transaction; with eleven log blocks or more it never exceeds the log, it runs out of buffers only if squeezed; it is out of blocks only if fewer are free than it needs, and goes in only if enough are. |
| `FileSystem.FileSys.WriteNext` | mCertiKOS/kern/fs/file.c:133-149 | One turn of the loop: a chunk goes in as one transaction more, or is refused with nothing changed. |
| `FileSystem.FileSys.FileWrite` | mCertiKOS/kern/fs/file.c:118-155 | Whole chunks go in until one no longer fits, each its own transaction, with the states between them recorded for ChainCrash; -1 iff not everything went in, although the earlier chunks stay. It is out of blocks only if the chunks up to the failing one need more than were free at the start; buffers run out only in an unaligned write that takes the file into its indirect block. |
| `FileSystem.FileSys.FileRead` | mCertiKOS/kern/fs/file.c:98-113 | The clipped slice at the file's offset, which moves past it; the file system does not change. |
| `FileSystem.FileSys.Create` | mCertiKOS/kern/fs/inode.c:35-58 | inode_alloc as one transaction: the lowest free inode becomes an empty file. |
| `FileSystem.FileSys.Remove` | mCertiKOS/kern/fs/inode.c:185-203 | Freeing an inode as one transaction: that file is empty, its inode free, all others as before; it fails only for want of room for the bitmap and the inode. |
| `FileSystem.FileSys.Remount` | mCertiKOS/kern/fs/log.c:54-67 | A crash between calls loses the in-memory header and inodes, and mounting again restores the very same state. |
| `FileSystem.FileSys.ServeWrite` | mCertiKOS/kern/fs/inode.c:336-365 | A write call is a write on a flat file; it fails on a free or device inode exactly, and else only without blocks for it or, with eleven log blocks, if it is beyond a chunk or unaligned and more than two blocks. |
| `FileSystem.FileSys.ServeRead` | mCertiKOS/kern/fs/inode.c:308-331 | A read call is a read of a flat file. |
| `FileSystem.FileSys.ServeOne` | mCertiKOS/kern/fs/inode.c:151-162 | One call, of any kind, is that call on flat files; one that is safe by the flat files alone succeeds. |
| `FileSystem.FileSys.Serve` | mCertiKOS/kern/fs/inode.c:35-365 | Any sequence of writes, reads, inode allocations, frees and crashes between them answers and ends as independent flat byte sequences would. It stops early only at a call that is not safe on what the calls before it leave, and a sequence of safe calls is served whole. |
| `SectorCache.StepContents` | mCertiKOS/kern/fs/bufcache.c:63-145 | The cache is a plain sector map: only a holder's write and a failing read change what a sector reads as; getting, recycling, reading in, writing out, logging and releasing change nothing. Clean buffers still agree with their sectors iff no write failed with harm. |
| `SectorCache.EveryRunContents` | mCertiKOS/kern/fs/bufcache.c:63-145 | Over any interleaving without a harmful disk failure, a sector reads as what was last written to it. |
| `SectorCache.HealthyDisk` | mCertiKOS/kern/dev/disk/ide.c:82-109 | In particular over any interleaving in which the disk reports no error. |
| `SectorCache.CompleteFaithful` | mCertiKOS/kern/dev/disk/ide.c:95-101 | A completion leaves clean buffers agreeing with their sectors iff it was neither a failed read over a buffer that differs nor a failed write that left the sector different. |
| `SectorCache.EveryRunSound` | mCertiKOS/kern/dev/disk/ide.c:59-145 | Over any interleaving, disk errors or not: at most one buffer per sector, the ring ordered by last release, the queue duplicate-free with exactly its head started, and requests completed in arrival order with none lost. |
| `SectorCache.StepSound` | mCertiKOS/kern/fs/bufcache.c:63-145 | Each step keeps that. |
| `SectorCache.FailedRead` | mCertiKOS/kern/dev/disk/ide.c:95-101 | A failed disk read, which still marks the buffer valid, changes what some sector reads as iff the stale buffer differs from the sector. |
| `SectorCache.CompletedBuffer` | mCertiKOS/kern/dev/disk/ide.c:82-109 | A completed request leaves its buffer valid and clean, and equal to its sector iff the disk did not fail with harm. |
| `SectorCache.HolderSees` | mCertiKOS/kern/fs/bufcache.c:100-109 | Whoever holds a valid buffer sees the contents of its sector. |
| `SectorCache.GetGives` | mCertiKOS/kern/fs/bufcache.c:63-95 | bufcache_get gives one buffer for the sector, busy: the cached one with what it held, else one yet to be read in, and no other buffer changes or caches the sector. |
| `SectorCache.ReleaseGives` | mCertiKOS/kern/fs/bufcache.c:127-145 | bufcache_release makes the buffer the first of the ring, not busy, with what it held, and the others keep their order. |
| `SectorCache.MarkGives` | mCertiKOS/kern/fs/log.c:173-173 | A logged buffer keeps its data and cannot be recycled. |
| `SectorCache.RecyclesOldest` | mCertiKOS/kern/fs/bufcache.c:83-92 | The buffer recycled is the idle clean one released longest ago. |
| `SectorCache.RingPermuted` | mCertiKOS/kern/fs/bufcache.c:127-145 | No step adds, drops or duplicates a buffer. |
| `SectorCache.Lookup` | mCertiKOS/kern/fs/bufcache.c:71-72 | The first buffer caching the sector. |
| `SectorCache.Victim` | mCertiKOS/kern/fs/bufcache.c:84-85 | The last idle clean buffer. |
| `CacheRuns.PanicsWhenFull` | mCertiKOS/kern/fs/bufcache.c:71-93 | In every sound state, hence in every run, bufcache_get panics iff as many sectors are pinned by busy or dirty buffers as there are buffers, and the one asked for is not among them; a pinned one is had iff nobody holds it. |
| `CacheRuns.LogBlockBuffer` | mCertiKOS/kern/fs/log.c:161-168 | With k sectors logged or held, log_write gets a buffer for the log block iff there are at least k + 1 buffers. |
| `CacheRuns.NoBufferLeft` | mCertiKOS/kern/fs/bufcache.c:71-93 | For any number n of buffers there is a run that logs n - 1 sectors, holds the n-th, and then finds no buffer for any other. |
| `CacheRuns.TenthSectorPanics` | mCertiKOS/kern/fs/params.h:8-13 | With NBUF = LOGSIZE = 10 such a run exists for the tenth sector of a transaction. |
| `CacheRuns.StaleRead` | mCertiKOS/kern/dev/disk/ide.c:95-101 | A run from boot in which a failed read is served as the sector's contents. |
| `CacheRuns.LostWrite` | mCertiKOS/kern/dev/disk/ide.c:95-101 | A run from boot in which a failed write is lost: the buffer counts as clean, is recycled, and the sector reads as before the write. |
| `CacheRuns.CountPinned` | mCertiKOS/kern/fs/bufcache.c:83-92 | Busy and dirty buffers pin that many distinct sectors. |
| `BufferCache.Cache.constructor` | mCertiKOS/kern/fs/bufcache.c:40-56 | All buffers are on the ring, unused. |
| `BufferCache.Cache.PushFront` | mCertiKOS/kern/fs/bufcache.c:136-139 | Linking a node in after the head. |
| `BufferCache.Cache.Unlink` | mCertiKOS/kern/fs/bufcache.c:134-135 | Unlinking one node leaves the others in order. |
| `BufferCache.Cache.FindCached` | mCertiKOS/kern/fs/bufcache.c:71-81 | The forward scan finds the first buffer caching the sector. |
| `BufferCache.Cache.FindVictim` | mCertiKOS/kern/fs/bufcache.c:84-92 | The backward scan finds the last idle clean buffer. |
| `BufferCache.Cache.Claim` | mCertiKOS/kern/fs/bufcache.c:73-76 | A hit is marked busy. |
| `BufferCache.Cache.Reuse` | mCertiKOS/kern/fs/bufcache.c:86-88 | A recycled buffer caches the new sector, busy and not valid. |
| `BufferCache.Cache.Get` | mCertiKOS/kern/fs/bufcache.c:63-95 | The pointer code returns the buffer the state machine names, waits exactly on a busy hit and panics exactly when nothing can be recycled. |
| `BufferCache.Cache.Release` | mCertiKOS/kern/fs/bufcache.c:127-145 | The pointer surgery moves exactly that buffer to the front, not busy; it panics, changing nothing, iff nobody held it. |
| `BufferCache.Ide.Rw` | mCertiKOS/kern/dev/disk/ide.c:116-137 | The three panics in their order; else the request goes to the end of the linked queue and is started iff the queue was empty. |
| `BufferCache.Ide.Intr` | mCertiKOS/kern/dev/disk/ide.c:82-109 | The head request completes, its buffer valid and clean, the next is started, and an empty queue is a spurious interrupt. |
| `CheckerRuns.NoFalseAlarm` | sharded_kv_cache/checker/checker.go:179-217 | In any interleaving of clients of an atomic store that drops values at their time, give or take the buffer, a value that the store held is never reported as overwritten, never written or expired. |
| `CheckerRuns.MissingWhen` | sharded_kv_cache/checker/checker.go:195-207 | A read that rightly found nothing is reported iff it is judged, no write has ever taken effect, and the recorded ones, all failed, have not expired. |
| `CheckerRuns.NoLies` | sharded_kv_cache/cmd/stress/tester.go:146-195 | In runs in which the store answers reads from its register only, every read is one that NoFalseAlarm and MissingWhen speak of. |
| `CheckerDetects.FoundVerdict` | sharded_kv_cache/checker/checker.go:179-217 | Whatever the store answers, a read told v is skipped exactly if a write was under way during it, never written exactly if no write of v has ended, overwritten exactly if a successful write that nothing overlapped began after v was written and has ended, and expired exactly if v stands, was written successfully, and its time was over when the read began. |
| `CheckerDetects.MissedVerdict` | sharded_kv_cache/checker/checker.go:195-207 | A read told there is nothing is reported exactly if it was undisturbed, some value stands, and none of those that stand may have expired. |
| `CheckerDetects.JudgedWhen` | sharded_kv_cache/checker/checker.go:179-189 | A read is judged exactly if no write was under way when it began and none began or ended before it ended. |
| `CheckerDetects.StrangerFound` | sharded_kv_cache/checker/checker.go:208-217 | A value that no write ever used is reported as never written. |
| `CheckerDetects.Records` | sharded_kv_cache/checker/checker.go:144-168 | After any run the current values are exactly those written and not overwritten since, with their error and expiry, and the overwritten ones the others. |
| `CheckerDetects.ReplacesIsLone` | sharded_kv_cache/checker/checker.go:151-159 | CompleteWrite retires the other values only for a successful write with no other under way from its begin to its end. |
| `CheckerDetects.LoneReplaces` | sharded_kv_cache/checker/checker.go:151-159 | And for every such write it does. |
| `CheckerDetects.TtlFlag` | sharded_kv_cache/checker/checker.go:179-217 | Turning the expiry check off changes the verdict expired to fine and no other. |
| `CheckerRuns.FalseAlarm` | sharded_kv_cache/checker/checker.go:195-207 | That happens: a run with one write that fails without effect, and a later read that rightly finds nothing. |
| `CheckerRuns.NoDuplicatePanic` | sharded_kv_cache/checker/checker.go:144-149 | The panic on duplicate values cannot fire. |
| `CheckerRuns.PendingFlagRedundant` | sharded_kv_cache/checker/checker.go:170-187 | The pending flag BeginRead returns never changes a verdict. |
| `CheckerRuns.EveryRunInv` | sharded_kv_cache/cmd/stress/tester.go:146-195 | The register always holds a current value or that of a write under way, with an expiry inside the recorded bounds, and what a read saw stays explained until a write ends. |
| `Checker.ConsistencyChecker.BeginWrite` | sharded_kv_cache/checker/checker.go:109-118 | One more pending write; the current version is returned; other keys are untouched. |
| `Checker.ConsistencyChecker.CompleteWrite` | sharded_kv_cache/checker/checker.go:120-168 | With its expiry bounds, a sole, unoverlapped, successful write becomes the only value and retires the rest; any other joins the values; duplicates panic and change nothing. |
| `Checker.ConsistencyChecker.Retire` | sharded_kv_cache/checker/checker.go:152-157 | Every current value moves to the overwritten ones. |
| `Checker.ConsistencyChecker.Settle` | sharded_kv_cache/checker/checker.go:158-167 | The write is no longer pending and the version moves on. |
| `Checker.ConsistencyChecker.BeginRead` | sharded_kv_cache/checker/checker.go:170-177 | The version and whether writes are pending. |
| `Checker.ConsistencyChecker.SomeExpired` | sharded_kv_cache/checker/checker.go:195-207 | The loop over the values says whether one may have expired, or there are none. |
| `Checker.ConsistencyChecker.CheckReadCorrect` | sharded_kv_cache/checker/checker.go:179-217 | The verdict: skipped while writes overlap; for a found value overwritten, never written, expired or fine; for none, missing or fine; FoundVerdict and MissedVerdict say when. |
| `ReentrantLock.MutualExclusion` | mCertiKOS/kern/lib/reentrant_lock.c:22-53 | Over any interleaving of single steps, with nesting at most 2^32 deep, at most one CPU holds the lock, the word names it and the count is its depth modulo 2^32. |
| `ReentrantLock.UnlocksAtZero` | mCertiKOS/kern/lib/reentrant_lock.c:47-53 | In such a run the word becomes UNLOCKED only when no CPU has an acquire left. |
| `ReentrantLock.EveryRunGood` | mCertiKOS/kern/lib/reentrant_lock.c:22-53 | The invariant holds all along such a run. |
| `ReentrantLock.StepInv` | mCertiKOS/kern/lib/reentrant_lock.c:22-53 | Each step keeps it, short of an early unlock; AttemptWins and the lemmas after it say what the steps achieve. |
| `ReentrantLock.AttemptWins` | mCertiKOS/kern/lib/reentrant_lock.c:22-45 | An attempt makes its CPU the holder exactly when no other CPU holds the lock; else a try gives up, a spin stays, and the lock is as it was. |
| `ReentrantLock.TryOutcome` | mCertiKOS/kern/lib/reentrant_lock.c:33-45 | try_acquire decides at its first step: inside the lock if no other CPU holds it then, else outside with nothing changed. |
| `ReentrantLock.AcquireOutcome` | mCertiKOS/kern/lib/reentrant_lock.c:22-31 | acquire likewise, but it goes on trying. |
| `ReentrantLock.AcquireCompletes` | mCertiKOS/kern/lib/reentrant_lock.c:26-31 | After an attempt that nobody stands against, whatever the other CPUs do, the CPU's next two steps leave it holding the lock once more than before. |
| `ReentrantLock.ReleaseCompletes` | mCertiKOS/kern/lib/reentrant_lock.c:47-53 | A release leaves its CPU holding the lock once less, and about to unlock exactly if that is zero. |
| `ReentrantLock.UnlockFrees` | mCertiKOS/kern/lib/reentrant_lock.c:50-52 | The unlock leaves the lock free, the count zero and nobody holding it. |
| `ReentrantLock.TestOutcome` | mCertiKOS/kern/lib/reentrant_lock.c:49-52 | A release goes on to unlock iff the depth left is a multiple of 2^32. |
| `ReentrantLock.TooDeep` | mCertiKOS/kern/lib/reentrant_lock.c:22-53 | One acquire past 2^32 is enough: a run in which two CPUs hold the lock. |
| `DeviceAllocator.InitUndone` | distributed_machine_learning/code/lab-dsml/dsml/gpu_coordinator.go:157-166 | Finalizing, destroying or failing a communicator undoes its CommInit: every device is as before it. |
| `DeviceAllocator.InitOwned` | distributed_machine_learning/code/lab-dsml/dsml/gpu_coordinator.go:103-136 | A new communicator owns exactly the selected devices, and everyone else what they owned. |
| `DeviceAllocator.ReleaseOwned` | distributed_machine_learning/code/lab-dsml/dsml/gpu_coordinator.go:157-166 | Releasing one leaves every other communicator owning exactly what it owned. |
| `DeviceAllocator.HeldLess` | distributed_machine_learning/code/lab-dsml/dsml/gpu_coordinator.go:157-166 | Deleting a communicator lowers the devices held by exactly its size. |
| `DeviceAllocator.Coordinator.constructor` | distributed_machine_learning/code/lab-dsml/dsml/gpu_coordinator.go:53-75 | All devices free, no communicator, ids from 1. |
| `DeviceAllocator.Coordinator.CountFree` | distributed_machine_learning/code/lab-dsml/dsml/gpu_coordinator.go:89-94 | The number of free devices. |
| `DeviceAllocator.Coordinator.Select` | distributed_machine_learning/code/lab-dsml/dsml/gpu_coordinator.go:103-113 | Free devices in order until n are found; with n = 0, all of them. |
| `DeviceAllocator.Coordinator.Rank` | distributed_machine_learning/code/lab-dsml/dsml/gpu_coordinator.go:118-126 | Ranks 0..k-1 biject onto the selected devices; indexing past the n metadata entries is the panic. |
| `DeviceAllocator.Coordinator.Register` | distributed_machine_learning/code/lab-dsml/dsml/gpu_coordinator.go:128-136 | The communicator is recorded under an id never used before. |
| `DeviceAllocator.Coordinator.CommInit` | distributed_machine_learning/code/lab-dsml/dsml/gpu_coordinator.go:83-143 | Fails iff fewer than n are free, panics iff n = 0 and some are free, with every device then taken and nothing else changed; else the first n free devices form a communicator with a new id, and ownership, ranks and free + held = total all hold again. |
| `DeviceAllocator.Coordinator.GiveAll` | distributed_machine_learning/code/lab-dsml/dsml/gpu_coordinator.go:157-161 | The release loop frees exactly the communicator's devices. |
| `DeviceAllocator.Coordinator.Retire` | distributed_machine_learning/code/lab-dsml/dsml/gpu_coordinator.go:157-166 | A communicator is deleted with its devices freed. |
| `DeviceAllocator.Coordinator.CommFinalize` | distributed_machine_learning/code/lab-dsml/dsml/gpu_coordinator.go:145-173 | Succeeds iff the communicator exists; exactly its devices are free again, and the invariant holds. |
| `DeviceAllocator.Coordinator.CommDestroy` | distributed_machine_learning/code/lab-dsml/dsml/gpu_coordinator.go:175-208 | The same, and the status becomes failed. |
| `DeviceAllocator.Coordinator.MarkFailed` | distributed_machine_learning/code/lab-dsml/dsml/gpu_coordinator.go:626-638 | The same for a failure. |

## Left out

- Raft timing: clocks, randomized timeouts and pacing are nondeterministic steps, and nothing is said about liveness.
- Raft transport: labrpc and labgob are not part of this model; encoding is the identity, Go slices are values, and the apply channel is a sequence.
- RaftSafety.ElectionSafety: needs orderly runs, as do LogMatching, CommittedStays and StateMachineSafety; the runs in RaftUnorderly and RaftStale show what happens otherwise.
- FileSystem.FileSys.BMap: stated for a block at most one past the file's last, which is all its two callers ask for after checking off against the size.
- FileSystem.FileSys.BMapDirect: the same restriction as BMap.
- FileSystem.FileSys.BMapIndirect: the same restriction as BMap.
- FileSystem.FileSys.InodeTrunc: its bound counts all blocks of the bitmap, not only those with bits of this file, so lacking room for them is necessary for a failure, not sufficient.
- FileSystem.FileSys.InodeFree: the same bound as InodeTrunc, with one sector more for the inode.
- FileSystem.FileSys.InodeWrite: that the sectors a write may touch do not fit is necessary for running out of log or buffers, not sufficient, since new blocks may share a bitmap block; for blocks the condition is exact (WriteChunk).
- FileSystem.FileSys.WriteChunk: that a chunk is squeezed is necessary for running out of buffers, not sufficient; its four new blocks must also have their bits in four bitmap blocks, which FileSystem.FileSys.Put decides exactly.
- FileSystem.FileSys.FileWrite: for a length that is not negative; a negative one is answered with -1 at once.
- FileSystem.FileSys.FileRead: for a length that is not negative, as in FileWrite.
- FileSystem.FileSys.Serve: stops at the first panic or device file; what a driver answers is not modelled.
- FileSystem.FileSys.Put: one process runs, so the pinned buffers are those logged and those it holds itself.
- The in-memory inode table with its reference counts, flags and sleeping (inode_get, inode_lock, inode_dup): not modelled; every inode counts as cached, which settled inodes make indistinguishable from reading them again.
- FileSystem.FileSys.InodeAlloc: returns the inode number; the table entry inode_get makes for it is not modelled.
- File system calls run one at a time: readers that run beside a transaction, which the comment in log.c allows to see uncommitted data, are not modelled.
- Directories, paths and the system call layer (dir.c, path.c, sysfile.c), and the file table's reference counts.
- SectorCache.EveryRunContents: holders hand a changed buffer to the log or the disk before releasing it, as the cache's interface comment asks.
- Disk ports, the interrupt controller, and thread_sleep/thread_wakeup fairness; waiting is a step that is not enabled.
- CheckerRuns.NoFalseAlarm: for reads the store answered truthfully (CheckerDetects has the others); a write takes effect, if at all, before its client is answered; all clients read one clock.
- Checker.ConsistencyChecker.CheckReadCorrect: the counter ChecksRun and the flag that turns checking off are not modelled.
- ReentrantLock.MutualExclusion: CPUs release only what they acquired, and memory is sequentially consistent.
- DeviceAllocator.Coordinator.CommInit: communicator ids do not wrap at 2^64, and device metadata beyond ranks is not modelled.
- GPU streams, Memcpy, AllReduce and their RPCs; the sharded cache servers; the video recommendation services; generated code.
