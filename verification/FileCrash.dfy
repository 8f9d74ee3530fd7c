// file_write as a series of transactions: how much goes in, and what a crash in the
// middle leaves (mCertiKOS/kern/fs/file.c over log.c).
module FileCrash {
  import opened Blocks
  import opened RedoLog
  import opened Volume
  import opened FileState
  import opened Accounting
  import opened FileSteps

  // ((LOGSIZE - 1 - 1 - 2) / 2) * 512
  const CHUNK := 1536

  // The transaction bound: whatever its offset and alignment, a chunk logs at most
  // nine sectors besides the inode's.
  lemma ChunkBound(off: nat, n: nat, size: nat)
    requires off <= size && n <= CHUNK
    ensures off / BSIZE <= FillOf(size).nb && Touched(off, n, FillOf(size).nb) <= LOGSIZE - 1
  {
    var lo, hi, nb := off / BSIZE, EndBlock(off, n), FillOf(size).nb;
    assert hi <= lo + 4 && hi <= nb + 3;
    hide EndBlock, FillOf;
  }

  // A write of n bytes at off that starts in the last block of the file, among the
  // last three direct ones, and ends three blocks later, behind the indirect block.
  predicate Squeezed(off: nat, n: nat, size: nat) {
    && NDIRECT - 3 <= off / BSIZE < NDIRECT
    && size <= (off / BSIZE + 1) * BSIZE && off % BSIZE + n > 3 * BSIZE
  }

  // The bound on buffers: with one more for the log block, a chunk's sectors fit NBUF
  // buffers, unless it is squeezed and each of its four new blocks has its bit in a
  // bitmap block of its own.
  lemma ChunkBuffers(off: nat, n: nat, size: nat)
    requires off <= size && n <= CHUNK
    ensures off / BSIZE <= FillOf(size).nb
    ensures Touched(off, n, FillOf(size).nb) + 1 < NBUF <==> !Squeezed(off, n, size)
  {
    var lo, hi, nb := off / BSIZE, EndBlock(off, n), FillOf(size).nb;
    assert hi <= lo + 4 && hi <= nb + 3;
    assert hi == lo + 4 <==> off % BSIZE + n > 3 * BSIZE;
    assert nb <= lo + 1 <==> size <= (lo + 1) * BSIZE;
    assert off % BSIZE > 0 ==> nb > lo;
    hide EndBlock, FillOf;
  }

  // Aligned chunks and those of up to two blocks always have buffers; one byte past
  // the start of the last direct block does not.
  lemma SafeChunks(off: nat, n: nat, size: nat)
    ensures n <= 2 * BSIZE || (n <= CHUNK && off % BSIZE == 0) ==> !Squeezed(off, n, size)
    ensures Squeezed(11 * BSIZE + 1, CHUNK, 12 * BSIZE)
  {
  }

  // What writing n bytes at off of a file of size bytes may log besides the inode.
  function TouchedAt(off: nat, n: nat, size: nat): nat {
    if off > size then 0
    else
      BlockReached(size, off);
      Touched(off, n, FillOf(size).nb)
  }

  // Byte k * CHUNK of n, where chunk k of file_write begins, or the end.
  function Upto(n: nat, k: nat): (m: nat)
    ensures m <= n && (k == 0 ==> m == 0)
  {
    if CHUNK * k < n then CHUNK * k else n
  }

  lemma UptoNext(n: nat, k: nat)
    requires Upto(n, k) < n
    ensures Upto(n, k + 1) == Upto(n, k) + if n - Upto(n, k) > CHUNK then CHUNK else n - Upto(n, k)
  {
  }

  // What chunk k of a write of n bytes at off may log besides the inode.
  function ChunkTouched(size: nat, off: nat, n: nat, k: nat): nat {
    var at, to := Upto(n, k), Upto(n, k + 1);
    if to < at then 0 else TouchedAt(off + at, to - at, NewSize(size, off, at))
  }

  // How much of n bytes at off file_write gets in: whole chunks while they fit.
  function Done(off: nat, n: nat, size: nat): int {
    if off > size then 0
    else if off + n <= MAXFILE * BSIZE then n
    else (MAXFILE * BSIZE - off) / CHUNK * CHUNK
  }

  lemma DoneAt(off: nat, n: nat, size: nat, c: nat)
    requires off <= size <= MAXFILE * BSIZE && CHUNK * c < n && off + CHUNK * c <= MAXFILE * BSIZE
    requires off + CHUNK * c + (if n - CHUNK * c > CHUNK then CHUNK else n - CHUNK * c) > MAXFILE * BSIZE
    ensures Done(off, n, size) == CHUNK * c
  {
  }

  // One byte too many for a file of the largest size, and a good part goes in.
  lemma DoneShort()
    ensures MAXFILE * BSIZE == 71680 && Done(0, 71681, 0) == 70656
  {
  }

  // A write that went in had the blocks for it.
  lemma WriteFits(s: State, t: State, i: nat, off: nat, src: seq<Byte>)
    requires Quiet(s) && Quiet(t) && SameInodes(s, t) && i < |s.files| && off <= |s.files[i]|
    requires t.files == s.files[i := Splice(s.files[i], off, src)]
    ensures !Short(s, i, FillOf(NewSize(|s.files[i]|, off, |src|)))
  {
    SpliceNext(s.files[i], off, src, |src|, 0);
    assert src[..|src|] == src;
    EnoughLeft(s, t, i);
  }

  // Transactions ts ran on d in turn and left e; snaps are the states between them.
  ghost predicate Chain(d: Disk, start: nat, ts: seq<seq<Write>>, snaps: seq<State>, e: Disk) {
    && start < |d| && Clean(d, start) && |snaps| == |ts| + 1
    && (forall k :: 0 <= k < |ts| ==> Admissible(d, start, ts[k]))
    && (forall k :: 0 <= k <= |ts| ==> Quiet(snaps[k]) && snaps[k].v.view == HomesAfter(d[..start], ts[..k]))
    && e == Apply(d, AllWrites(d, start, ts))
  }

  lemma ChainStart(d: Disk, start: nat, s: State)
    requires start < |d| && Clean(d, start) && Quiet(s) && s.v.view == d[..start]
    ensures Chain(d, start, [], [s], d)
  {
  }

  lemma ChainMore(d: Disk, start: nat, ts: seq<seq<Write>>, snaps: seq<State>, e: Disk, ops: seq<Write>, s: State)
    requires Chain(d, start, ts, snaps, e) && Admissible(e, start, ops) && Quiet(s)
    requires s.v.view == Apply(snaps[|ts|].v.view, ops)
    ensures Chain(d, start, ts + [ops], snaps + [s], Apply(e, TransWrites(e, start, ops)))
    ensures AllWrites(d, start, ts + [ops]) == AllWrites(d, start, ts) + TransWrites(e, start, ops)
  {
    hide Quiet, Clean, Admissible, TransWrites, Apply;
    OneMoreWrites(d, start, ts, ops);
    OneMoreHomes(d[..start], ts, ops);
    ApplyConcat(d, AllWrites(d, start, ts), TransWrites(e, start, ops));
    assert ts[..|ts|] == ts;
    var ts', snaps' := ts + [ops], snaps + [s];
    forall k | 0 <= k < |ts'| ensures Admissible(d, start, ts'[k]) {
      if k == |ts| { SameRoom(e, d, start, ops); }
    }
    forall k | 0 <= k <= |ts'| ensures Quiet(snaps'[k]) && snaps'[k].v.view == HomesAfter(d[..start], ts'[..k]) {
      if k <= |ts| { assert ts'[..k] == ts[..k]; } else { assert ts'[..k] == ts'; }
    }
  }

  // A crash anywhere in the series, with any number of cut recoveries, comes back
  // up in one of the states between its transactions, inodes included.
  lemma ChainCrash(d: Disk, start: nat, ts: seq<seq<Write>>, snaps: seq<State>, e: Disk, cut: nat, cuts: seq<nat>)
    requires Chain(d, start, ts, snaps, e) && cut <= |AllWrites(d, start, ts)|
    ensures var k, r := Reached(d, start, ts, cut), Reboots(Apply(d, AllWrites(d, start, ts)[..cut]), start, cuts);
      && Clean(r, start) && r[..start] == snaps[k].v.view
      && var n := |snaps[k].v.inode|;
         (n == 0 || IBlock(n - 1) < start) && snaps[k].v.inode == Load(r[..start], n)
  {
    CrashBetween(d, start, ts, cut, cuts);
    var k := Reached(d, start, ts, cut);
    hide Reboots, AllWrites, HomesAfter, Reached, Ok;
    assert Quiet(snaps[k]);
    var v, n := snaps[k].v, |snaps[k].v.inode|;
    forall j | 0 <= j < n ensures IBlock(j) < |v.view| && Stored(v.view, j) == v.inode[j] {
      assert Settled(snaps[k], j);
    }
  }

  // The files once k chunks of src are in file i from off on.
  ghost function Progress(files: seq<seq<Byte>>, i: nat, off: nat, src: seq<Byte>, k: nat): seq<seq<Byte>>
    requires i < |files|
  {
    if k == 0 || off > |files[i]| then files
    else files[i := Splice(files[i], off, src[..Upto(|src|, k)])]
  }

  // file_write between two chunks: ts are done, at states snaps, the last being s.
  ghost predicate Writing(s0: State, s: State, d: Disk, start: nat, ts: seq<seq<Write>>, snaps: seq<State>, e: Disk,
                          i: nat, off: nat, src: seq<Byte>)
  {
    && Chain(d, start, ts, snaps, e) && snaps[0] == s0 && snaps[|ts|] == s && Quiet(s)
    && i < |s0.files| && i < |s.files| && SameInodes(s0, s)
    && (forall k :: 0 <= k < |snaps| ==> snaps[k].files == Progress(s0.files, i, off, src, k))
    && (|ts| > 0 ==> off <= |s0.files[i]| && off + Upto(|src|, |ts|) <= MAXFILE * BSIZE)
  }

  lemma WritingStart(s: State, d: Disk, start: nat, i: nat, off: nat, src: seq<Byte>)
    requires Chain(d, start, [], [s], d) && Quiet(s) && i < |s.files|
    ensures Writing(s, s, d, start, [], [s], d, i, off, src)
  {
    hide Chain, Quiet;
  }

  lemma WritingFiles(s0: State, s: State, t: State, i: nat, off: nat, src: seq<Byte>, c: nat)
    requires i < |s0.files| && i < |s.files| && s.files == Progress(s0.files, i, off, src, c)
    requires c > 0 ==> off <= |s0.files[i]|
    requires var at, to := Upto(|src|, c), Upto(|src|, c + 1);
      && at < |src| && at <= to <= |src| && off + at <= |s.files[i]|
      && t.files == s.files[i := Splice(s.files[i], off + at, src[at..to])]
    ensures off <= |s0.files[i]| && t.files == Progress(s0.files, i, off, src, c + 1)
  {
    var at, to := Upto(|src|, c), Upto(|src|, c + 1);
    hide Splice;
    if c == 0 {
      assert at == 0 && src[0..to] == src[..to];
    } else {
      SpliceNext(s0.files[i], off, src, at, to - at);
    }
  }

  lemma WritingMore(s0: State, s: State, t: State, d: Disk, start: nat, ts: seq<seq<Write>>, snaps: seq<State>, e: Disk,
                    i: nat, off: nat, src: seq<Byte>, tr: seq<Write>)
    requires Writing(s0, s, d, start, ts, snaps, e, i, off, src) && Upto(|src|, |ts|) < |src|
    requires var at, to := Upto(|src|, |ts|), Upto(|src|, |ts| + 1);
      && at <= to <= |src| && off + at <= |s.files[i]| && !Refused(s, i, off + at, to - at)
      && t.files == s.files[i := Splice(s.files[i], off + at, src[at..to])]
    requires Quiet(t) && SameInodes(s, t) && Admissible(e, start, tr) && t.v.view == Apply(s.v.view, tr)
    ensures Writing(s0, t, d, start, ts + [tr], snaps + [t], Apply(e, TransWrites(e, start, tr)), i, off, src)
    ensures AllWrites(d, start, ts + [tr]) == AllWrites(d, start, ts) + TransWrites(e, start, tr)
  {
    hide Quiet, Admissible, Apply, TransWrites, AllWrites, Splice;
    ChainMore(d, start, ts, snaps, e, tr, t);
    assert |snaps| == |ts| + 1;
    hide Chain;
    WritingFiles(s0, s, t, i, off, src, |ts|);
    var ts', snaps' := ts + [tr], snaps + [t];
    forall k | 0 <= k < |snaps'| ensures snaps'[k].files == Progress(s0.files, i, off, src, k) {
    }
  }

  // The chunk after c whole ones is refused.
  lemma WritingStopped(s0: State, s: State, i: nat, off: nat, src: seq<Byte>, c: nat)
    requires i < |s0.files| && i < |s.files| && s.files == Progress(s0.files, i, off, src, c)
    requires |s0.files[i]| <= MAXFILE * BSIZE && Upto(|src|, c) < |src|
    requires c > 0 ==> off <= |s0.files[i]| && off + Upto(|src|, c) <= MAXFILE * BSIZE
    requires var at, to := Upto(|src|, c), Upto(|src|, c + 1); to >= at && Refused(s, i, off + at, to - at)
    ensures Done(off, |src|, |s0.files[i]|) == Upto(|src|, c)
  {
    if off <= |s0.files[i]| {
      assert |s.files[i]| >= off + Upto(|src|, c);
      DoneAt(off, |src|, |s0.files[i]|, c);
    }
  }

  // A chunk of file_write that is squeezed: the write was not aligned, and took the
  // file from the direct blocks into the indirect one.
  lemma SqueezedChunk(s0: State, s: State, i: nat, off: nat, src: seq<Byte>, c: nat)
    requires i < |s0.files| && i < |s.files| && s.files == Progress(s0.files, i, off, src, c)
    requires c > 0 ==> off <= |s0.files[i]|
    requires var at, to := Upto(|src|, c), Upto(|src|, c + 1); at < |src| && at <= to && Squeezed(off + at, to - at, |s.files[i]|)
    ensures off % BSIZE != 0 && |s0.files[i]| <= NDIRECT * BSIZE < off + |src|
  {
    assert |s.files[i]| >= |s0.files[i]|;
    assert (off + Upto(|src|, c)) % BSIZE == off % BSIZE;
  }

  // Chunk c is not written: the condition on the state it met is one on the first state.
  lemma ChunkFails(s0: State, s: State, i: nat, off: nat, src: seq<Byte>, c: nat)
    requires Quiet(s0) && Quiet(s) && SameInodes(s0, s) && i < |s0.files| && i < |s.files|
    requires s.files == Progress(s0.files, i, off, src, c) && (c > 0 ==> off <= |s0.files[i]|)
    requires var at, to := Upto(|src|, c), Upto(|src|, c + 1); at < |src| && at <= to && off + at <= |s.files[i]|
    ensures var at, to := Upto(|src|, c), Upto(|src|, c + 1);
      && |s.files[i]| == NewSize(|s0.files[i]|, off, at)
      && NewSize(|s.files[i]|, off + at, to - at) == NewSize(|s0.files[i]|, off, to)
      && TouchedAt(off + at, to - at, |s.files[i]|) == ChunkTouched(|s0.files[i]|, off, |src|, c)
      && (forall f :: Short(s, i, f) ==> Short(s0, i, f))
  {
    hide Quiet, SameInodes, TouchedAt, Short, Splice, Upto;
    var at := Upto(|src|, c);
    assert |s.files[i]| == NewSize(|s0.files[i]|, off, at) by {
      if c > 0 { SpliceNext(s0.files[i], off, src, at, 0); }
    }
    SameSuper(s0, s);
    QuietFill(s0, s, i);
    forall f | Short(s, i, f) ensures Short(s0, i, f) {
      FullBoth(s0, s);
      ShortLater(s0, s, i, f);
    }
  }

  lemma SameSuper(s: State, t: State)
    requires SameInodes(s, t)
    ensures t.v.sb == s.v.sb
  {
  }

  lemma FullBoth(s: State, t: State)
    requires Quiet(s) && Quiet(t)
    ensures Full(s) && Full(t)
  {
  }

  lemma WritingFacts(s0: State, s: State, d: Disk, start: nat, ts: seq<seq<Write>>, snaps: seq<State>, e: Disk,
                     i: nat, off: nat, src: seq<Byte>)
    requires Writing(s0, s, d, start, ts, snaps, e, i, off, src) && Quiet(s0) && i < |s0.v.inode|
    ensures i < |s0.files| && i < |s.files| && i < |s.v.inode| && s.v.inode[i].kind == s0.v.inode[i].kind && Ok(s)
    ensures Chain(d, start, ts, snaps, e) && |snaps| == |ts| + 1 && snaps[0] == s0 && snaps[|ts|] == s && SameInodes(s0, s)
    ensures forall k :: 0 <= k < |snaps| ==> snaps[k].files == Progress(s0.files, i, off, src, k)
    ensures |ts| > 0 ==> off <= |s0.files[i]| && off + Upto(|src|, |ts|) <= MAXFILE * BSIZE
    ensures |s0.files[i]| <= MAXFILE * BSIZE
  {
    SettledFacts(s0, i) by { QuietFacts(s0, i); }
  }

  lemma WholeWritten(s0: State, i: nat, off: nat, src: seq<Byte>, c: nat)
    requires i < |s0.files| && |s0.files[i]| <= MAXFILE * BSIZE && Upto(|src|, c) == |src|
    requires c > 0 ==> off <= |s0.files[i]| && off + Upto(|src|, c) <= MAXFILE * BSIZE
    ensures Done(off, |src|, |s0.files[i]|) == |src|
  {
  }
}
