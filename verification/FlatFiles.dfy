// Files as independent byte sequences: the meaning of the system calls on inodes that
// the file system is shown to refine.
module FlatFiles {
  import opened Blocks
  import opened Volume
  import opened FileState
  import opened FreeSpace
  import opened FileSteps
  import opened FileCrash

  // AllocCall is inode_alloc, FreeCall the last inode_put of an unlinked inode. In
  // CrashCall the machine stops and the volume is mounted again.
  datatype Call = WriteCall(i: nat, off: nat, data: seq<Byte>) | ReadCall(i: nat, off: nat, n: nat)
    | AllocCall(kind: nat) | FreeCall(i: nat) | CrashCall

  datatype Reply = Reply(r: int, data: seq<Byte>)

  // Each inode's contents and type, 0 for a free one.
  datatype Flats = Flats(files: seq<seq<Byte>>, kinds: seq<nat>)

  ghost function FlatOf(s: State): Flats {
    Flats(s.files, seq(|s.v.inode|, i requires 0 <= i < |s.v.inode| => s.v.inode[i].kind))
  }

  // Arguments of the widths the kernel takes.
  ghost predicate Servable(n: nat, c: Call) {
    match c
    case WriteCall(i, off, data) => i < n && off < MAXWORD && |data| < MAXWORD
    case ReadCall(i, off, m) => i < n && off < MAXWORD && m < MAXWORD
    case AllocCall(kind) => 0 < kind < 0x1_0000
    case FreeCall(i) => i < n
    case CrashCall => true
  }

  ghost predicate FlatWrite(a: Flats, i: nat, off: nat, data: seq<Byte>, b: Flats, reply: Reply)
    requires i < |a.files|
  {
    if off > |a.files[i]| || off + |data| > MAXFILE * BSIZE then b == a && reply == Reply(-1, [])
    else b == a.(files := a.files[i := Splice(a.files[i], off, data)]) && reply == Reply(|data|, [])
  }

  ghost predicate FlatRead(a: Flats, i: nat, off: nat, n: nat, reply: Reply)
    requires i < |a.files|
  {
    var size := |a.files[i]|;
    if off > size || off + n >= MAXWORD then reply == Reply(-1, [])
    else var m := if off + n > size then size - off else n; reply == Reply(m, a.files[i][off..off + m])
  }

  // The lowest free inode but number 0 gets the type, and is empty.
  ghost predicate FlatAlloc(a: Flats, kind: nat, b: Flats, i: int) {
    && 1 <= i < |a.kinds| == |a.files| && a.kinds[i] == 0 && a.files[i] == []
    && (forall j :: 1 <= j < i ==> a.kinds[j] != 0)
    && b == a.(kinds := a.kinds[i := kind])
  }

  ghost predicate FlatFree(a: Flats, i: nat, b: Flats) {
    i < |a.files| == |a.kinds| && b == Flats(a.files[i := []], a.kinds[i := 0])
  }

  // One call on flat files: a write splices, a read returns the clipped slice, and a
  // crash changes nothing.
  ghost predicate Flat(a: Flats, c: Call, b: Flats, reply: Reply) {
    match c
    case WriteCall(i, off, data) => i < |a.files| && FlatWrite(a, i, off, data, b, reply)
    case ReadCall(i, off, n) => i < |a.files| && b == a && FlatRead(a, i, off, n, reply)
    case AllocCall(kind) => FlatAlloc(a, kind, b, reply.r) && reply.data == []
    case FreeCall(i) => FlatFree(a, i, b) && reply == Reply(0, [])
    case CrashCall => b == a && reply == Reply(0, [])
  }

  ghost predicate FlatAll(a: Flats, calls: seq<Call>, b: Flats, replies: seq<Reply>)
    decreases |calls|
  {
    && |replies| == |calls|
    && if calls == [] then b == a
       else exists mid :: Flat(a, calls[0], mid, replies[0]) && FlatAll(mid, calls[1..], b, replies[1..])
  }

  lemma {:induction false} FlatChain(states: seq<Flats>, calls: seq<Call>, replies: seq<Reply>)
    requires |states| == |calls| + 1 && |replies| == |calls|
    requires forall j :: 0 <= j < |calls| ==> Flat(states[j], calls[j], states[j + 1], replies[j])
    ensures FlatAll(states[0], calls, states[|calls|], replies)
    decreases |calls|
  {
    hide Flat;
    if calls != [] {
      forall j | 0 <= j < |calls[1..]| ensures Flat(states[1..][j], calls[1..][j], states[1..][j + 1], replies[1..][j]) {
        assert Flat(states[j + 1], calls[j + 1], states[j + 2], replies[j + 1]);
      }
      FlatChain(states[1..], calls[1..], replies[1..]);
      assert Flat(states[0], calls[0], states[1], replies[0]);
    }
  }

  // ---------- Calls that cannot fail ----------

  function Fills(files: seq<seq<Byte>>): seq<Fill> {
    seq(|files|, i requires 0 <= i < |files| => FillOf(|files[i]|))
  }

  // Blocks the volume has left when it holds these files.
  function FlatLeft(sb: Super, files: seq<seq<Byte>>): int
    requires LayoutOk(sb)
  {
    DataBlocks(sb) - Total(Fills(files))
  }

  // A call that may take more sectors than the log or the cache has: freeing a file on a
  // volume with a large bitmap, and a write beyond a chunk, or of more than two blocks
  // and not aligned.
  predicate Heavy(sb: Super, c: Call)
    requires sb.size > 0
  {
    match c
    case WriteCall(_, off, data) => |data| > CHUNK || (|data| > 2 * BSIZE && off % BSIZE != 0)
    case FreeCall(_) => BitmapBlocks(sb) + 1 >= NBUF
    case _ => false
  }

  // A file whose reads and writes the file system serves itself.
  predicate Plain(a: Flats, i: nat) {
    i < |a.kinds| == |a.files| && a.kinds[i] != 0 && a.kinds[i] != T_DEV
  }

  // The write is answered with -1, or there are blocks for it.
  predicate Affordable(sb: Super, files: seq<seq<Byte>>, i: nat, off: nat, n: nat)
    requires LayoutOk(sb) && i < |files|
  {
    var size := |files[i]|;
    || off > size || off + n > MAXFILE * BSIZE
    || Cost(FillOf(NewSize(size, off, n))) - Cost(FillOf(size)) <= FlatLeft(sb, files)
  }

  // Nothing stands in the way of the call on a volume that holds a.
  predicate SafeCall(sb: Super, a: Flats, c: Call)
    requires LayoutOk(sb)
  {
    && !Heavy(sb, c)
    && match c
       case WriteCall(i, off, data) => Plain(a, i) && Affordable(sb, a.files, i, off, |data|)
       case ReadCall(i, _, _) => Plain(a, i)
       case AllocCall(_) => exists j :: 1 <= j < |a.kinds| && a.kinds[j] == 0
       case FreeCall(i) => i < |a.kinds| && a.kinds[i] != 0
       case CrashCall => true
  }

  // Nothing stands in the way of any of the calls, each on what those before it leave.
  ghost predicate Safe(sb: Super, a: Flats, calls: seq<Call>)
    requires LayoutOk(sb)
    decreases |calls|
  {
    calls == [] ||
    (SafeCall(sb, a, calls[0]) && forall b, reply :: Flat(a, calls[0], b, reply) ==> Safe(sb, b, calls[1..]))
  }

  // The blocks left between operations are those the files leave.
  lemma QuietLeft(s: State)
    requires Quiet(s)
    ensures LayoutOk(s.v.sb) && s.fs == Fills(s.files) && BlocksLeft(s) == FlatLeft(s.v.sb, s.files)
  {
    LeftLayout(s);
    forall i | 0 <= i < |s.fs| ensures |s.files| == |s.fs| && s.fs[i] == FillOf(|s.files[i]|) {
      QuietOk(s, i);
      QuietFacts(s, i);
    }
    QuietSizes(s);
  }

  lemma QuietSizes(s: State)
    requires Quiet(s)
    ensures |s.fs| == |s.files| == |s.v.inode|
  {
  }

  // A write that runs out of blocks was not affordable.
  lemma NotAffordable(s: State, i: nat, off: nat, n: nat)
    requires Quiet(s) && i < |s.files| && LayoutOk(s.v.sb) && !Refused(s, i, off, n) && Short(s, i, FillOf(NewSize(|s.files[i]|, off, n)))
    ensures !Affordable(s.v.sb, s.files, i, off, n)
  {
    QuietLeft(s);
    hide Total, DataBlocks, FillOf, NewSize;
  }

  lemma PlainFile(s: State, i: nat)
    requires i < |s.v.inode| == |s.files|
    ensures Plain(FlatOf(s), i) <==> s.v.inode[i].kind != 0 && s.v.inode[i].kind != T_DEV
    ensures FlatOf(s).files == s.files
  {
  }

  lemma FlatKind(s: State, i: nat)
    requires i < |s.v.inode|
    ensures i < |FlatOf(s).kinds| && FlatOf(s).kinds[i] == s.v.inode[i].kind
  {
  }

  // Calls before k went well and call k did not: they behaved as flat files up to there,
  // and if all calls were safe so was call k.
  lemma {:induction false} Stopped(sb: Super, states: seq<Flats>, calls: seq<Call>, replies: seq<Reply>, k: nat)
    requires LayoutOk(sb) && k == |replies| < |calls| && |states| == k + 1
    requires forall j :: 0 <= j < k ==> Flat(states[j], calls[j], states[j + 1], replies[j])
    ensures FlatAll(states[0], calls[..k], states[k], replies)
    ensures Safe(sb, states[0], calls) ==> SafeCall(sb, states[k], calls[k])
    decreases k
  {
    hide Flat, SafeCall, LayoutOk;
    forall j | 0 <= j < k ensures Flat(states[j], calls[..k][j], states[j + 1], replies[j]) {
    }
    FlatChain(states, calls[..k], replies);
    if k > 0 && Safe(sb, states[0], calls) {
      assert Flat(states[0], calls[0], states[1], replies[0]);
      forall j | 0 <= j < k - 1 ensures Flat(states[1..][j], calls[1..][j], states[1..][j + 1], replies[1..][j]) {
        assert Flat(states[j + 1], calls[j + 1], states[j + 2], replies[j + 1]);
      }
      Stopped(sb, states[1..], calls[1..], replies[1..], k - 1);
    }
  }

  lemma NoFreeInode(s: State, sb: Super, kind: nat)
    requires LayoutOk(sb) && forall j :: 1 <= j < |s.v.inode| ==> s.v.inode[j].kind != 0
    ensures !SafeCall(sb, FlatOf(s), AllocCall(kind))
  {
  }

  lemma SameKinds(s: State, t: State)
    requires SameInodes(s, t)
    ensures FlatOf(t).kinds == FlatOf(s).kinds
  {
  }

  lemma SameCount(s: State, t: State)
    requires SameInodes(s, t)
    ensures |t.v.inode| == |s.v.inode|
  {
  }

  lemma FlatCount(s: State, t: State)
    ensures |FlatOf(s).kinds| == |s.v.inode| && |FlatOf(t).kinds| == |t.v.inode|
    ensures FlatOf(s).files == s.files && FlatOf(t).files == t.files
  {
  }

  lemma ReadFlat(s: State, i: nat, off: nat, n: nat, rep: Reply)
    requires i < |s.files|
    requires rep.r == -1 <==> off > |s.files[i]| || off + n >= MAXWORD
    requires rep.r == -1 ==> rep.data == []
    requires rep.r != -1 ==>
      rep.r == (if off + n > |s.files[i]| then |s.files[i]| - off else n) && rep.data == s.files[i][off..off + rep.r]
    ensures i < |FlatOf(s).files| && FlatRead(FlatOf(s), i, off, n, rep)
  {
  }

  lemma CallFacts(s: State, i: nat)
    requires Quiet(s) && i < |s.v.inode|
    ensures Settles(s, i) && |s.files| == |s.v.inode| && |s.files[i]| <= MAXFILE * BSIZE
  {
    QuietFacts(s, i);
    SettledFacts(s, i);
  }

  lemma WroteFlat(s: State, t: State, i: nat, off: nat, data: seq<Byte>, r: int)
    requires i < |s.files| == |s.v.inode| && |s.files[i]| <= MAXFILE * BSIZE && SameInodes(s, t)
    requires FreeEmpty(s) && s.v.inode[i].kind != 0
    requires r == -1 <==> Refused(s, i, off, |data|)
    requires r == -1 ==> t.files == s.files
    requires r != -1 ==> r == |data| && t.files == s.files[i := Splice(s.files[i], off, data)]
    ensures FlatWrite(FlatOf(s), i, off, data, FlatOf(t), Reply(r, [])) && FreeEmpty(t)
  {
    SameKinds(s, t);
    hide Splice;
  }

  lemma AllocatedFlat(s: State, t: State, i: nat, m: INode)
    requires FreeEmpty(s) && 1 <= i < |s.v.inode| && s.v.inode[i].kind == 0 && t.v.inode == s.v.inode[i := m] && t.files == s.files
    requires forall j :: 1 <= j < i ==> s.v.inode[j].kind != 0
    ensures FlatAlloc(FlatOf(s), m.kind, FlatOf(t), i)
  {
    assert FlatOf(t).kinds == FlatOf(s).kinds[i := m.kind];
  }

  lemma FreedFlat(s: State, t: State, i: nat)
    requires i < |s.files| == |s.v.inode| == |t.v.inode| && t.files == s.files[i := []] && t.v.inode[i].kind == 0
    requires forall j :: 0 <= j < |s.v.inode| && j != i ==> t.v.inode[j].kind == s.v.inode[j].kind
    ensures FlatFree(FlatOf(s), i, FlatOf(t))
  {
  }

  // Mounting a quiet volume again reads the inodes it had.
  lemma Reloads(s: State)
    requires Quiet(s)
    ensures |s.v.inode| == 0 || IBlock(|s.v.inode| - 1) < |s.v.view|
    ensures Load(s.v.view, |s.v.inode|) == s.v.inode
  {
    var n := |s.v.inode|;
    forall j | 0 <= j < n ensures IBlock(j) < |s.v.view| && Stored(s.v.view, j) == s.v.inode[j] {
      DiskInode(s, j);
    }
    hide Quiet, Stored, IBlock;
    if n > 0 { assert IBlock(n - 1) < |s.v.view|; }
  }
}
