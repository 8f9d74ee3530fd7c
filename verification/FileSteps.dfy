// What the operations of block.c and inode.c do to a file state and to the log
// header, as predicates, with the lemmas that chain them.
module FileSteps {
  import opened Blocks
  import opened Bitmap
  import opened RedoLog
  import opened LogDevice
  import opened Volume
  import opened VolumeOps
  import opened FileState
  import opened Truncation
  import opened Accounting
  import opened FreeSpace
  import CacheRuns

  // ---------- The log behind the operations ----------

  // Kernel panics, and Device for an inode whose reads and writes a driver serves.
  datatype Status = Fine | OutOfBlocks | TooBig | OutsideTrans | FreeingFree | OutOfRange | NoInodes | NoBuffers
    | NoType | NoInode | Device

  // The disk as the current transaction has staged it, over the disk it began with.
  ghost predicate Staging(base: Disk, ops: seq<Write>, disk: Disk, lh: seq<nat>, start: nat) {
    && Clean(base, start) && |disk| == |base| && start < |base|
    && (forall i :: 0 <= i < |ops| ==> ops[i].sector < start)
    && lh == AbsorbAll([], ops)
    && disk == Apply(base, LogWrites(start, [], ops))
  }

  // What the buffers show: the disk before the transaction, with its writes in place.
  ghost predicate Mirrors(view: Disk, base: Disk, ops: seq<Write>, start: nat) {
    start <= |base| && view == Apply(base[..start], ops)
  }

  lemma MoreStaged(base: Disk, ops: seq<Write>, disk: Disk, lh: seq<nat>, start: nat, w: Write)
    requires Staging(base, ops, disk, lh, start) && w.sector < start
    ensures Staging(base, ops + [w], Apply(disk, LogWrites(start, lh, [w])), Absorb(lh, w.sector), start)
    ensures LogWrites(start, [], ops + [w]) == LogWrites(start, [], ops) + LogWrites(start, lh, [w])
  {
    OneMore(start, [], ops, w);
    ApplyConcat(base, LogWrites(start, [], ops), LogWrites(start, lh, [w]));
  }

  lemma MoreMirrored(view: Disk, base: Disk, ops: seq<Write>, start: nat, w: Write)
    requires Mirrors(view, base, ops, start) && w.sector < start
    ensures Mirrors(view[w.sector := w.data], base, ops + [w], start)
  {
    ApplyConcat(base[..start], ops, [w]);
    assert [w][1..] == [];
  }

  lemma ViewSize(view: Disk, base: Disk, ops: seq<Write>, start: nat)
    requires Mirrors(view, base, ops, start)
    ensures |view| == start
  {
  }

  lemma NoLogWrites(start: nat)
    ensures LogWrites(start, [], []) == []
  {
  }

  lemma Joined(a: seq<Write>, b: seq<Write>, c: seq<Write>)
    ensures a + b + c == a + (b + c)
  {
  }

  lemma StartsStaged(d: Disk, start: nat)
    requires Clean(d, start) && start < |d|
    ensures Staging(d, [], d, [], start) && Mirrors(d[..start], d, [], start)
  {
  }

  // Between transactions nothing is staged.
  lemma IdleLog(base: Disk, ops: seq<Write>, disk: Disk, lh: seq<nat>, view: Disk, start: nat)
    requires Staging(base, ops, disk, lh, start) && Mirrors(view, base, ops, start) && ops == []
    ensures start < |disk| && Clean(disk, start) && Recoverable(disk, start) && Outcome(disk, start) == disk[..start] == view && lh == []
  {
    CleanOutcome(disk, start);
  }

  // commit_trans on a staged transaction.
  lemma Committed(base: Disk, ops: seq<Write>, disk: Disk, lh: seq<nat>, view: Disk, start: nat)
    requires Staging(base, ops, disk, lh, start) && Mirrors(view, base, ops, start)
    requires start <= MAXWORD && Fits(lh) && InLog(disk, start, lh)
    ensures var tw := LogWrites(start, [], ops) + CommitWrites(disk, start, lh);
      && Admissible(base, start, ops) && tw == TransWrites(base, start, ops)
      && Apply(base, tw) == Apply(disk, CommitWrites(disk, start, lh))
      && Staging(Apply(base, tw), [], Apply(base, tw), [], start) && Mirrors(view, Apply(base, tw), [], start)
  {
    assert Admissible(base, start, ops);
    EventAtomic(base, start, Finished(ops));
    ApplyConcat(base, LogWrites(start, [], ops), CommitWrites(disk, start, lh));
    hide Clean, Admissible, CommitWrites;
    var e := Apply(base, TransWrites(base, start, ops));
    assert LogWrites(start, [], []) == [];
  }

  lemma NoOps(d: Disk, start: nat)
    requires start <= |d|
    ensures TransWrites(d, start, []) == [] && Apply(d, []) == d && Apply(d[..start], []) == d[..start]
  {
  }

  // k more sectors can be logged, and a block logged again after them.
  ghost predicate Room(lh: seq<nat>, nlog: nat, k: nat) {
    |lh| + k < LOGSIZE && |lh| + k < nlog - 1
  }

  // The header grew from lh to m by at most k sectors.
  ghost predicate Grew(lh: seq<nat>, m: seq<nat>, k: nat) {
    && |m| <= |lh| + k
    && forall x :: x in lh ==> x in m
  }

  // ---------- The buffers behind the log ----------

  const NBUF := CacheRuns.NBUF

  ghost predicate Buffered(lh: seq<nat>, k: nat) { |lh| + k < NBUF }

  function Elems(lh: seq<nat>): set<nat> { set x | x in lh }

  // How many of the sectors held are not logged yet.
  function Extra(lh: seq<nat>, held: set<nat>): nat { |held - Elems(lh)| }

  // The buffers pinned when sector is logged: those logged before stay dirty, and
  // those held stay busy.
  function Pins(lh: seq<nat>, held: set<nat>, sector: nat): nat { |Elems(lh) + held + {sector}| }

  // How logging a sector ends. Its own buffer is got before log_write's checks and
  // that of its log block after them, and either can be one too many.
  function PutStatus(lh: seq<nat>, nlog: nat, busy: bool, held: set<nat>, sector: nat): Status {
    if Pins(lh, held, sector) > NBUF then NoBuffers
    else if !HasRoom(lh, nlog) then TooBig
    else if !busy then OutsideTrans
    else if Pins(lh, held, sector) == NBUF then NoBuffers
    else Fine
  }

  lemma {:induction false} ElemsBound(lh: seq<nat>)
    ensures |Elems(lh)| <= |lh| && (Distinct(lh) ==> |Elems(lh)| == |lh|)
  {
    if lh != [] {
      var t, x := lh[..|lh| - 1], lh[|lh| - 1];
      ElemsBound(t);
      assert lh == t + [x];
      assert Elems(lh) == Elems(t) + {x};
    }
  }

  lemma PinsBound(lh: seq<nat>, held: set<nat>, sector: nat)
    ensures Pins(lh, held, sector) <= |lh| + Extra(lh, held) + if sector in lh then 0 else 1
  {
    ElemsBound(lh);
    var a, b := Elems(lh), held - Elems(lh);
    assert a + held + {sector} == a + b + {sector};
    assert sector in lh ==> a + b + {sector} == a + b;
  }

  lemma PutCases(lh: seq<nat>, nlog: nat, busy: bool, held: set<nat>, sector: nat)
    ensures var st := PutStatus(lh, nlog, busy, held, sector);
      && st in {Fine, TooBig, OutsideTrans, NoBuffers}
      && (st == TooBig ==> !Room(lh, nlog, 0)) && (st == OutsideTrans ==> !busy)
      && (st == NoBuffers ==> !Buffered(lh, Extra(lh, held) + if sector in lh then 0 else 1))
      && (st == Fine ==> HasRoom(lh, nlog) && busy && Pins(lh, held, sector) < NBUF)
  {
    PinsBound(lh, held, sector);
    hide Pins, Extra;
  }

  // A transaction never pins every buffer, so commit_trans finds one for the header.
  lemma PinsLeaveOne(lh: seq<nat>, held: set<nat>, sector: nat)
    requires Distinct(lh) && Pins(lh, held, sector) < NBUF
    ensures |Absorb(lh, sector)| < NBUF
  {
    AbsorbSlot(lh, sector);
    var m := Absorb(lh, sector);
    AbsorbDistinct(lh, m, sector, Slot(lh, sector));
    ElemsBound(m);
    SubsetSize(Elems(m), Elems(lh) + held + {sector});
  }

  lemma {:induction false} SubsetSize(a: set<nat>, b: set<nat>)
    requires a <= b
    ensures |a| <= |b|
  {
    assert b == a + (b - a);
  }

  lemma HeldCost(lh: seq<nat>, a: nat)
    ensures Extra(lh, {}) == 0 && Extra(lh, {a}) == if a in lh then 0 else 1
  {
    assert {a} - Elems(lh) == if a in lh then {} else {a};
  }

  lemma ExtraShrinks(lh: seq<nat>, m: seq<nat>, held: set<nat>)
    requires forall x :: x in lh ==> x in m
    ensures Extra(m, held) <= Extra(lh, held)
  {
    SubsetSize(held - Elems(m), held - Elems(lh));
  }

  lemma StagedPins(base: Disk, ops: seq<Write>, disk: Disk, lh: seq<nat>, start: nat, held: set<nat>, sector: nat)
    requires Staging(base, ops, disk, lh, start) && Pins(lh, held, sector) < NBUF
    ensures |Absorb(lh, sector)| < NBUF
  {
    AbsorbAllFacts([], ops, start);
    PinsLeaveOne(lh, held, sector);
  }

  lemma NoSpare(lh: seq<nat>, m: seq<nat>, a: nat, b: nat, c: nat)
    requires Grew(lh, m, a) && !Buffered(m, b) && a + b <= c
    ensures !Buffered(lh, c)
  {
  }

  lemma AbsorbFacts(lh: seq<nat>, x: nat)
    ensures var m := Absorb(lh, x);
      && x in m && |lh| <= |m| <= |lh| + 1 && (x in lh ==> m == lh)
      && forall y :: y in lh ==> y in m
  {
    var i := Slot(lh, x);
    if i == |lh| {
      assert lh[..i] == lh;
      assert (lh + [x])[|lh|] == x;
    } else {
      assert lh[i] == x;
    }
  }

  lemma AbsorbTwice(lh: seq<nat>, x: nat, y: nat)
    ensures Grew(lh, Absorb(Absorb(lh, x), y), 2) && y in Absorb(Absorb(lh, x), y)
  {
    AbsorbFacts(lh, x);
    AbsorbFacts(Absorb(lh, x), y);
  }

  lemma NoRoom(lh: seq<nat>, m: seq<nat>, nlog: nat, a: nat, b: nat, c: nat)
    requires Grew(lh, m, a) && !Room(m, nlog, b) && a + b <= c
    ensures !Room(lh, nlog, c)
  {
  }

  lemma GrewTrans(lh: seq<nat>, m: seq<nat>, k: seq<nat>, a: nat, b: nat, c: nat)
    requires Grew(lh, m, a) && Grew(m, k, b) && a + b <= c
    ensures Grew(lh, k, c)
  {
  }

  // ---------- States between operations ----------

  const T_DEV := 3

  ghost predicate HoleFree(f: Fill) { f.ind <==> f.nb > NDIRECT }

  ghost predicate Settles(s: State, i: nat) {
    i < |s.v.inode| && i < |s.files| && i < |s.fs| && IBlock(i) < |s.v.view| && Settled(s, i)
  }

  // No operation is under way: every block is accounted for and every inode settled.
  ghost predicate Quiet(s: State) {
    && Full(s)
    && forall i :: 0 <= i < |s.v.inode| ==> IBlock(i) < |s.v.view| && Settled(s, i)
  }

  // Nothing in any inode changed but sizes and addresses.
  ghost predicate SameInodes(s: State, t: State) {
    && t.v.sb == s.v.sb && |t.v.inode| == |s.v.inode|
    && forall j :: 0 <= j < |s.v.inode| ==>
      t.v.inode[j] == s.v.inode[j].(size := t.v.inode[j].size, addrs := t.v.inode[j].addrs)
  }

  // A free inode has no contents.
  ghost predicate FreeEmpty(s: State) {
    |s.files| == |s.v.inode| && forall i :: 0 <= i < |s.files| && s.v.inode[i].kind == 0 ==> s.files[i] == []
  }

  // The inodes as inode_lock reads them.
  function Load(view: Disk, n: nat): (r: seq<INode>)
    requires n == 0 || IBlock(n - 1) < |view|
    ensures |r| == n && forall i :: 0 <= i < n ==> IBlock(i) < |view| && r[i] == Stored(view, i)
  {
    if n == 0 then [] else Load(view, n - 1) + [Stored(view, n - 1)]
  }

  lemma OkSizes(s: State)
    requires Ok(s)
    ensures SizesOk(s.v)
  {
  }

  lemma SettledFacts(s: State, i: nat)
    requires Ok(s) && Settles(s, i)
    ensures i < |s.files| == |s.v.inode| == |s.fs|
    ensures |s.files[i]| == s.v.inode[i].size <= MAXFILE * BSIZE && HoleFree(s.fs[i]) && s.fs[i] == FillOf(|s.files[i]|)
  {
    assert Shows(s.v, s.fs[i], i, s.files[i]);
  }

  lemma QuietFacts(s: State, i: nat)
    requires Quiet(s) && i < |s.v.inode|
    ensures Full(s) && Settles(s, i) && |s.files| == |s.v.inode| == |s.fs| && |s.files[i]| == s.v.inode[i].size
    ensures forall off: nat :: off <= |s.files[i]| ==> off / BSIZE <= s.fs[i].nb
  {
  }

  lemma QuietOk(s: State, i: nat)
    requires Quiet(s) && i < |s.v.inode|
    ensures Ok(s) && s.fs[i] == FillOf(|s.files[i]|)
  {
    assert Settled(s, i);
  }

  lemma QuietIsOk(s: State)
    requires Quiet(s)
    ensures Ok(s) && SameInodes(s, s)
  {
  }

  lemma SameInodesSelf(s: State)
    ensures SameInodes(s, s)
  {
  }

  lemma DiskInode(s: State, i: nat)
    requires Quiet(s) && i < |s.v.inode|
    ensures IBlock(i) < |s.v.view| && Stored(s.v.view, i) == s.v.inode[i]
  {
    assert Settled(s, i);
  }

  lemma SlotState(s: State, i: nat, slot: nat)
    requires Ok(s) && i < |s.v.inode| && slot < NSLOTS
    ensures |s.fs| == |s.v.inode| && |s.v.inode[i].addrs| == NDIRECT + 1 && FillOk(s.fs[i])
    ensures Ref(s.v, i, slot) != 0 <==> Used(s.fs[i], slot)
    ensures Ref(s.v, i, slot) != 0 ==> Ref(s.v, i, slot) < Start(s.v.sb) == |s.v.view|
  {
    SlotFacts(s.v, s.own, s.fs, i, slot);
  }

  // No holes: block k of a file is allocated exactly when k * BSIZE < size, and the
  // indirect block exactly when the file outgrows the direct ones.
  lemma NoHoles(s: State, i: nat, k: nat)
    requires Quiet(s) && i < |s.v.inode| && k < MAXFILE
    ensures |s.v.inode[i].addrs| == NDIRECT + 1 && Stored(s.v.view, i) == s.v.inode[i]
    ensures Ref(s.v, i, SlotOf(k)) != 0 <==> k * BSIZE < s.v.inode[i].size
    ensures Ref(s.v, i, NDIRECT) != 0 <==> NDIRECT * BSIZE < s.v.inode[i].size
  {
    hide Ok, Stored;
    QuietFacts(s, i);
    assert Settled(s, i);
    SlotState(s, i, SlotOf(k));
    SlotState(s, i, NDIRECT);
  }

  lemma FrameTrans(s: State, t: State, u: State, i: nat)
    requires i < |s.v.inode| && Frame(s, t, i) && Frame(t, u, i)
    ensures Frame(s, u, i)
  {
  }

  lemma FrameSize(s: State, t: State, i: nat)
    requires i < |s.v.inode| && Frame(s, t, i)
    ensures i < |t.v.inode| && t.v.inode[i].size == s.v.inode[i].size
  {
  }

  // A step on file i that changes no file's bytes.
  ghost predicate Step(s: State, t: State, i: nat)
  {
    i < |s.v.inode| == |t.v.inode| && |t.fs| == |s.fs| && Ok(t) && Frame(s, t, i) && t.files == s.files && (Full(s) ==> Full(t))
  }

  lemma StepNone(s: State, i: nat)
    requires Ok(s) && i < |s.v.inode|
    ensures Step(s, s, i)
  {
  }

  lemma StepTrans(s: State, t: State, u: State, i: nat)
    requires Step(s, t, i) && Step(t, u, i)
    ensures Step(s, u, i)
  {
    FrameTrans(s, t, u, i);
  }

  // Every file but i is still settled.
  lemma OthersSettled(s: State, t: State, i: nat, j: nat)
    requires Quiet(s) && Ok(t) && i < |s.v.inode| && Frame(s, t, i) && j < |s.v.inode| && j != i
    requires |t.files| == |s.files| && t.files[j] == s.files[j]
    ensures IBlock(j) < |t.v.view| && Settled(t, j)
  {
    InodeRange(s.v.sb, j);
    assert Settled(s, j);
  }

  // ---------- block_alloc and bmap ----------

  // The first n blocks are marked in use.
  ghost predicate InUse(v: Vol, n: nat) {
    forall x: nat :: x < n ==> BBlock(v.sb, x) < |v.view| && BitSet(v, x)
  }

  lemma NoneScanned(v: Vol)
    ensures InUse(v, 0)
  {
  }

  lemma SameBitmapBlock(sb: Super, b: nat, bi: nat)
    requires b % BPB == 0 && bi < BPB
    ensures BBlock(sb, b + bi) == BBlock(sb, b) && (b + bi) % BPB == bi
  {
  }

  // One step of the scan of a bitmap block.
  lemma ScanStep(v: Vol, b: nat, bi: nat)
    requires SizesOk(v) && b % BPB == 0 && bi < BPB && b + bi < v.sb.size
    ensures BBlock(v.sb, b + bi) == BBlock(v.sb, b) < |v.view|
    ensures BitSet(v, b + bi) <==> BitAt(v.view[BBlock(v.sb, b)], bi)
    ensures InUse(v, b + bi) && BitSet(v, b + bi) ==> InUse(v, b + bi + 1)
  {
    SameBitmapBlock(v.sb, b, bi);
    BitmapRange(v.sb, b);
  }

  lemma FreeForAlloc(s: State, b: nat)
    requires Ok(s) && b < s.v.sb.size && BBlock(s.v.sb, b) < |s.v.view| && !BitSet(s.v, b)
    ensures |s.v.view| == Start(s.v.sb) && BBlock(s.v.sb, b) < b < Start(s.v.sb)
    ensures !InUse(s.v, s.v.sb.size)
  {
    FreeBlock(s.v, s.own, s.fs, b);
    BitmapRange(s.v.sb, b);
  }

  lemma AllocFacts(s: State, t: State, i: nat, slot: nat, b: nat)
    requires Ok(s) && Ok(t) && i < |s.v.inode| && |t.v.inode| == |s.v.inode|
    requires DataStart(t.v.sb) <= b
    ensures b != 0 && |t.v.inode[i].addrs| == NDIRECT + 1 && |t.fs| == |t.v.inode|
  {
  }

  lemma EntryFacts(s: State, i: nat, b: nat)
    requires Ok(s) && i < |s.v.inode| && s.v.sb.nlog <= s.v.sb.size && (b == 0 || b < Start(s.v.sb))
    ensures b < MAXWORD && |s.v.inode[i].addrs| == NDIRECT + 1 && |s.v.view| == Start(s.v.sb)
    ensures |s.fs| == |s.v.inode| == |s.files|
  {
  }

  // Allocating a free block and entering it in the indirect block is one step.
  lemma EntryStep(s: State, i: nat, k: nat, b: nat)
    requires Ok(s) && i < |s.v.inode| && k < NINDIRECT && i < |s.fs| && NextSlot(s.fs[i], NDIRECT + 1 + k)
    requires b < s.v.sb.size && BBlock(s.v.sb, b) < |s.v.view| && !BitSet(s.v, b) && b < |s.v.view|
    ensures var t := Allocated(s, b);
      && t.v.inode == s.v.inode && |t.fs| == |t.v.inode| && |t.v.inode[i].addrs| == NDIRECT + 1
      && t.v.inode[i].addrs[NDIRECT] < |t.v.view| == Start(t.v.sb) && b < MAXWORD
      && var u := LinkedEntry(t, i, k, b);
         Step(s, u, i) && Ref(u.v, i, NDIRECT + 1 + k) == b
  {
    hide BitSet, Ok, Full, BBlock, Frame, NextSlot, Filled, Accounted, FlipIn, PutWord, Ref;
    var t := Allocated(s, b);
    AllocatedOk(s, b, i);
    LinkedEntryOk(t, i, k, b);
    EntryFacts(t, i, b);
    if Full(s) {
      AllocatedHalf(s, b);
      LinkedEntryFull(t, i, k, b);
    }
    FrameTrans(s, t, LinkedEntry(t, i, k, b), i);
  }

  // Allocating a free block and linking it to the inode is one step.
  lemma LinkStep(s: State, i: nat, slot: nat, b: nat)
    requires Ok(s) && i < |s.v.inode| && slot <= NDIRECT && i < |s.fs| && NextSlot(s.fs[i], slot)
    requires b < s.v.sb.size && BBlock(s.v.sb, b) < |s.v.view| && !BitSet(s.v, b) && b < |s.v.view|
    ensures var t := Allocated(s, b);
      && |t.fs| == |t.v.inode| == |s.v.inode| && |t.v.inode[i].addrs| == NDIRECT + 1
      && var u := Linked(t, i, slot, b);
         Step(s, u, i) && Ref(u.v, i, slot) == b != 0
  {
    hide BitSet, Ok, Full, BBlock, Frame, NextSlot, Filled, Accounted, FlipIn, PutWord, Ref;
    var t := Allocated(s, b);
    AllocatedOk(s, b, i);
    AllocFacts(s, t, i, slot, b);
    LinkedOk(t, i, slot, b);
    if Full(s) {
      AllocatedHalf(s, b);
      LinkedFull(t, i, slot, b);
    }
    FrameTrans(s, t, Linked(t, i, slot, b), i);
  }

  // The indirect block of file i is already logged.
  ghost predicate IndirectIn(s: State, lh: seq<nat>, i: nat) {
    i < |s.v.inode| && |s.v.inode[i].addrs| == NDIRECT + 1 && s.v.inode[i].addrs[NDIRECT] in lh
  }

  ghost function EntryCost(s: State, lh: seq<nat>, i: nat): nat {
    if IndirectIn(s, lh, i) then 2 else 3
  }

  // What an entry of the indirect block at a costs, first with m and then with a logged.
  lemma EntryCosts(s: State, lh: seq<nat>, i: nat, a: nat, nlog: nat)
    requires i < |s.v.inode| && |s.v.inode[i].addrs| == NDIRECT + 1 && a == s.v.inode[i].addrs[NDIRECT]
    ensures EntryCost(s, lh, i) == Extra(lh, {a}) + 2 && Extra(lh, {}) == 0
    ensures !Room(lh, nlog, 2) ==> !Room(lh, nlog, EntryCost(s, lh, i))
  {
    HeldCost(lh, a);
    hide Extra;
  }

  lemma EntryLogged(s: State, lh: seq<nat>, m: seq<nat>, i: nat, a: nat, nlog: nat)
    requires i < |s.v.inode| && |s.v.inode[i].addrs| == NDIRECT + 1 && a == s.v.inode[i].addrs[NDIRECT] && Grew(lh, m, 2)
    ensures !Room(m, nlog, 0) ==> !Room(lh, nlog, EntryCost(s, lh, i))
    ensures !Buffered(m, Extra(m, {}) + if a in m then 0 else 1) ==> !Buffered(lh, EntryCost(s, lh, i))
    ensures Grew(lh, Absorb(m, a), EntryCost(s, lh, i)) && a in Absorb(m, a) && forall b :: b in m ==> b in Absorb(m, a)
  {
    AbsorbFacts(m, a);
    HeldCost(m, a);
    hide Extra, Absorb;
  }

  // How many sectors reaching block bn may add to the header.
  ghost function MapCost(s: State, lh: seq<nat>, i: nat, bn: nat): nat
    requires i < |s.fs|
  {
    if bn < s.fs[i].nb then 0 else if bn < NDIRECT then 2 else if bn == NDIRECT then 4 else EntryCost(s, lh, i)
  }

  // bmap found or made block bn of file i, at addr.
  ghost predicate Mapped(s: State, lh: seq<nat>, t: State, m: seq<nat>, i: nat, bn: nat, addr: nat)
    requires i < |s.v.inode| && i < |s.fs|
  {
    && bn < MAXFILE && Step(s, t, i) && |t.v.inode[i].addrs| == NDIRECT + 1 && addr == Ref(t.v, i, SlotOf(bn))
    && t.fs[i].nb == (if bn < s.fs[i].nb then s.fs[i].nb else bn + 1) && HoleFree(t.fs[i])
    && Grew(lh, m, MapCost(s, lh, i, bn))
    && (bn == s.fs[i].nb ==> addr in m && (bn >= NDIRECT ==> IndirectIn(t, m, i)))
  }

  // ---------- Running out of blocks ----------

  // Too few blocks are free for file i to grow to fill f.
  ghost predicate Short(s: State, i: nat, f: Fill) {
    Full(s) ==> LayoutOk(s.v.sb) && i < |s.fs| && BlocksLeft(s) < Cost(f) - Cost(s.fs[i])
  }

  // The fill of a file that gets block bn, the next one if it has not got it.
  function Grown(f: Fill, bn: nat): Fill {
    if bn < f.nb then f else Fill(bn + 1, bn >= NDIRECT)
  }

  function NewSize(size: nat, off: nat, n: nat): nat { if off + n > size then off + n else size }

  lemma ShortNow(s: State, i: nat, f: Fill)
    requires InUse(s.v, s.v.sb.size) && i < |s.fs| && Cost(s.fs[i]) < Cost(f)
    ensures Short(s, i, f)
  {
    if Full(s) {
      LeftCounts(s);
      assert FreeSet(s.v) == {};
    }
  }

  // From s to t only the fill of file i may have changed.
  ghost predicate OnlyFill(s: State, t: State, i: nat) {
    t.v.sb == s.v.sb && i < |s.fs| == |t.fs| && forall j :: 0 <= j < |s.fs| && j != i ==> t.fs[j] == s.fs[j]
  }

  lemma FrameFill(s: State, t: State, i: nat)
    requires i < |s.v.inode| && i < |s.fs| && Frame(s, t, i)
    ensures OnlyFill(s, t, i)
  {
  }

  // Between operations the sizes of the files say how far they are filled.
  lemma QuietFill(s: State, t: State, i: nat)
    requires Quiet(s) && Quiet(t) && t.v.sb == s.v.sb && |t.files| == |s.files| && i < |s.files|
    requires forall j :: 0 <= j < |s.files| && j != i ==> t.files[j] == s.files[j]
    ensures OnlyFill(s, t, i)
  {
    forall j | 0 <= j < |s.files| ensures j < |s.fs| && s.fs[j] == FillOf(|s.files[j]|) && j < |t.fs| && t.fs[j] == FillOf(|t.files[j]|) {
      QuietOk(s, j);
      QuietOk(t, j);
    }
  }

  lemma ShortLater(s: State, t: State, i: nat, f: Fill)
    requires OnlyFill(s, t, i) && (Full(s) ==> Full(t)) && Short(t, i, f)
    ensures Short(s, i, f)
  {
    hide Full;
    assert t.fs == s.fs[i := t.fs[i]];
    TotalUpdate(s.fs, i, t.fs[i]);
    if Full(s) { LeftLayout(s); }
  }

  lemma LeftLayout(s: State)
    requires Full(s)
    ensures LayoutOk(s.v.sb)
  {
  }

  // A file that did grow had the blocks for it.
  lemma EnoughLeft(s: State, t: State, i: nat)
    requires Quiet(s) && Quiet(t) && t.v.sb == s.v.sb && |t.files| == |s.files| && i < |s.files|
    requires forall j :: 0 <= j < |s.files| && j != i ==> t.files[j] == s.files[j]
    ensures !Short(s, i, FillOf(|t.files[i]|))
  {
    QuietFill(s, t, i);
    QuietOk(s, i);
    QuietOk(t, i);
    LeftCounts(s);
    LeftCounts(t);
    hide Full, FreeSet, FillOf, Quiet;
    assert t.fs == s.fs[i := t.fs[i]];
    TotalUpdate(s.fs, i, t.fs[i]);
  }

  lemma ShortMore(s: State, i: nat, f: Fill, g: Fill)
    requires Short(s, i, f) && Cost(f) <= Cost(g)
    ensures Short(s, i, g)
  {
  }

  lemma FilledCost(f: Fill, slot: nat)
    requires slot < NSLOTS && NextSlot(f, slot)
    ensures Cost(Filled(f, slot)) == Cost(f) + 1
  {
  }

  // A block's slot, and the indirect block's if it is the first behind it, make up what
  // the file grows by.
  lemma GrownCost(f: Fill, bn: nat)
    requires HoleFree(f) && bn <= f.nb
    ensures Cost(Grown(f, bn)) == Cost(f) + if bn < f.nb then 0 else if bn == NDIRECT then 2 else 1
  {
  }

  lemma ShortIndirect(s: State, i: nat, bn: nat)
    requires InUse(s.v, s.v.sb.size) && i < |s.fs| && HoleFree(s.fs[i]) && bn == s.fs[i].nb
    ensures Short(s, i, Grown(s.fs[i], bn))
  {
    GrownCost(s.fs[i], bn);
    ShortNow(s, i, Grown(s.fs[i], bn));
  }

  // No block is left for an entry of the indirect block, itself perhaps just allocated.
  lemma ShortEntry(s: State, t: State, i: nat, bn: nat)
    requires i < |s.v.inode| && i < |s.fs| && Step(s, t, i) && i < |t.fs| && InUse(t.v, t.v.sb.size)
    requires HoleFree(s.fs[i]) && bn == s.fs[i].nb >= NDIRECT && t.fs[i].nb == bn
    requires t.fs[i].ind
    ensures Short(s, i, Grown(s.fs[i], bn))
  {
    hide Ok, Full, Frame, InUse;
    ShortNow(t, i, Grown(s.fs[i], bn));
    hide Short;
    FrameFill(s, t, i);
    ShortLater(s, t, i, Grown(s.fs[i], bn));
  }

  lemma GrownWithin(size: nat, off: nat, tot: nat, n: nat)
    requires off <= size && tot < n
    ensures Cost(Grown(FillOf(NewSize(size, off, tot)), (off + tot) / BSIZE)) <= Cost(FillOf(NewSize(size, off, n)))
  {
    var o, m, z := off + tot, NewSize(size, off, tot), NewSize(size, off, n);
    assert FillOf(m).nb <= FillOf(z).nb && o / BSIZE + 1 <= FillOf(z).nb;
  }

  // inode_write's loop runs out of blocks: there were too few from the start.
  lemma ShortLoop(s: State, lh: seq<nat>, t: State, m: seq<nat>, i: nat, off: nat, src: seq<Byte>, tot: nat)
    requires Midway(s, lh, t, m, i, off, src, tot) && tot < |src| && i < |t.fs|
    requires Short(t, i, Grown(t.fs[i], (off + tot) / BSIZE))
    ensures i < |s.files| && Short(s, i, FillOf(NewSize(|s.files[i]|, off, |src|)))
  {
    hide Ok, Full, Frame, FillOf, Splice, Touched, Grew, LoggedSoFar, Short, Grown;
    SpliceNext(s.files[i], off, src, tot, 0);
    GrownWithin(|s.files[i]|, off, tot, |src|);
    FrameFill(s, t, i);
    ShortLater(s, t, i, Grown(t.fs[i], (off + tot) / BSIZE));
    ShortMore(s, i, Grown(t.fs[i], (off + tot) / BSIZE), FillOf(NewSize(|s.files[i]|, off, |src|)));
  }

  // ---------- inode_read and inode_write ----------

  lemma ReadMore(c: seq<Byte>, off: nat, tot: nat, m: nat)
    requires off + tot + m <= |c|
    ensures c[off..off + tot] + c[off + tot..off + tot + m] == c[off..off + tot + m]
  {
  }

  // inode_write returns -1.
  ghost predicate Refused(s: State, i: nat, off: nat, n: nat)
    requires i < |s.files|
  {
    off > |s.files[i]| || off + n >= MAXWORD || off + n > MAXFILE * BSIZE
  }

  // Writing at o reaches at most the block after the last.
  lemma BlockReached(n: nat, o: nat)
    requires o <= n
    ensures o / BSIZE <= FillOf(n).nb && (o < n ==> o / BSIZE < FillOf(n).nb) && (o / BSIZE == FillOf(n).nb ==> o % BSIZE == 0)
    ensures HoleFree(FillOf(n))
  {
  }

  lemma FillGrows(n: nat, o: nat, m: nat)
    requires o <= n && 0 < m <= BSIZE - o % BSIZE
    ensures FillOf(if o + m > n then o + m else n).nb == if o / BSIZE < FillOf(n).nb then FillOf(n).nb else o / BSIZE + 1
  {
  }

  // s with piece written at offset o of file i.
  ghost function PatchedAt(s: State, i: nat, o: nat, piece: seq<Byte>): State
    requires Ok(s) && i < |s.v.inode| && o / BSIZE < s.fs[i].nb && o <= |s.files[i]| && |piece| <= BSIZE - o % BSIZE
  {
    PatchedOk(s, i, o / BSIZE, o % BSIZE, piece);
    Patched(s, i, o / BSIZE, o % BSIZE, piece)
  }

  lemma ThePatch(s: State, t: State, i: nat, o: nat, piece: seq<Byte>, addr: nat)
    requires Ok(s) && i < |s.v.inode| && o / BSIZE < s.fs[i].nb && o <= |s.files[i]| && |piece| <= BSIZE - o % BSIZE
    requires addr < |s.v.view| && SlotOf(o / BSIZE) < NSLOTS && |s.v.inode[i].addrs| == NDIRECT + 1
    requires addr == Ref(s.v, i, SlotOf(o / BSIZE)) && |s.files| == |s.v.inode|
    requires t == State(s.v.(view := s.v.view[addr := Patch(s.v.view[addr], o % BSIZE, piece)]), s.own, s.fs,
                        s.files[i := Splice(s.files[i], o, piece)])
    ensures t == PatchedAt(s, i, o, piece)
  {
    hide Ok, Ref, Patch, Splice;
  }

  lemma PatchStep(s: State, t: State, i: nat, o: nat, piece: seq<Byte>)
    requires Ok(s) && Step(s, t, i) && i < |s.fs| && i < |t.fs| && i < |s.files| && o <= |s.files[i]|
    requires s.fs[i] == FillOf(|s.files[i]|) && 0 < |piece| <= BSIZE - o % BSIZE && HoleFree(t.fs[i])
    requires t.fs[i].nb == if o / BSIZE < s.fs[i].nb then s.fs[i].nb else o / BSIZE + 1
    ensures SlotOf(o / BSIZE) < NSLOTS && |t.v.inode[i].addrs| == NDIRECT + 1 && |t.files| == |t.v.inode|
    ensures Ref(t.v, i, SlotOf(o / BSIZE)) < Start(t.v.sb) == |t.v.view|
    ensures var u := PatchedAt(t, i, o, piece);
      Ok(u) && Frame(s, u, i) && u.fs[i] == FillOf(|u.files[i]|) && (Full(s) ==> Full(u))
  {
    hide Ok, Ref, Frame, FillOf, Splice, Full;
    OkSizes(t);
    EntryFacts(t, i, 0);
    PatchedOk(t, i, o / BSIZE, o % BSIZE, piece);
    var u := PatchedAt(t, i, o, piece);
    if Full(s) {
      PatchedFull(t, i, o / BSIZE, o % BSIZE, piece);
    }
    FrameTrans(s, t, u, i);
    BlockReached(|s.files[i]|, o);
    BlockReached(|u.files[i]|, o);
    FillGrows(|s.files[i]|, o, |piece|);
  }

  // How many sectors writing to block bn may add to the header.
  ghost function WriteCost(s: State, lh: seq<nat>, i: nat, bn: nat): nat
    requires i < |s.fs|
  {
    if bn < s.fs[i].nb then 1 else MapCost(s, lh, i, bn)
  }

  // What one turn of inode_write's loop does.
  ghost predicate Wrote(s: State, lh: seq<nat>, t: State, m: seq<nat>, i: nat, o: nat, piece: seq<Byte>)
    requires i < |s.v.inode| && i < |s.fs| && i < |s.files| && o <= |s.files[i]|
  {
    && Ok(t) && |t.v.inode| == |s.v.inode| && |t.fs| == |s.fs| && Frame(s, t, i) && (Full(s) ==> Full(t))
    && t.files == s.files[i := Splice(s.files[i], o, piece)]
    && t.fs[i] == FillOf(|t.files[i]|)
    && (o < |s.files[i]| ==> t.v.inode == s.v.inode)
    && Grew(lh, m, WriteCost(s, lh, i, o / BSIZE))
    && (NDIRECT <= o / BSIZE && s.fs[i].nb <= o / BSIZE ==> IndirectIn(t, m, i))
  }

  // Blocks from off / BSIZE up to the end of the first n bytes, counting the last.
  function EndBlock(off: nat, n: nat): nat {
    if n == 0 then off / BSIZE else (off + n - 1) / BSIZE + 1
  }

  // How many sectors writing n bytes at off of a file of nb blocks may log, the
  // inode aside: each block, a bitmap block for each new one, and the indirect
  // block with its own bitmap block when it is new.
  function Touched(off: nat, n: nat, nb: nat): nat
    requires off / BSIZE <= nb
  {
    var lo, hi := off / BSIZE, EndBlock(off, n);
    (if hi > lo then hi - lo else 0) + (if hi > nb then hi - nb else 0)
    + (if hi > nb && hi > NDIRECT then if nb <= NDIRECT then 2 else 1 else 0)
  }

  lemma Ends(off: nat, tot: nat, m: nat, n: nat)
    requires (off + tot) % BSIZE == 0 || tot == 0
    requires 0 < m <= BSIZE - (off + tot) % BSIZE && tot + m <= n
    ensures EndBlock(off, tot) == (off + tot) / BSIZE
    ensures EndBlock(off, tot + m) == (off + tot) / BSIZE + 1 <= EndBlock(off, n)
  {
  }

  // Once a new block past the direct ones is written, the indirect block is logged.
  ghost predicate LoggedSoFar(s: State, lh: seq<nat>, i: nat, off: nat, tot: nat, nb: nat) {
    EndBlock(off, tot) > nb && EndBlock(off, tot) > NDIRECT ==> IndirectIn(s, lh, i)
  }

  // The first tot bytes of src are in place.
  ghost predicate Midway(s: State, lh: seq<nat>, t: State, m: seq<nat>, i: nat, off: nat, src: seq<Byte>, tot: nat)
  {
    && i < |s.v.inode| == |s.fs| == |s.files| && off <= |s.files[i]| && off / BSIZE <= s.fs[i].nb
    && tot <= |src| && s.fs[i] == FillOf(|s.files[i]|)
    && Ok(t) && |t.v.inode| == |s.v.inode| && |t.fs| == |s.fs| && Frame(s, t, i) && (Full(s) ==> Full(t))
    && t.files == s.files[i := Splice(s.files[i], off, src[..tot])]
    && t.fs[i] == FillOf(|t.files[i]|)
    && (off + tot <= |s.files[i]| ==> t.v.inode == s.v.inode)
    && Grew(lh, m, Touched(off, tot, s.fs[i].nb))
    && LoggedSoFar(t, m, i, off, tot, s.fs[i].nb)
    && (tot < |src| ==> (off + tot) % BSIZE == 0 || tot == 0)
  }

  lemma SpliceNext(c: seq<Byte>, off: nat, src: seq<Byte>, tot: nat, m: nat)
    requires off <= |c| && tot + m <= |src|
    ensures |Splice(c, off, src[..tot])| == if off + tot > |c| then off + tot else |c|
    ensures Splice(Splice(c, off, src[..tot]), off + tot, src[tot..tot + m]) == Splice(c, off, src[..tot + m])
  {
    SpliceMore(c, off, src[..tot], src[tot..tot + m]);
    assert src[..tot] + src[tot..tot + m] == src[..tot + m];
  }

  lemma CostStep(s: State, lh: seq<nat>, i: nat, off: nat, tot: nat, m: nat, size: nat, n: nat)
    requires i < |s.fs| && i < |s.files| && off <= size && |s.files[i]| == (if off + tot > size then off + tot else size)
    requires s.fs[i] == FillOf(|s.files[i]|) && LoggedSoFar(s, lh, i, off, tot, FillOf(size).nb)
    requires (off + tot) % BSIZE == 0 || tot == 0
    requires 0 < m <= BSIZE - (off + tot) % BSIZE && tot + m <= n && off + n <= MAXFILE * BSIZE
    ensures off / BSIZE <= FillOf(size).nb && (off + tot) / BSIZE < MAXFILE
    ensures s.fs[i].nb == if (off + tot) / BSIZE > FillOf(size).nb then (off + tot) / BSIZE else FillOf(size).nb
    ensures Touched(off, tot, FillOf(size).nb) + WriteCost(s, lh, i, (off + tot) / BSIZE)
         <= Touched(off, tot + m, FillOf(size).nb) <= Touched(off, n, FillOf(size).nb)
  {
    var bn, nb := (off + tot) / BSIZE, FillOf(size).nb;
    assert EndBlock(off, tot) == bn && EndBlock(off, tot + m) == bn + 1 <= EndBlock(off, n) by { Ends(off, tot, m, n); }
    assert s.fs[i].nb == if bn > nb then bn else nb;
    hide EndBlock, FillOf;
  }

  lemma LoopStart(s: State, lh: seq<nat>, i: nat, off: nat, src: seq<Byte>)
    requires Ok(s) && Settles(s, i) && off <= |s.files[i]|
    ensures Midway(s, lh, s, lh, i, off, src, 0)
  {
    SettledFacts(s, i);
    hide Ok, Settles;
    assert src[..0] == [];
    assert s.files[i][..off] + [] + s.files[i][off..] == s.files[i];
  }

  lemma LoopStep(s: State, lh: seq<nat>, t: State, m: seq<nat>, i: nat, off: nat, src: seq<Byte>, tot: nat, k: nat)
    requires Midway(s, lh, t, m, i, off, src, tot) && off + |src| <= MAXFILE * BSIZE
    requires 0 < k <= BSIZE - (off + tot) % BSIZE && tot + k <= |src|
    ensures Ok(t) && i < |t.v.inode| && i < |t.files| && i < |t.fs| && t.fs[i] == FillOf(|t.files[i]|)
    ensures off + tot <= |t.files[i]| && (off + tot) / BSIZE < MAXFILE && off / BSIZE <= s.fs[i].nb
    ensures Touched(off, tot, s.fs[i].nb) + WriteCost(t, m, i, (off + tot) / BSIZE)
         <= Touched(off, tot + k, s.fs[i].nb) <= Touched(off, |src|, s.fs[i].nb)
    ensures Grew(lh, m, Touched(off, tot, s.fs[i].nb))
  {
    hide Ok, Frame, FillOf, Splice, Touched, Grew, LoggedSoFar, WriteCost;
    SpliceNext(s.files[i], off, src, tot, k);
    CostStep(t, m, i, off, tot, k, |s.files[i]|, |src|);
  }

  lemma LoopEnd(s: State, t: State, lh: seq<nat>, i: nat, off: nat, tot: nat, m: nat, nb: nat)
    requires (off + tot) % BSIZE == 0 || tot == 0
    requires 0 < m <= BSIZE - (off + tot) % BSIZE && i < |s.fs| && i < |s.files|
    requires s.fs[i].nb == (if (off + tot) / BSIZE > nb then (off + tot) / BSIZE else nb)
    requires NDIRECT <= (off + tot) / BSIZE && s.fs[i].nb <= (off + tot) / BSIZE ==> IndirectIn(t, lh, i)
    ensures LoggedSoFar(t, lh, i, off, tot + m, nb)
  {
    Ends(off, tot, m, tot + m);
  }

  lemma LoopNext(s: State, lh: seq<nat>, t: State, m: seq<nat>, u: State, w: seq<nat>,
                 i: nat, off: nat, src: seq<Byte>, tot: nat, k: nat)
    requires Midway(s, lh, t, m, i, off, src, tot) && off + |src| <= MAXFILE * BSIZE && tot < |src|
    requires k == if |src| - tot < BSIZE - (off + tot) % BSIZE then |src| - tot else BSIZE - (off + tot) % BSIZE
    requires i < |t.v.inode| && i < |t.fs| && i < |t.files| && off + tot <= |t.files[i]|
    requires Wrote(t, m, u, w, i, off + tot, src[tot..tot + k])
    ensures Midway(s, lh, u, w, i, off, src, tot + k)
  {
    hide Ok, Frame, FillOf, Splice, Touched, Grew, LoggedSoFar, WriteCost, IndirectIn;
    SpliceNext(s.files[i], off, src, tot, k);
    CostStep(t, m, i, off, tot, k, |s.files[i]|, |src|);
    LoopEnd(t, u, w, i, off, tot, k, s.fs[i].nb);
    FrameTrans(s, t, u, i);
    GrewTrans(lh, m, w, Touched(off, tot, s.fs[i].nb), WriteCost(t, m, i, (off + tot) / BSIZE), Touched(off, tot + k, s.fs[i].nb));
  }

  lemma LoopDone(s: State, lh: seq<nat>, t: State, m: seq<nat>, i: nat, off: nat, src: seq<Byte>)
    requires Midway(s, lh, t, m, i, off, src, |src|)
    ensures i < |s.files| && i < |t.files| && i < |t.fs| && i < |s.v.inode| && off <= |s.files[i]| && i < |s.fs| && off / BSIZE <= s.fs[i].nb
    ensures Ok(t) && Frame(s, t, i) && t.files == s.files[i := Splice(s.files[i], off, src)] && t.fs[i] == FillOf(|t.files[i]|)
    ensures Full(s) ==> Full(t)
    ensures off + |src| <= |s.files[i]| ==> t.v.inode == s.v.inode
    ensures Grew(lh, m, Touched(off, |src|, s.fs[i].nb))
  {
    hide Ok, Frame, FillOf, Splice, Touched, Grew, LoggedSoFar;
    assert src[..|src|] == src;
  }

  lemma StaysQuiet(s: State, t: State, i: nat, off: nat, src: seq<Byte>)
    requires Quiet(s) && Full(t) && i < |s.v.inode| && Frame(s, t, i) && off <= |s.files[i]|
    requires t.files == s.files[i := Splice(s.files[i], off, src)] && t.fs[i] == FillOf(|t.files[i]|)
    requires |src| == 0 || off + |src| <= |s.files[i]|
    requires off + |src| <= |s.files[i]| ==> t.v.inode == s.v.inode
    ensures Quiet(t) && SameInodes(s, t)
  {
    assert Settled(s, i);
    InodeRange(s.v.sb, i);
    forall j | 0 <= j < |t.v.inode| ensures IBlock(j) < |t.v.view| && Settled(t, j) {
      hide Ok;
      if j != i { OthersSettled(s, t, i, j); }
    }
  }

  lemma Resizes(s: State, t: State, i: nat, off: nat, src: seq<Byte>)
    requires Quiet(s) && Full(t) && i < |s.v.inode| && Frame(s, t, i) && off <= |s.files[i]| < off + |src| <= MAXFILE * BSIZE
    requires t.files == s.files[i := Splice(s.files[i], off, src)] && t.fs[i] == FillOf(|t.files[i]|)
    ensures IBlock(i) < |t.v.view| && |t.v.inode| == |s.v.inode|
    ensures var u := Resized(t, i, off + |src|);
      && Ok(u) && INodeOk(u.v.inode[i]) && Quiet(Updated(u, i)) && SameInodes(s, Updated(u, i))
  {
    hide Ok, Store, Stored, INodeOk, FillOf, Splice, Exact, Covered;
    QuietFacts(s, i);
    OkSizes(t);
    EntryFacts(t, i, 0);
    var u := Resized(t, i, off + |src|);
    ResizedOk(t, i, off + |src|);
    LabelledFull(t, i, t.v.inode[i].(size := off + |src|));
    OkSizes(u);
    UpdatedOk(u, i);
    UpdatedFull(u, i);
    forall j | 0 <= j < |u.v.inode| ensures IBlock(j) < |u.v.view| && Settled(Updated(u, i), j) {
      if j != i { OthersSettled(s, t, i, j); }
    }
  }

  // ---------- inode_trunc, inode_put and inode_alloc ----------

  function BitmapBlocks(sb: Super): nat
    requires sb.size > 0
  {
    (sb.size - 1) / BPB + 1
  }

  // Everything logged beyond lh is a bitmap block, lh being what a truncation began with.
  ghost predicate BitsOnly(lh: seq<nat>, m: seq<nat>, sb: Super)
    requires sb.size > 0
  {
    forall x :: x in m ==> x in lh || x in Range(BBlock(sb, 0), DataStart(sb))
  }

  lemma BitsNone(lh: seq<nat>, sb: Super)
    requires sb.size > 0
    ensures BitsOnly(lh, lh, sb)
  {
  }

  lemma BitsMore(lh: seq<nat>, m: seq<nat>, sb: Super, b: nat)
    requires LayoutOk(sb) && BitsOnly(lh, m, sb) && b < sb.size
    ensures BitsOnly(lh, Absorb(m, BBlock(sb, b)), sb)
  {
    BitmapRange(sb, b);
    AbsorbSlot(m, BBlock(sb, b));
  }

  lemma BitsCount(lh: seq<nat>, m: seq<nat>, sb: Super)
    requires LayoutOk(sb) && BitsOnly(lh, m, sb) && Distinct(m)
    ensures |m| <= |lh| + BitmapBlocks(sb)
    ensures forall held: set<nat>, b: nat :: b < sb.size ==> Pins(m, held, BBlock(sb, b)) <= |lh| + BitmapBlocks(sb) + |held|
  {
    var bits := Range(BBlock(sb, 0), DataStart(sb));
    assert BBlock(sb, 0) <= DataStart(sb) && DataStart(sb) - BBlock(sb, 0) == BitmapBlocks(sb);
    ElemsBound(lh);
    ElemsBound(m);
    hide Range, BBlock, Distinct;
    SubsetSize(Elems(m), Elems(lh) + bits);
    forall held: set<nat>, b: nat | b < sb.size ensures Pins(m, held, BBlock(sb, b)) <= |lh| + BitmapBlocks(sb) + |held| {
      BitmapRange(sb, b);
      BitsFirst(sb, b);
      SubsetSize(Elems(m) + held + {BBlock(sb, b)}, Elems(lh) + bits + held);
    }
  }

  lemma BitsFirst(sb: Super, b: nat)
    ensures BBlock(sb, 0) <= BBlock(sb, b)
  {
  }

  // A block cannot be freed: the bitmap has more blocks than the log or the cache has
  // room for.
  lemma BitsFail(lh: seq<nat>, m: seq<nat>, sb: Super, busy: bool, held: set<nat>, b: nat)
    requires LayoutOk(sb) && BitsOnly(lh, m, sb) && Distinct(m) && b < sb.size && |held| <= 1
    ensures var st := PutStatus(m, sb.nlog, busy, held, BBlock(sb, b));
      && (st == TooBig ==> !Room(lh, sb.nlog, BitmapBlocks(sb)))
      && (st == NoBuffers ==> !Buffered(lh, BitmapBlocks(sb) + 1))
  {
    BitsCount(lh, m, sb);
    hide BitsOnly, Pins, BBlock;
  }

  // Nor can the inode be stored.
  lemma BitsInode(lh: seq<nat>, m: seq<nat>, sb: Super)
    requires LayoutOk(sb) && BitsOnly(lh, m, sb) && Distinct(m)
    ensures |m| <= |lh| + BitmapBlocks(sb)
    ensures !Room(m, sb.nlog, 0) ==> !Room(lh, sb.nlog, BitmapBlocks(sb))
    ensures !Buffered(m, 1) ==> !Buffered(lh, BitmapBlocks(sb) + 1)
  {
    BitsCount(lh, m, sb);
  }

  lemma StagedOnce(base: Disk, ops: seq<Write>, disk: Disk, lh: seq<nat>, start: nat)
    requires Staging(base, ops, disk, lh, start)
    ensures Distinct(lh)
  {
    AbsorbAllFacts([], ops, start);
  }

  lemma DirectSlot(v: Vol, i: nat, n: nat)
    requires i < |v.inode| && |v.inode[i].addrs| == NDIRECT + 1 && n <= NDIRECT
    ensures Ref(v, i, n) == v.inode[i].addrs[n]
  {
  }

  lemma TrimFull(s: State, v: Vol, i: nat, gone: set<nat>)
    requires Trimming(s, v, i, NSLOTS, gone) && Full(s)
    ensures i < |s.fs| && i < |s.files| && Full(Emptied(s, v, i, gone))
  {
    EmptiedOk(s, v, i, gone);
    hide Ok;
    EmptiedFull(s, v, i, gone);
  }

  // Truncation leaves inode blocks and other inodes alone.
  lemma TrimSame(s: State, v: Vol, i: nat, gone: set<nat>)
    requires Trimming(s, v, i, NSLOTS, gone)
    ensures |v.inode| == |s.v.inode| && |v.view| == |s.v.view| && v.sb == s.v.sb && |s.v.inode[i].addrs| == NDIRECT + 1
    ensures forall j :: 0 <= j < |s.v.inode| && j != i ==> v.inode[j] == s.v.inode[j]
    ensures v.inode[i] == s.v.inode[i].(addrs := v.inode[i].addrs)
    ensures forall j :: 0 <= j < |s.v.inode| ==> IBlock(j) < |s.v.view| && Stored(v.view, j) == Stored(s.v.view, j)
  {
    forall j | 0 <= j < |s.v.inode| ensures IBlock(j) < |s.v.view| && Stored(v.view, j) == Stored(s.v.view, j) {
      InodeRange(s.v.sb, j);
    }
  }

  lemma UpdateBits(v: Vol, w: Vol, u: State, i: nat)
    requires Ok(u) && i < |u.v.inode| && IBlock(i) < |u.v.view| && u.v.sb == w.sb == v.sb && u.v.view == w.view
    requires i < |v.inode| && |v.inode[i].addrs| == NDIRECT + 1 && GaveBack(v, w, i)
    ensures GaveBack(v, Updated(u, i).v, i)
  {
    InodeRange(v.sb, i);
    var t := Updated(u, i).v;
    forall x: nat | x < v.sb.size ensures BBlock(v.sb, x) < |v.view| && (BitSet(t, x) <==> BitSet(w, x)) {
    }
  }

  lemma TrimFinish(s: State, v: Vol, i: nat, gone: set<nat>)
    requires Trimming(s, v, i, NSLOTS, gone) && Quiet(s)
    ensures i < |s.fs| && i < |s.files| && |s.v.inode| == |v.inode| && i < |v.inode| && IBlock(i) < |v.view|
    ensures |s.v.inode[i].addrs| == NDIRECT + 1
    ensures var u := Resized(Emptied(s, v, i, gone), i, 0);
      && Ok(u) && INodeOk(u.v.inode[i])
      && Quiet(Updated(u, i)) && SameInodes(s, Updated(u, i)) && GaveBack(s.v, Updated(u, i).v, i)
  {
    hide Ok, Trimming, GaveBack, Store, Stored, INodeOk, Exact, Covered;
    TrimDone(s, v, i, gone);
    TrimFull(s, v, i, gone);
    TrimSame(s, v, i, gone);
    QuietFacts(s, i);
    var t, u := Emptied(s, v, i, gone), Resized(Emptied(s, v, i, gone), i, 0);
    ResizedOk(t, i, 0);
    LabelledFull(t, i, t.v.inode[i].(size := 0));
    OkSizes(u);
    UpdatedOk(u, i);
    UpdatedFull(u, i);
    UpdateBits(s.v, v, u, i);
    forall j | 0 <= j < |u.v.inode| ensures IBlock(j) < |u.v.view| && Settled(Updated(u, i), j) {
      assert IBlock(j) < |s.v.view| && Settled(s, j);
    }
  }

  // Rewriting the labels of inode i, in memory and on disk, disturbs nothing.
  lemma Relabel(s: State, i: nat, m: INode)
    requires Quiet(s) && i < |s.v.inode| && INodeOk(m) && m.addrs == s.v.inode[i].addrs && m.size == s.v.inode[i].size
    ensures IBlock(i) < |s.v.view| && Ok(Labelled(s, i, m)) && Quiet(Updated(Labelled(s, i, m), i))
  {
    hide Ok, INodeOk, Store, Stored, Exact, Covered;
    QuietFacts(s, i);
    QuietOk(s, i);
    LabelledOk(s, i, m);
    LabelledFull(s, i, m);
    var u := Labelled(s, i, m);
    UpdatedOk(u, i);
    UpdatedFull(u, i);
    forall j | 0 <= j < |u.v.inode| ensures IBlock(j) < |u.v.view| && Settled(Updated(u, i), j) {
      assert IBlock(j) < |s.v.view| && Settled(s, j);
    }
  }

  lemma Unlabelled(s: State, i: nat)
    requires Quiet(s) && i < |s.v.inode|
    ensures INodeOk(s.v.inode[i].(kind := 0))
  {
  }

  const NO_ADDRS: seq<nat> := [0, 0, 0, 0, 0, 0, 0, 0, 0, 0, 0, 0, 0]

  lemma EmptyAddrs(s: State, i: nat)
    requires Quiet(s) && i < |s.v.inode| && s.files[i] == []
    ensures s.v.inode[i].addrs == NO_ADDRS && s.v.inode[i].size == 0
  {
    assert Settled(s, i);
    forall k: nat | k <= NDIRECT ensures |s.v.inode[i].addrs| == NDIRECT + 1 && s.v.inode[i].addrs[k] == 0 {
      SlotFacts(s.v, s.own, s.fs, i, k);
    }
  }
}
