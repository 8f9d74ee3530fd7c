// block.c, inode.c and file.c as they run: buffers, in-memory inodes and the log
// updated in place. Kernel panics come back as a status.
module FileSystem {
  import opened Blocks
  import opened Bitmap
  import opened RedoLog
  import opened LogDevice
  import opened Volume
  import opened VolumeOps
  import opened FileState
  import opened Truncation
  import opened Accounting
  import opened FreeSpace
  import opened FileSteps
  import opened FileCrash
  import opened FlatFiles

  class FileSys {
    const sb: Super
    const log: Log
    var view: Disk                 // blocks as the buffer cache holds them
    var inode: seq<INode>          // in-memory inodes
    ghost var own: map<nat, Owner>
    ghost var fs: seq<Fill>
    ghost var files: seq<seq<Byte>>
    ghost var base: Disk           // the disk when the transaction began
    ghost var ops: seq<Write>      // what it has logged
    ghost var mark: seq<Write>     // the sector writes before it

    ghost function S(): State
      reads this
    {
      State(Vol(sb, view, inode), own, fs, files)
    }

    ghost predicate LogOk()
      reads `view, `base, `ops, `mark, log
    {
      && log.Valid() && LayoutOk(sb)
      && log.start == Start(sb) && log.size == sb.nlog
      && Staging(base, ops, log.disk, log.lh, log.start)
      && Mirrors(view, base, ops, log.start)
      && log.trace == mark + LogWrites(log.start, [], ops)
      && (!log.busy ==> ops == []) && |log.lh| < NBUF
    }

    ghost predicate Valid()
      reads this, log
    {
      Ok(S()) && LogOk()
    }

    // Mount: log_init recovers the disk, then inodes are read from it.
    constructor (sb: Super, disk: Disk, ghost own: map<nat, Owner>, ghost fs: seq<Fill>, ghost files: seq<seq<Byte>>)
      requires LayoutOk(sb) && |disk| == sb.size && Recoverable(disk, Start(sb))
      requires sb.ninodes == 0 || IBlock(sb.ninodes - 1) < Start(sb)
      requires var view := Outcome(disk, Start(sb));
        |view| == Start(sb) && Quiet(State(Vol(sb, view, Load(view, sb.ninodes)), own, fs, files))
      ensures Valid() && Quiet(S()) && !log.busy && fresh(log) && this.sb == sb
      ensures view == Outcome(disk, Start(sb)) && S() == State(Vol(sb, view, Load(view, sb.ninodes)), own, fs, files)
    {
      hide Ok, Full, Quiet, Load, IBlock, Outcome, Recoverable, RecoverWrites, Apply, Clean, Staging, Mirrors;
      this.sb := sb;
      var l := new Log(disk, sb.nlog);
      log := l;
      view := l.disk[..l.start];
      inode := Load(l.disk[..l.start], sb.ninodes);
      this.own := own;
      this.fs := fs;
      this.files := files;
      base := l.disk;
      ops := [];
      mark := l.trace;
      new;
      NoLogWrites(log.start);
      StartsStaged(log.disk, log.start);
      assert S() == State(Vol(sb, view, Load(view, sb.ninodes)), own, fs, files);
      QuietIsOk(S());
    }

    // Get a buffer, modify it, log_write it, release it; held are the sectors whose
    // buffers the caller keeps meanwhile.
    method Put(sector: nat, data: Block, held: set<nat>) returns (st: Status)
      requires LogOk() && sector < Start(sb)
      modifies this`view, this`ops, log
      ensures LogOk()
      ensures st == PutStatus(old(log.lh), sb.nlog, old(log.busy), held, sector)
      ensures log.busy == old(log.busy)
      ensures st.Fine? ==> view == old(view)[sector := data] && log.lh == Absorb(old(log.lh), sector)
      ensures !st.Fine? ==> view == old(view) && log.lh == old(log.lh)
      ensures st in {Fine, TooBig, OutsideTrans, NoBuffers}
      ensures st == TooBig ==> !Room(old(log.lh), sb.nlog, 0)
      ensures st == OutsideTrans ==> !old(log.busy)
      ensures st == NoBuffers ==> !Buffered(old(log.lh), Extra(old(log.lh), held) + if sector in old(log.lh) then 0 else 1)
    {
      hide Staging, Mirrors, Absorb, LogWrites, LayoutOk, Pins, Extra, PutStatus, Room, HasRoom, Buffered, Apply;
      PutCases(log.lh, log.size, log.busy, held, sector);
      st := PutStatus(log.lh, log.size, log.busy, held, sector);
      if !st.Fine? {
        return;
      }
      var w := Write(sector, data);
      StagedPins(base, ops, log.disk, log.lh, log.start, held, sector);
      MoreStaged(base, ops, log.disk, log.lh, log.start, w);
      MoreMirrored(view, base, ops, log.start, w);
      ViewSize(view, base, ops, log.start);
      var ok := log.LogWrite(w);
      view := view[sector := data];
      ops := ops + [w];
    }

    // block_alloc's scan of the bitmap.
    method FindFree() returns (found: bool, b: nat)
      requires SizesOk(S().v)
      ensures found ==> b < sb.size && BBlock(sb, b) < |view| && !BitSet(S().v, b)
      ensures InUse(S().v, if found then b else sb.size)
    {
      hide BitSet, BitAt, InUse, SizesOk, BBlock;
      ghost var v := S().v;
      b := 0;
      NoneScanned(v);
      while b < sb.size
        invariant b % BPB == 0 && v == S().v && InUse(v, if b < sb.size then b else sb.size)
      {
        ScanStep(v, b, 0);
        var bp := view[BBlock(sb, b)];
        var bi := 0;
        while bi < BPB && b + bi < sb.size
          invariant 0 <= bi <= BPB && b + bi <= sb.size && InUse(v, b + bi)
        {
          ScanStep(v, b, bi);
          if !BitAt(bp, bi) {
            return true, b + bi;
          }
          bi := bi + 1;
        }
        b := b + BPB;
      }
      return false, 0;
    }

    // The lowest free block, zeroed and marked in use.
    method BlockAlloc(held: set<nat>) returns (st: Status, b: nat)
      requires Valid()
      modifies this`view, this`ops, log
      ensures LogOk() && log.busy == old(log.busy)
      ensures st == OutOfBlocks <==> InUse(old(S().v), sb.size)
      ensures st.Fine? ==> b < sb.size && BBlock(sb, b) < |old(view)| && !BitSet(old(S().v), b) && b < |old(view)|
      ensures st.Fine? ==> InUse(old(S().v), b)
      ensures st.Fine? ==> S() == Allocated(old(S()), b)
      ensures st.Fine? ==> log.lh == Absorb(Absorb(old(log.lh), BBlock(sb, b)), b)
      ensures st in {Fine, OutOfBlocks, TooBig, OutsideTrans, NoBuffers}
      ensures st == TooBig ==> !Room(old(log.lh), sb.nlog, 2)
      ensures st == NoBuffers ==> !Buffered(old(log.lh), Extra(old(log.lh), held) + 2)
      ensures st == OutsideTrans ==> !old(log.busy)
    {
      hide BitSet, VolOk, Ok, SizesOk, Absorb, InUse, LogOk, FlipIn, BBlock, PutStatus, Extra;
      OkSizes(S());
      var found;
      found, b := FindFree();
      if !found {
        return OutOfBlocks, 0;
      }
      FreeForAlloc(S(), b);
      var bb := BBlock(sb, b);
      AbsorbFacts(log.lh, bb);
      ExtraShrinks(log.lh, Absorb(log.lh, bb), held);
      st := Put(bb, FlipIn(view[bb], b % BPB), held);
      if st.Fine? {
        st := Put(b, ZERO, held);
      }
    }

    // addrs[slot] = block_alloc()
    method AllocInto(i: nat, slot: nat) returns (st: Status, b: nat)
      requires Valid() && i < |inode| && slot <= NDIRECT && NextSlot(fs[i], slot)
      modifies this`view, this`ops, this`inode, this`own, this`fs, log
      ensures LogOk() && log.busy == old(log.busy)
      ensures st in {Fine, OutOfBlocks, TooBig, OutsideTrans, NoBuffers}
      ensures st == TooBig ==> !Room(old(log.lh), sb.nlog, 2)
      ensures st == NoBuffers ==> !Buffered(old(log.lh), 2)
      ensures st == OutsideTrans ==> !old(log.busy)
      ensures st == OutOfBlocks <==> InUse(old(S().v), sb.size)
      ensures st.Fine? ==> Step(old(S()), S(), i) && fs[i] == Filled(old(fs[i]), slot) && Ref(S().v, i, slot) == b != 0
      ensures st.Fine? ==> Grew(old(log.lh), log.lh, 2) && b in log.lh
    {
      hide BitSet, Ok, Full, LogOk, Absorb, BBlock, InUse, Allocated, Frame, NextSlot, Filled, Extra, Step, Ref, Grew;
      ghost var s0 := S();
      SlotState(s0, i, NDIRECT);
      HeldCost(log.lh, 0);
      st, b := BlockAlloc({});
      if st.Fine? {
        ghost var s1 := S();
        LinkStep(s0, i, slot, b);
        AbsorbTwice(old(log.lh), BBlock(sb, b), b);
        inode := inode[i := inode[i].(addrs := inode[i].addrs[slot := b])];
        own := own[b := Owner(i, slot)];
        fs := fs[i := Filled(fs[i], slot)];
        assert S() == Linked(s1, i, slot, b);
      }
    }

    // a[k] = block_alloc() in the indirect block, which is then logged
    method AllocEntry(i: nat, k: nat) returns (st: Status, b: nat)
      requires Valid() && i < |inode| && k < NINDIRECT && NextSlot(fs[i], NDIRECT + 1 + k)
      modifies this`view, this`ops, this`inode, this`own, this`fs, log
      ensures LogOk() && log.busy == old(log.busy) && inode == old(inode)
      ensures st in {Fine, OutOfBlocks, TooBig, OutsideTrans, NoBuffers}
      ensures st == TooBig ==> !Room(old(log.lh), sb.nlog, EntryCost(old(S()), old(log.lh), i))
      ensures st == NoBuffers ==> !Buffered(old(log.lh), EntryCost(old(S()), old(log.lh), i))
      ensures st == OutsideTrans ==> !old(log.busy)
      ensures st == OutOfBlocks <==> InUse(old(S().v), sb.size)
      ensures st.Fine? ==> Step(old(S()), S(), i) && fs[i] == Filled(old(fs[i]), NDIRECT + 1 + k)
      ensures st.Fine? ==> Ref(S().v, i, NDIRECT + 1 + k) == b
      ensures st.Fine? ==> Grew(old(log.lh), log.lh, EntryCost(old(S()), old(log.lh), i))
      ensures st.Fine? ==> b in log.lh && IndirectIn(S(), log.lh, i)
    {
      hide BitSet, Ok, Full, LogOk, Absorb, BBlock, InUse, Allocated, PutWord, NextSlot, Filled, PutStatus, Extra, Step, Ref, Grew,
        Room, Buffered, EntryCost;
      ghost var s0 := S();
      SlotState(s0, i, NDIRECT);
      var a := inode[i].addrs[NDIRECT];
      EntryCosts(s0, log.lh, i, a, sb.nlog);
      st, b := BlockAlloc({a});
      if st.Fine? {
        ghost var s1 := S();
        EntryStep(s0, i, k, b);
        AbsorbTwice(old(log.lh), BBlock(sb, b), b);
        EntryLogged(s0, old(log.lh), log.lh, i, a, sb.nlog);
        st := Put(a, PutWord(view[a], k, b), {});
        if st.Fine? {
          own := own[b := Owner(i, NDIRECT + 1 + k)];
          fs := fs[i := Filled(fs[i], NDIRECT + 1 + k)];
          assert S() == LinkedEntry(s1, i, k, b);
        }
      }
    }

    // bmap for a direct block.
    method BMapDirect(i: nat, bn: nat) returns (st: Status, addr: nat)
      requires Valid() && i < |inode| && bn <= fs[i].nb && HoleFree(fs[i]) && bn < NDIRECT
      modifies this`view, this`ops, this`inode, this`own, this`fs, log
      ensures LogOk() && log.busy == old(log.busy)
      ensures bn < old(fs[i].nb) ==> st.Fine? && S() == old(S()) && ops == old(ops) && unchanged(log)
      ensures st in {Fine, OutOfBlocks, TooBig, OutsideTrans, NoBuffers}
      ensures st == TooBig ==> !Room(old(log.lh), sb.nlog, MapCost(old(S()), old(log.lh), i, bn))
      ensures st == NoBuffers ==> !Buffered(old(log.lh), MapCost(old(S()), old(log.lh), i, bn))
      ensures st == OutsideTrans ==> !old(log.busy)
      ensures st == OutOfBlocks ==> Short(old(S()), i, Grown(old(fs[i]), bn))
      ensures st.Fine? ==> Mapped(old(S()), old(log.lh), S(), log.lh, i, bn, addr)
    {
      hide Ok, Full, LogOk, Frame, Room, Buffered, Short, InUse, Cost, Grown;
      SlotState(S(), i, bn);
      StepNone(S(), i);
      st, addr := Fine, inode[i].addrs[bn];
      if addr == 0 {
        GrownCost(fs[i], bn);
        if InUse(S().v, sb.size) {
          ShortNow(S(), i, Grown(fs[i], bn));
        }
        st, addr := AllocInto(i, bn);
        if st.Fine? {
          SlotState(S(), i, bn);
        }
      }
    }

    // bmap for a block past the direct ones.
    method BMapIndirect(i: nat, bn: nat) returns (st: Status, addr: nat)
      requires Valid() && i < |inode| && bn <= fs[i].nb && HoleFree(fs[i]) && NDIRECT <= bn < MAXFILE
      modifies this`view, this`ops, this`inode, this`own, this`fs, log
      ensures LogOk() && log.busy == old(log.busy)
      ensures bn < old(fs[i].nb) ==> st.Fine? && S() == old(S()) && ops == old(ops) && unchanged(log)
      ensures st in {Fine, OutOfBlocks, TooBig, OutsideTrans, NoBuffers}
      ensures st == TooBig ==> !Room(old(log.lh), sb.nlog, MapCost(old(S()), old(log.lh), i, bn))
      ensures st == NoBuffers ==> !Buffered(old(log.lh), MapCost(old(S()), old(log.lh), i, bn))
      ensures st == OutsideTrans ==> !old(log.busy)
      ensures st == OutOfBlocks ==> Short(old(S()), i, Grown(old(fs[i]), bn))
      ensures st.Fine? ==> Mapped(old(S()), old(log.lh), S(), log.lh, i, bn, addr)
    {
      hide Ok, Full, LogOk, Frame, Short, InUse, Cost, Grown;
      var k := bn - NDIRECT;
      SlotState(S(), i, NDIRECT);
      SlotState(S(), i, NDIRECT + 1 + k);
      StepNone(S(), i);
      st, addr := Fine, inode[i].addrs[NDIRECT];
      if addr == 0 {
        if InUse(S().v, sb.size) {
          ShortIndirect(S(), i, bn);
        }
        st, addr := AllocInto(i, NDIRECT);
        if !st.Fine? {
          return;
        }
        SlotState(S(), i, NDIRECT);
        SlotState(S(), i, NDIRECT + 1 + k);
      }
      ghost var s1 := S();
      var a := GetWord(view[addr], k);
      addr := a;
      if a == 0 {
        if InUse(S().v, sb.size) {
          ShortEntry(old(S()), s1, i, bn);
        }
        st, addr := AllocEntry(i, k);
        if st.Fine? {
          StepTrans(old(S()), s1, S(), i);
        }
      }
    }

    // The block holding block bn of file i, allocated if the file ends just before it.
    method BMap(i: nat, bn: nat) returns (st: Status, addr: nat)
      requires Valid() && i < |inode| && bn <= fs[i].nb && HoleFree(fs[i])
      modifies this`view, this`ops, this`inode, this`own, this`fs, log
      ensures LogOk() && log.busy == old(log.busy)
      ensures bn < old(fs[i].nb) ==> st.Fine? && S() == old(S()) && ops == old(ops) && unchanged(log)
      ensures st in {Fine, OutOfBlocks, TooBig, OutsideTrans, NoBuffers, OutOfRange}
      ensures st == OutOfRange <==> bn == MAXFILE
      ensures st == TooBig ==> !Room(old(log.lh), sb.nlog, MapCost(old(S()), old(log.lh), i, bn))
      ensures st == NoBuffers ==> !Buffered(old(log.lh), MapCost(old(S()), old(log.lh), i, bn))
      ensures st == OutsideTrans ==> !old(log.busy)
      ensures st == OutOfBlocks ==> Short(old(S()), i, Grown(old(fs[i]), bn))
      ensures st.Fine? ==> Mapped(old(S()), old(log.lh), S(), log.lh, i, bn, addr)
    {
      hide Ok, Full, LogOk, Room, Buffered, MapCost, Mapped, Short;
      SlotState(S(), i, NDIRECT);
      if bn < NDIRECT {
        st, addr := BMapDirect(i, bn);
        return;
      }
      if bn - NDIRECT < NINDIRECT {
        st, addr := BMapIndirect(i, bn);
        return;
      }
      return OutOfRange, 0;
    }

    // One turn of inode_read's loop: m bytes at o, inside one block.
    method ReadPiece(i: nat, o: nat, m: nat) returns (piece: seq<Byte>)
      requires Valid() && i < |inode| && i < |files| && i < |fs| && HoleFree(fs[i])
      requires 0 < m <= BSIZE - o % BSIZE && o + m <= |files[i]|
      modifies this`view, this`ops, this`inode, this`own, this`fs, log
      ensures S() == old(S()) && ops == old(ops) && unchanged(log)
      ensures piece == files[i][o..o + m]
    {
      hide Ok, Full, LogOk, Frame, Step, Ref, MapCost, Grew, IndirectIn, Room, Buffered;
      ReadBlock(S(), i, o, m);
      var st, addr := BMap(i, o / BSIZE);
      piece := view[addr][o % BSIZE..o % BSIZE + m];
    }

    // Up to n bytes of file i from off on, clipped to its size; -1 past the end or
    // when off + n wraps. Nothing is allocated, logged or otherwise changed.
    method InodeRead(i: nat, off: nat, n: nat) returns (st: Status, r: int, dst: seq<Byte>)
      requires Valid() && i < |inode| && Settles(S(), i) && off < MAXWORD && n < MAXWORD
      modifies this`view, this`ops, this`inode, this`own, this`fs, log
      ensures S() == old(S()) && ops == old(ops) && unchanged(log) && (st.Device? ==> r == -1 && dst == [])
      ensures st == if inode[i].kind == T_DEV then Device else Fine
      ensures st.Fine? ==> (r == -1 <==> off > |files[i]| || off + n >= MAXWORD)
      ensures st.Fine? && r == -1 ==> dst == []
      ensures st.Fine? && r != -1 ==>
        r == (if off + n > |files[i]| then |files[i]| - off else n) && dst == files[i][off..off + r]
    {
      hide Ok, Full, LogOk, Settles;
      SettledFacts(S(), i);
      dst := [];
      if inode[i].kind == T_DEV {
        return Device, -1, [];
      }
      if off > inode[i].size || (off + n) % MAXWORD < off {
        return Fine, -1, [];
      }
      var len := if off + n > inode[i].size then inode[i].size - off else n;
      var tot, o := 0, off;
      while tot < len
        invariant 0 <= tot <= len && o == off + tot
        invariant S() == old(S()) && ops == old(ops) && unchanged(log)
        invariant dst == files[i][off..off + tot]
      {
        var m := if len - tot < BSIZE - o % BSIZE then len - tot else BSIZE - o % BSIZE;
        ReadMore(files[i], off, tot, m);
        var piece := ReadPiece(i, o, m);
        dst := dst + piece;
        tot, o := tot + m, o + m;
      }
      return Fine, len, dst;
    }

    // One turn of inode_write's loop: piece goes to offset o, inside one block.
    method WriteBlock(i: nat, o: nat, piece: seq<Byte>) returns (st: Status)
      requires Valid() && i < |inode| && i < |files| && i < |fs| && o <= |files[i]| && fs[i] == FillOf(|files[i]|)
      requires 0 < |piece| <= BSIZE - o % BSIZE && o / BSIZE < MAXFILE
      modifies this`view, this`ops, this`inode, this`own, this`fs, this`files, log
      ensures LogOk() && log.busy == old(log.busy)
      ensures st in {Fine, OutOfBlocks, TooBig, OutsideTrans, NoBuffers}
      ensures st == TooBig ==> !Room(old(log.lh), sb.nlog, WriteCost(old(S()), old(log.lh), i, o / BSIZE))
      ensures st == NoBuffers ==> !Buffered(old(log.lh), WriteCost(old(S()), old(log.lh), i, o / BSIZE))
      ensures st == OutsideTrans ==> !old(log.busy)
      ensures st == OutOfBlocks ==> Short(old(S()), i, Grown(old(fs[i]), o / BSIZE))
      ensures st.Fine? ==> Wrote(old(S()), old(log.lh), S(), log.lh, i, o, piece)
    {
      hide Ok, Full, LogOk, Absorb, Frame, Ref, FillOf, Splice, Patch, Rewrite, PutStatus, Extra, Short, Grown;
      var bn := o / BSIZE;
      var addr;
      BlockReached(|files[i]|, o);
      st, addr := BMap(i, bn);
      if st.Fine? {
        ghost var s1 := S();
        PatchStep(old(S()), s1, i, o, piece);
        AbsorbFacts(log.lh, addr);
        HeldCost(log.lh, addr);
        st := Put(addr, Patch(view[addr], o % BSIZE, piece), {});
        if st.Fine? {
          files := files[i := Splice(files[i], o, piece)];
          assert S() == PatchedAt(s1, i, o, piece) by { ThePatch(s1, S(), i, o, piece, addr); }
        }
      }
    }

    // inode_write's loop.
    method WriteBlocks(i: nat, off: nat, src: seq<Byte>) returns (st: Status)
      requires Valid() && i < |inode| && Settles(S(), i) && off <= |files[i]| && off + |src| <= MAXFILE * BSIZE
      modifies this`view, this`ops, this`inode, this`own, this`fs, this`files, log
      ensures LogOk() && log.busy == old(log.busy)
      ensures st in {Fine, OutOfBlocks, TooBig, OutsideTrans, NoBuffers}
      ensures st == TooBig ==> !Room(old(log.lh), sb.nlog, Touched(off, |src|, old(fs[i].nb)))
      ensures st == NoBuffers ==> !Buffered(old(log.lh), Touched(off, |src|, old(fs[i].nb)))
      ensures st == OutsideTrans ==> !old(log.busy)
      ensures st == OutOfBlocks ==> Short(old(S()), i, FillOf(NewSize(old(|files[i]|), off, |src|)))
      ensures st.Fine? ==> Ok(S()) && Frame(old(S()), S(), i) && (Full(old(S())) ==> Full(S()))
      ensures st.Fine? ==> files == old(files)[i := Splice(old(files[i]), off, src)] && fs[i] == FillOf(|files[i]|)
      ensures st.Fine? && off + |src| <= old(|files[i]|) ==> inode == old(inode)
      ensures st.Fine? ==> Grew(old(log.lh), log.lh, Touched(off, |src|, old(fs[i].nb)))
    {
      hide Ok, Full, LogOk, Settles, Frame, FillOf, Room, Buffered, Splice, Touched, Midway, WriteCost, Wrote, Short, Grown;
      SettledFacts(S(), i);
      ghost var s0, lh0, nb := S(), log.lh, fs[i].nb;
      var tot := 0;
      LoopStart(s0, lh0, i, off, src);
      while tot < |src|
        invariant 0 <= tot <= |src|
        invariant LogOk() && log.busy == old(log.busy) && Midway(s0, lh0, S(), log.lh, i, off, src, tot)
      {
        var o := off + tot;
        var m := if |src| - tot < BSIZE - o % BSIZE then |src| - tot else BSIZE - o % BSIZE;
        ghost var s1, lh1 := S(), log.lh;
        LoopStep(s0, lh0, s1, lh1, i, off, src, tot, m);
        st := WriteBlock(i, o, src[tot..tot + m]);
        if !st.Fine? {
          if st.TooBig? {
            NoRoom(lh0, lh1, sb.nlog, Touched(off, tot, nb), WriteCost(s1, lh1, i, o / BSIZE), Touched(off, |src|, nb));
          }
          if st.OutOfBlocks? {
            ShortLoop(s0, lh0, s1, lh1, i, off, src, tot);
          }
          if st.NoBuffers? {
            NoSpare(lh0, lh1, Touched(off, tot, nb), WriteCost(s1, lh1, i, o / BSIZE), Touched(off, |src|, nb));
          }
          return;
        }
        LoopNext(s0, lh0, s1, lh1, S(), log.lh, i, off, src, tot, m);
        tot := tot + m;
      }
      LoopDone(s0, lh0, S(), log.lh, i, off, src);
      return Fine;
    }

    // Copy the in-memory inode to its block.
    method InodeUpdate(i: nat) returns (st: Status)
      requires Valid() && i < |inode| && IBlock(i) < |view| && INodeOk(inode[i])
      modifies this`view, this`ops, log
      ensures LogOk() && log.busy == old(log.busy)
      ensures st in {Fine, TooBig, OutsideTrans, NoBuffers}
      ensures st == TooBig ==> !Room(old(log.lh), sb.nlog, 0)
      ensures st == NoBuffers ==> !Buffered(old(log.lh), if IBlock(i) in old(log.lh) then 0 else 1)
      ensures st == OutsideTrans ==> !old(log.busy)
      ensures st.Fine? ==> S() == Updated(old(S()), i) && Ok(S())
      ensures st.Fine? ==> Grew(old(log.lh), log.lh, 1) && IBlock(i) in log.lh
    {
      hide Ok, Full, LogOk, Absorb, Store, INodeOk, PutStatus, Extra;
      UpdatedOk(S(), i);
      AbsorbFacts(log.lh, IBlock(i));
      HeldCost(log.lh, 0);
      st := Put(IBlock(i), Store(view, i, inode[i]), {});
    }

    // src over file i from off on; -1 if off is past the end, the end wraps or the
    // file would exceed MAXFILE blocks.
    method InodeWrite(i: nat, off: nat, src: seq<Byte>) returns (st: Status, r: int)
      requires Valid() && Quiet(S()) && i < |inode| && off < MAXWORD && |src| < MAXWORD
      modifies this`view, this`ops, this`inode, this`own, this`fs, this`files, log
      ensures LogOk() && log.busy == old(log.busy)
      ensures st == Device <==> old(inode)[i].kind == T_DEV
      ensures st == Device || Refused(old(S()), i, off, |src|) ==> S() == old(S()) && ops == old(ops) && unchanged(log)
      ensures st != Device && Refused(old(S()), i, off, |src|) ==> st.Fine? && r == -1
      ensures !Refused(old(S()), i, off, |src|) && st.Fine? ==>
        && r == |src| && Quiet(S()) && SameInodes(old(S()), S())
        && files == old(files)[i := Splice(old(files[i]), off, src)]
        && Grew(old(log.lh), log.lh, Touched(off, |src|, old(fs[i].nb)) + 1)
      ensures st in {Fine, Device, OutOfBlocks, TooBig, OutsideTrans, NoBuffers}
      ensures st == OutOfBlocks ==>
        !Refused(old(S()), i, off, |src|) && Short(old(S()), i, FillOf(NewSize(old(|files[i]|), off, |src|)))
      ensures st == NoBuffers ==>
        !Refused(old(S()), i, off, |src|) && !Buffered(old(log.lh), Touched(off, |src|, old(fs[i].nb)) + 1)
      ensures st == TooBig ==>
        !Refused(old(S()), i, off, |src|) && !Room(old(log.lh), sb.nlog, Touched(off, |src|, old(fs[i].nb)))
      ensures st == OutsideTrans ==> !old(log.busy)
    {
      hide Ok, Full, LogOk, Settles, Quiet, Frame, FillOf, Splice, Touched, SameInodes, Store, Short, NewSize, Grew, Room;
      ghost var s0, lh0 := S(), log.lh;
      QuietFacts(s0, i);
      var n, o := |src|, off + |src|;
      if inode[i].kind == T_DEV {
        return Device, -1;
      }
      if off > inode[i].size || (off + n) % MAXWORD < off {
        return Fine, -1;
      }
      if off + n > MAXFILE * BSIZE {
        return Fine, -1;
      }
      st := WriteBlocks(i, off, src);
      if !st.Fine? {
        return st, 0;
      }
      ghost var s1, lh1 := S(), log.lh;
      FrameSize(s0, s1, i);
      if n > 0 && o > inode[i].size {
        Resizes(s0, s1, i, off, src);
        inode := inode[i := inode[i].(size := o)];
        st := InodeUpdate(i);
        if !st.Fine? {
          if st.TooBig? {
            NoRoom(lh0, lh1, sb.nlog, Touched(off, n, s0.fs[i].nb), 0, Touched(off, n, s0.fs[i].nb));
          }
          if st.NoBuffers? {
            NoSpare(lh0, lh1, Touched(off, n, s0.fs[i].nb), 1, Touched(off, n, s0.fs[i].nb) + 1);
          }
          return st, 0;
        }
      } else {
        StaysQuiet(s0, s1, i, off, src);
      }
      GrewTrans(lh0, lh1, log.lh, Touched(off, n, s0.fs[i].nb), 1, Touched(off, n, s0.fs[i].nb) + 1);
      return Fine, n;
    }

    lemma LoggedOnce()
      requires LogOk()
      ensures Distinct(log.lh) && LayoutOk(sb)
    {
      StagedOnce(base, ops, log.disk, log.lh, log.start);
    }

    // Mark a block free; freeing a free one is a panic.
    method BlockFree(b: nat, held: set<nat>) returns (st: Status)
      requires LogOk() && SizesOk(S().v) && b < sb.size && BBlock(sb, b) < |view|
      modifies this`view, this`ops, log
      ensures LogOk() && log.busy == old(log.busy)
      ensures st in {Fine, FreeingFree, TooBig, OutsideTrans, NoBuffers} && (st == OutsideTrans ==> !old(log.busy))
      ensures st == FreeingFree <==> !BitSet(old(S().v), b)
      ensures st != FreeingFree ==> st == PutStatus(old(log.lh), sb.nlog, old(log.busy), held, BBlock(sb, b))
      ensures st.Fine? ==> log.lh == Absorb(old(log.lh), BBlock(sb, b))
      ensures st.Fine? ==> S().v == Unmark(old(S().v), b)
    {
      hide LogOk, BitAt, FlipIn, Absorb, LayoutOk, PutStatus, Extra;
      var bb := BBlock(sb, b);
      if !BitAt(view[bb], b % BPB) {
        return FreeingFree;
      }
      st := Put(bb, FlipIn(view[bb], b % BPB), held);
    }

    // inode_trunc's first loop.
    method FreeDirect(i: nat) returns (st: Status, ghost gone: set<nat>)
      requires Valid() && i < |inode|
      modifies this`view, this`ops, this`inode, log
      ensures LogOk() && log.busy == old(log.busy) && st in {Fine, TooBig, OutsideTrans, NoBuffers}
      ensures st == OutsideTrans ==> !old(log.busy)
      ensures LayoutOk(sb) && (st.Fine? ==> BitsOnly(old(log.lh), log.lh, sb))
      ensures st == TooBig ==> !Room(old(log.lh), sb.nlog, BitmapBlocks(sb))
      ensures st == NoBuffers ==> !Buffered(old(log.lh), BitmapBlocks(sb) + 1)
      ensures st.Fine? ==> Trimming(old(S()), S().v, i, NDIRECT, gone)
    {
      hide Ok, Full, LogOk, Trimming, Gone, Freed, Ref, BitSet, SizesOk, BitsOnly, PutStatus, Room, Buffered, Absorb, LayoutOk,
        BBlock, Distinct;
      ghost var s0 := S();
      gone := {};
      TrimStart(s0, i);
      LoggedOnce();
      BitsNone(log.lh, sb);
      for n := 0 to NDIRECT
        invariant LayoutOk(sb) && BitsOnly(old(log.lh), log.lh, sb)
        invariant LogOk() && log.busy == old(log.busy) && Trimming(s0, S().v, i, n, gone)
      {
        TrimSlot(s0, S().v, i, n, gone);
        TrimStep(s0, S().v, i, n, gone, Ref(s0.v, i, Nth(n)));
        DirectSlot(S().v, i, n);
        var b := inode[i].addrs[n];
        if b != 0 {
          LoggedOnce();
          BitsFail(old(log.lh), log.lh, sb, log.busy, {}, b);
          BitsMore(old(log.lh), log.lh, sb, b);
          st := BlockFree(b, {});
          if !st.Fine? {
            return;
          }
          inode := inode[i := inode[i].(addrs := inode[i].addrs[n := 0])];
          gone := gone + {b};
        }
      }
      st := Fine;
    }

    // Its second half: the indirect block's entries, then that block.
    method FreeIndirect(i: nat, ghost s0: State, ghost before: set<nat>, ghost lh0: seq<nat>) returns (st: Status, ghost gone: set<nat>)
      requires LogOk() && i < |inode| && |inode[i].addrs| == NDIRECT + 1 && inode[i].addrs[NDIRECT] != 0
      requires Trimming(s0, S().v, i, NDIRECT, before) && LayoutOk(sb) && BitsOnly(lh0, log.lh, sb)
      modifies this`view, this`ops, this`inode, log
      ensures LogOk() && log.busy == old(log.busy) && st in {Fine, TooBig, OutsideTrans, NoBuffers}
      ensures st == OutsideTrans ==> !old(log.busy)
      ensures LayoutOk(sb) && (st.Fine? ==> BitsOnly(lh0, log.lh, sb))
      ensures st == TooBig ==> !Room(lh0, sb.nlog, BitmapBlocks(sb))
      ensures st == NoBuffers ==> !Buffered(lh0, BitmapBlocks(sb) + 1)
      ensures st.Fine? ==> Trimming(s0, S().v, i, NSLOTS, gone)
    {
      hide Ok, Full, LogOk, Trimming, BitSet, BBlock, SizesOk, GetWord, BitsOnly, PutStatus, Room, Buffered, Absorb, LayoutOk, Distinct, Unmark;
      gone := before;
      TrimSlot(s0, S().v, i, NDIRECT, gone);
      var a := inode[i].addrs[NDIRECT];
      for j := 0 to NINDIRECT
        invariant LogOk() && log.busy == old(log.busy) && Trimming(s0, S().v, i, NDIRECT + j, gone)
        invariant inode == old(inode) && BitsOnly(lh0, log.lh, sb)
      {
        TrimSlot(s0, S().v, i, NDIRECT + j, gone);
        TrimStep(s0, S().v, i, NDIRECT + j, gone, Ref(s0.v, i, Nth(NDIRECT + j)));
        var b := GetWord(view[a], j);
        if b != 0 {
          LoggedOnce();
          BitsFail(lh0, log.lh, sb, log.busy, {a}, b);
          BitsMore(lh0, log.lh, sb, b);
          st := BlockFree(b, {a});
          if !st.Fine? {
            return;
          }
          gone := gone + {b};
        }
      }
      TrimSlot(s0, S().v, i, NSLOTS - 1, gone);
      TrimStep(s0, S().v, i, NSLOTS - 1, gone, a);
      LoggedOnce();
      BitsFail(lh0, log.lh, sb, log.busy, {}, a);
      BitsMore(lh0, log.lh, sb, a);
      st := BlockFree(a, {});
      if st.Fine? {
        inode := inode[i := inode[i].(addrs := inode[i].addrs[NDIRECT := 0])];
        gone := gone + {a};
      }
    }

    // Discard a file's contents: exactly the blocks it refers to become free.
    method InodeTrunc(i: nat) returns (st: Status)
      requires Valid() && Quiet(S()) && i < |inode|
      modifies this`view, this`ops, this`inode, this`own, this`fs, this`files, log
      ensures LogOk() && log.busy == old(log.busy)
      ensures st in {Fine, TooBig, OutsideTrans, NoBuffers} && (st == OutsideTrans ==> !old(log.busy))
      ensures LayoutOk(sb) && (st == TooBig ==> !Room(old(log.lh), sb.nlog, BitmapBlocks(sb)))
      ensures st == NoBuffers ==> !Buffered(old(log.lh), BitmapBlocks(sb) + 1)
      ensures st.Fine? ==> |log.lh| <= old(|log.lh|) + BitmapBlocks(sb) + 1 && IBlock(i) in log.lh
      ensures st.Fine? ==> Quiet(S()) && SameInodes(old(S()), S()) && files == old(files)[i := []]
      ensures st.Fine? ==> |old(inode)[i].addrs| == NDIRECT + 1 && GaveBack(old(S().v), S().v, i)
    {
      hide Ok, Full, LogOk, Quiet, SameInodes, Trimming, GaveBack, Ref, BitSet, BBlock, SizesOk, Store, INodeOk, IBlock,
        BitsOnly, Room, Buffered, LayoutOk;
      ghost var s0 := S();
      ghost var gone;
      st, gone := FreeDirect(i);
      if !st.Fine? {
        return;
      }
      TrimSlot(s0, S().v, i, NDIRECT, gone);
      if inode[i].addrs[NDIRECT] != 0 {
        st, gone := FreeIndirect(i, s0, gone, old(log.lh));
        if !st.Fine? {
          return;
        }
      } else {
        TrimSkip(s0, S().v, i, gone);
      }
      st := FinishTrunc(i, s0, gone, old(log.lh));
    }

    // ip->size = 0, and the inode goes to disk.
    method FinishTrunc(i: nat, ghost s0: State, ghost gone: set<nat>, ghost lh0: seq<nat>) returns (st: Status)
      requires LogOk() && Quiet(s0) && Trimming(s0, S().v, i, NSLOTS, gone) && LayoutOk(sb) && BitsOnly(lh0, log.lh, sb)
      modifies this`view, this`ops, this`inode, this`own, this`fs, this`files, log
      ensures LogOk() && log.busy == old(log.busy)
      ensures st in {Fine, TooBig, OutsideTrans, NoBuffers} && (st == OutsideTrans ==> !old(log.busy))
      ensures LayoutOk(sb) && (st == TooBig ==> !Room(lh0, sb.nlog, BitmapBlocks(sb)))
      ensures st == NoBuffers ==> !Buffered(lh0, BitmapBlocks(sb) + 1)
      ensures st.Fine? ==> |log.lh| <= |lh0| + BitmapBlocks(sb) + 1 && IBlock(i) in log.lh
      ensures st.Fine? ==> i < |s0.files| && Quiet(S()) && SameInodes(s0, S()) && files == s0.files[i := []]
      ensures st.Fine? ==> i < |s0.v.inode| && |s0.v.inode[i].addrs| == NDIRECT + 1 && GaveBack(s0.v, S().v, i)
    {
      hide Ok, Full, LogOk, Quiet, SameInodes, Trimming, GaveBack, Store, INodeOk, IBlock, BitsOnly, Room, LayoutOk, Distinct;
      LoggedOnce();
      BitsInode(lh0, log.lh, sb);
      TrimFinish(s0, S().v, i, gone);
      ghost var t := Emptied(s0, S().v, i, gone);
      inode := inode[i := inode[i].(size := 0)];
      own, fs, files := t.own, t.fs, t.files;
      assert S() == Resized(t, i, 0);
      hide Resized, Emptied;
      st := InodeUpdate(i);
    }

    // inode_put's last reference to an unlinked inode: contents and inode are freed.
    method InodeFree(i: nat) returns (st: Status)
      requires Valid() && Quiet(S()) && FreeEmpty(S()) && i < |inode|
      modifies this`view, this`ops, this`inode, this`own, this`fs, this`files, log
      ensures LogOk() && log.busy == old(log.busy)
      ensures st in {Fine, TooBig, OutsideTrans, NoBuffers} && (st == OutsideTrans ==> !old(log.busy))
      ensures LayoutOk(sb) && (st == TooBig ==> !Room(old(log.lh), sb.nlog, BitmapBlocks(sb) + 1))
      ensures st == NoBuffers ==> !Buffered(old(log.lh), BitmapBlocks(sb) + 1)
      ensures st.Fine? ==> Quiet(S()) && FreeEmpty(S()) && files == old(files)[i := []]
      ensures st.Fine? ==> |inode| == old(|inode|) && inode[i].kind == 0
      ensures st.Fine? ==> forall j :: 0 <= j < |inode| && j != i ==> inode[j].kind == old(inode)[j].kind
    {
      hide Ok, Full, LogOk, Quiet, GaveBack, Store, INodeOk, IBlock, LayoutOk;
      ghost var s0 := S();
      st := InodeTrunc(i);
      if st.Fine? {
        var m := inode[i].(kind := 0);
        QuietFacts(S(), i);
        Unlabelled(S(), i);
        Relabel(S(), i, m);
        inode := inode[i := m];
        st := InodeUpdate(i);
      }
    }

    // inode_alloc's scan: the first free inode but number 0.
    method FindInode() returns (found: bool, i: nat)
      requires Quiet(S())
      ensures found ==> 1 <= i < |inode| && inode[i].kind == 0
      ensures forall j :: 1 <= j < (if found then i else |inode|) ==> inode[j].kind != 0
    {
      hide Quiet, Stored, IBlock;
      i := 1;
      while i < |inode|
        invariant 1 <= i && forall j :: 1 <= j < i && j < |inode| ==> inode[j].kind != 0
      {
        DiskInode(S(), i);
        if Stored(view, i).kind == 0 {
          return true, i;
        }
        i := i + 1;
      }
      return false, 0;
    }

    // A free inode, given a type and no contents.
    method InodeAlloc(kind: nat) returns (st: Status, i: nat)
      requires Valid() && Quiet(S()) && FreeEmpty(S()) && 0 < kind < 0x1_0000
      modifies this`view, this`ops, this`inode, log
      ensures LogOk() && log.busy == old(log.busy)
      ensures st in {Fine, NoInodes, TooBig, OutsideTrans, NoBuffers}
      ensures st == TooBig ==> !Room(old(log.lh), sb.nlog, 0)
      ensures st == NoBuffers ==> !Buffered(old(log.lh), 1)
      ensures st == OutsideTrans ==> !old(log.busy)
      ensures st == NoInodes <==> forall j :: 1 <= j < |old(inode)| ==> old(inode)[j].kind != 0
      ensures st.Fine? ==> Quiet(S()) && FreeEmpty(S())
      ensures st.Fine? ==> 1 <= i < |old(inode)| && old(inode)[i].kind == 0
      ensures st.Fine? ==> forall j :: 1 <= j < i && j < |old(inode)| ==> old(inode)[j].kind != 0
      ensures st.Fine? ==> inode == old(inode)[i := INode(kind, 0, 0, 0, 0, NO_ADDRS)]
    {
      hide Ok, Full, LogOk, Quiet, Store, IBlock;
      ghost var s0 := S();
      var found;
      found, i := FindInode();
      if !found {
        return NoInodes, 0;
      }
      EmptyAddrs(s0, i);
      var m := INode(kind, 0, 0, 0, 0, NO_ADDRS);
      Relabel(s0, i, m);
      inode := inode[i := m];
      st := InodeUpdate(i);
    }

    method BeginTrans()
      requires LogOk() && !log.busy
      modifies log
      ensures LogOk() && log.busy && log.lh == [] && log.disk == old(log.disk) == base && log.trace == old(log.trace) == mark
      ensures ops == [] && log.start <= |base| && view == base[..log.start]
    {
      assert LogWrites(log.start, [], []) == [];
      log.BeginTrans();
    }

    method CommitTrans()
      requires LogOk() && log.busy
      modifies this`base, this`ops, this`mark, log
      ensures LogOk() && !log.busy && ops == [] && log.lh == []
      ensures Admissible(old(base), log.start, old(ops))
      ensures log.start <= |old(base)| && view == Apply(old(base)[..log.start], old(ops))
      ensures var tw := TransWrites(old(base), log.start, old(ops));
        log.disk == base == Apply(old(base), tw) && log.trace == mark == old(mark) + tw
    {
      NoLogWrites(log.start);
      assert log.start <= |base| && view == Apply(base[..log.start], ops);
      hide Staging, Mirrors, TransWrites, Admissible, CommitWrites, Fits, LogWrites, Apply;
      ghost var lw, cw := LogWrites(log.start, [], ops), CommitWrites(log.disk, log.start, log.lh);
      Committed(base, ops, log.disk, log.lh, view, log.start);
      Joined(mark, lw, cw);
      log.CommitTrans();
      assert log.trace == mark + lw + cw;
      base, ops, mark := log.disk, [], log.trace;
    }

    // inode_write in a transaction of its own, as file_write does it. With eleven log
    // blocks or more, a chunk never exceeds the log; but it can exceed the buffers.
    method WriteChunk(i: nat, off: nat, src: seq<Byte>) returns (st: Status, r: int, ghost tr: seq<Write>)
      requires Valid() && Quiet(S()) && !log.busy && i < |inode| && off < MAXWORD && |src| < MAXWORD
      modifies this, log
      ensures LogOk() && st in {Fine, Device, OutOfBlocks, TooBig, NoBuffers} && (st == Device <==> old(inode)[i].kind == T_DEV)
      ensures |src| <= CHUNK && sb.nlog > LOGSIZE ==> st != TooBig
      ensures |src| <= CHUNK && st == NoBuffers ==> Squeezed(off, |src|, old(|files[i]|))
      ensures st in {OutOfBlocks, TooBig, NoBuffers} ==> !Refused(old(S()), i, off, |src|)
      ensures st == OutOfBlocks ==> Short(old(S()), i, FillOf(NewSize(old(|files[i]|), off, |src|)))
      ensures st.Fine? && r != -1 ==> !Short(old(S()), i, FillOf(NewSize(old(|files[i]|), off, |src|)))
      ensures st == TooBig ==> !Room([], sb.nlog, TouchedAt(off, |src|, old(|files[i]|)))
      ensures st == NoBuffers ==> !Buffered([], TouchedAt(off, |src|, old(|files[i]|)) + 1)
      ensures !st.Fine? ==> base == old(log.disk) && mark == old(log.trace)
      ensures st.Fine? ==> Quiet(S()) && !log.busy && SameInodes(old(S()), S()) && base == log.disk && mark == log.trace
      ensures st.Fine? ==> (r == -1 <==> Refused(old(S()), i, off, |src|))
      ensures st.Fine? && r == -1 ==> S() == old(S()) && log.disk == old(log.disk) && log.trace == old(log.trace)
      ensures st.Fine? && r != -1 ==> r == |src| && files == old(files)[i := Splice(old(files[i]), off, src)]
      ensures st.Fine? && r != -1 ==>
        && Admissible(old(log.disk), log.start, tr) && view == Apply(old(view), tr)
        && var tw := TransWrites(old(log.disk), log.start, tr);
           log.disk == Apply(old(log.disk), tw) && log.trace == old(log.trace) + tw
    {
      hide Ok, Full, LogOk, Quiet, Touched, SameInodes, Splice, Admissible, TransWrites, Apply, FillOf, Squeezed, Short, NewSize;
      ghost var s0 := S();
      QuietFacts(s0, i);
      QuietOk(s0, i);
      if |src| <= CHUNK && !Refused(s0, i, off, |src|) {
        ChunkBound(off, |src|, |files[i]|);
        ChunkBuffers(off, |src|, |files[i]|);
      }
      SameInodesSelf(s0);
      BeginTrans();
      NoOps(base, log.start);
      st, r := InodeWrite(i, off, src);
      if !st.Fine? {
        return st, 0, [];
      }
      if r != -1 {
        WriteFits(s0, S(), i, off, src);
      }
      tr := ops;
      CommitTrans();
    }

    lemma BeginWriting(src: seq<Byte>, i: nat, off: nat)
      requires Valid() && Quiet(S()) && !log.busy && i < |inode|
      ensures base == log.disk && mark == log.trace && i < |files|
      ensures AllWrites(log.disk, log.start, []) == []
      ensures Writing(S(), S(), log.disk, log.start, [], [S()], log.disk, i, off, src)
    {
      NoLogWrites(log.start);
      hide Ok, Full, Quiet, Clean;
      QuietFacts(S(), i);
      ChainStart(log.disk, log.start, S());
      WritingStart(S(), log.disk, log.start, i, off, src);
    }

    // file_write between two chunks: from s0, disk d0 and trace t0, transactions ts have
    // gone in, with snaps the states between them.
    ghost predicate InWrite(s0: State, d0: Disk, t0: seq<Write>, ts: seq<seq<Write>>, snaps: seq<State>,
                            i: nat, off: nat, src: seq<Byte>)
      reads this, log
    {
      && LogOk() && Quiet(S()) && !log.busy && base == log.disk && mark == log.trace
      && mark == t0 + AllWrites(d0, log.start, ts) && i < |s0.v.inode|
      && Writing(s0, S(), d0, log.start, ts, snaps, base, i, off, src)
    }

    // One chunk of file_write, from byte i of src on.
    method WriteNext(f: File, src: seq<Byte>, i: nat, ghost s0: State, ghost d0: Disk, ghost t0: seq<Write>, ghost off: nat,
                     ghost ts: seq<seq<Write>>, ghost snaps: seq<State>)
      returns (st: Status, r: int, ghost ts': seq<seq<Write>>, ghost snaps': seq<State>)
      requires InWrite(s0, d0, t0, ts, snaps, f.inum, off, src) && Quiet(s0)
      requires i == Upto(|src|, |ts|) < |src| < 0x8000_0000 && f.off == off + i && off < MAXWORD
      modifies this, log, f
      ensures LogOk() && st in {Fine, Device, OutOfBlocks, TooBig, NoBuffers} && (sb.nlog > LOGSIZE ==> st != TooBig)
      ensures st == Device <==> s0.v.inode[f.inum].kind == T_DEV
      ensures f.inum < |s0.files|
      ensures st == NoBuffers ==> off % BSIZE != 0 && |s0.files[f.inum]| <= NDIRECT * BSIZE < off + |src|
      ensures st == OutOfBlocks ==> Short(s0, f.inum, FillOf(NewSize(|s0.files[f.inum]|, off, Upto(|src|, |ts| + 1))))
      ensures st == TooBig ==> !Room([], sb.nlog, ChunkTouched(|s0.files[f.inum]|, off, |src|, |ts|))
      ensures !st.Fine? ==> ts' == ts && snaps' == snaps && base == old(base) && mark == old(mark)
      ensures st.Fine? ==> InWrite(s0, d0, t0, ts', snaps', f.inum, off, src)
      ensures st.Fine? && r < 0 ==> r == -1 && |ts'| == |ts| && f.off == off + i && Done(off, |src|, |s0.files[f.inum]|) == i
      ensures st.Fine? && r >= 0 ==> |ts'| == |ts| + 1 && i + r == Upto(|src|, |ts'|) && r > 0 && f.off == off + i + r
    {
      hide Ok, Full, LogOk, Quiet, SameInodes, Splice, Admissible, TransWrites, Apply, AllWrites, Chain, Writing, Done, Progress,
        Squeezed, Upto, Short, NewSize, ChunkTouched, TouchedAt, FillOf, Room, Buffered;
      var n1 := if |src| - i > CHUNK then CHUNK else |src| - i;
      UptoNext(|src|, |ts|);
      ghost var tr;
      ghost var s1, e := S(), base;
      WritingFacts(s0, s1, d0, log.start, ts, snaps, base, f.inum, off, src);
      st, r, tr := WriteChunk(f.inum, f.off, src[i..i + n1]);
      ts', snaps' := ts, snaps;
      if !st.Fine? {
        if st.NoBuffers? {
          SqueezedChunk(s0, s1, f.inum, off, src, |ts|);
        }
        if !st.Device? {
          ChunkFails(s0, s1, f.inum, off, src, |ts|);
        }
        return;
      }
      if r > 0 {
        f.off := f.off + r;
      }
      if r < 0 {
        WritingStopped(s0, s1, f.inum, off, src, |ts|);
        return;
      }
      WritingMore(s0, s1, S(), d0, log.start, ts, snaps, e, f.inum, off, src, tr);
      ts', snaps' := ts + [tr], snaps + [S()];
    }

    // file_write, which panics on a file that is no inode. Whole chunks go in, each its own transaction,
    // until one no longer fits; -1 then comes back although the earlier ones stay.
    // ts and snaps record the transactions and the states between them.
    method FileWrite(f: File, src: seq<Byte>)
      returns (st: Status, r: int, ghost ts: seq<seq<Write>>, ghost snaps: seq<State>)
      requires Valid() && Quiet(S()) && !log.busy && f.inum < |inode| && f.off < MAXWORD && |src| < 0x8000_0000
      modifies this, log, f
      ensures LogOk() && st in {Fine, NoInode, Device, OutOfBlocks, TooBig, NoBuffers} && (sb.nlog > LOGSIZE ==> st != TooBig)
      ensures st == NoInode <==> f.writable && !f.isInode
      ensures st == Device <==> f.writable && f.isInode && src != [] && old(inode)[f.inum].kind == T_DEV
      ensures st == NoBuffers ==>
        old(f.off) % BSIZE != 0 && old(|files[f.inum]|) <= NDIRECT * BSIZE < old(f.off) + |src|
      ensures st in {OutOfBlocks, TooBig, NoBuffers} ==> Upto(|src|, |ts|) < |src|
      ensures st == OutOfBlocks ==>
        Short(old(S()), f.inum, FillOf(NewSize(old(|files[f.inum]|), old(f.off), Upto(|src|, |ts| + 1))))
      ensures st == TooBig ==> !Room([], sb.nlog, ChunkTouched(old(|files[f.inum]|), old(f.off), |src|, |ts|))
      ensures !f.writable ==> st.Fine? && r == -1
      ensures !f.writable || !f.isInode ==> S() == old(S()) && f.off == old(f.off) && ts == []
      ensures Chain(old(log.disk), log.start, ts, snaps, base) && snaps[0] == old(S())
      ensures mark == old(log.trace) + AllWrites(old(log.disk), log.start, ts)
      ensures forall k :: 0 <= k < |snaps| ==>
        snaps[k].files == Progress(old(files), f.inum, old(f.off), src, k)
      ensures st.Fine? && f.writable ==>
        var i := f.inum;
        var done := Done(old(f.off), |src|, old(|files[i]|));
        && Quiet(S()) && !log.busy && SameInodes(old(S()), S()) && S() == snaps[|ts|]
        && r == (if done == |src| then |src| else -1) && f.off == old(f.off) + done
        && done == Upto(|src|, |ts|)
    {
      hide Ok, Full, LogOk, Quiet, SameInodes, AllWrites, Chain, Writing, Done, Progress, Upto, Short, NewSize, ChunkTouched, FillOf, Room;
      ghost var s0, d0, t0, off, inum := S(), log.disk, log.trace, f.off, f.inum;
      var i, n := 0, |src|;
      st, r, ts, snaps := Fine, 0, [], [s0];
      BeginWriting(src, inum, off);
      WritingFacts(s0, s0, d0, log.start, [], [s0], d0, inum, off, src);
      if !f.writable {
        return Fine, -1, [], [s0];
      }
      if !f.isInode {
        return NoInode, 0, [], [s0];
      }
      while i < n
        invariant InWrite(s0, d0, t0, ts, snaps, inum, off, src)
        invariant i == Upto(n, |ts|) && f.off == off + i && (i > 0 ==> s0.v.inode[inum].kind != T_DEV)
      {
        WritingFacts(s0, S(), d0, log.start, ts, snaps, base, inum, off, src);
        st, r, ts, snaps := WriteNext(f, src, i, s0, d0, t0, off, ts, snaps);
        if !st.Fine? {
          return st, 0, ts, snaps;
        }
        if r < 0 {
          break;
        }
        i := i + r;
      }
      WritingFacts(s0, S(), d0, log.start, ts, snaps, base, inum, off, src);
      if i == n {
        WholeWritten(s0, inum, off, src, |ts|);
      }
      return Fine, if i == n then n else -1, ts, snaps;
    }

    // file_read: the slice at the file's offset, which moves past it.
    method FileRead(f: File, n: nat) returns (st: Status, r: int, dst: seq<Byte>)
      requires Valid() && Quiet(S()) && f.inum < |inode| && f.off < MAXWORD && n < MAXWORD
      modifies this`view, this`ops, this`inode, this`own, this`fs, log, f
      ensures S() == old(S()) && unchanged(log) && ops == old(ops)
      ensures st == if f.readable && !f.isInode then NoInode else if f.readable && inode[f.inum].kind == T_DEV then Device else Fine
      ensures st.Fine? ==> (r == -1 <==> !f.readable || old(f.off) > |files[f.inum]| || old(f.off) + n >= MAXWORD)
      ensures r == -1 ==> dst == [] && f.off == old(f.off)
      ensures st.Fine? && r != -1 ==> 0 <= r <= n && f.off == old(f.off) + r <= |files[f.inum]|
      ensures st.Fine? && r != -1 ==> dst == files[f.inum][old(f.off)..f.off]
      ensures st.Fine? && r != -1 && r < n ==> f.off == |files[f.inum]|
    {
      hide Ok, Full, LogOk, Quiet;
      QuietFacts(S(), f.inum);
      if !f.readable {
        return Fine, -1, [];
      }
      if !f.isInode {
        return NoInode, -1, [];
      }
      st, r, dst := InodeRead(f.inum, f.off, n);
      if r > 0 {
        f.off := f.off + r;
      }
    }

    // inode_alloc in a transaction of its own.
    method Create(kind: nat) returns (st: Status, i: nat)
      requires Valid() && Quiet(S()) && FreeEmpty(S()) && !log.busy && 0 < kind < 0x1_0000
      modifies this, log
      ensures LogOk() && st in {Fine, NoInodes, TooBig} && (st == TooBig ==> sb.nlog <= 1)
      ensures st.Fine? ==> Quiet(S()) && FreeEmpty(S()) && !log.busy && |inode| == old(|inode|)
      ensures st.Fine? ==> FlatAlloc(old(FlatOf(S())), kind, FlatOf(S()), i)
      ensures st.NoInodes? ==> forall j :: 1 <= j < old(|inode|) ==> old(inode)[j].kind != 0
    {
      hide Ok, Full, LogOk, Quiet, FreeEmpty, FlatOf, FlatAlloc;
      ghost var s0 := S();
      BeginTrans();
      st, i := InodeAlloc(kind);
      if st.Fine? {
        AllocatedFlat(s0, S(), i, INode(kind, 0, 0, 0, 0, NO_ADDRS));
        CommitTrans();
      }
    }

    // The inode's last reference is dropped, in a transaction of its own.
    method Remove(i: nat) returns (st: Status)
      requires Valid() && Quiet(S()) && FreeEmpty(S()) && !log.busy && i < |inode|
      modifies this, log
      ensures LogOk() && LayoutOk(sb) && st in {Fine, TooBig, NoBuffers}
      ensures st == TooBig ==> !Room([], sb.nlog, BitmapBlocks(sb) + 1)
      ensures st == NoBuffers ==> !Buffered([], BitmapBlocks(sb) + 1)
      ensures st.Fine? ==> Quiet(S()) && FreeEmpty(S()) && !log.busy && |inode| == old(|inode|)
      ensures st.Fine? ==> FlatFree(old(FlatOf(S())), i, FlatOf(S()))
    {
      hide Ok, Full, LogOk, Quiet, FreeEmpty, FlatOf, FlatFree, LayoutOk, Room, Buffered;
      ghost var s0 := S();
      CallFacts(s0, i);
      BeginTrans();
      st := InodeFree(i);
      if st.Fine? {
        FreedFlat(s0, S(), i);
        CommitTrans();
      }
    }

    // The machine stops between calls, losing the in-memory log header and inodes, and
    // the volume is mounted again.
    method Remount()
      requires Valid() && Quiet(S()) && !log.busy
      modifies this`view, this`inode, this`base, this`mark, log
      ensures LogOk() && S() == old(S()) && !log.busy
    {
      hide Ok, Full, Quiet, Load, IBlock, Outcome, Recoverable, RecoverWrites, Apply, Clean, Staging, Mirrors, LogWrites;
      ghost var d := log.disk;
      IdleLog(base, ops, log.disk, log.lh, view, log.start);
      ghost var ws := RecoverWrites(d, log.start);
      RecoveryCut(d, log.start, |ws|);
      assert ws[..|ws|] == ws;
      Reloads(S());
      log.busy := false;
      log.lh := [];
      log.RecoverFromLog();
      view := log.disk[..log.start];
      inode := Load(view, |inode|);
      base, mark := log.disk, log.trace;
      StartsStaged(log.disk, log.start);
      NoLogWrites(log.start);
    }

    // A write call. On a free inode inode_lock panics, and a device's are left to it.
    method ServeWrite(i: nat, off: nat, data: seq<Byte>) returns (st: Status, rep: Reply)
      requires Valid() && Quiet(S()) && FreeEmpty(S()) && !log.busy && Servable(|inode|, WriteCall(i, off, data))
      modifies this, log
      ensures LogOk() && LayoutOk(sb) && st in {Fine, NoType, Device, OutOfBlocks, TooBig, NoBuffers}
      ensures (st == NoType <==> old(inode)[i].kind == 0) && (st == Device <==> old(inode)[i].kind == T_DEV)
      ensures st == OutOfBlocks ==> i < old(|files|) && !Affordable(sb, old(files), i, off, |data|)
      ensures st in {TooBig, NoBuffers} && sb.nlog > LOGSIZE ==> Heavy(sb, WriteCall(i, off, data))
      ensures st.Fine? ==> Quiet(S()) && FreeEmpty(S()) && !log.busy && |inode| == old(|inode|)
      ensures st.Fine? ==> Flat(old(FlatOf(S())), WriteCall(i, off, data), FlatOf(S()), rep)
    {
      hide Ok, Full, LogOk, Quiet, FreeEmpty, FlatOf, FlatWrite, SameInodes, Splice, Admissible, TransWrites, Apply, Squeezed, LayoutOk,
        Short, Affordable, FillOf, NewSize, TouchedAt, Room, Buffered;
      ghost var s0 := S();
      rep := Reply(0, []);
      CallFacts(s0, i);
      QuietLeft(s0);
      if inode[i].kind == 0 {
        return NoType, rep;
      }
      SafeChunks(off, |data|, |files[i]|);
      ghost var tr;
      var r;
      st, r, tr := WriteChunk(i, off, data);
      if st.OutOfBlocks? {
        NotAffordable(s0, i, off, |data|);
      }
      if st.Fine? {
        rep := Reply(r, []);
        WroteFlat(s0, S(), i, off, data, r);
        SameCount(s0, S());
        FlatCount(s0, S());
      }
    }

    method ServeRead(i: nat, off: nat, n: nat) returns (st: Status, rep: Reply)
      requires Valid() && Quiet(S()) && Servable(|inode|, ReadCall(i, off, n))
      modifies this`view, this`ops, this`inode, this`own, this`fs, log
      ensures S() == old(S()) && ops == old(ops) && unchanged(log)
      ensures st == if inode[i].kind == 0 then NoType else if inode[i].kind == T_DEV then Device else Fine
      ensures st.Fine? ==> Flat(old(FlatOf(S())), ReadCall(i, off, n), FlatOf(S()), rep)
    {
      hide Ok, Full, LogOk, Quiet, FlatOf, FlatRead;
      ghost var s0 := S();
      rep := Reply(0, []);
      if inode[i].kind == 0 {
        return NoType, rep;
      }
      CallFacts(s0, i);
      var r, data;
      st, r, data := InodeRead(i, off, n);
      if st.Fine? {
        rep := Reply(r, data);
        ReadFlat(s0, i, off, n, rep);
      }
    }

    // One call; freeing a free inode panics in inode_lock as well. With eleven log blocks
    // or more, a call that nothing stands in the way of is served.
    method ServeOne(c: Call) returns (st: Status, rep: Reply)
      requires Valid() && Quiet(S()) && FreeEmpty(S()) && !log.busy && Servable(|inode|, c)
      modifies this, log
      ensures LogOk() && LayoutOk(sb) && (sb.nlog > LOGSIZE && SafeCall(sb, old(FlatOf(S())), c) ==> st.Fine?)
      ensures st.Fine? ==> Quiet(S()) && FreeEmpty(S()) && !log.busy && |inode| == old(|inode|)
      ensures st.Fine? ==> Flat(old(FlatOf(S())), c, FlatOf(S()), rep)
    {
      hide Ok, Full, LogOk, Quiet, FreeEmpty, FlatOf, FlatAlloc, FlatFree, FlatWrite, FlatRead, LayoutOk, Affordable, Plain;
      ghost var s0 := S();
      rep := Reply(0, []);
      QuietLeft(s0);
      QuietSizes(s0);
      match c {
        case WriteCall(i, off, data) =>
          PlainFile(s0, i);
          st, rep := ServeWrite(i, off, data);
        case ReadCall(i, off, n) =>
          PlainFile(s0, i);
          st, rep := ServeRead(i, off, n);
        case AllocCall(kind) =>
          var i;
          st, i := Create(kind);
          rep := Reply(i, []);
          if st.NoInodes? {
            NoFreeInode(s0, sb, kind);
          }
        case FreeCall(i) =>
          FlatCount(s0, s0);
          FlatKind(s0, i);
          if inode[i].kind == 0 {
            return NoType, rep;
          }
          st := Remove(i);
        case CrashCall =>
          Remount();
          st := Fine;
      }
    }

    // Any sequence of calls, on any inodes, with crashes between them: what comes back,
    // and what the files hold, is what independent flat byte sequences would give. It
    // stops early only at a call that something stands in the way of.
    method Serve(calls: seq<Call>) returns (st: Status, replies: seq<Reply>)
      requires Valid() && Quiet(S()) && FreeEmpty(S()) && !log.busy && forall c :: c in calls ==> Servable(|inode|, c)
      modifies this, log
      ensures LogOk() && LayoutOk(sb) && |replies| <= |calls| && (st.Fine? <==> |replies| == |calls|)
      ensures st.Fine? ==> Quiet(S()) && !log.busy && FlatAll(old(FlatOf(S())), calls, FlatOf(S()), replies)
      ensures !st.Fine? ==> exists b ::
        && FlatAll(old(FlatOf(S())), calls[..|replies|], b, replies)
        && (sb.nlog > LOGSIZE ==> !SafeCall(sb, b, calls[|replies|]))
      ensures sb.nlog > LOGSIZE && Safe(sb, old(FlatOf(S())), calls) ==> st.Fine?
    {
      hide Ok, Full, LogOk, Quiet, FreeEmpty, FlatOf, Servable, Flat, FlatAll, LayoutOk, Safe, SafeCall;
      st, replies := Fine, [];
      ghost var a := FlatOf(S());
      ghost var states := [a];
      QuietIsOk(S());
      QuietLeft(S());
      for k := 0 to |calls|
        invariant st.Fine? && LogOk() && Ok(S()) && Quiet(S()) && FreeEmpty(S()) && !log.busy && |inode| == old(|inode|)
        invariant |states| == k + 1 && |replies| == k && states[0] == a && states[k] == FlatOf(S())
        invariant forall j :: 0 <= j < k ==> Flat(states[j], calls[j], states[j + 1], replies[j])
      {
        var rep;
        st, rep := ServeOne(calls[k]);
        if !st.Fine? {
          Stopped(sb, states, calls, replies, k);
          return;
        }
        QuietIsOk(S());
        replies, states := replies + [rep], states + [FlatOf(S())];
      }
      FlatChain(states, calls, replies);
    }
  }

  class File {
    const isInode: bool
    const inum: nat
    const readable: bool
    const writable: bool
    var off: nat

    constructor (isInode: bool, inum: nat, readable: bool, writable: bool)
      ensures this.isInode == isInode && this.inum == inum && this.readable == readable && this.writable == writable && off == 0
    {
      this.isInode, this.inum, this.readable, this.writable, off := isInode, inum, readable, writable, 0;
    }
  }
}
