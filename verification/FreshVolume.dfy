// A small empty volume that meets every invariant, so that they are about something:
// twenty blocks, eight free inodes, four free data blocks and eleven log blocks.
module FreshVolume {
  import opened Blocks
  import opened Bitmap
  import opened RedoLog
  import opened Volume
  import opened FileState
  import opened Accounting
  import opened FileSteps
  import opened FileSystem

  const SB := Super(20, 8, 11)

  // Blocks 0 to 4 and 9 to 19 are in use.
  const BITS: Block := [0x1F, 0xFE, 0x0F] + Zeros(BSIZE - 3)

  const VIEW: Disk := [ZERO, ZERO, ZERO, ZERO, BITS, ZERO, ZERO, ZERO, ZERO]

  const NONE := INode(0, 0, 0, 0, 0, NO_ADDRS)

  const INODES: seq<INode> := [NONE, NONE, NONE, NONE, NONE, NONE, NONE, NONE]

  const FILLS: seq<Fill> := [Fill(0, false), Fill(0, false), Fill(0, false), Fill(0, false),
                             Fill(0, false), Fill(0, false), Fill(0, false), Fill(0, false)]

  const START := State(Vol(SB, VIEW, INODES), map[], FILLS, [[], [], [], [], [], [], [], []])

  lemma Marked(b: nat)
    requires b < 20
    ensures BBlock(SB, b) == 4 && (BitSet(START.v, b) <==> b < 5 || b >= 9)
  {
    assert BITS[0] == 0x1F && BITS[1] == 0xFE && BITS[2] == 0x0F;
    if b < 8 {
      LowByte(b);
    } else if b < 16 {
      MiddleByte(b - 8);
    } else {
      HighByte(b - 16);
    }
  }

  lemma LowByte(k: nat)
    requires k < 8
    ensures Bit(0x1F, k) <==> k < 5
  {
    if k == 0 {
    } else if k == 1 {
    } else if k == 2 {
    } else if k == 3 {
    } else if k == 4 {
    } else if k == 5 {
    } else if k == 6 {
    } else {
      assert k == 7;
    }
  }

  lemma MiddleByte(k: nat)
    requires k < 8
    ensures Bit(0xFE, k) <==> k >= 1
  {
    if k == 0 {
    } else if k == 1 {
    } else if k == 2 {
    } else if k == 3 {
    } else if k == 4 {
    } else if k == 5 {
    } else if k == 6 {
    } else {
      assert k == 7;
    }
  }

  lemma HighByte(k: nat)
    requires k < 4
    ensures Bit(0x0F, k)
  {
    if k == 0 {
    } else if k == 1 {
    } else if k == 2 {
    } else {
      assert k == 3;
    }
  }

  lemma StoredNone(i: nat)
    requires i < 8
    ensures IBlock(i) == 2 && Stored(VIEW, i) == NONE
  {
    hide GetWord;
    var ws := GetWords(ZERO, 16 * i, 16);
    forall k | 0 <= k < 16 ensures ws[k] == 0 {
      ZeroWords(16 * i + k);
    }
    assert ws[3..] == NO_ADDRS;
    assert i % IPB == i;
    NoWords(ws);
  }

  lemma NoWords(ws: seq<nat>)
    requires |ws| == 16 && (forall k :: 0 <= k < 16 ==> ws[k] == 0) && ws[3..] == NO_ADDRS
    ensures Decode(ws) == NONE
  {
  }

  lemma FreshVol()
    ensures LayoutOk(SB) && DataStart(SB) == 5 && Start(SB) == 9
    ensures SizesOk(START.v) && MetaBits(START.v) && OwnedOk(START.v, START.own)
  {
    hide BitSet;
    assert BBlock(SB, 19) == 4;
    assert SizesOk(START.v);
    forall b | 0 <= b < 20 ensures BBlock(SB, b) == 4 && (BitSet(START.v, b) <==> b < 5 || b >= 9) {
      Marked(b);
    }
  }

  lemma FreshFiles()
    ensures SizesOk(START.v) && FilesOk(START.v, START.own, START.fs)
  {
    FreshVol();
    hide SizesOk, MetaBits, OwnedOk, GetWord;
    forall i, s | 0 <= i < 8 && 0 <= s < NSLOTS
      ensures |START.v.inode[i].addrs| == NDIRECT + 1 && RefOk(START.v, START.own, START.fs[i], i, s)
    {
      assert START.v.inode[i] == NONE && START.fs[i] == Fill(0, false);
    }
  }

  lemma FreshFull()
    ensures Full(START)
  {
    FreshVol();
    FreshFiles();
    forall b: nat | 5 <= b < 9 ensures BBlock(SB, b) < |START.v.view| && !BitSet(START.v, b) {
      Marked(b);
    }
    hide SizesOk, MetaBits, OwnedOk, FilesOk, BitSet, BBlock, Ref, ByteAt;
    forall i | 0 <= i < 8 ensures START.fs[i] == Fill(0, false) && |START.v.inode[i].addrs| == NDIRECT + 1 && START.files[i] == [] {
    }
  }

  // The invariants hold of it, free inodes included.
  lemma FreshIsQuiet()
    ensures Quiet(START) && FreeEmpty(START) && LayoutOk(SB)
  {
    FreshVol();
    FreshFull();
    hide Full, Stored, SizesOk;
    forall i | 0 <= i < 8 ensures IBlock(i) < |START.v.view| && Settled(START, i) {
      StoredNone(i);
      assert START.v.inode[i] == NONE && START.fs[i] == Fill(0, false) && START.files[i] == [];
    }
  }

  // The volume with its log, as mkfs writes them.
  const DISK: Disk := VIEW + [ZERO, ZERO, ZERO, ZERO, ZERO, ZERO, ZERO, ZERO, ZERO, ZERO, ZERO]

  lemma FreshLog()
    ensures |DISK| == 20 && DISK[..9] == VIEW && DISK[9] == ZERO
    ensures Clean(DISK, 9) && Recoverable(DISK, 9) && Outcome(DISK, 9) == VIEW
  {
    ZeroWords(0);
    assert DISK[9] == ZERO;
    CleanOutcome(DISK, 9);
  }

  // A crash in a transaction that writes one block of it.
  lemma FreshCrash(data: Block, cut: nat, cuts: seq<nat>)
    requires cut <= |TransWrites(DISK, 9, [Write(5, data)])|
    ensures var e := Reboots(Apply(DISK, TransWrites(DISK, 9, [Write(5, data)])[..cut]), 9, cuts);
      Clean(e, 9) && e[..9] == if cut <= 1 then VIEW else VIEW[5 := data]
  {
    hide TransWrites, Reboots, CommitWrites;
    FreshLog();
    var ops := [Write(5, data)];
    assert ops[1..] == [];
    assert AbsorbAll([], ops) == [5];
    CrashAtomic(DISK, 9, ops, cut, cuts);
    assert Apply(VIEW, ops) == VIEW[5 := data];
  }

  // The empty volume, mounted.
  method MountFresh() returns (f: FileSys)
    ensures fresh(f) && f.Valid() && Quiet(f.S()) && FreeEmpty(f.S()) && !f.log.busy && f.S() == START
  {
    hide *;
    FreshMount();
    f := new FileSys(SB, DISK, START.own, START.fs, START.files);
  }

  lemma FreshMount()
    ensures LayoutOk(SB) && |DISK| == SB.size && Recoverable(DISK, Start(SB))
    ensures IBlock(SB.ninodes - 1) < Start(SB) && Outcome(DISK, Start(SB)) == VIEW && |VIEW| == Start(SB)
    ensures State(Vol(SB, VIEW, Load(VIEW, SB.ninodes)), START.own, START.fs, START.files) == START
    ensures Quiet(START) && FreeEmpty(START)
  {
    FreshLog();
    FreshVol();
    FreshLoad();
    FreshIsQuiet();
    hide Recoverable, Outcome, Quiet, FreeEmpty, Load, IBlock, LayoutOk, SizesOk, MetaBits, OwnedOk;
  }

  lemma FreshLoad()
    ensures IBlock(7) == 2 && Load(VIEW, 8) == INODES
  {
    hide Stored;
    forall i | 0 <= i < 8 ensures IBlock(i) == 2 && Load(VIEW, 8)[i] == INODES[i] {
      StoredNone(i);
    }
  }
}
