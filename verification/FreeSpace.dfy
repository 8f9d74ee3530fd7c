// How many blocks are free: as many as the data area has, less what the sizes of the
// files account for (mCertiKOS/kern/fs/block.c, inode.c).
module FreeSpace {
  import opened Volume
  import opened FileState
  import opened Accounting

  // Blocks a file of fill f takes, its indirect block included.
  function Cost(f: Fill): nat { f.nb + if f.ind then 1 else 0 }

  function Total(fs: seq<Fill>): nat {
    if fs == [] then 0 else Total(fs[..|fs| - 1]) + Cost(fs[|fs| - 1])
  }

  function DataBlocks(sb: Super): int
    requires LayoutOk(sb)
  {
    Start(sb) - DataStart(sb)
  }

  // The blocks whose bit is clear.
  ghost function FreeSet(v: Vol): set<nat> {
    set b: nat | b < v.sb.size && BBlock(v.sb, b) < |v.view| && !BitSet(v, b)
  }

  // Blocks left once every file has those it needs.
  function BlocksLeft(s: State): int
    requires LayoutOk(s.v.sb)
  {
    DataBlocks(s.v.sb) - Total(s.fs)
  }

  // ---------- Counting owners ----------

  // The first k slots in use of file i.
  ghost function SlotOwners(f: Fill, i: nat, k: nat): set<Owner> {
    set t: nat | t < k && Used(f, t) :: Owner(i, t)
  }

  lemma {:induction false} CountSlots(f: Fill, i: nat, k: nat)
    requires FillOk(f)
    ensures |SlotOwners(f, i, k)| ==
      if k <= NDIRECT then if k < f.nb then k else f.nb
      else (if k - 1 < f.nb then k - 1 else f.nb) + if f.ind then 1 else 0
  {
    if k == 0 {
      assert SlotOwners(f, i, k) == {};
    } else {
      CountSlots(f, i, k - 1);
      assert SlotOwners(f, i, k) == SlotOwners(f, i, k - 1) + if Used(f, k - 1) then {Owner(i, k - 1)} else {};
    }
  }

  // All slots in use of the first n files.
  ghost function AllOwners(fs: seq<Fill>, n: nat): set<Owner>
    requires n <= |fs|
  {
    set i: nat, t: nat | i < n && t < NSLOTS && Used(fs[i], t) :: Owner(i, t)
  }

  lemma {:induction false} CountOwners(fs: seq<Fill>, n: nat)
    requires n <= |fs| && forall i :: 0 <= i < |fs| ==> FillOk(fs[i])
    ensures |AllOwners(fs, n)| == Total(fs[..n])
  {
    if n == 0 {
      assert AllOwners(fs, n) == {};
    } else {
      CountOwners(fs, n - 1);
      CountSlots(fs[n - 1], n - 1, NSLOTS);
      assert fs[..n][..n - 1] == fs[..n - 1];
      assert AllOwners(fs, n) == AllOwners(fs, n - 1) + SlotOwners(fs[n - 1], n - 1, NSLOTS);
      assert AllOwners(fs, n - 1) !! SlotOwners(fs[n - 1], n - 1, NSLOTS);
    }
  }

  lemma {:induction false} CountValues(own: map<nat, Owner>)
    requires forall r, q :: r in own && q in own && own[r] == own[q] ==> r == q
    ensures |own.Keys| == |own.Values|
    decreases |own|
  {
    if own == map[] {
      assert own.Keys == {} && own.Values == {};
    } else {
      var r :| r in own;
      var rest := own - {r};
      assert own.Keys == rest.Keys + {r};
      CountValues(rest);
      assert own.Values == rest.Values + {own[r]};
      assert own[r] !in rest.Values;
    }
  }

  // Every slot in use owns one block and every owned block has one slot.
  lemma OwnersAre(s: State)
    requires Full(s)
    ensures s.own.Values == AllOwners(s.fs, |s.fs|)
    ensures forall r, q :: r in s.own && q in s.own && s.own[r] == s.own[q] ==> r == q
  {
    forall r | r in s.own ensures s.own[r] in AllOwners(s.fs, |s.fs|) {
      var o := s.own[r];
      assert RefOk(s.v, s.own, s.fs[o.inum], o.inum, o.slot);
      assert o == Owner(o.inum, o.slot);
    }
    forall o | o in AllOwners(s.fs, |s.fs|) ensures o in s.own.Values {
      assert RefOk(s.v, s.own, s.fs[o.inum], o.inum, o.slot);
    }
  }

  lemma OwnedCount(s: State)
    requires Full(s)
    ensures |s.own.Keys| == Total(s.fs)
  {
    OwnersAre(s);
    CountValues(s.own);
    CountOwners(s.fs, |s.fs|);
    assert s.fs[..|s.fs|] == s.fs;
  }

  ghost function Range(a: nat, b: nat): (r: set<nat>)
    ensures forall x: nat :: x in r <==> a <= x < b
    ensures a <= b ==> |r| == b - a
    decreases b
  {
    if a >= b then {} else Range(a, b - 1) + {b - 1}
  }

  lemma Removed(all: set<nat>, some: set<nat>)
    requires some <= all
    ensures |all - some| == |all| - |some|
  {
    assert all == (all - some) + some;
  }

  // The free blocks are the data blocks nobody owns.
  lemma FreeAre(s: State)
    requires Full(s)
    ensures FreeSet(s.v) == Range(DataStart(s.v.sb), Start(s.v.sb)) - s.own.Keys
    ensures s.own.Keys <= Range(DataStart(s.v.sb), Start(s.v.sb))
  {
    forall b: nat | b < s.v.sb.size ensures BBlock(s.v.sb, b) < |s.v.view| { BitmapRange(s.v.sb, b); }
    hide BitSet, BBlock;
  }

  // The account in numbers: the clear bits of the bitmap are exactly the blocks that the
  // files, by how far they are filled, leave.
  lemma LeftCounts(s: State)
    requires Full(s)
    ensures LayoutOk(s.v.sb) && |FreeSet(s.v)| == BlocksLeft(s)
  {
    assert LayoutOk(s.v.sb);
    hide Full, FreeSet, Range, LayoutOk, Total;
    FreeAre(s);
    OwnedCount(s);
    Removed(Range(DataStart(s.v.sb), Start(s.v.sb)), s.own.Keys);
  }

  lemma {:induction false} TotalUpdate(fs: seq<Fill>, i: nat, f: Fill)
    requires i < |fs|
    ensures Total(fs[i := f]) == Total(fs) - Cost(fs[i]) + Cost(f)
    decreases |fs|
  {
    var m := |fs| - 1;
    if i == m {
      assert fs[i := f][..m] == fs[..m];
    } else {
      assert fs[i := f][..m] == fs[..m][i := f];
      TotalUpdate(fs[..m], i, f);
    }
  }
}
