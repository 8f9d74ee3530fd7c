// Giving a file's blocks back (mCertiKOS/kern/fs/block.c, block_free, and inode.c,
// inode_trunc): what the volume looks like part way and at the end.
module Truncation {
  import opened Bitmap
  import opened Volume
  import opened VolumeOps
  import opened FileState

  // block_free's change to the bitmap.
  function Unmark(v: Vol, b: nat): Vol
    requires BBlock(v.sb, b) < |v.view|
  {
    Rewrite(v, BBlock(v.sb, b), FlipIn(v.view[BBlock(v.sb, b)], b % BPB))
  }

  lemma UnmarkBit(v: Vol, b: nat, x: nat)
    requires SizesOk(v) && b < v.sb.size && x < v.sb.size
    ensures BBlock(v.sb, 0) <= BBlock(v.sb, b) < DataStart(v.sb) <= |v.view| && BBlock(v.sb, x) < |v.view|
    ensures BitSet(Unmark(v, b), x) <==> (if x == b then !BitSet(v, b) else BitSet(v, x))
  {
    BitmapRange(v.sb, b);
    BitmapRange(v.sb, x);
    FlipInBit(v.view[BBlock(v.sb, b)], b % BPB, x % BPB);
    if BBlock(v.sb, b) == BBlock(v.sb, x) && x != b {
      assert x / BPB == b / BPB;
      assert x % BPB != b % BPB;
    }
  }

  // w is v with the blocks of gone marked free, its inodes aside.
  ghost predicate Freed(v: Vol, w: Vol, gone: set<nat>)
    requires SizesOk(v)
  {
    && SizesOk(w) && w.sb == v.sb
    && (forall x :: 0 <= x < |v.view| && !(BBlock(v.sb, 0) <= x < DataStart(v.sb)) ==> w.view[x] == v.view[x])
    && (forall x: nat :: x < v.sb.size ==>
      BBlock(v.sb, x) < |v.view| && (BitSet(w, x) <==> BitSet(v, x) && x !in gone))
  }

  lemma FreedNone(v: Vol)
    requires SizesOk(v)
    ensures Freed(v, v, {})
  {
    forall x: nat | x < v.sb.size ensures BBlock(v.sb, x) < |v.view| {
      BitmapRange(v.sb, x);
    }
  }

  lemma FreedMore(v: Vol, w: Vol, gone: set<nat>, b: nat)
    requires SizesOk(v) && Freed(v, w, gone) && b < v.sb.size && b !in gone
    requires BBlock(v.sb, b) < |v.view| && BitSet(v, b)
    ensures Freed(v, Unmark(w, b), gone + {b})
  {
    UnmarkBit(w, b, b);
    var u := Unmark(w, b);
    forall x: nat | x < v.sb.size
      ensures BBlock(v.sb, x) < |v.view| && (BitSet(u, x) <==> BitSet(v, x) && x !in gone + {b})
    {
      UnmarkBit(w, b, x);
    }
  }

  // The slots inode_trunc has dealt with after its first n: the direct ones, the
  // entries of the indirect block, the indirect block itself.
  function Nth(n: nat): nat {
    if n < NDIRECT then n else if n < NSLOTS - 1 then n + 1 else NDIRECT
  }

  // gone is what the first n slots of file i referred to.
  ghost predicate Gone(s: State, i: nat, n: nat, gone: set<nat>)
    requires i < |s.v.inode| && |s.v.inode[i].addrs| == NDIRECT + 1
  {
    && (forall k: nat :: k < n && k < NSLOTS && Ref(s.v, i, Nth(k)) != 0 ==> Ref(s.v, i, Nth(k)) in gone)
    && (forall b :: b in gone ==> b in s.own && exists k: nat ::
      k < n && k < NSLOTS && Ref(s.v, i, Nth(k)) == b && s.own[b] == Owner(i, Nth(k)))
  }

  lemma SlotMarked(s: State, i: nat, t: nat)
    requires Ok(s) && i < |s.v.inode| && |s.v.inode[i].addrs| == NDIRECT + 1 && t < NSLOTS
    ensures SizesOk(s.v)
    ensures var b := Ref(s.v, i, t);
      && (b != 0 ==> b < s.v.sb.size && b in s.own && s.own[b] == Owner(i, t))
      && (b != 0 ==> BBlock(s.v.sb, b) < |s.v.view| && BitSet(s.v, b))
  {
    var b := Ref(s.v, i, t);
    SlotFacts(s.v, s.own, s.fs, i, t);
    if b != 0 {
      BitmapRange(s.v.sb, b);
      assert BitSet(s.v, b);
    }
  }

  // The next slot's block, if any, is still marked in use: block_free cannot find
  // it free already.
  lemma StillUsed(s: State, i: nat, n: nat, gone: set<nat>)
    requires Ok(s) && i < |s.v.inode| && |s.v.inode[i].addrs| == NDIRECT + 1 && n < NSLOTS && Gone(s, i, n, gone)
    ensures SizesOk(s.v)
    ensures var b := Ref(s.v, i, Nth(n));
      && (b == 0 ==> Gone(s, i, n + 1, gone))
      && (b != 0 ==> b < s.v.sb.size && b !in gone && Gone(s, i, n + 1, gone + {b}))
      && (b != 0 ==> BBlock(s.v.sb, b) < |s.v.view| && BitSet(s.v, b))
  {
    hide Ok, BitSet, Ref;
    SlotMarked(s, i, Nth(n));
  }

  // The file is empty and its blocks belong to nobody.
  ghost function Emptied(s: State, w: Vol, i: nat, gone: set<nat>): State
    requires i < |s.fs| && i < |s.files|
  {
    State(w, map r | r in s.own && r !in gone :: s.own[r], s.fs[i := Fill(0, false)], s.files[i := []])
  }

  // Only inode i changed, and it refers to nothing.
  ghost predicate Cleared(v: Vol, w: Vol, i: nat) {
    && i < |v.inode| == |w.inode|
    && (forall j :: 0 <= j < |v.inode| && j != i ==> w.inode[j] == v.inode[j])
    && |w.inode[i].addrs| == NDIRECT + 1 && forall k :: 0 <= k <= NDIRECT ==> w.inode[i].addrs[k] == 0
  }

  lemma EmptiedOk(s: State, w: Vol, i: nat, gone: set<nat>)
    requires Ok(s) && i < |s.v.inode| && |s.v.inode[i].addrs| == NDIRECT + 1 && Gone(s, i, NSLOTS, gone)
    requires Freed(s.v, w, gone) && Cleared(s.v, w, i)
    ensures i < |s.fs| && i < |s.files| && Ok(Emptied(s, w, i, gone))
  {
    var t := Emptied(s, w, i, gone);
    EmptiedBits(s, w, i, gone);
    forall j, k: nat | 0 <= j < |s.fs| && k < NSLOTS ensures RefOk(w, t.own, t.fs[j], j, k) {
      EmptiedRef(s, w, i, gone, j, k);
    }
    forall j | 0 <= j < |s.files| ensures Shows(w, t.fs[j], j, t.files[j]) {
      if j != i {
        Untouched(s.v, w, s.own, s.fs, j);
        ShowsKept(s.v, w, s.fs[j], t.fs[j], j, s.files[j]);
      }
    }
  }

  lemma EmptiedBits(s: State, w: Vol, i: nat, gone: set<nat>)
    requires Ok(s) && i < |s.v.inode| && |s.v.inode[i].addrs| == NDIRECT + 1 && Gone(s, i, NSLOTS, gone)
    requires Freed(s.v, w, gone) && Cleared(s.v, w, i) && i < |s.fs| && i < |s.files|
    ensures OwnedOk(w, Emptied(s, w, i, gone).own) && MetaBits(w)
  {
    hide FilesOk, Shows, Ref;
    forall x | 0 <= x < w.sb.size && (x < DataStart(w.sb) || x >= Start(w.sb))
      ensures BBlock(w.sb, x) < |w.view| && BitSet(w, x)
    {
      assert BitSet(s.v, x);
      assert x !in gone;
    }
  }

  lemma EmptiedRef(s: State, w: Vol, i: nat, gone: set<nat>, j: nat, k: nat)
    requires Ok(s) && i < |s.v.inode| && |s.v.inode[i].addrs| == NDIRECT + 1 && Gone(s, i, NSLOTS, gone)
    requires Freed(s.v, w, gone) && Cleared(s.v, w, i) && j < |s.v.inode| && k < NSLOTS
    ensures i < |s.fs| == |s.v.inode| == |s.files| && |w.inode[j].addrs| == NDIRECT + 1
    ensures var t := Emptied(s, w, i, gone); RefOk(w, t.own, t.fs[j], j, k)
  {
    hide VolOk, Shows, BitSet, BBlock, DataStart, Start;
    OwnedRange(s.v, s.own, s.fs);
    if j != i {
      SlotFacts(s.v, s.own, s.fs, j, k);
      Untouched(s.v, w, s.own, s.fs, j);
      hide Ref;
    }
  }

  // inode_trunc has dealt with its first n slots.
  ghost predicate Trimming(s: State, v: Vol, i: nat, n: nat, gone: set<nat>) {
    && Ok(s) && i < |s.v.inode| && |s.v.inode[i].addrs| == NDIRECT + 1 && n <= NSLOTS
    && Gone(s, i, n, gone) && Freed(s.v, v, gone) && |v.inode| == |s.v.inode|
    && (forall j :: 0 <= j < |s.v.inode| && j != i ==> v.inode[j] == s.v.inode[j])
    && v.inode[i] == s.v.inode[i].(addrs := v.inode[i].addrs) && |v.inode[i].addrs| == NDIRECT + 1
    && (forall k :: 0 <= k < NDIRECT ==> v.inode[i].addrs[k] == if k < n then 0 else s.v.inode[i].addrs[k])
    && v.inode[i].addrs[NDIRECT] == if n == NSLOTS then 0 else s.v.inode[i].addrs[NDIRECT]
  }

  lemma TrimStart(s: State, i: nat)
    requires Ok(s) && i < |s.v.inode|
    ensures Trimming(s, s.v, i, 0, {})
  {
    FreedNone(s.v);
  }

  // Slot n as inode_trunc now finds it.
  lemma TrimSlot(s: State, v: Vol, i: nat, n: nat, gone: set<nat>)
    requires Trimming(s, v, i, n, gone) && n < NSLOTS
    ensures i < |v.inode| == |s.v.inode| && |v.inode[i].addrs| == |s.v.inode[i].addrs| == NDIRECT + 1 && Nth(n) < NSLOTS
    ensures SizesOk(v) && |v.view| == Start(v.sb) && v.sb == s.v.sb
    ensures Ref(v, i, Nth(n)) == Ref(s.v, i, Nth(n))
    ensures n >= NDIRECT ==> Ref(v, i, NDIRECT) == Ref(s.v, i, NDIRECT) && (Ref(v, i, NDIRECT) != 0 ==> Ref(v, i, NDIRECT) < |v.view|)
    ensures var b := Ref(v, i, Nth(n));
      b != 0 ==> b < v.sb.size && BBlock(v.sb, b) < |v.view| && BitSet(v, b)
  {
    StillUsed(s, i, n, gone);
    SlotFacts(s.v, s.own, s.fs, i, NDIRECT);
    hide Ok, VolOk, Gone;
    var a := s.v.inode[i].addrs[NDIRECT];
    assert Ref(s.v, i, NDIRECT) == a;
    assert a != 0 ==> v.view[a] == s.v.view[a];
    assert Ref(v, i, Nth(n)) == Ref(s.v, i, Nth(n));
    hide Ref, BitSet;
  }

  // ip->addrs[slot] = 0
  function Drop(v: Vol, i: nat, n: nat): Vol
    requires i < |v.inode| && |v.inode[i].addrs| == NDIRECT + 1
  {
    if n < NDIRECT || n == NSLOTS - 1 then Link(v, i, Nth(n), 0) else v
  }

  lemma TrimStep(s: State, v: Vol, i: nat, n: nat, gone: set<nat>, b: nat)
    requires Trimming(s, v, i, n, gone) && n < NSLOTS && b == Ref(s.v, i, Nth(n))
    ensures i < |v.inode| && |v.inode[i].addrs| == NDIRECT + 1
    ensures b == 0 && n < NSLOTS - 1 ==> Trimming(s, v, i, n + 1, gone)
    ensures b != 0 ==> BBlock(v.sb, b) < |v.view| && Trimming(s, Drop(Unmark(v, b), i, n), i, n + 1, gone + {b})
  {
    hide Ok, Gone, Freed, BitSet;
    assert n < NDIRECT ==> s.v.inode[i].addrs[n] == b;
    hide Ref;
    StillUsed(s, i, n, gone);
    FreedSizes(s.v, v, gone);
    if b != 0 {
      FreedMore(s.v, v, gone, b);
      FreedLinks(s.v, Unmark(v, b), gone + {b}, i, n);
    }
  }

  lemma FreedSizes(v: Vol, w: Vol, gone: set<nat>)
    requires SizesOk(v) && Freed(v, w, gone)
    ensures w.sb == v.sb && |w.view| == |v.view|
  {
  }

  lemma FreedLinks(v: Vol, w: Vol, gone: set<nat>, i: nat, n: nat)
    requires SizesOk(v) && Freed(v, w, gone) && i < |w.inode| && |w.inode[i].addrs| == NDIRECT + 1 && n < NSLOTS
    ensures Freed(v, Drop(w, i, n), gone)
  {
    var u := Drop(w, i, n);
    forall x: nat | x < v.sb.size ensures BBlock(v.sb, x) < |v.view| && (BitSet(u, x) <==> BitSet(w, x)) {
    }
  }

  // Without an indirect block, the direct slots are all there is.
  lemma TrimSkip(s: State, v: Vol, i: nat, gone: set<nat>)
    requires Trimming(s, v, i, NDIRECT, gone) && v.inode[i].addrs[NDIRECT] == 0
    ensures Trimming(s, v, i, NSLOTS, gone)
  {
    hide Ok, Freed;
    forall k: nat | NDIRECT <= k < NSLOTS ensures Ref(s.v, i, Nth(k)) == 0 {
    }
  }

  ghost predicate RefersTo(v: Vol, i: nat, x: nat)
    requires i < |v.inode| && |v.inode[i].addrs| == NDIRECT + 1
  {
    x != 0 && exists k: nat :: k < NSLOTS && Ref(v, i, k) == x
  }

  // The blocks marked in use are those that were, less the ones file i referred to.
  ghost predicate GaveBack(v: Vol, w: Vol, i: nat)
    requires i < |v.inode| && |v.inode[i].addrs| == NDIRECT + 1
  {
    forall x: nat :: x < v.sb.size ==>
      && BBlock(v.sb, x) < |v.view| && BBlock(w.sb, x) < |w.view|
      && (BitSet(w, x) <==> BitSet(v, x) && !RefersTo(v, i, x))
  }

  lemma TrimDone(s: State, v: Vol, i: nat, gone: set<nat>)
    requires Trimming(s, v, i, NSLOTS, gone)
    ensures i < |s.fs| && i < |s.files| && |s.v.inode| == |v.inode|
    ensures Ok(Emptied(s, v, i, gone)) && GaveBack(s.v, v, i)
  {
    EmptiedOk(s, v, i, gone);
    TrimBits(s, v, i, gone);
  }

  lemma TrimBits(s: State, v: Vol, i: nat, gone: set<nat>)
    requires Trimming(s, v, i, NSLOTS, gone)
    ensures GaveBack(s.v, v, i)
  {
    forall x: nat | x < s.v.sb.size ensures x in gone <==> RefersTo(s.v, i, x) {
      GoneIs(s, i, gone, x);
    }
    hide Ok, Gone, Ref;
  }

  lemma GoneIs(s: State, i: nat, gone: set<nat>, x: nat)
    requires Ok(s) && i < |s.v.inode| && |s.v.inode[i].addrs| == NDIRECT + 1 && Gone(s, i, NSLOTS, gone)
    ensures x in gone <==> RefersTo(s.v, i, x)
  {
    if x in gone {
      assert x != 0;
    }
    hide Ok, Ref;
    if RefersTo(s.v, i, x) {
      var k: nat :| k < NSLOTS && Ref(s.v, i, k) == x;
      assert Nth(if k < NDIRECT then k else if k == NDIRECT then NSLOTS - 1 else k - 1) == k;
    }
  }
}
