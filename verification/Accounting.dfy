// No block leaks: a data block is marked in use exactly when a file refers to it,
// from exactly one slot.
module Accounting {
  import opened Blocks
  import opened Volume
  import opened VolumeOps
  import opened FileState
  import opened Truncation

  // Every owner does refer to its block.
  ghost predicate Exact(v: Vol, own: map<nat, Owner>)
    requires SizesOk(v)
  {
    forall r :: r in own ==>
      r != 0 && own[r].inum < |v.inode| && own[r].slot < NSLOTS && Ref(v, own[r].inum, own[r].slot) == r
  }

  // Every data block marked in use is owned, or is among extra.
  ghost predicate Covered(v: Vol, own: map<nat, Owner>, extra: set<nat>)
    requires SizesOk(v)
  {
    forall b: nat :: DataStart(v.sb) <= b < Start(v.sb) ==>
      BBlock(v.sb, b) < |v.view| && (BitSet(v, b) ==> b in own || b in extra)
  }

  ghost predicate Accounted(s: State, extra: set<nat>) {
    Ok(s) && SizesOk(s.v) && Exact(s.v, s.own) && Covered(s.v, s.own, extra)
  }

  ghost predicate Full(s: State) { Accounted(s, {}) }

  // The whole account: a data block is in use iff some file refers to it.
  lemma InUseIff(s: State, b: nat)
    requires Full(s) && DataStart(s.v.sb) <= b < Start(s.v.sb)
    ensures BBlock(s.v.sb, b) < |s.v.view|
    ensures BitSet(s.v, b) <==>
      exists i: nat :: i < |s.v.inode| && |s.v.inode[i].addrs| == NDIRECT + 1 && RefersTo(s.v, i, b)
  {
    BitmapRange(s.v.sb, b);
    forall i: nat, t: nat | i < |s.v.inode| && t < NSLOTS && |s.v.inode[i].addrs| == NDIRECT + 1 && Ref(s.v, i, t) == b
      ensures BitSet(s.v, b)
    {
      SlotMarked(s, i, t);
    }
    if BitSet(s.v, b) {
      var o := s.own[b];
      assert Ref(s.v, o.inum, o.slot) == b;
      assert RefersTo(s.v, o.inum, b);
    }
  }

  // ---------- Steps ----------

  // References in and out of the owned blocks are as before.
  lemma ExactKept(v: Vol, w: Vol, own: map<nat, Owner>)
    requires SizesOk(v) && SizesOk(w) && Exact(v, own) && |w.inode| == |v.inode|
    requires forall r :: r in own ==> Ref(w, own[r].inum, own[r].slot) == Ref(v, own[r].inum, own[r].slot)
    ensures Exact(w, own)
  {
  }

  lemma CoveredKept(v: Vol, w: Vol, own: map<nat, Owner>, extra: set<nat>)
    requires SizesOk(v) && SizesOk(w) && w.sb == v.sb && Covered(v, own, extra)
    requires forall x :: BBlock(v.sb, 0) <= x < DataStart(v.sb) ==> w.view[x] == v.view[x]
    ensures Covered(w, own, extra)
  {
    forall b: nat | DataStart(v.sb) <= b < Start(v.sb)
      ensures BBlock(v.sb, b) < |w.view| && (BitSet(w, b) ==> b in own || b in extra)
    {
      BitmapRange(v.sb, b);
    }
  }

  lemma AllocRef(s: State, b: nat, j: nat, u: nat)
    requires Ok(s) && b < s.v.sb.size && BBlock(s.v.sb, b) < |s.v.view| && !BitSet(s.v, b) && j < |s.v.inode| && u < NSLOTS
    requires DataStart(s.v.sb) <= b < |s.v.view|
    ensures |s.v.inode[j].addrs| == NDIRECT + 1 && Ref(Allocated(s, b).v, j, u) == Ref(s.v, j, u)
  {
    FreeBlock(s.v, s.own, s.fs, b);
    BitmapRange(s.v.sb, b);
    SlotFacts(s.v, s.own, s.fs, j, NDIRECT);
    hide VolOk, BitSet, GetWord;
  }

  lemma AllocSizes(v: Vol, b: nat)
    requires SizesOk(v) && b < |v.view| && BBlock(v.sb, b) < |v.view|
    ensures var w := Alloc(v, b); SizesOk(w) && w.sb == v.sb && w.inode == v.inode && |w.view| == |v.view|
  {
  }

  lemma AllocatedHalf(s: State, b: nat)
    requires Full(s) && b < s.v.sb.size && BBlock(s.v.sb, b) < |s.v.view| && !BitSet(s.v, b) && b < |s.v.view|
    requires Ok(Allocated(s, b))
    ensures Accounted(Allocated(s, b), {b})
  {
    hide VolOk, Shows, BitSet, Ref, Alloc;
    FreeBlock(s.v, s.own, s.fs, b);
    var t := Allocated(s, b);
    AllocSizes(s.v, b);
    forall r | r in s.own ensures Ref(t.v, s.own[r].inum, s.own[r].slot) == Ref(s.v, s.own[r].inum, s.own[r].slot) {
      AllocRef(s, b, s.own[r].inum, s.own[r].slot);
    }
    ExactKept(s.v, t.v, s.own);
    forall x: nat | DataStart(s.v.sb) <= x < Start(s.v.sb)
      ensures BBlock(s.v.sb, x) < |t.v.view| && (BitSet(t.v, x) ==> x in t.own || x in {b})
    {
      AllocBits(s.v, b, x);
    }
  }

  // b becomes the block in slot u of file i, where there was none.
  lemma JoinedFull(s: State, t: State, i: nat, u: nat, b: nat)
    requires Accounted(s, {b}) && Ok(t) && SizesOk(t.v) && t.v.sb == s.v.sb && |t.v.inode| == |s.v.inode| && b != 0
    requires i < |s.v.inode| && u < NSLOTS && t.own == s.own[b := Owner(i, u)] && b !in s.own
    requires Ref(s.v, i, u) == 0 && Ref(t.v, i, u) == b
    requires forall r :: r in s.own && s.own[r] != Owner(i, u) ==>
      Ref(t.v, s.own[r].inum, s.own[r].slot) == Ref(s.v, s.own[r].inum, s.own[r].slot)
    requires forall x :: BBlock(s.v.sb, 0) <= x < DataStart(s.v.sb) ==> t.v.view[x] == s.v.view[x]
    ensures Full(t)
  {
    hide Ok, Ref, BitSet;
    CoveredKept(s.v, t.v, s.own, {b});
  }

  lemma EmptySlot(s: State, i: nat, u: nat)
    requires Ok(s) && i < |s.v.inode| && u < NSLOTS && NextSlot(s.fs[i], u)
    ensures |s.v.inode[i].addrs| == NDIRECT + 1 && Ref(s.v, i, u) == 0
  {
    SlotFacts(s.v, s.own, s.fs, i, u);
  }

  lemma OkVol(s: State)
    requires Ok(s)
    ensures SizesOk(s.v) && VolOk(s.v, s.own, s.fs) && |s.fs| == |s.v.inode| == |s.files|
    ensures forall r :: r in s.own ==> DataStart(s.v.sb) <= r < Start(s.v.sb) && s.own[r].inum < |s.v.inode| && s.own[r].slot < NSLOTS
  {
  }

  lemma LinkedFull(s: State, i: nat, u: nat, b: nat)
    requires Accounted(s, {b}) && i < |s.v.inode| && u <= NDIRECT && NextSlot(s.fs[i], u) && Spare(s.v, s.own, b)
    requires Ok(Linked(s, i, u, b))
    ensures Full(Linked(s, i, u, b))
  {
    hide VolOk, Shows, BitSet, RefOk;
    OkVol(s);
    var t := Linked(s, i, u, b);
    EmptySlot(s, i, u);
    OkVol(t);
    LinkRef(s.v, s.own, s.fs, i, u, b, u);
    forall r | r in s.own && s.own[r] != Owner(i, u)
      ensures Ref(t.v, s.own[r].inum, s.own[r].slot) == Ref(s.v, s.own[r].inum, s.own[r].slot)
    {
      if s.own[r].inum == i { LinkRef(s.v, s.own, s.fs, i, u, b, s.own[r].slot); }
    }
    JoinedFull(s, t, i, u, b);
  }

  lemma LinkedEntryFull(s: State, i: nat, k: nat, b: nat)
    requires Accounted(s, {b}) && i < |s.v.inode| && k < NINDIRECT && NextSlot(s.fs[i], NDIRECT + 1 + k) && Spare(s.v, s.own, b)
    requires |s.v.inode[i].addrs| == NDIRECT + 1 && DataStart(s.v.sb) <= s.v.inode[i].addrs[NDIRECT] < |s.v.view| && b < MAXWORD
    requires Ok(LinkedEntry(s, i, k, b))
    ensures Full(LinkedEntry(s, i, k, b))
  {
    hide VolOk, Shows, BitSet, RefOk, PutWord;
    OkVol(s);
    var t, u := LinkedEntry(s, i, k, b), NDIRECT + 1 + k;
    EmptySlot(s, i, u);
    OkVol(t);
    hide Ref, Exact, Covered;
    LinkEntryRef(s.v, s.own, s.fs, i, k, b, u);
    forall r | r in s.own && s.own[r] != Owner(i, u)
      ensures Ref(t.v, s.own[r].inum, s.own[r].slot) == Ref(s.v, s.own[r].inum, s.own[r].slot)
    {
      EntryElsewhere(s, i, k, b, s.own[r].inum, s.own[r].slot);
    }
    JoinedFull(s, t, i, u, b);
  }

  lemma EntryElsewhere(s: State, i: nat, k: nat, b: nat, j: nat, u: nat)
    requires Ok(s) && i < |s.v.inode| && k < NINDIRECT && NextSlot(s.fs[i], NDIRECT + 1 + k) && Spare(s.v, s.own, b)
    requires |s.v.inode[i].addrs| == NDIRECT + 1 && s.v.inode[i].addrs[NDIRECT] < |s.v.view| && b < MAXWORD
    requires j < |s.v.inode| && u < NSLOTS && Owner(j, u) != Owner(i, NDIRECT + 1 + k)
    ensures |s.v.inode[j].addrs| == NDIRECT + 1 && Ref(LinkEntry(s.v, i, k, b), j, u) == Ref(s.v, j, u)
  {
    hide VolOk, Shows, BitSet, GetWord, PutWord, DataStart, Start, BBlock;
    OwnedRange(s.v, s.own, s.fs);
    if j == i {
      LinkEntryRef(s.v, s.own, s.fs, i, k, b, u);
    } else {
      SlotFacts(s.v, s.own, s.fs, j, NDIRECT);
      SlotFacts(s.v, s.own, s.fs, i, NDIRECT);
      var q, p := s.v.inode[i].addrs[NDIRECT], s.v.inode[j].addrs[NDIRECT];
      assert Ref(s.v, j, NDIRECT) == p && Ref(s.v, i, NDIRECT) == q;
    }
  }

  // Steps that change no reference and no bit.
  lemma QuietlyFull(s: State, t: State)
    requires Full(s) && Ok(t) && SizesOk(t.v) && t.v.sb == s.v.sb && |t.v.inode| == |s.v.inode| && t.own == s.own
    requires forall r :: r in s.own ==> Ref(t.v, s.own[r].inum, s.own[r].slot) == Ref(s.v, s.own[r].inum, s.own[r].slot)
    requires forall x :: BBlock(s.v.sb, 0) <= x < DataStart(s.v.sb) ==> t.v.view[x] == s.v.view[x]
    ensures Full(t)
  {
    hide Ok, Ref, BitSet;
    ExactKept(s.v, t.v, s.own);
    CoveredKept(s.v, t.v, s.own, {});
  }

  lemma PatchedFull(s: State, i: nat, bn: nat, at: nat, data: seq<Byte>)
    requires Full(s) && i < |s.v.inode| && bn < s.fs[i].nb && at + |data| <= BSIZE && BSIZE * bn + at <= |s.files[i]|
    requires SlotOf(bn) < NSLOTS && DataStart(s.v.sb) <= Ref(s.v, i, SlotOf(bn)) < |s.v.view|
    requires Ok(Patched(s, i, bn, at, data))
    ensures Full(Patched(s, i, bn, at, data))
  {
    hide VolOk, Shows, BitSet, RefOk, Patch, Splice;
    OkVol(s);
    var t, q := Patched(s, i, bn, at, data), Ref(s.v, i, SlotOf(bn));
    OkVol(t);
    DataRef(s.v, s.own, s.fs, i, bn);
    forall r | r in s.own ensures Ref(t.v, s.own[r].inum, s.own[r].slot) == Ref(s.v, s.own[r].inum, s.own[r].slot) {
      RewriteRef(s.v, s.own, s.fs, q, Patch(s.v.view[q], at, data), s.own[r].inum, s.own[r].slot);
    }
    hide Ref;
    QuietlyFull(s, t);
  }

  lemma UpdatedFull(s: State, i: nat)
    requires Full(s) && i < |s.v.inode| && IBlock(i) < BBlock(s.v.sb, 0) && IBlock(i) < |s.v.view| && Ok(Updated(s, i))
    ensures Full(Updated(s, i))
  {
    hide VolOk, Shows, BitSet, RefOk, Store;
    OkVol(s);
    BitmapRange(s.v.sb, 0);
    var t := Updated(s, i);
    OkVol(t);
    forall r | r in s.own ensures Ref(t.v, s.own[r].inum, s.own[r].slot) == Ref(s.v, s.own[r].inum, s.own[r].slot) {
      SlotFacts(s.v, s.own, s.fs, s.own[r].inum, NDIRECT);
    }
    hide Ref;
    QuietlyFull(s, t);
  }

  lemma LabelledFull(s: State, i: nat, m: INode)
    requires Full(s) && i < |s.v.inode| && m.addrs == s.v.inode[i].addrs && Ok(Labelled(s, i, m))
    ensures Full(Labelled(s, i, m))
  {
    hide VolOk, Shows, BitSet, RefOk;
    OkVol(s);
    OkVol(Labelled(s, i, m));
    QuietlyFull(s, Labelled(s, i, m));
  }

  lemma EmptiedFull(s: State, w: Vol, i: nat, gone: set<nat>)
    requires Full(s) && i < |s.v.inode| && |s.v.inode[i].addrs| == NDIRECT + 1 && Gone(s, i, NSLOTS, gone)
    requires Freed(s.v, w, gone) && Cleared(s.v, w, i) && i < |s.fs| && i < |s.files| && Ok(Emptied(s, w, i, gone))
    ensures Full(Emptied(s, w, i, gone))
  {
    hide VolOk, Shows, BitSet, RefOk;
    OkVol(s);
    var t := Emptied(s, w, i, gone);
    OkVol(t);
    forall r | r in t.own ensures r != 0 && Ref(w, t.own[r].inum, t.own[r].slot) == r {
      StillOwned(s, w, i, gone, r);
    }
    hide Ref, Gone;
    forall b: nat | DataStart(w.sb) <= b < Start(w.sb)
      ensures BBlock(w.sb, b) < |w.view| && (BitSet(w, b) ==> b in t.own)
    {
    }
  }

  // A block that stays owned belongs to another file, which still refers to it.
  lemma StillOwned(s: State, w: Vol, i: nat, gone: set<nat>, r: nat)
    requires Full(s) && i < |s.v.inode| && |s.v.inode[i].addrs| == NDIRECT + 1 && Gone(s, i, NSLOTS, gone)
    requires Freed(s.v, w, gone) && Cleared(s.v, w, i) && r in s.own && r !in gone
    ensures s.own[r].inum < |w.inode| && |w.inode[s.own[r].inum].addrs| == NDIRECT + 1 && s.own[r].slot < NSLOTS
    ensures r != 0 && Ref(w, s.own[r].inum, s.own[r].slot) == r
  {
    hide VolOk, Shows, BitSet, RefOk;
    OkVol(s);
    var j, u := s.own[r].inum, s.own[r].slot;
    assert Nth(if u < NDIRECT then u else if u == NDIRECT then NSLOTS - 1 else u - 1) == u;
    assert j != i;
    Untouched(s.v, w, s.own, s.fs, j);
  }
}
