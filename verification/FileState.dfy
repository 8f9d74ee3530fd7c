// Files as flat byte sequences over a volume, and the effect on them of each change
// block.c and inode.c make.
module FileState {
  import opened Blocks
  import opened Volume
  import opened VolumeOps

  // A volume, who owns its blocks, how far each file is filled, and the bytes each
  // file holds.
  datatype State = State(v: Vol, own: map<nat, Owner>, fs: seq<Fill>, files: seq<seq<Byte>>)

  ghost predicate Shows(v: Vol, f: Fill, i: nat, c: seq<Byte>)
    requires i < |v.inode| && |v.inode[i].addrs| == NDIRECT + 1
  {
    && |c| <= BSIZE * f.nb && f.nb <= MAXFILE
    && forall p: nat :: p < |c| ==> p / BSIZE < MAXFILE && ByteAt(v, i, p) == c[p]
  }

  ghost predicate Ok(s: State) {
    && VolOk(s.v, s.own, s.fs)
    && |s.files| == |s.v.inode|
    && forall i :: 0 <= i < |s.files| ==> Shows(s.v, s.fs[i], i, s.files[i])
  }

  // The fill of a file of n bytes, without holes.
  function FillOf(n: nat): Fill {
    var nb := (n + BSIZE - 1) / BSIZE;
    Fill(nb, nb > NDIRECT)
  }

  // The inode on disk agrees with the one in memory, and both with the bytes.
  ghost predicate Settled(s: State, i: nat)
    requires i < |s.v.inode| && IBlock(i) < |s.v.view| && i < |s.files| && i < |s.fs|
  {
    && Stored(s.v.view, i) == s.v.inode[i]
    && s.v.inode[i].size == |s.files[i]|
    && s.fs[i] == FillOf(|s.files[i]|)
  }

  // What a step on file i leaves alone: other inodes, all inode blocks, and all of
  // inode i but its addresses.
  ghost predicate Frame(s: State, t: State, i: nat)
    requires i < |s.v.inode|
  {
    && t.v.sb == s.v.sb && |t.v.view| == |s.v.view|
    && |t.v.inode| == |s.v.inode| && |t.fs| == |s.fs|
    && t.v.inode[i] == s.v.inode[i].(addrs := t.v.inode[i].addrs)
    && (forall j :: 0 <= j < |s.v.inode| && j != i ==> t.v.inode[j] == s.v.inode[j])
    && (forall j :: 0 <= j < |s.fs| && j != i ==> t.fs[j] == s.fs[j])
    && (forall x :: 0 <= x < BBlock(s.v.sb, 0) && x < |s.v.view| ==> t.v.view[x] == s.v.view[x])
  }

  lemma ShowsKept(v: Vol, w: Vol, f: Fill, g: Fill, i: nat, c: seq<Byte>)
    requires i < |v.inode| && |v.inode[i].addrs| == NDIRECT + 1
    requires Shows(v, f, i, c) && SameFile(v, w, i, f.nb) && f.nb <= g.nb <= MAXFILE
    ensures Shows(w, g, i, c)
  {
  }

  ghost function Allocated(s: State, b: nat): State
    requires b < |s.v.view| && BBlock(s.v.sb, b) < |s.v.view|
  {
    s.(v := Alloc(s.v, b))
  }

  lemma AllocatedOk(s: State, b: nat, i: nat)
    requires Ok(s) && b < s.v.sb.size && BBlock(s.v.sb, b) < |s.v.view| && !BitSet(s.v, b) && i < |s.v.inode|
    ensures var t := Allocated(s, b); Ok(t) && Spare(t.v, t.own, b) && Frame(s, t, i)
  {
    AllocKeeps(s.v, s.own, s.fs, b);
    FreeBlock(s.v, s.own, s.fs, b);
    BitmapRange(s.v.sb, b);
    var t := Allocated(s, b);
    hide VolOk, SameFile;
    forall j | 0 <= j < |s.files| ensures Shows(t.v, s.fs[j], j, s.files[j]) {
      ShowsKept(s.v, t.v, s.fs[j], s.fs[j], j, s.files[j]);
    }
  }

  ghost function Linked(s: State, i: nat, slot: nat, b: nat): State
    requires i < |s.v.inode| && |s.v.inode[i].addrs| == NDIRECT + 1 && slot <= NDIRECT && |s.fs| == |s.v.inode|
  {
    State(Link(s.v, i, slot, b), s.own[b := Owner(i, slot)], s.fs[i := Filled(s.fs[i], slot)], s.files)
  }

  lemma LinkedOk(s: State, i: nat, slot: nat, b: nat)
    requires Ok(s) && i < |s.v.inode| && slot <= NDIRECT && NextSlot(s.fs[i], slot) && Spare(s.v, s.own, b)
    ensures var t := Linked(s, i, slot, b); Ok(t) && Frame(s, t, i) && Ref(t.v, i, slot) == b
  {
    LinkKeeps(s.v, s.own, s.fs, i, slot, b);
    var t := Linked(s, i, slot, b);
    assert FillOk(t.fs[i]);
    hide VolOk, SameFile;
    forall j | 0 <= j < |s.files| ensures Shows(t.v, t.fs[j], j, s.files[j]) {
      ShowsKept(s.v, t.v, s.fs[j], t.fs[j], j, s.files[j]);
    }
  }

  ghost function LinkedEntry(s: State, i: nat, k: nat, b: nat): State
    requires i < |s.v.inode| && |s.v.inode[i].addrs| == NDIRECT + 1 && k < NINDIRECT && |s.fs| == |s.v.inode|
    requires s.v.inode[i].addrs[NDIRECT] < |s.v.view| && b < MAXWORD
  {
    State(LinkEntry(s.v, i, k, b), s.own[b := Owner(i, NDIRECT + 1 + k)],
          s.fs[i := Filled(s.fs[i], NDIRECT + 1 + k)], s.files)
  }

  lemma FillsOk(v: Vol, own: map<nat, Owner>, fs: seq<Fill>, i: nat)
    requires VolOk(v, own, fs) && i < |fs|
    ensures FillOk(fs[i])
  {
  }

  lemma LinkedEntryOk(s: State, i: nat, k: nat, b: nat)
    requires Ok(s) && i < |s.v.inode| && k < NINDIRECT && NextSlot(s.fs[i], NDIRECT + 1 + k) && Spare(s.v, s.own, b)
    ensures DataStart(s.v.sb) <= s.v.inode[i].addrs[NDIRECT] < Start(s.v.sb) <= |s.v.view|
    ensures var t := LinkedEntry(s, i, k, b); Ok(t) && Frame(s, t, i) && Ref(t.v, i, NDIRECT + 1 + k) == b
  {
    hide VolOk, SameFile, DataStart, Start, BBlock, BitSet, PutWord;
    LinkEntryKeeps(s.v, s.own, s.fs, i, k, b);
    OwnedRange(s.v, s.own, s.fs);
    BitmapRange(s.v.sb, 0);
    var t := LinkedEntry(s, i, k, b);
    FillsOk(t.v, t.own, t.fs, i);
    forall j | 0 <= j < |s.files| ensures Shows(t.v, t.fs[j], j, s.files[j]) {
      ShowsKept(s.v, t.v, s.fs[j], t.fs[j], j, s.files[j]);
    }
  }

  // data written over c from off on, extending it if need be.
  function Splice(c: seq<Byte>, off: nat, data: seq<Byte>): (r: seq<Byte>)
    requires off <= |c|
    ensures |r| == if off + |data| > |c| then off + |data| else |c|
  {
    c[..off] + data + if off + |data| < |c| then c[off + |data|..] else []
  }

  lemma SpliceMore(c: seq<Byte>, off: nat, a: seq<Byte>, b: seq<Byte>)
    requires off <= |c|
    ensures Splice(Splice(c, off, a), off + |a|, b) == Splice(c, off, a + b)
  {
  }

  ghost function Patched(s: State, i: nat, bn: nat, at: nat, data: seq<Byte>): State
    requires i < |s.v.inode| && |s.v.inode[i].addrs| == NDIRECT + 1 && SlotOf(bn) < NSLOTS && at + |data| <= BSIZE
    requires Ref(s.v, i, SlotOf(bn)) < |s.v.view| && |s.files| == |s.v.inode| && BSIZE * bn + at <= |s.files[i]|
  {
    var r := Ref(s.v, i, SlotOf(bn));
    State(Rewrite(s.v, r, Patch(s.v.view[r], at, data)), s.own, s.fs,
          s.files[i := Splice(s.files[i], BSIZE * bn + at, data)])
  }

  lemma PatchedOk(s: State, i: nat, bn: nat, at: nat, data: seq<Byte>)
    requires Ok(s) && i < |s.v.inode| && bn < s.fs[i].nb && at + |data| <= BSIZE
    requires BSIZE * bn + at <= |s.files[i]|
    ensures SlotOf(bn) < NSLOTS && DataStart(s.v.sb) <= Ref(s.v, i, SlotOf(bn)) < Start(s.v.sb) <= |s.v.view|
    ensures var t := Patched(s, i, bn, at, data); Ok(t) && Frame(s, t, i)
  {
    DataRef(s.v, s.own, s.fs, i, bn);
    var r, t := Ref(s.v, i, SlotOf(bn)), Patched(s, i, bn, at, data);
    RewriteKeeps(s.v, s.own, s.fs, r, Patch(s.v.view[r], at, data));
    forall j | 0 <= j < |s.files| ensures Shows(t.v, t.fs[j], j, t.files[j]) {
      PatchShows(s, i, bn, at, data, j);
    }
  }

  lemma PatchShows(s: State, i: nat, bn: nat, at: nat, data: seq<Byte>, j: nat)
    requires Ok(s) && i < |s.v.inode| && bn < s.fs[i].nb && at + |data| <= BSIZE
    requires BSIZE * bn + at <= |s.files[i]| && j < |s.files|
    requires SlotOf(bn) < NSLOTS && Ref(s.v, i, SlotOf(bn)) < |s.v.view|
    ensures var t := Patched(s, i, bn, at, data); Shows(t.v, t.fs[j], j, t.files[j])
  {
    var t := Patched(s, i, bn, at, data);
    var c, d := s.files[j], t.files[j];
    assert Shows(s.v, s.fs[j], j, c);
    forall p: nat | p < |d| ensures p / BSIZE < MAXFILE && ByteAt(t.v, j, p) == d[p] {
      PatchByte(s.v, s.own, s.fs, i, bn, at, data, j, p);
      hide VolOk;
    }
  }

  ghost function Updated(s: State, i: nat): State
    requires i < |s.v.inode| && IBlock(i) < |s.v.view| && INodeOk(s.v.inode[i])
  {
    s.(v := Rewrite(s.v, IBlock(i), Store(s.v.view, i, s.v.inode[i])))
  }

  lemma UpdatedOk(s: State, i: nat)
    requires Ok(s) && i < |s.v.inode|
    ensures IBlock(i) < BBlock(s.v.sb, 0) <= Start(s.v.sb) <= |s.v.view|
    ensures Ok(Updated(s, i))
    ensures forall j :: 0 <= j < |s.v.inode| && IBlock(j) < |s.v.view| ==>
      Stored(Updated(s, i).v.view, j) == if j == i then s.v.inode[i] else Stored(s.v.view, j)
  {
    InodeRange(s.v.sb, i);
    BitmapRange(s.v.sb, 0);
    UpdateKeeps(s.v, s.own, s.fs, i);
    var t := Updated(s, i);
    forall j | 0 <= j < |s.v.inode| && IBlock(j) < |s.v.view|
      ensures Stored(t.v.view, j) == if j == i then s.v.inode[i] else Stored(s.v.view, j)
    {
      StoreThenRead(s.v.view, i, s.v.inode[i], j);
    }
    hide VolOk, SameFile, Store, Stored;
    forall j | 0 <= j < |s.files| ensures Shows(t.v, s.fs[j], j, s.files[j]) {
      ShowsKept(s.v, t.v, s.fs[j], s.fs[j], j, s.files[j]);
    }
  }

  lemma ReadByte(s: State, i: nat, p: nat)
    requires Ok(s) && i < |s.v.inode| && p < |s.files[i]|
    ensures p / BSIZE < s.fs[i].nb && SlotOf(p / BSIZE) < NSLOTS && |s.v.inode[i].addrs| == NDIRECT + 1
    ensures Ref(s.v, i, SlotOf(p / BSIZE)) < |s.v.view|
    ensures s.files[i][p] == s.v.view[Ref(s.v, i, SlotOf(p / BSIZE))][p % BSIZE]
  {
    assert Shows(s.v, s.fs[i], i, s.files[i]);
    DataRef(s.v, s.own, s.fs, i, p / BSIZE);
    assert ByteAt(s.v, i, p) == s.files[i][p];
  }

  // A stretch of a file inside one block is a stretch of that block.
  lemma ReadBlock(s: State, i: nat, o: nat, m: nat)
    requires Ok(s) && i < |s.v.inode| && o + m <= |s.files[i]| && o % BSIZE + m <= BSIZE && m > 0
    ensures o / BSIZE < s.fs[i].nb && SlotOf(o / BSIZE) < NSLOTS && |s.v.inode[i].addrs| == NDIRECT + 1
    ensures Ref(s.v, i, SlotOf(o / BSIZE)) < |s.v.view|
    ensures s.files[i][o..o + m] == s.v.view[Ref(s.v, i, SlotOf(o / BSIZE))][o % BSIZE..o % BSIZE + m]
  {
    ReadByte(s, i, o);
    hide Ok, Ref, Shows;
    var x := s.files[i][o..o + m];
    var y := s.v.view[Ref(s.v, i, SlotOf(o / BSIZE))][o % BSIZE..o % BSIZE + m];
    forall k | 0 <= k < m ensures x[k] == y[k] {
      assert (o + k) / BSIZE == o / BSIZE && (o + k) % BSIZE == o % BSIZE + k;
      ReadByte(s, i, o + k);
    }
  }

  // Inode i replaced by m, which refers to the same blocks.
  ghost function Labelled(s: State, i: nat, m: INode): State
    requires i < |s.v.inode|
  {
    s.(v := s.v.(inode := s.v.inode[i := m]))
  }

  lemma LabelledOk(s: State, i: nat, m: INode)
    requires Ok(s) && i < |s.v.inode| && INodeOk(m) && m.addrs == s.v.inode[i].addrs
    ensures Ok(Labelled(s, i, m))
  {
    var t := Labelled(s, i, m);
    forall j, slot: nat | 0 <= j < |s.fs| && slot < NSLOTS
      ensures RefOk(t.v, s.own, s.fs[j], j, slot) && Ref(t.v, j, slot) == Ref(s.v, j, slot)
    {
      assert RefOk(s.v, s.own, s.fs[j], j, slot);
    }
    forall j | 0 <= j < |s.files| ensures Shows(t.v, s.fs[j], j, s.files[j]) {
      hide RefOk, OwnedOk, MetaBits;
      assert Shows(s.v, s.fs[j], j, s.files[j]);
      forall p: nat | p < |s.files[j]| ensures p / BSIZE < MAXFILE && ByteAt(t.v, j, p) == s.files[j][p] {
        assert ByteAt(s.v, j, p) == s.files[j][p];
      }
    }
  }

  ghost function Resized(s: State, i: nat, n: nat): State
    requires i < |s.v.inode|
  {
    Labelled(s, i, s.v.inode[i].(size := n))
  }

  lemma ResizedOk(s: State, i: nat, n: nat)
    requires Ok(s) && i < |s.v.inode| && n < MAXWORD
    ensures Ok(Resized(s, i, n))
  {
    assert INodeOk(s.v.inode[i]);
    LabelledOk(s, i, s.v.inode[i].(size := n));
  }
}
