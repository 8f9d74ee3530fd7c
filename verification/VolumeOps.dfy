// The changes block.c and inode.c make to a volume, one block at a time, and what
// each keeps.
module VolumeOps {
  import opened Blocks
  import opened Bitmap
  import opened Volume

  // ---------- Frames ----------

  // Changes outside the bitmap leave every bit alone.
  lemma BitsKept(v: Vol, w: Vol, own: map<nat, Owner>)
    requires SizesOk(v) && SizesOk(w) && w.sb == v.sb && OwnedOk(v, own) && MetaBits(v)
    requires forall x :: BBlock(v.sb, 0) <= x < DataStart(v.sb) ==> w.view[x] == v.view[x]
    ensures OwnedOk(w, own) && MetaBits(w)
    ensures forall b: nat :: b < v.sb.size ==> BBlock(v.sb, b) < |v.view| && (BitSet(w, b) <==> BitSet(v, b))
  {
    forall b: nat | b < v.sb.size
      ensures BBlock(v.sb, b) < |v.view| && (BitSet(w, b) <==> BitSet(v, b))
    {
      BitmapRange(v.sb, b);
    }
    hide BitSet, BBlock;
  }

  // What a volume in order says of one slot.
  lemma SlotFacts(v: Vol, own: map<nat, Owner>, fs: seq<Fill>, j: nat, t: nat)
    requires VolOk(v, own, fs) && j < |v.inode| && t < NSLOTS
    ensures |fs| == |v.inode| && |v.inode[j].addrs| == NDIRECT + 1 && FillOk(fs[j])
    ensures RefOk(v, own, fs[j], j, t)
    ensures Ref(v, j, t) != 0 ==> DataStart(v.sb) <= Ref(v, j, t) < Start(v.sb) <= |v.view|
  {
    hide MetaBits, BitSet, DataStart;
    assert RefOk(v, own, fs[j], j, t);
  }

  // If only file i and its blocks changed, every other file stays as it was.
  lemma OthersKept(v: Vol, w: Vol, own: map<nat, Owner>, fs: seq<Fill>, i: nat, own': map<nat, Owner>, f: Fill)
    requires VolOk(v, own, fs) && i < |v.inode| && |w.view| == |v.view| && |w.inode| == |v.inode|
    requires forall j :: 0 <= j < |v.inode| && j != i ==> w.inode[j] == v.inode[j]
    requires forall r :: r in own && own[r].inum != i ==> r < |v.view| && w.view[r] == v.view[r]
    requires forall r :: r in own ==> r in own' && own'[r] == own[r]
    requires SizesOk(w) && FillOk(f)
    requires forall s: nat :: s < NSLOTS ==> RefOk(w, own', f, i, s)
    ensures FilesOk(w, own', fs[i := f])
    ensures forall j :: 0 <= j < |v.inode| && j != i ==> SameFile(v, w, j, fs[j].nb)
  {
    forall j | 0 <= j < |v.inode| && j != i
      ensures SameFile(v, w, j, fs[j].nb) && forall s: nat :: s < NSLOTS ==> RefOk(w, own', fs[j], j, s)
    {
      Untouched(v, w, own, fs, j);
      forall s: nat | s < NSLOTS ensures RefOk(w, own', fs[j], j, s) {
        assert RefOk(v, own, fs[j], j, s);
      }
    }
  }

  // ---------- block_alloc's effect ----------

  function Alloc(v: Vol, b: nat): Vol
    requires b < |v.view| && BBlock(v.sb, b) < |v.view|
  {
    var bb := BBlock(v.sb, b);
    v.(view := v.view[bb := FlipIn(v.view[bb], b % BPB)][b := ZERO])
  }

  lemma AllocBits(v: Vol, b: nat, x: nat)
    requires SizesOk(v) && DataStart(v.sb) <= b < |v.view| && x < v.sb.size
    ensures BBlock(v.sb, b) < |v.view| && BBlock(v.sb, x) < |v.view|
    ensures BitSet(Alloc(v, b), x) <==> (if x == b then !BitSet(v, b) else BitSet(v, x))
  {
    BitmapRange(v.sb, b);
    BitmapRange(v.sb, x);
    FlipInBit(v.view[BBlock(v.sb, b)], b % BPB, x % BPB);
    if BBlock(v.sb, b) == BBlock(v.sb, x) && x != b {
      assert x / BPB == b / BPB;
      assert x % BPB != b % BPB;
    }
  }

  // A free block belongs to no file.
  lemma FreeBlock(v: Vol, own: map<nat, Owner>, fs: seq<Fill>, b: nat)
    requires VolOk(v, own, fs) && b < v.sb.size
    ensures BBlock(v.sb, b) < |v.view|
    ensures !BitSet(v, b) ==> b !in own && DataStart(v.sb) <= b < Start(v.sb)
  {
    BitmapRange(v.sb, b);
  }

  lemma AllocKeeps(v: Vol, own: map<nat, Owner>, fs: seq<Fill>, b: nat)
    requires VolOk(v, own, fs) && b < v.sb.size && BBlock(v.sb, b) < |v.view| && !BitSet(v, b)
    ensures var w := Alloc(v, b);
      && VolOk(w, own, fs) && BitSet(w, b) && w.view[b] == ZERO
      && (forall j :: 0 <= j < |v.inode| ==> SameFile(v, w, j, fs[j].nb))
  {
    hide VolOk, BitSet;
    FreeBlock(v, own, fs, b);
    OwnedRange(v, own, fs);
    AllocMarks(v, own, fs, b);
    BitmapRange(v.sb, b);
    AllocFiles(v, own, fs, Alloc(v, b));
    AllDone(v, Alloc(v, b), own, fs);
  }

  lemma AllocMarks(v: Vol, own: map<nat, Owner>, fs: seq<Fill>, b: nat)
    requires VolOk(v, own, fs) && DataStart(v.sb) <= b < |v.view| && BBlock(v.sb, b) < |v.view| && !BitSet(v, b)
    ensures var w := Alloc(v, b); SizesOk(w) && OwnedOk(w, own) && MetaBits(w) && BitSet(w, b)
  {
    var w := Alloc(v, b);
    AllocBits(v, b, b);
    forall r | r in own ensures BBlock(v.sb, r) < |w.view| && BitSet(w, r) {
      AllocBits(v, b, r);
    }
    forall x | 0 <= x < v.sb.size && (x < DataStart(v.sb) || x >= Start(v.sb))
      ensures BBlock(v.sb, x) < |w.view| && BitSet(w, x)
    {
      AllocBits(v, b, x);
    }
  }

  lemma AllDone(v: Vol, w: Vol, own: map<nat, Owner>, fs: seq<Fill>)
    requires VolOk(v, own, fs) && SizesOk(w) && OwnedOk(w, own) && MetaBits(w) && FilesOk(w, own, fs)
    ensures VolOk(w, own, fs)
  {
  }

  lemma AllocFiles(v: Vol, own: map<nat, Owner>, fs: seq<Fill>, w: Vol)
    requires VolOk(v, own, fs) && SizesOk(w) && w.inode == v.inode && |w.view| == |v.view|
    requires forall r :: r in own ==> r < |v.view| && w.view[r] == v.view[r]
    ensures FilesOk(w, own, fs)
    ensures forall j :: 0 <= j < |v.inode| ==> SameFile(v, w, j, fs[j].nb)
  {
    forall j | 0 <= j < |v.inode|
      ensures SameFile(v, w, j, fs[j].nb) && forall s: nat :: s < NSLOTS ==> RefOk(w, own, fs[j], j, s)
    {
      Untouched(v, w, own, fs, j);
      forall s: nat | s < NSLOTS ensures RefOk(w, own, fs[j], j, s) {
        assert RefOk(v, own, fs[j], j, s);
      }
    }
  }

  // ---------- bmap's links ----------

  // A zeroed block, marked in use and belonging to no file yet.
  ghost predicate Spare(v: Vol, own: map<nat, Owner>, b: nat)
    requires SizesOk(v)
  {
    && DataStart(v.sb) <= b < Start(v.sb) && BBlock(v.sb, b) < |v.view| && BitSet(v, b)
    && b !in own && v.view[b] == ZERO
  }

  // addrs[s] = b
  function Link(v: Vol, i: nat, s: nat, b: nat): Vol
    requires i < |v.inode| && |v.inode[i].addrs| == NDIRECT + 1 && s <= NDIRECT
  {
    v.(inode := v.inode[i := v.inode[i].(addrs := v.inode[i].addrs[s := b])])
  }

  // Slot s is the next one to fill.
  ghost predicate NextSlot(f: Fill, s: nat) {
    if s < NDIRECT then s == f.nb else if s == NDIRECT then f.nb == NDIRECT && !f.ind
    else f.ind && s - 1 == f.nb && s < NSLOTS
  }

  ghost function Filled(f: Fill, s: nat): Fill {
    if s == NDIRECT then f.(ind := true) else f.(nb := f.nb + 1)
  }

  // Adding one block to file i: w has it in slot s and nothing else moved.
  ghost predicate Adds(v: Vol, w: Vol, own: map<nat, Owner>, own': map<nat, Owner>, f: Fill, i: nat, s: nat)
    requires SizesOk(v) && SizesOk(w) && i < |v.inode| == |w.inode|
  {
    && w.sb == v.sb
    && (forall x :: 0 <= x < DataStart(v.sb) ==> w.view[x] == v.view[x])
    && (forall j :: 0 <= j < |v.inode| && j != i ==> w.inode[j] == v.inode[j])
    && (forall r :: r in own && own[r] != Owner(i, NDIRECT) ==> r < |v.view| && w.view[r] == v.view[r])
    && (forall t: nat :: t < NSLOTS ==> RefOk(w, own', f, i, t))
    && (forall t: nat :: t < NSLOTS && t != s ==> Ref(w, i, t) == Ref(v, i, t))
  }

  lemma AddsKeeps(v: Vol, w: Vol, own: map<nat, Owner>, own': map<nat, Owner>, fs: seq<Fill>, i: nat, s: nat, b: nat)
    requires VolOk(v, own, fs) && SizesOk(w) && i < |v.inode| == |w.inode| && s < NSLOTS
    requires NextSlot(fs[i], s) && Spare(v, own, b) && own' == own[b := Owner(i, s)]
    requires Adds(v, w, own, own', Filled(fs[i], s), i, s)
    ensures VolOk(w, own', fs[i := Filled(fs[i], s)])
    ensures forall j :: 0 <= j < |v.inode| ==> SameFile(v, w, j, fs[j].nb)
  {
    AddsBits(v, w, own, own', i, s, b);
    AddsFiles(v, w, own, own', fs, i, s, b);
    AddsBytes(v, w, own, own', fs, i, s);
    hide OwnedOk, MetaBits, FilesOk, SameFile, SizesOk;
  }

  lemma AddsFiles(v: Vol, w: Vol, own: map<nat, Owner>, own': map<nat, Owner>, fs: seq<Fill>, i: nat, s: nat, b: nat)
    requires VolOk(v, own, fs) && SizesOk(w) && i < |v.inode| == |w.inode| && s < NSLOTS
    requires NextSlot(fs[i], s) && b !in own && own' == own[b := Owner(i, s)]
    requires Adds(v, w, own, own', Filled(fs[i], s), i, s)
    ensures FilesOk(w, own', fs[i := Filled(fs[i], s)]) && FillOk(Filled(fs[i], s))
    ensures forall j :: 0 <= j < |v.inode| && j != i ==> SameFile(v, w, j, fs[j].nb)
  {
    assert FillOk(fs[i]);
    hide OwnedOk, MetaBits, RefOk;
    OthersKept(v, w, own, fs, i, own', Filled(fs[i], s));
  }

  lemma AddsBits(v: Vol, w: Vol, own: map<nat, Owner>, own': map<nat, Owner>, i: nat, s: nat, b: nat)
    requires SizesOk(v) && SizesOk(w) && w.sb == v.sb && OwnedOk(v, own) && MetaBits(v) && Spare(v, own, b)
    requires forall x :: 0 <= x < DataStart(v.sb) ==> w.view[x] == v.view[x]
    requires own' == own[b := Owner(i, s)] && i < |w.inode| && s < NSLOTS && |w.inode| == |v.inode|
    ensures OwnedOk(w, own') && MetaBits(w)
  {
    BitsKept(v, w, own);
  }

  lemma AddsBytes(v: Vol, w: Vol, own: map<nat, Owner>, own': map<nat, Owner>, fs: seq<Fill>, i: nat, s: nat)
    requires VolOk(v, own, fs) && SizesOk(w) && i < |v.inode| == |w.inode| && s < NSLOTS
    requires NextSlot(fs[i], s) && Adds(v, w, own, own', Filled(fs[i], s), i, s)
    ensures SameFile(v, w, i, fs[i].nb)
  {
    hide MetaBits;
    forall p: nat | p < BSIZE * fs[i].nb ensures p / BSIZE < MAXFILE && ByteAt(w, i, p) == ByteAt(v, i, p) {
      var t := SlotOf(p / BSIZE);
      assert p / BSIZE < fs[i].nb;
      assert t != s && t != NDIRECT;
      assert RefOk(v, own, fs[i], i, t);
    }
  }

  lemma LinkKeeps(v: Vol, own: map<nat, Owner>, fs: seq<Fill>, i: nat, s: nat, b: nat)
    requires VolOk(v, own, fs) && i < |v.inode| && s <= NDIRECT && NextSlot(fs[i], s) && Spare(v, own, b)
    ensures var w := Link(v, i, s, b);
      && VolOk(w, own[b := Owner(i, s)], fs[i := Filled(fs[i], s)])
      && (forall j :: 0 <= j < |v.inode| ==> SameFile(v, w, j, fs[j].nb))
      && Ref(w, i, s) == b
  {
    var w, own' := Link(v, i, s, b), own[b := Owner(i, s)];
    forall t: nat | t < NSLOTS
      ensures RefOk(w, own', Filled(fs[i], s), i, t) && (t != s ==> Ref(w, i, t) == Ref(v, i, t))
    {
      LinkRef(v, own, fs, i, s, b, t);
    }
    hide RefOk, MetaBits, FilesOk;
    AddsKeeps(v, w, own, own', fs, i, s, b);
  }

  lemma LinkRef(v: Vol, own: map<nat, Owner>, fs: seq<Fill>, i: nat, s: nat, b: nat, t: nat)
    requires VolOk(v, own, fs) && i < |v.inode| && s <= NDIRECT && NextSlot(fs[i], s) && Spare(v, own, b) && t < NSLOTS
    ensures var w := Link(v, i, s, b);
      RefOk(w, own[b := Owner(i, s)], Filled(fs[i], s), i, t) && (t != s ==> Ref(w, i, t) == Ref(v, i, t))
  {
    hide VolOk, BitSet, GetWord;
    SlotFacts(v, own, fs, i, NDIRECT);
    SlotFacts(v, own, fs, i, t);
    if s == NDIRECT && t > NDIRECT { ZeroWords(t - NDIRECT - 1); }
  }

  // a[k] = b in the indirect block
  function LinkEntry(v: Vol, i: nat, k: nat, b: nat): Vol
    requires i < |v.inode| && |v.inode[i].addrs| == NDIRECT + 1 && k < NINDIRECT && b < MAXWORD
    requires v.inode[i].addrs[NDIRECT] < |v.view|
  {
    var a := v.inode[i].addrs[NDIRECT];
    v.(view := v.view[a := PutWord(v.view[a], k, b)])
  }

  lemma LinkEntryRef(v: Vol, own: map<nat, Owner>, fs: seq<Fill>, i: nat, k: nat, b: nat, t: nat)
    requires VolOk(v, own, fs) && i < |v.inode| && k < NINDIRECT && t < NSLOTS
    requires NextSlot(fs[i], NDIRECT + 1 + k) && Spare(v, own, b)
    ensures v.inode[i].addrs[NDIRECT] in own && own[v.inode[i].addrs[NDIRECT]] == Owner(i, NDIRECT)
    ensures DataStart(v.sb) <= v.inode[i].addrs[NDIRECT] < |v.view|
    ensures var w, s := LinkEntry(v, i, k, b), NDIRECT + 1 + k;
      RefOk(w, own[b := Owner(i, s)], Filled(fs[i], s), i, t)
      && (if t == s then Ref(w, i, t) == b else Ref(w, i, t) == Ref(v, i, t))
  {
    assert b < MAXWORD && b != 0;
    hide VolOk;
    SlotFacts(v, own, fs, i, NDIRECT);
    SlotFacts(v, own, fs, i, t);
    assert Ref(v, i, NDIRECT) == v.inode[i].addrs[NDIRECT] != 0;
    EntryRef(v, own, fs[i], i, k, b, t);
  }

  // What one slot refers to once entry k of the indirect block is b.
  lemma EntryRef(v: Vol, own: map<nat, Owner>, f: Fill, i: nat, k: nat, b: nat, t: nat)
    requires i < |v.inode| && |v.inode[i].addrs| == NDIRECT + 1 && k < NINDIRECT && t < NSLOTS
    requires 0 < v.inode[i].addrs[NDIRECT] < |v.view| && 0 < b < MAXWORD && b !in own
    requires NextSlot(f, NDIRECT + 1 + k) && RefOk(v, own, f, i, t)
    ensures var w, s := LinkEntry(v, i, k, b), NDIRECT + 1 + k;
      RefOk(w, own[b := Owner(i, s)], Filled(f, s), i, t)
      && (if t == s then Ref(w, i, t) == b else Ref(w, i, t) == Ref(v, i, t))
  {
    var w, s, q := LinkEntry(v, i, k, b), NDIRECT + 1 + k, v.inode[i].addrs[NDIRECT];
    hide GetWord, PutWord;
    assert w.view[q] == PutWord(v.view[q], k, b);
    if t > NDIRECT {
      PutThenGet(v.view[q], k, b, t - NDIRECT - 1);
    }
    assert Ref(w, i, t) == if t == s then b else Ref(v, i, t);
  }

  lemma EntryAdds(v: Vol, own: map<nat, Owner>, fs: seq<Fill>, i: nat, k: nat, b: nat, own': map<nat, Owner>)
    requires VolOk(v, own, fs) && i < |v.inode| == |fs| && |v.inode[i].addrs| == NDIRECT + 1 && k < NINDIRECT
    requires NextSlot(fs[i], NDIRECT + 1 + k) && Spare(v, own, b) && own' == own[b := Owner(i, NDIRECT + 1 + k)]
    ensures DataStart(v.sb) <= v.inode[i].addrs[NDIRECT] < Start(v.sb) <= |v.view|
    ensures var w, s := LinkEntry(v, i, k, b), NDIRECT + 1 + k;
      SizesOk(w) && Adds(v, w, own, own', Filled(fs[i], s), i, s) && Ref(w, i, s) == b
  {
    hide VolOk, RefOk, DataStart, Start, BBlock, BitSet, PutWord;
    var s, q := NDIRECT + 1 + k, v.inode[i].addrs[NDIRECT];
    OwnedRange(v, own, fs);
    LinkEntryRef(v, own, fs, i, k, b, s);
    var w := LinkEntry(v, i, k, b);
    forall t: nat | t < NSLOTS
      ensures RefOk(w, own', Filled(fs[i], s), i, t) && (t != s ==> Ref(w, i, t) == Ref(v, i, t))
    {
      LinkEntryRef(v, own, fs, i, k, b, t);
    }
    hide Ref;
  }

  lemma OwnedRange(v: Vol, own: map<nat, Owner>, fs: seq<Fill>)
    requires VolOk(v, own, fs)
    ensures SizesOk(v) && |fs| == |v.inode|
    ensures forall r :: r in own ==> DataStart(v.sb) <= r < Start(v.sb) == |v.view|
  {
  }

  lemma LinkEntryKeeps(v: Vol, own: map<nat, Owner>, fs: seq<Fill>, i: nat, k: nat, b: nat)
    requires VolOk(v, own, fs) && i < |v.inode| && k < NINDIRECT
    requires NextSlot(fs[i], NDIRECT + 1 + k) && Spare(v, own, b)
    ensures DataStart(v.sb) <= v.inode[i].addrs[NDIRECT] < Start(v.sb) <= |v.view|
    ensures var w, s := LinkEntry(v, i, k, b), NDIRECT + 1 + k;
      && VolOk(w, own[b := Owner(i, s)], fs[i := Filled(fs[i], s)])
      && (forall j :: 0 <= j < |v.inode| ==> SameFile(v, w, j, fs[j].nb))
      && Ref(w, i, s) == b
  {
    var own', s := own[b := Owner(i, NDIRECT + 1 + k)], NDIRECT + 1 + k;
    EntryAdds(v, own, fs, i, k, b, own');
    var w := LinkEntry(v, i, k, b);
    hide VolOk, Adds, Spare, Ref;
    AddsKeeps(v, w, own, own', fs, i, s, b);
  }

  // ---------- Writing file data ----------

  function Patch(b: Block, at: nat, data: seq<Byte>): Block
    requires at + |data| <= BSIZE
  {
    b[..at] + data + b[at + |data|..]
  }

  function Rewrite(v: Vol, r: nat, b: Block): Vol
    requires r < |v.view|
  {
    v.(view := v.view[r := b])
  }

  // Data block bn of file i is the block named r, and no slot but its own names it.
  lemma DataRef(v: Vol, own: map<nat, Owner>, fs: seq<Fill>, i: nat, bn: nat)
    requires VolOk(v, own, fs) && i < |v.inode| && bn < fs[i].nb
    ensures bn < MAXFILE && SlotOf(bn) < NSLOTS && SlotOf(bn) != NDIRECT
    ensures |fs| == |v.inode| && |v.inode[i].addrs| == NDIRECT + 1
    ensures var r := Ref(v, i, SlotOf(bn));
      DataStart(v.sb) <= r < Start(v.sb) <= |v.view| && r in own && own[r] == Owner(i, SlotOf(bn))
  {
    assert FillOk(fs[i]);
    hide VolOk;
    SlotFacts(v, own, fs, i, SlotOf(bn));
  }

  lemma RewriteRef(v: Vol, own: map<nat, Owner>, fs: seq<Fill>, r: nat, b: Block, j: nat, t: nat)
    requires VolOk(v, own, fs) && r in own && own[r].slot != NDIRECT && r < |v.view|
    requires j < |v.inode| == |fs| && t < NSLOTS && |v.inode[j].addrs| == NDIRECT + 1
    ensures Ref(Rewrite(v, r, b), j, t) == Ref(v, j, t)
    ensures RefOk(Rewrite(v, r, b), own, fs[j], j, t)
  {
    hide VolOk, DataStart, Start, GetWord;
    SlotFacts(v, own, fs, j, NDIRECT);
    SlotFacts(v, own, fs, j, t);
    assert Ref(v, j, NDIRECT) == v.inode[j].addrs[NDIRECT];
  }

  lemma RewriteKeeps(v: Vol, own: map<nat, Owner>, fs: seq<Fill>, r: nat, b: Block)
    requires VolOk(v, own, fs) && r in own && own[r].slot != NDIRECT && r < |v.view|
    ensures VolOk(Rewrite(v, r, b), own, fs)
  {
    var w := Rewrite(v, r, b);
    BitsKept(v, w, own);
    forall j, t: nat | 0 <= j < |fs| && t < NSLOTS ensures RefOk(w, own, fs[j], j, t) {
      RewriteRef(v, own, fs, r, b, j, t);
    }
  }

  // Overwriting part of one data block changes those bytes and no others.
  lemma PatchByte(v: Vol, own: map<nat, Owner>, fs: seq<Fill>, i: nat, bn: nat, at: nat, data: seq<Byte>, j: nat, p: nat)
    requires VolOk(v, own, fs) && i < |v.inode| && bn < fs[i].nb && at + |data| <= BSIZE
    requires j < |v.inode| && p < BSIZE * fs[j].nb && SlotOf(bn) < NSLOTS && Ref(v, i, SlotOf(bn)) < |v.view|
    requires |v.inode[j].addrs| == NDIRECT + 1
    ensures p / BSIZE < MAXFILE
    ensures var r := Ref(v, i, SlotOf(bn));
      ByteAt(Rewrite(v, r, Patch(v.view[r], at, data)), j, p)
      == if j == i && BSIZE * bn + at <= p < BSIZE * bn + at + |data| then data[p - BSIZE * bn - at] else ByteAt(v, j, p)
  {
    hide VolOk, DataStart, Start, GetWord;
    DataRef(v, own, fs, i, bn);
    var r := Ref(v, i, SlotOf(bn));
    assert p / BSIZE < fs[j].nb;
    DataRef(v, own, fs, j, p / BSIZE);
    RewriteRef(v, own, fs, r, Patch(v.view[r], at, data), j, SlotOf(p / BSIZE));
    hide Ref, RefOk;
  }

  // ---------- inode_update's write ----------

  lemma UpdateKeeps(v: Vol, own: map<nat, Owner>, fs: seq<Fill>, i: nat)
    requires VolOk(v, own, fs) && i < |v.inode| && IBlock(i) < |v.view|
    ensures var w := Rewrite(v, IBlock(i), Store(v.view, i, v.inode[i]));
      VolOk(w, own, fs) && forall j :: 0 <= j < |v.inode| ==> SameFile(v, w, j, fs[j].nb)
  {
    hide Store;
    OutsideKeeps(v, own, fs, IBlock(i), Store(v.view, i, v.inode[i])) by { InodeRange(v.sb, i); }
  }

  // Rewriting a block before the bitmap disturbs no file and no bit.
  lemma OutsideKeeps(v: Vol, own: map<nat, Owner>, fs: seq<Fill>, x: nat, b: Block)
    requires VolOk(v, own, fs) && x < BBlock(v.sb, 0) && x < |v.view|
    ensures var w := Rewrite(v, x, b);
      VolOk(w, own, fs) && forall j :: 0 <= j < |v.inode| ==> SameFile(v, w, j, fs[j].nb)
  {
    var w := Rewrite(v, x, b);
    BitsKept(v, w, own) by { BitmapRange(v.sb, 0); }
    forall r | r in own ensures r < |v.view| && w.view[r] == v.view[r] {
      BitmapRange(v.sb, r);
    }
    hide MetaBits, BitSet;
    AllocFiles(v, own, fs, w);
  }
}
