// A file system volume as a value: the blocks seen through the buffer cache and
// the in-memory inodes (mCertiKOS/kern/fs/dinode.h, inode.c, block.c), which block
// belongs to whom, and which bytes each file holds.
module Volume {
  import opened Blocks
  import opened Bitmap
  import opened RedoLog

  const NDIRECT := 12
  const NINDIRECT := 128
  const MAXFILE := 140
  const IPB := 8
  // addrs[0..13), then the entries of the indirect block.
  const NSLOTS := 141

  datatype Super = Super(size: nat, ninodes: nat, nlog: nat)

  function Start(sb: Super): nat
    requires sb.nlog <= sb.size
  {
    sb.size - sb.nlog
  }

  function IBlock(i: nat): nat { i / IPB + 2 }

  function BBlock(sb: Super, b: nat): nat { b / BPB + sb.ninodes / IPB + 3 }

  // The first block after the bitmap.
  function DataStart(sb: Super): nat
    requires sb.size > 0
  {
    BBlock(sb, sb.size - 1) + 1
  }

  predicate LayoutOk(sb: Super) {
    && 1 <= sb.nlog <= sb.size <= MAXWORD
    && DataStart(sb) <= Start(sb)
  }

  datatype INode = INode(kind: nat, major: nat, minor: nat, nlink: nat, size: nat, addrs: seq<nat>)

  predicate INodeOk(n: INode) {
    && n.kind < 0x1_0000 && n.major < 0x1_0000 && n.minor < 0x1_0000 && n.nlink < 0x1_0000
    && n.size < MAXWORD
    && |n.addrs| == NDIRECT + 1
    && forall k :: 0 <= k < |n.addrs| ==> n.addrs[k] < MAXWORD
  }

  // struct dinode, as sixteen words.
  function Encode(n: INode): (ws: seq<nat>)
    requires INodeOk(n)
    ensures |ws| == 16 && forall k :: 0 <= k < 16 ==> ws[k] < MAXWORD
  {
    [n.kind + 0x1_0000 * n.major, n.minor + 0x1_0000 * n.nlink, n.size] + n.addrs
  }

  function Decode(ws: seq<nat>): INode
    requires |ws| == 16
  {
    INode(ws[0] % 0x1_0000, ws[0] / 0x1_0000, ws[1] % 0x1_0000, ws[1] / 0x1_0000, ws[2], ws[3..])
  }

  lemma InodeRoundTrip(n: INode)
    requires INodeOk(n)
    ensures Decode(Encode(n)) == n
  {
    assert Encode(n)[3..] == n.addrs;
  }

  // What inode_lock reads for inode i, and what inode_update writes.
  function Stored(view: Disk, i: nat): INode
    requires IBlock(i) < |view|
  {
    Decode(GetWords(view[IBlock(i)], 16 * (i % IPB), 16))
  }

  function Store(view: Disk, i: nat, n: INode): Block
    requires IBlock(i) < |view| && INodeOk(n)
  {
    PutWords(view[IBlock(i)], 16 * (i % IPB), Encode(n))
  }

  // struct dinode on disk: four halves, the size, and thirteen addresses, 64 bytes to an
  // inode, eight inodes to a block from block 2 on.
  lemma InodeBytes(view: Disk, i: nat, n: INode)
    requires IBlock(i) < |view| && INodeOk(n)
    ensures IBlock(i) == 2 + i / 8
    ensures var c, o := Store(view, i, n), 64 * (i % 8);
      && Half(c, o) == n.kind && Half(c, o + 2) == n.major && Half(c, o + 4) == n.minor && Half(c, o + 6) == n.nlink
      && Word(c, o + 8) == n.size && forall k :: 0 <= k <= NDIRECT ==> Word(c, o + 12 + 4 * k) == n.addrs[k]
  {
    var c, o, j := Store(view, i, n), 64 * (i % 8), 16 * (i % 8);
    forall k | 0 <= k < 16 ensures Word(c, o + 4 * k) == Encode(n)[k] {
      WordBytes(c, j + k);
    }
    assert Word(c, o + 4 * 0) == Encode(n)[0] && Word(c, o + 4 * 1) == Encode(n)[1] && Word(c, o + 4 * 2) == Encode(n)[2];
    hide Word, Half;
    TwoHalves(c, o, n.kind, n.major);
    TwoHalves(c, o + 4, n.minor, n.nlink);
    forall k | 0 <= k <= NDIRECT ensures Word(c, o + 12 + 4 * k) == n.addrs[k] {
      assert Word(c, o + 4 * (3 + k)) == Encode(n)[3 + k];
    }
  }

  lemma TwoHalves(c: Block, o: nat, a: nat, b: nat)
    requires o + 4 <= BSIZE && a < 0x1_0000 && b < 0x1_0000 && Word(c, o) == a + 0x1_0000 * b
    ensures Half(c, o) == a && Half(c, o + 2) == b
  {
  }

  lemma StoreThenRead(view: Disk, i: nat, n: INode, j: nat)
    requires IBlock(i) < |view| && IBlock(j) < |view| && INodeOk(n)
    ensures Stored(view[IBlock(i) := Store(view, i, n)], j) == if i == j then n else Stored(view, j)
  {
    var b, c := view[IBlock(i)], Store(view, i, n);
    if IBlock(i) == IBlock(j) {
      forall k | 0 <= k < 16
        ensures GetWord(c, 16 * (j % IPB) + k) == if i == j then Encode(n)[k] else GetWord(b, 16 * (j % IPB) + k)
      {
        assert i != j ==> i % IPB != j % IPB;
      }
      if i == j {
        assert GetWords(c, 16 * (j % IPB), 16) == Encode(n);
        InodeRoundTrip(n);
      } else {
        assert GetWords(c, 16 * (j % IPB), 16) == GetWords(b, 16 * (j % IPB), 16);
      }
    }
  }

  // view holds the home blocks, those below the log.
  datatype Vol = Vol(sb: Super, view: Disk, inode: seq<INode>)

  ghost predicate SizesOk(v: Vol) {
    && LayoutOk(v.sb)
    && |v.view| == Start(v.sb)
    && |v.inode| == v.sb.ninodes
    && forall i :: 0 <= i < |v.inode| ==> INodeOk(v.inode[i])
  }

  predicate BitSet(v: Vol, b: nat)
    requires BBlock(v.sb, b) < |v.view|
  {
    BitAt(v.view[BBlock(v.sb, b)], b % BPB)
  }

  // Every block's bit lies in a bitmap block, before the data.
  lemma BitmapRange(sb: Super, b: nat)
    requires LayoutOk(sb) && b < sb.size
    ensures BBlock(sb, b) < DataStart(sb) <= Start(sb) <= sb.size
  {
    assert b / BPB <= (sb.size - 1) / BPB;
  }

  lemma InodeRange(sb: Super, i: nat)
    requires LayoutOk(sb) && i < sb.ninodes
    ensures IBlock(i) < BBlock(sb, 0) && IBlock(i) < DataStart(sb)
  {
    assert i / IPB <= sb.ninodes / IPB;
  }

  // ---------- References and ownership ----------

  function SlotOf(bn: nat): nat { if bn < NDIRECT then bn else bn + 1 }

  // The block number in slot s of inode i, 0 if none.
  function Ref(v: Vol, i: nat, s: nat): nat
    requires i < |v.inode| && |v.inode[i].addrs| == NDIRECT + 1 && s < NSLOTS
  {
    var a := v.inode[i].addrs;
    if s <= NDIRECT then a[s]
    else if a[NDIRECT] == 0 || a[NDIRECT] >= |v.view| then 0
    else GetWord(v.view[a[NDIRECT]], s - NDIRECT - 1)
  }

  datatype Owner = Owner(inum: nat, slot: nat)

  // How far a file's slots are filled: its first nb blocks, and the indirect block
  // if ind.
  datatype Fill = Fill(nb: nat, ind: bool)

  predicate Used(f: Fill, s: nat) {
    if s < NDIRECT then s < f.nb else if s == NDIRECT then f.ind else s - 1 < f.nb
  }

  predicate FillOk(f: Fill) { f.nb <= MAXFILE && (f.nb > NDIRECT ==> f.ind) }

  ghost predicate RefOk(v: Vol, own: map<nat, Owner>, f: Fill, i: nat, s: nat)
    requires i < |v.inode| && |v.inode[i].addrs| == NDIRECT + 1 && s < NSLOTS
  {
    var r := Ref(v, i, s);
    && (r != 0 <==> Used(f, s))
    && (r != 0 ==> r in own && own[r] == Owner(i, s))
  }

  ghost predicate OwnedOk(v: Vol, own: map<nat, Owner>)
    requires SizesOk(v)
  {
    forall r :: r in own ==>
      DataStart(v.sb) <= r < Start(v.sb) && BBlock(v.sb, r) < |v.view| && BitSet(v, r)
      && own[r].inum < |v.inode| && own[r].slot < NSLOTS
  }

  // Blocks outside the data area are marked in use.
  ghost predicate MetaBits(v: Vol)
    requires SizesOk(v)
  {
    forall b :: 0 <= b < v.sb.size && (b < DataStart(v.sb) || b >= Start(v.sb)) ==>
      BBlock(v.sb, b) < |v.view| && BitSet(v, b)
  }

  ghost predicate FilesOk(v: Vol, own: map<nat, Owner>, fs: seq<Fill>)
    requires SizesOk(v)
  {
    && |fs| == |v.inode|
    && forall i, s :: 0 <= i < |fs| && 0 <= s < NSLOTS ==> RefOk(v, own, fs[i], i, s)
  }

  // Each block in use by a file is referenced from exactly one slot and marked in
  // the bitmap; a file's slots are filled without holes.
  ghost predicate VolOk(v: Vol, own: map<nat, Owner>, fs: seq<Fill>) {
    && SizesOk(v)
    && OwnedOk(v, own)
    && MetaBits(v)
    && FilesOk(v, own, fs)
    && forall i :: 0 <= i < |fs| ==> FillOk(fs[i])
  }

  // No two slots share a block, and every referenced block is marked in use.
  lemma Exclusive(v: Vol, own: map<nat, Owner>, fs: seq<Fill>, i: nat, s: nat, j: nat, t: nat)
    requires VolOk(v, own, fs) && i < |v.inode| && j < |v.inode| && s < NSLOTS && t < NSLOTS
    requires Ref(v, i, s) != 0 && Ref(v, i, s) == Ref(v, j, t)
    ensures i == j && s == t && BBlock(v.sb, Ref(v, i, s)) < |v.view| && BitSet(v, Ref(v, i, s))
  {
    assert RefOk(v, own, fs[i], i, s) && RefOk(v, own, fs[j], j, t);
  }

  // ---------- Bytes ----------

  // Byte p of file i, counting from the start of its first block.
  function ByteAt(v: Vol, i: nat, p: nat): int
    requires i < |v.inode| && |v.inode[i].addrs| == NDIRECT + 1 && p / BSIZE < MAXFILE
  {
    var r := Ref(v, i, SlotOf(p / BSIZE));
    if r < |v.view| then v.view[r][p % BSIZE] else 0
  }

  ghost predicate SameFile(v: Vol, w: Vol, i: nat, nb: nat) {
    && i < |v.inode| && i < |w.inode|
    && |v.inode[i].addrs| == NDIRECT + 1 && |w.inode[i].addrs| == NDIRECT + 1
    && nb <= MAXFILE
    && forall p: nat :: p < BSIZE * nb ==> p / BSIZE < MAXFILE && ByteAt(w, i, p) == ByteAt(v, i, p)
  }

  // A file none of whose blocks changed, nor its inode, keeps slots and bytes.
  lemma Untouched(v: Vol, w: Vol, own: map<nat, Owner>, fs: seq<Fill>, j: nat)
    requires VolOk(v, own, fs) && j < |v.inode| && |w.view| == |v.view| && |w.inode| == |v.inode|
    requires w.inode[j] == v.inode[j]
    requires forall r :: r in own && own[r].inum == j ==> r < |v.view| && w.view[r] == v.view[r]
    ensures forall s: nat :: s < NSLOTS ==> Ref(w, j, s) == Ref(v, j, s)
    ensures SameFile(v, w, j, fs[j].nb)
  {
    assert RefOk(v, own, fs[j], j, NDIRECT);
    assert forall s: nat :: s < NSLOTS ==> Ref(w, j, s) == Ref(v, j, s);
    forall p: nat | p < BSIZE * fs[j].nb ensures p / BSIZE < MAXFILE && ByteAt(w, j, p) == ByteAt(v, j, p) {
      assert p / BSIZE < fs[j].nb;
      assert RefOk(v, own, fs[j], j, SlotOf(p / BSIZE));
    }
  }
}
