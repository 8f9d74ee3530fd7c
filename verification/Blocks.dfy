// Disk blocks as the kernel sees them: 512 bytes, read as little-endian 32-bit
// words where a struct is laid over them (mCertiKOS/kern/fs/params.h, dinode.h).
module Blocks {

  const BSIZE := 512
  const WORDS := 128
  const MAXWORD := 0x1_0000_0000

  type Byte = b: int | 0 <= b < 256

  function Zeros(n: nat): (r: seq<Byte>)
    ensures |r| == n && forall i :: 0 <= i < n ==> r[i] == 0
  {
    if n == 0 then [] else Zeros(n - 1) + [0]
  }

  type Block = s: seq<Byte> | |s| == BSIZE witness Zeros(BSIZE)

  const ZERO: Block := Zeros(BSIZE)

  function GetWord(b: Block, j: nat): (v: nat)
    requires j < WORDS
    ensures v < MAXWORD
  {
    var b0: int, b1: int, b2: int, b3: int := b[4 * j], b[4 * j + 1], b[4 * j + 2], b[4 * j + 3];
    b0 + 256 * b1 + 65536 * b2 + 16777216 * b3
  }

  function PutWord(b: Block, j: nat, v: nat): Block
    requires j < WORDS && v < MAXWORD
  {
    b[4 * j := v % 256][4 * j + 1 := v / 256 % 256][4 * j + 2 := v / 65536 % 256][4 * j + 3 := v / 16777216]
  }

  lemma PutThenGet(b: Block, j: nat, v: nat, k: nat)
    requires j < WORDS && v < MAXWORD && k < WORDS
    ensures GetWord(PutWord(b, j, v), k) == if j == k then v else GetWord(b, k)
  {
    if j == k {
      assert v / 256 == 256 * (v / 65536) + v / 256 % 256;
      assert v / 65536 == 256 * (v / 16777216) + v / 65536 % 256;
    } else {
      assert 4 * j + 3 < 4 * k || 4 * k + 3 < 4 * j;
    }
  }

  // Two and four bytes of a block from o on, low byte first.
  function Half(b: Block, o: nat): nat
    requires o + 2 <= BSIZE
  {
    var lo: int, hi: int := b[o], b[o + 1];
    lo + 0x100 * hi
  }

  function Word(b: Block, o: nat): nat
    requires o + 4 <= BSIZE
  {
    Half(b, o) + 0x1_0000 * Half(b, o + 2)
  }

  lemma WordBytes(b: Block, j: nat)
    requires j < WORDS
    ensures GetWord(b, j) == Word(b, 4 * j)
  {
  }

  lemma ZeroWords(k: nat)
    requires k < WORDS
    ensures GetWord(ZERO, k) == 0
  {
  }

  // Write ws over the words from j on.
  function PutWords(b: Block, j: nat, ws: seq<nat>): (r: Block)
    requires j + |ws| <= WORDS && forall i :: 0 <= i < |ws| ==> ws[i] < MAXWORD
    ensures forall k: nat :: k < WORDS ==> GetWord(r, k) == if j <= k < j + |ws| then ws[k - j] else GetWord(b, k)
    decreases |ws|
  {
    if ws == [] then b
    else
      var c := PutWord(b, j, ws[0]);
      assert forall k: nat :: k < WORDS ==> GetWord(c, k) == if k == j then ws[0] else GetWord(b, k) by {
        forall k: nat | k < WORDS ensures GetWord(c, k) == if k == j then ws[0] else GetWord(b, k) {
          PutThenGet(b, j, ws[0], k);
        }
      }
      PutWords(c, j + 1, ws[1..])
  }

  function GetWords(b: Block, j: nat, n: nat): (ws: seq<nat>)
    requires j + n <= WORDS
    ensures |ws| == n && forall i :: 0 <= i < n ==> ws[i] == GetWord(b, j + i)
  {
    seq<nat>(n, i requires 0 <= i < n => GetWord(b, j + i))
  }
}
