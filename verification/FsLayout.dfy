/**
 Disk layout of the file system (include/fs.h): where the inode of a number and the
 bitmap bit of a block are kept, and how they are encoded in their sectors.
 */
module FsLayout {
  import opened Division
  import opened Blocks

  const NDIRECT: nat := 12
  const NINDIRECT: nat := 128
  const MAXFILE: nat := 140
  const BPB: nat := 4096
  const T_DIR: nat := 1

  /** The superblock's size and ninodes. */
  datatype Super = Super(size: nat, ninodes: nat) {
    function IBlock(i: nat): nat { i / 8 + 2 }

    function BBlock(b: nat): nat { b / BPB + ninodes / 8 + 3 }

    /** First sector behind the bitmap, as mkfs lays the disk out. */
    function DataStart(): nat { ninodes / 8 + 3 + size / BPB + 1 }

    predicate Ok(d: Disk) {
      DataStart() <= size <= |d| && size < 0x8000_0000
    }
  }

  // ---------------------------------------------------------------- bits of a byte

  function Pow2(n: nat): nat {
    if n == 0 then 1 else 2 * Pow2(n - 1)
  }

  predicate TestBit(x: nat, k: nat) {
    if k == 0 then x % 2 == 1 else TestBit(x / 2, k - 1)
  }

  /** x | 1 << k */
  function WithBit(x: nat, k: nat): nat {
    if k == 0 then x - x % 2 + 1 else 2 * WithBit(x / 2, k - 1) + x % 2
  }

  /** x & ~(1 << k) */
  function WithoutBit(x: nat, k: nat): nat {
    if k == 0 then x - x % 2 else 2 * WithoutBit(x / 2, k - 1) + x % 2
  }

  lemma {:induction false} BitSet(x: nat, k: nat, j: nat)
    ensures TestBit(WithBit(x, k), j) <==> TestBit(x, j) || j == k
  {
    if k > 0 && j > 0 {
      BitSet(x / 2, k - 1, j - 1);
      Quotient(2, WithBit(x / 2, k - 1), x % 2);
    } else if j > 0 {
      Quotient(2, x / 2, 1);
    }
  }

  lemma {:induction false} BitCleared(x: nat, k: nat, j: nat)
    ensures TestBit(WithoutBit(x, k), j) <==> TestBit(x, j) && j != k
  {
    if k > 0 && j > 0 {
      BitCleared(x / 2, k - 1, j - 1);
      Quotient(2, WithoutBit(x / 2, k - 1), x % 2);
    } else if j > 0 {
      Quotient(2, x / 2, 0);
    }
  }

  lemma {:induction false} BitFits(x: nat, k: nat, n: nat)
    requires x < Pow2(n) && k < n
    ensures WithBit(x, k) < Pow2(n) && WithoutBit(x, k) < Pow2(n)
  {
    if k > 0 {
      BitFits(x / 2, k - 1, n - 1);
    }
  }

  lemma Byte8()
    ensures Pow2(8) == 256
  {
    assert Pow2(4) == 16 && Pow2(6) == 64;
  }

  // ---------------------------------------------------------------- the bitmap

  predicate BitOf(s: Super, d: Disk, b: nat)
    requires s.Ok(d) && b < s.size
  {
    TestBit(d[s.BBlock(b)][b % BPB / 8], b % 8)
  }

  /** The bitmap sector of b with b's bit set or cleared. */
  function PutBit(blk: Block, b: nat, on: bool): Block {
    var at, x := b % BPB / 8, b % 8;
    var was := blk[at];
    Byte8();
    BitFits(was, x, 8);
    blk[at := if on then WithBit(was, x) else WithoutBit(was, x)]
  }

  /** Writing one bit changes that bit and no other. */
  lemma PutBitIs(s: Super, d: Disk, b: nat, on: bool, c: nat)
    requires s.Ok(d) && b < s.size && c < s.size
    ensures s.BBlock(b) < s.DataStart()
    ensures var d': Disk := d[s.BBlock(b) := PutBit(d[s.BBlock(b)], b, on)];
            BitOf(s, d', c) == if c == b then on else BitOf(s, d, c)
  {
    var blk := d[s.BBlock(b)];
    var was := blk[b % BPB / 8];
    BitSet(was, b % 8, c % 8);
    BitCleared(was, b % 8, c % 8);
    SameBit(b, c);
  }

  lemma SameBit(b: nat, c: nat)
    ensures b / BPB == c / BPB && b % BPB / 8 == c % BPB / 8 && b % 8 == c % 8 ==> b == c
    ensures b % BPB % 8 == b % 8
  {
    BitSplit(b);
    BitSplit(c);
  }

  /** A block number is its bitmap sector, byte and bit. */
  lemma BitSplit(b: nat)
    ensures b == BPB * (b / BPB) + 8 * (b % BPB / 8) + b % 8
    ensures b % BPB % 8 == b % 8
  {
    var q, u, v := b / BPB, b % BPB / 8, b % BPB % 8;
    assert b == 8 * (512 * q + u) + v;
    Quotient(8, 512 * q + u, v);
  }

  // ---------------------------------------------------------------- a formatted disk

  /** As mkfs begins: no inode in use, and in the bitmap just the sectors in front of the data area. */
  ghost predicate Blank(s: Super, d: Disk) {
    && s.Ok(d) && s.ninodes > 0
    && (forall i :: 0 <= i < s.ninodes ==> GetInode(s, d, i) == Inode(0, 0, 0, seq(NDIRECT + 1, _ => 0)))
    && forall b :: 0 <= b < s.size ==> (BitOf(s, d, b) <==> b < s.DataStart())
  }

  // ---------------------------------------------------------------- inodes

  /** struct dinode as its sixteen words: type and major, minor and nlink, size, and thirteen addresses. */
  datatype Inode = Inode(h0: word, h1: word, size: word, addrs: seq<word>) {
    predicate Ok() { |addrs| == NDIRECT + 1 }
  }

  /** dip->type: zero for an inode that is not in use. */
  function Type(n: Inode): nat { n.h0 % 0x1_0000 }

  function Words16(n: Inode): seq<word> { [n.h0, n.h1, n.size] + n.addrs }

  function GetInode(s: Super, d: Disk, i: nat): (n: Inode)
    requires s.Ok(d) && i < s.ninodes
    ensures n.Ok()
  {
    var ws := GetWords(d[s.IBlock(i)], 16 * (i % 8), 16);
    Inode(ws[0], ws[1], ws[2], ws[3..])
  }

  /** The inode sector of i with inode i replaced, as iupdate writes it. */
  function PutInode(b: Block, i: nat, n: Inode): Block
    requires n.Ok()
  {
    PutWords(b, 16 * (i % 8), Words16(n))
  }

  /** iupdate stores exactly this inode: reading it back gives it, and every other inode is as before. */
  lemma PutInodeIs(s: Super, d: Disk, i: nat, n: Inode, j: nat)
    requires s.Ok(d) && i < s.ninodes && j < s.ninodes && n.Ok()
    ensures s.IBlock(i) < s.DataStart()
    ensures var d': Disk := d[s.IBlock(i) := PutInode(d[s.IBlock(i)], i, n)];
            GetInode(s, d', j) == if j == i then n else GetInode(s, d, j)
  {
    var ws := Words16(n);
    PutGetWords(d[s.IBlock(i)], 16 * (i % 8), ws, 16 * (j % 8), 16);
    assert ws[3..] == n.addrs;
  }

  lemma LayoutApart(s: Super, i: nat, b: nat)
    requires i < s.ninodes && b < s.size
    ensures 2 <= s.IBlock(i) < s.BBlock(b) < s.DataStart()
  {
  }

  // ---------------------------------------------------------------- a blank disk exists

  /** A sector of zeros. */
  function Zeros(): Block { seq(512, _ => 0) }

  lemma ZeroWords(j: nat)
    requires j < WORDS
    ensures Word(Zeros(), j) == 0
  {
    LittleEndian4(Zeros(), 4 * j);
  }

  lemma ZeroRun(at: nat)
    requires at + 16 <= WORDS
    ensures GetWords(Zeros(), at, 16) == seq(16, _ => 0)
  {
    forall k | at <= k < at + 16
      ensures Word(Zeros(), k) == 0
    {
      ZeroWords(k);
    }
  }

  lemma {:induction false} NoBits(k: nat)
    ensures !TestBit(0, k)
  {
    if k > 0 { NoBits(k - 1); }
  }

  /** The bitmap sector that mkfs writes when n blocks are in use. */
  function FirstBits(n: nat): Block {
    if n == 0 then Zeros() else PutBit(FirstBits(n - 1), n - 1, true)
  }

  function SectorOf(s: Super, n: nat, k: nat): Block {
    if k == s.BBlock(0) then FirstBits(n) else Zeros()
  }

  /** Zeros everywhere but in the bitmap. */
  function ImageOf(s: Super, n: nat): (d: Disk)
    ensures |d| == s.size && forall k :: 0 <= k < s.size ==> d[k] == SectorOf(s, n, k)
  {
    seq<Block>(s.size, k requires 0 <= k < s.size => SectorOf(s, n, k))
  }

  lemma {:induction false} ImageBits(s: Super, n: nat, c: nat)
    requires s.DataStart() <= s.size <= BPB && n <= s.size && c < s.size
    ensures s.Ok(ImageOf(s, n)) && (BitOf(s, ImageOf(s, n), c) <==> c < n)
  {
    assert s.BBlock(c) == s.BBlock(0) < s.size;
    if n == 0 {
      assert ImageOf(s, n)[s.BBlock(c)] == Zeros() && Zeros()[c % BPB / 8] == 0;
      NoBits(c % 8);
    } else {
      ImageBits(s, n - 1, c);
      var d := ImageOf(s, n - 1);
      assert s.BBlock(n - 1) == s.BBlock(0);
      PutBitIs(s, d, n - 1, true, c);
      assert ImageOf(s, n) == d[s.BBlock(0) := PutBit(d[s.BBlock(0)], n - 1, true)];
    }
  }

  /** mkfs's image before any file is put on it is blank. */
  lemma ImageBlank(s: Super)
    requires s.DataStart() <= s.size <= BPB && s.ninodes > 0
    ensures Blank(s, ImageOf(s, s.DataStart()))
  {
    var d := ImageOf(s, s.DataStart());
    forall b | 0 <= b < s.size
      ensures BitOf(s, d, b) <==> b < s.DataStart()
    {
      ImageBits(s, s.DataStart(), b);
    }
    forall i | 0 <= i < s.ninodes
      ensures GetInode(s, d, i) == Inode(0, 0, 0, seq(NDIRECT + 1, _ => 0))
    {
      LayoutApart(s, i, 0);
      assert d[s.IBlock(i)] == Zeros();
      ZeroRun(16 * (i % 8));
    }
  }
}
