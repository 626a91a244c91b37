/** Disk sectors as byte strings, and the little-endian 32-bit words stored in them. */
module Blocks {

  const BSIZE: nat := 512
  const WORDS: nat := 128

  type byte = x: int | 0 <= x < 256
  type word = x: int | 0 <= x < 0x1_0000_0000

  /** One 512-byte sector. */
  type Block = s: seq<byte> | |s| == 512 witness seq(512, _ => 0)

  type Disk = seq<Block>

  /** The n bytes at `at`, least significant first. */
  function LittleEndian(b: Block, at: nat, n: nat): (w: nat)
    requires at + n <= BSIZE
    decreases n
  {
    if n == 0 then 0 else b[at] as int + 256 * LittleEndian(b, at + 1, n - 1)
  }

  lemma LittleEndian4(b: Block, at: nat)
    requires at + 4 <= BSIZE
    ensures LittleEndian(b, at, 4) == b[at] as int + 256 * b[at + 1] as int + 65536 * b[at + 2] as int + 16777216 * b[at + 3] as int
  {
    assert LittleEndian(b, at + 3, 1) == b[at + 3] as int + 256 * LittleEndian(b, at + 4, 0);
    assert LittleEndian(b, at + 2, 2) == b[at + 2] as int + 256 * LittleEndian(b, at + 3, 1);
  }

  function Word(b: Block, i: nat): word
    requires i < WORDS
  {
    LittleEndian4(b, 4 * i);
    LittleEndian(b, 4 * i, 4)
  }

  /** Stores one word, leaving every other word and byte of the sector alone. */
  function PutWord(b: Block, i: nat, w: word): (r: Block)
    requires i < WORDS
    ensures Word(r, i) == w
    ensures forall j :: 0 <= j < WORDS && j != i ==> Word(r, j) == Word(b, j)
    ensures forall k :: 0 <= k < BSIZE && (k < 4 * i || 4 * i + 4 <= k) ==> r[k] == b[k]
  {
    WordParts(w);
    var r: Block := b[4 * i := w % 256][4 * i + 1 := w / 256 % 256][4 * i + 2 := w / 65536 % 256][4 * i + 3 := w / 16777216];
    LittleEndian4(r, 4 * i);
    assert forall j :: 0 <= j < WORDS && j != i ==> Word(r, j) == Word(b, j) by {
      forall j | 0 <= j < WORDS && j != i
        ensures Word(r, j) == Word(b, j)
      {
        LittleEndian4(r, 4 * j);
        LittleEndian4(b, 4 * j);
      }
    }
    r
  }

  lemma WordParts(w: word)
    ensures 0 <= w / 16777216 < 256
    ensures w % 256 + 256 * (w / 256 % 256) + 65536 * (w / 65536 % 256) + 16777216 * (w / 16777216) == w
  {
  }

  /** Stores a run of words from position `at` on. */
  function PutWords(b: Block, at: nat, ws: seq<word>): (r: Block)
    requires at + |ws| <= WORDS
    ensures forall j :: 0 <= j < WORDS ==> Word(r, j) == if at <= j < at + |ws| then ws[j - at] else Word(b, j)
  {
    if ws == [] then b
    else
      var m := |ws| - 1;
      PutWord(PutWords(b, at, ws[..m]), at + m, ws[m])
  }

  /** The n words from position `at` on. */
  function GetWords(b: Block, at: nat, n: nat): (ws: seq<word>)
    requires at + n <= WORDS
    ensures |ws| == n
    ensures forall k :: 0 <= k < n ==> ws[k] == Word(b, at + k)
  {
    seq<word>(n, k requires 0 <= k < n => Word(b, at + k))
  }

  /** Reading a run back gives what was stored; runs elsewhere are untouched. */
  lemma PutGetWords(b: Block, at: nat, ws: seq<word>, at': nat, n: nat)
    requires at + |ws| <= WORDS && at' + n <= WORDS
    ensures at' == at && n == |ws| ==> GetWords(PutWords(b, at, ws), at', n) == ws
    ensures at' + n <= at || at + |ws| <= at' ==> GetWords(PutWords(b, at, ws), at', n) == GetWords(b, at', n)
  {
    var r := PutWords(b, at, ws);
    assert forall k :: 0 <= k < n ==> GetWords(r, at', n)[k] == Word(r, at' + k);
  }
}
