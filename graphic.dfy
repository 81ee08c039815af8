/**
 * The payload of `programgraphic` (advanced driver only): a graphic is
 * given as text, one line per pixel row and one character per pixel, and
 * is packed into 64 bytes. Each byte holds four pixels of two bits each;
 * 8 by 8 pixel blocks follow each other left to right, 16 bytes per
 * block and two bytes per row, the eighth row of a block is never filled.
 */
module Graphic {

  /** `getcolorbyte`: the colour code of a pixel in the two highest bits. */
  function ColorByte(c: char): (b: bv8)
    ensures b & 0x3F == 0
  {
    if c == 'A' then 0x80
    else if c == 'D' then 0x40
    else if c == 'E' then 0xC0
    else 0x00
  }

  /** The two-bit code of a pixel: red 10, green 01, yellow 11, anything else off. */
  function PixelCode(c: char): (p: bv8)
    ensures p < 4
  {
    if c == 'A' then 2 else if c == 'D' then 1 else if c == 'E' then 3 else 0
  }

  /** The two-bit code is what `getcolorbyte` puts in the two highest bits. */
  lemma ColorCode(c: char)
    ensures PixelCode(c) == ColorByte(c) >> 6
  {
  }

  /** `b >> (k * 2)`, the shift of pixel `k` of a group of four into place. */
  function Place(b: bv8, k: nat): bv8
    requires k < 4
  {
    if k == 0 then b else if k == 1 then b >> 2 else if k == 2 then b >> 4 else b >> 6
  }

  /** The byte after the first `n` of the four `chunk |= ...` steps. */
  function ChunkUpTo(row: string, off: nat, n: nat): bv8
    requires n <= 4 && off + 4 <= |row|
  {
    if n == 0 then 0 else ChunkUpTo(row, off, n - 1) | Place(ColorByte(row[off + n - 1]), n - 1)
  }

  /** The byte for pixels `off` to `off + 3` of a row. */
  function Chunk(row: string, off: nat): bv8
    requires off + 4 <= |row|
  {
    ChunkUpTo(row, off, 4)
  }

  /** Four colour bytes shifted into one byte can be taken apart again. */
  lemma Unpack(a: bv8, b: bv8, c: bv8, d: bv8)
    requires a & 0x3F == 0 && b & 0x3F == 0 && c & 0x3F == 0 && d & 0x3F == 0
    ensures var x := a | (b >> 2) | (c >> 4) | (d >> 6);
      (x >> 6) & 3 == a >> 6 && (x >> 4) & 3 == b >> 6 && (x >> 2) & 3 == c >> 6 && x & 3 == d >> 6
  {
  }

  lemma ChunkLayout(row: string, off: nat)
    requires off + 4 <= |row|
    ensures Chunk(row, off) == ColorByte(row[off]) | (ColorByte(row[off + 1]) >> 2)
                               | (ColorByte(row[off + 2]) >> 4) | (ColorByte(row[off + 3]) >> 6)
  {
    assert ChunkUpTo(row, off, 1) == ColorByte(row[off]);
    assert ChunkUpTo(row, off, 2) == ColorByte(row[off]) | (ColorByte(row[off + 1]) >> 2);
    assert ChunkUpTo(row, off, 3) == ChunkUpTo(row, off, 2) | (ColorByte(row[off + 2]) >> 4);
  }

  /** Pixel `k` of a group of four sits in bits `7 - 2k` and `6 - 2k` of its byte. */
  lemma ChunkPixel(row: string, off: nat, k: nat)
    requires off + 4 <= |row| && k < 4
    ensures (Chunk(row, off) >> (6 - 2 * k)) & 3 == PixelCode(row[off + k])
  {
    ChunkLayout(row, off);
    ColorCode(row[off + k]);
    Unpack(ColorByte(row[off]), ColorByte(row[off + 1]), ColorByte(row[off + 2]), ColorByte(row[off + 3]));
    if k == 0 {
    } else if k == 1 {
    } else if k == 2 {
    } else {
    }
  }

  /** The inner `for char in [0,1,2,3]` loop of `programgraphic`. */
  method PackChunk(row: string, off: nat) returns (chunk: bv8)
    requires off + 4 <= |row|
    ensures chunk == Chunk(row, off)
  {
    chunk := 0;
    for k := 0 to 4
      invariant chunk == ChunkUpTo(row, off, k)
    {
      chunk := chunk | Place(ColorByte(row[off + k]), k);
    }
  }

  /** Block `b` fits when each of the seven rows has a pixel `8b + 7`. */
  predicate Fits(rows: seq<string>, b: nat)
  {
    |rows| >= 7 && forall r :: 0 <= r < 7 ==> |rows[r]| > 8 * b + 7
  }

  /** How many blocks, from block `b` on, fit one after the other. */
  function FitFrom(rows: seq<string>, b: nat): (n: nat)
    requires b <= 8
    ensures b + n <= 8
    decreases 8 - b
  {
    if b < 8 && Fits(rows, b) then 1 + FitFrom(rows, b + 1) else 0
  }

  /** The number of blocks `programgraphic` encodes: `blockok` is never set
      back, so only a run of fitting blocks from the left is encoded. */
  function EncodedBlocks(rows: seq<string>): nat
  {
    FitFrom(rows, 0)
  }

  /** The input the source reads without an index error: it needs seven rows
      unless a short row stops the check first, and it writes past the
      64-byte list when a fifth block fits. */
  predicate Readable(rows: seq<string>)
  {
    (|rows| >= 7 && exists r :: 0 <= r < 7 && |rows[r]| < 40)
    || (|rows| < 7 && exists r :: 0 <= r < |rows| && |rows[r]| < 8)
  }

  lemma {:induction false} FitFromMeans(rows: seq<string>, b: nat, c: nat)
    requires b <= c <= 8
    ensures c < b + FitFrom(rows, b) ==> Fits(rows, c)
    ensures c == b + FitFrom(rows, b) && c < 8 ==> !Fits(rows, c)
    decreases c - b
  {
    if b < c && b < 8 && Fits(rows, b) {
      FitFromMeans(rows, b + 1, c);
    }
  }

  /** Blocks `0 .. EncodedBlocks - 1` fit and the next one does not. */
  lemma EncodedMeans(rows: seq<string>, b: nat)
    requires b <= 8
    ensures b < EncodedBlocks(rows) ==> Fits(rows, b)
    ensures b == EncodedBlocks(rows) && b < 8 ==> !Fits(rows, b)
  {
    FitFromMeans(rows, 0, b);
  }

  /** A readable graphic encodes at most four blocks, so every write stays inside the 64 bytes. */
  lemma ReadableBlocks(rows: seq<string>)
    requires Readable(rows)
    ensures EncodedBlocks(rows) <= 4
    ensures |rows| < 7 ==> EncodedBlocks(rows) == 0
  {
    EncodedMeans(rows, 4);
    EncodedMeans(rows, 0);
  }

  /** Where row `line`, half `h` of block `b` goes in the 64 bytes. */
  function Slot(b: nat, line: nat, h: nat): nat
  {
    16 * b + 2 * line + h
  }

  /** Every index of the payload is exactly one slot. */
  lemma SlotParts(b: nat, line: nat, h: nat)
    requires line < 8 && h < 2
    ensures Slot(b, line, h) / 16 == b && (Slot(b, line, h) % 16) / 2 == line && (Slot(b, line, h) % 16) % 2 == h
  {
    var i := Slot(b, line, h);
    assert i == 16 * b + (2 * line + h) && 2 * line + h < 16;
    assert i % 16 == 2 * line + h;
  }

  lemma SlotDistinct(b: nat, l: nat, h: nat, b': nat, l': nat)
    requires l < 8 && h < 2 && l' < 8 && (b != b' || l != l')
    ensures Slot(b, l, h) != Slot(b', l', 0) && Slot(b, l, h) != Slot(b', l', 1)
  {
    SlotParts(b, l, h);
    SlotParts(b', l', 0);
    SlotParts(b', l', 1);
  }

  lemma SlotOf(i: nat)
    ensures i == Slot(i / 16, (i % 16) / 2, (i % 16) % 2)
  {
  }

  /** The default list: `0xff, 0xff`, then zeros. */
  function Default(b: nat, line: nat): bv8
  {
    if b == 0 && line == 0 then 0xFF else 0x00
  }

  /** Half `h` of row `line` of block `b`, when that block is encoded. */
  function Cell(rows: seq<string>, b: nat, line: nat, h: nat): bv8
    requires Readable(rows) && h < 2
  {
    if b < EncodedBlocks(rows) && line < 7 then
      EncodedMeans(rows, b);
      Chunk(rows[line], 8 * b + 4 * h)
    else Default(b, line)
  }

  function Payload(rows: seq<string>): (p: seq<bv8>)
    requires Readable(rows)
    ensures |p| == 64
  {
    seq(64, i requires 0 <= i < 64 => Cell(rows, i / 16, (i % 16) / 2, (i % 16) % 2))
  }

  /** Byte `Slot(b, line, h)` of the payload is that cell. */
  lemma PayloadSlot(rows: seq<string>, b: nat, line: nat, h: nat)
    requires Readable(rows) && b < 4 && line < 8 && h < 2
    ensures Payload(rows)[Slot(b, line, h)] == Cell(rows, b, line, h)
  {
    SlotParts(b, line, h);
  }

  /** Bytes 14 and 15 of every block (its eighth row) keep their default zero. */
  lemma EighthRowUntouched(rows: seq<string>, b: nat, h: nat)
    requires Readable(rows) && b < 4 && h < 2
    ensures Payload(rows)[Slot(b, 7, h)] == 0
  {
    PayloadSlot(rows, b, 7, h);
  }

  /** A graphic too narrow for one block sends the default list. */
  lemma NarrowGraphic(rows: seq<string>, b: nat, line: nat, h: nat)
    requires Readable(rows) && EncodedBlocks(rows) == 0 && b < 4 && line < 8 && h < 2
    ensures Payload(rows)[Slot(b, line, h)] == if b == 0 && line == 0 then 0xFF else 0
  {
    PayloadSlot(rows, b, line, h);
  }

  /** Each encoded pixel can be read back: pixel `k` of half `h` of row `r`
      of block `b` is bit pair `k` of byte `Slot(b, r, h)`. */
  lemma PayloadPixel(rows: seq<string>, b: nat, r: nat, h: nat, k: nat)
    requires Readable(rows) && b < EncodedBlocks(rows) && r < 7 && h < 2 && k < 4
    ensures 8 * b + 4 * h + k < |rows[r]|
    ensures (Payload(rows)[Slot(b, r, h)] >> (6 - 2 * k)) & 3 == PixelCode(rows[r][8 * b + 4 * h + k])
  {
    ReadableBlocks(rows);
    EncodedMeans(rows, b);
    PayloadSlot(rows, b, r, h);
    ChunkPixel(rows[r], 8 * b + 4 * h, k);
  }

  /** What `data` holds once the blocks before `block`, and the first `line`
      rows of `block`, have been written. */
  function Partial(rows: seq<string>, block: nat, line: nat, b: nat, l: nat, h: nat): bv8
    requires Readable(rows) && h < 2
  {
    if b < block || (b == block && l < line) then Cell(rows, b, l, h) else Default(b, l)
  }

  /** The `for line` check of `programgraphic`: does a block start at
      `charoffset`? It reads rows until a short one, so it needs the rows
      it reads to exist. */
  method CheckBlock(rows: seq<string>, charoffset: nat) returns (blockok: bool)
    requires Readable(rows) && charoffset <= 32
    ensures blockok == (|rows| >= 7 && forall r :: 0 <= r < 7 ==> |rows[r]| > charoffset + 7)
  {
    blockok := true;
    for line := 0 to 7
      invariant forall t :: 0 <= t < line ==> t < |rows| && |rows[t]| > charoffset + 7
    {
      if charoffset + 7 >= |rows[line]| {
        blockok := false;
        break;
      }
    }
  }

  /** The `if(blockok)` part for one block: its seven rows, two bytes each. */
  method EncodeBlock(data: array<bv8>, rows: seq<string>, block: nat, charoffset: nat)
    requires data.Length == 64 && Readable(rows)
    requires block < EncodedBlocks(rows) && charoffset == 8 * block
    requires forall b: nat, l: nat, h: nat | b < 4 && l < 8 && h < 2 ::
      data[Slot(b, l, h)] == Partial(rows, block, 0, b, l, h)
    modifies data
    ensures forall b: nat, l: nat, h: nat | b < 4 && l < 8 && h < 2 ::
      data[Slot(b, l, h)] == Partial(rows, block + 1, 0, b, l, h)
  {
    ReadableBlocks(rows);
    EncodedMeans(rows, block);
    for line := 0 to 7
      invariant forall b: nat, l: nat, h: nat | b < 4 && l < 8 && h < 2 ::
        data[Slot(b, l, h)] == Partial(rows, block, line, b, l, h)
    {
      var chunk := PackChunk(rows[line], charoffset);
      var chunk2 := PackChunk(rows[line], charoffset + 4);
      ghost var pre := data[..];
      data[Slot(block, line, 0)] := chunk;
      data[Slot(block, line, 1)] := chunk2;
      forall b: nat, l: nat, h: nat | b < 4 && l < 8 && h < 2
        ensures data[Slot(b, l, h)] == Partial(rows, block, line + 1, b, l, h)
      {
        if b != block || l != line {
          SlotDistinct(b, l, h, block, line);
          assert data[Slot(b, l, h)] == pre[Slot(b, l, h)];
        }
      }
    }
  }

  /** The nested block, line and char loops of `programgraphic` over the
      64-entry list `data`, with `charoffset` and `blockok` as in the source. */
  method BuildPayload(rows: seq<string>) returns (data: array<bv8>)
    requires Readable(rows)
    ensures fresh(data) && data[..] == Payload(rows)
  {
    ReadableBlocks(rows);
    var nb := EncodedBlocks(rows);
    data := new bv8[64](i => Default(i / 16, (i % 16) / 2));
    forall b: nat, l: nat, h: nat | b < 4 && l < 8 && h < 2
      ensures data[Slot(b, l, h)] == Partial(rows, 0, 0, b, l, h)
    {
      SlotParts(b, l, h);
    }
    var charoffset := 0;
    var blockok := true;
    for block := 0 to 8
      invariant blockok == (block <= nb)
      invariant charoffset == 8 * (if block <= nb then block else nb)
      invariant forall b: nat, l: nat, h: nat | b < 4 && l < 8 && h < 2 ::
        data[Slot(b, l, h)] == Partial(rows, if block <= nb then block else nb, 0, b, l, h)
    {
      var fits := CheckBlock(rows, charoffset);
      blockok := blockok && fits;
      EncodedMeans(rows, block);
      if blockok {
        EncodeBlock(data, rows, block, charoffset);
        charoffset := charoffset + 8;
      }
    }
    forall i | 0 <= i < 64
      ensures data[i] == Payload(rows)[i]
    {
      SlotOf(i);
      PayloadSlot(rows, i / 16, (i % 16) / 2, (i % 16) % 2);
    }
  }
}
