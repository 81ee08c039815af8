/**
 * The graphic editor window of the advanced driver: a grid of 7 rows by 32
 * columns of LEDs, each showing one colour code, that can be filled,
 * rotated a column left or right, written as text and read from text.
 * The widget grid is a 7 by 32 array of codes here.
 */
module Editor {
  import opened Text
  import Graphic

  /** `ledsVertical - 1` rows and `ledsHorizontal - 1` columns. */
  const Height: nat := 7
  const Width: nat := 32

  /** The codes of `COLORS`: off, red, green and yellow. */
  const Codes: string := "@ADE"

  predicate IsCode(c: char)
  {
    c in Codes
  }

  /** The code a lookup in `COLORS` ends with: the character itself when it
      is a code, and "Off" otherwise. */
  function Canon(c: char): (d: char)
    ensures IsCode(d)
    ensures IsCode(c) ==> d == c
    ensures !IsCode(c) ==> d == '@'
  {
    if IsCode(c) then c else '@'
  }

  /** Rows of `Width` codes, `Height` of them. */
  predicate WellFormed(g: seq<string>)
  {
    |g| == Height && forall r :: 0 <= r < Height ==> |g[r]| == Width && forall c :: 0 <= c < Width ==> IsCode(g[r][c])
  }

  predicate Shaped(g: seq<string>)
  {
    |g| == Height && forall r :: 0 <= r < Height ==> |g[r]| == Width
  }

  /** Two grids of the same shape with the same codes are the same grid. */
  lemma SameGrid(g: seq<string>, h: seq<string>)
    requires Shaped(g) && Shaped(h)
    requires forall r, c :: 0 <= r < Height && 0 <= c < Width ==> g[r][c] == h[r][c]
    ensures g == h
  {
    forall r | 0 <= r < Height
      ensures g[r] == h[r]
    {
      assert forall c :: 0 <= c < Width ==> g[r][c] == h[r][c];
    }
  }

  /** Every cell set to one code. */
  function Filled(code: char): seq<string>
  {
    seq(Height, r => seq(Width, c => code))
  }

  /** The column to the right of `c`, the first one after the last. */
  function Next(c: nat): nat
  {
    if c + 1 < Width then c + 1 else 0
  }

  /** The column to the left of `c`, the last one before the first. */
  function Prev(c: nat): nat
  {
    if c == 0 then Width - 1 else c - 1
  }

  /** A row moved one column to the left, the first cell coming round to the end. */
  function Left(row: string): (s: string)
    requires |row| == Width
    ensures |s| == Width
  {
    seq(Width, n requires 0 <= n < Width => Canon(row[Next(n)]))
  }

  /** A row moved one column to the right, the last cell coming round to the front. */
  function Right(row: string): (s: string)
    requires |row| == Width
    ensures |s| == Width
  {
    seq(Width, n requires 0 <= n < Width => Canon(row[Prev(n)]))
  }

  function ShiftedLeft(g: seq<string>): (h: seq<string>)
    requires Shaped(g)
    ensures Shaped(h)
  {
    seq(Height, r requires 0 <= r < Height => Left(g[r]))
  }

  function ShiftedRight(g: seq<string>): (h: seq<string>)
    requires Shaped(g)
    ensures Shaped(h)
  {
    seq(Height, r requires 0 <= r < Height => Right(g[r]))
  }

  /** On a row of codes the two rotations undo each other. */
  lemma RowRotations(row: string)
    requires |row| == Width && forall c :: 0 <= c < Width ==> IsCode(row[c])
    ensures Left(Right(row)) == row && Right(Left(row)) == row
  {
    assert forall n :: 0 <= n < Width ==> Left(Right(row))[n] == row[n];
    assert forall n :: 0 <= n < Width ==> Right(Left(row))[n] == row[n];
  }

  /** Shifting left and then right, or right and then left, gives the grid back. */
  lemma Rotations(g: seq<string>)
    requires WellFormed(g)
    ensures ShiftedLeft(ShiftedRight(g)) == g && ShiftedRight(ShiftedLeft(g)) == g
  {
    var lr, rl := ShiftedLeft(ShiftedRight(g)), ShiftedRight(ShiftedLeft(g));
    forall r | 0 <= r < Height
      ensures lr[r] == g[r] && rl[r] == g[r]
    {
      RowRotations(g[r]);
      assert lr[r] == Left(ShiftedRight(g)[r]) && ShiftedRight(g)[r] == Right(g[r]);
      assert rl[r] == Right(ShiftedLeft(g)[r]) && ShiftedLeft(g)[r] == Left(g[r]);
    }
  }

  /** The grid after reading lines of text: a character inside the grid
      sets its cell to its code, cells no line reaches keep their code, and
      characters past row 7 or column 32 are dropped. */
  function Overlay(g: seq<string>, lines: seq<string>): (h: seq<string>)
    requires Shaped(g)
    ensures Shaped(h)
  {
    seq(Height, r requires 0 <= r < Height =>
      seq(Width, c requires 0 <= c < Width =>
        if r < |lines| && c < |lines[r]| then Canon(lines[r][c]) else g[r][c]))
  }

  lemma OverlayWellFormed(g: seq<string>, lines: seq<string>)
    requires WellFormed(g)
    ensures WellFormed(Overlay(g, lines))
  {
  }

  lemma CodesNoBreaks(g: seq<string>)
    requires WellFormed(g)
    ensures forall r :: 0 <= r < |g| ==> NoBreaks(g[r])
  {
  }

  /** Reading the text the editor writes gives the grid back, whatever was shown before. */
  lemma ReadWritten(g: seq<string>, before: seq<string>)
    requires WellFormed(g) && Shaped(before)
    ensures Overlay(before, SplitLines(JoinCrLf(g))) == g
  {
    CodesNoBreaks(g);
    SplitJoin(g);
    SameGrid(Overlay(before, g), g);
  }

  /** The written text is a graphic `programgraphic` reads without an
      error, and it fills all four blocks. */
  lemma WrittenIsProgrammable(g: seq<string>)
    requires WellFormed(g)
    ensures Graphic.Readable(SplitLines(JoinCrLf(g)))
    ensures Graphic.EncodedBlocks(SplitLines(JoinCrLf(g))) == 4
  {
    CodesNoBreaks(g);
    SplitJoin(g);
    assert |g[0]| < 40;
    assert Graphic.Fits(g, 0) && Graphic.Fits(g, 1) && Graphic.Fits(g, 2) && Graphic.Fits(g, 3);
    assert !Graphic.Fits(g, 4);
    assert Graphic.FitFrom(g, 4) == 0;
  }

  /** `SixledsGraphicWindow`, reduced to its grid of colour codes. */
  class GraphicWindow {
    const cells: array2<char>

    /** Every cell holds one of the four codes: every write goes through `COLORS`. */
    ghost predicate Valid()
      reads cells
    {
      cells.Length0 == Height && cells.Length1 == Width
      && forall r, c :: 0 <= r < Height && 0 <= c < Width ==> IsCode(cells[r, c])
    }

    /** The grid as rows of codes. */
    function Grid(): (g: seq<string>)
      requires cells.Length0 == Height && cells.Length1 == Width
      reads cells
      ensures Shaped(g)
    {
      seq(Height, r requires 0 <= r < Height reads cells =>
        seq(Width, c requires 0 <= c < Width reads cells => cells[r, c]))
    }

    /** The window starts with every LED off. */
    constructor ()
      ensures Valid() && fresh(cells)
      ensures Grid() == Filled('@')
    {
      cells := new char[Height, Width]((r, c) => '@');
      new;
      SameGrid(Grid(), Filled('@'));
    }

    /** `OnFill`: every cell gets the selected colour's code. */
    method Fill(code: char)
      requires Valid() && IsCode(code)
      modifies cells
      ensures Valid() && Grid() == Filled(code)
    {
      for i := 0 to Height
        invariant forall r, c :: 0 <= r < Height && 0 <= c < Width ==>
          cells[r, c] == if r < i then code else old(cells[r, c])
      {
        for n := 0 to Width
          invariant forall r, c :: 0 <= r < Height && 0 <= c < Width ==>
            cells[r, c] == if r < i || (r == i && c < n) then code else old(cells[r, c])
        {
          cells[i, n] := code;
        }
      }
      SameGrid(Grid(), Filled(code));
    }

    /** One row of `OnShiftLeft`: the loop from the last column down to the
        first, each cell taking the code its right neighbour had. */
    method RowLeft(i: nat)
      requires Valid() && i < Height
      modifies cells
      ensures Valid()
      ensures forall r, c {:trigger cells[r, c]} :: 0 <= r < Height && 0 <= c < Width ==>
        cells[r, c] == if r == i then Canon(old(cells[i, Next(c)])) else old(cells[r, c])
    {
      var prev := cells[i, 0];
      for n := Width downto 0
        invariant prev == old(cells[i, if n == Width then 0 else n])
        invariant forall r, c {:trigger cells[r, c]} :: 0 <= r < Height && 0 <= c < Width ==>
          cells[r, c] == if r == i && c >= n then Canon(old(cells[i, Next(c)])) else old(cells[r, c])
      {
        var tmp := cells[i, n];
        cells[i, n] := Canon(prev);
        prev := tmp;
      }
    }

    /** One row of `OnShiftRight`: the loop from the first column up, each
        cell taking the code its left neighbour had. */
    method RowRight(i: nat)
      requires Valid() && i < Height
      modifies cells
      ensures Valid()
      ensures forall r, c {:trigger cells[r, c]} :: 0 <= r < Height && 0 <= c < Width ==>
        cells[r, c] == if r == i then Canon(old(cells[i, Prev(c)])) else old(cells[r, c])
    {
      ghost var row := seq(Width, c requires 0 <= c < Width reads cells => cells[i, c]);
      var prev := cells[i, Width - 1];
      for n := 0 to Width
        invariant prev == row[if n == 0 then Width - 1 else n - 1]
        invariant forall c :: 0 <= c < n ==> cells[i, c] == Canon(row[Prev(c)])
        invariant forall c :: n <= c < Width ==> cells[i, c] == row[c]
        invariant forall r, c :: 0 <= r < Height && r != i && 0 <= c < Width ==> cells[r, c] == old(cells[r, c])
      {
        var tmp := cells[i, n];
        cells[i, n] := Canon(prev);
        prev := tmp;
      }
    }

    /** `OnShiftLeft`: every row rotated one column to the left. */
    method ShiftLeft()
      requires Valid()
      modifies cells
      ensures Valid() && Grid() == ShiftedLeft(old(Grid()))
    {
      ghost var before := Grid();
      for i := 0 to Height
        invariant Valid()
        invariant forall r, c :: 0 <= r < Height && 0 <= c < Width ==>
          cells[r, c] == if r < i then Left(before[r])[c] else before[r][c]
      {
        RowLeft(i);
      }
      SameGrid(Grid(), ShiftedLeft(before));
    }

    /** `OnShiftRight`: every row rotated one column to the right. */
    method ShiftRight()
      requires Valid()
      modifies cells
      ensures Valid() && Grid() == ShiftedRight(old(Grid()))
    {
      ghost var before := Grid();
      for i := 0 to Height
        invariant Valid()
        invariant forall r, c :: 0 <= r < Height && 0 <= c < Width ==>
          cells[r, c] == if r < i then Right(before[r])[c] else before[r][c]
      {
        RowRight(i);
      }
      SameGrid(Grid(), ShiftedRight(before));
    }

    /** The parsing part of `OnOpenFile`: each character of each line sets
        the cell at its row and column, when the grid has one. */
    method Open(content: string)
      requires Valid()
      modifies cells
      ensures Valid() && Grid() == Overlay(old(Grid()), SplitLines(content))
    {
      ghost var before := Grid();
      var lines := SplitLines(content);
      for linecounter := 0 to |lines|
        invariant Valid()
        invariant forall r, c :: 0 <= r < Height && 0 <= c < Width ==>
          cells[r, c] == if r < linecounter && c < |lines[r]| then Canon(lines[r][c]) else before[r][c]
      {
        var line := lines[linecounter];
        for charcounter := 0 to |line|
          invariant Valid()
          invariant forall r, c :: 0 <= r < Height && 0 <= c < Width ==>
            cells[r, c] == if (r < linecounter && c < |lines[r]|) || (r == linecounter && c < charcounter)
                           then Canon(lines[r][c]) else before[r][c]
        {
          if linecounter < Height && charcounter < Width {
            cells[linecounter, charcounter] := Canon(line[charcounter]);
          }
        }
      }
      SameGrid(Grid(), Overlay(before, lines));
    }

    /** `CompileGraphicToText`: each row's codes followed by `\r\n`. */
    method Compile() returns (content: string)
      requires Valid()
      ensures content == JoinCrLf(Grid())
    {
      content := "";
      for i := 0 to Height
        invariant content == JoinCrLf(Grid()[..i])
      {
        var line := "";
        for n := 0 to Width
          invariant line == Grid()[i][..n]
        {
          line := line + [cells[i, n]];
        }
        assert line == Grid()[i];
        JoinSnoc(Grid()[..i], line);
        assert Grid()[..i + 1] == Grid()[..i] + [line];
        content := content + line + "\r\n";
      }
      assert Grid()[..Height] == Grid();
    }
  }
}
