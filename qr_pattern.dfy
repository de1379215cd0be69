/** The confirmation modal's QR-like picture: a 21×21 grid seeded from the
    confirmation code, with three 7×7 finder squares stamped on top. */
module QrPattern {

  const Size := 21
  const FinderSize := 7

  /** `code.split("").reduce((a, b) => a + b.charCodeAt(0), 0)`. */
  function Seed(code: string): nat
  {
    if code == [] then 0 else code[0] as int + Seed(code[1..])
  }

  /** The seed of a concatenation is the sum of the seeds. */
  lemma {:induction false} SeedAppend(x: string, y: string)
    ensures Seed(x + y) == Seed(x) + Seed(y)
  {
    if x != [] {
      assert (x + y)[0] == x[0];
      assert (x + y)[1..] == x[1..] + y;
      SeedAppend(x[1..], y);
    } else {
      assert x + y == y;
    }
  }

  /** Removing one character from the code lowers the seed by its code. */
  lemma SeedRemove(code: string, k: nat)
    requires k < |code|
    ensures Seed(code) == code[k] as int + Seed(code[..k] + code[k + 1..])
  {
    assert code == code[..k] + ([code[k]] + code[k + 1..]);
    SeedAppend(code[..k], [code[k]] + code[k + 1..]);
    SeedAppend([code[k]], code[k + 1..]);
    SeedAppend(code[..k], code[k + 1..]);
  }

  /** Cutting the character at `k` out of a code removes one copy of it from the multiset. */
  lemma CutMultiset(b: string, k: nat)
    requires k < |b|
    ensures multiset(b[..k] + b[k + 1..]) == multiset(b) - multiset{b[k]}
  {
    assert b == b[..k] + [b[k]] + b[k + 1..];
    assert multiset(b) == multiset(b[..k]) + multiset{b[k]} + multiset(b[k + 1..]);
  }

  /** A character of the multiset of a code sits at some index of the code. */
  lemma IndexOf(b: string, c: char) returns (k: nat)
    requires c in multiset(b)
    ensures k < |b| && b[k] == c
  {
    assert c in b;
    k :| k < |b| && b[k] == c;
  }

  /** Anagram codes have the same seed, hence the same picture. */
  lemma {:induction false} AnagramsShareSeed(a: string, b: string)
    requires multiset(a) == multiset(b)
    ensures Seed(a) == Seed(b)
    decreases |a|
  {
    if a != [] {
      var k := IndexOf(b, a[0]);
      var b' := b[..k] + b[k + 1..];
      assert a == [a[0]] + a[1..];
      assert multiset(a[1..]) == multiset(a) - multiset{a[0]};
      CutMultiset(b, k);
      SeedRemove(b, k);
      AnagramsShareSeed(a[1..], b');
    } else {
      assert |b| == |multiset(b)| == 0;
    }
  }

  /** The seeded value of cell (i, j) before the finder squares are added. */
  predicate SeedCell(seed: nat, i: nat, j: nat)
  {
    (seed * (i + 1) * (j + 1)) % 7 < 3
  }

  /** Cell (i, j) of a finder square: dark border, light ring, dark 3×3 centre. */
  predicate FinderDark(i: int, j: int)
  {
    i == 0 || i == 6 || j == 0 || j == 6 || (2 <= i <= 4 && 2 <= j <= 4)
  }

  /** Whether (row, col) lies in the 7×7 square whose top-left cell is (top, left). */
  predicate InSquare(row: int, col: int, top: int, left: int)
  {
    top <= row < top + FinderSize && left <= col < left + FinderSize
  }

  /** The finished picture: squares at the top-left, top-right and bottom-left
      corners, the seeded pattern everywhere else. */
  function Pattern(seed: nat, row: nat, col: nat): bool
  {
    if InSquare(row, col, 0, 0) then FinderDark(row, col)
    else if InSquare(row, col, 0, Size - FinderSize) then FinderDark(row, col - (Size - FinderSize))
    else if InSquare(row, col, Size - FinderSize, 0) then FinderDark(row - (Size - FinderSize), col)
    else SeedCell(seed, row, col)
  }

  /** Each corner square has dark border rows and columns, a dark centre and a
      light ring between them; the three squares do not overlap. */
  lemma FinderSquareShape(seed: nat, top: nat, left: nat, i: nat, j: nat)
    requires (top, left) == (0, 0) || (top, left) == (0, Size - FinderSize) || (top, left) == (Size - FinderSize, 0)
    requires i < FinderSize && j < FinderSize
    ensures i == 0 || i == 6 || j == 0 || j == 6 ==> Pattern(seed, top + i, left + j)
    ensures 2 <= i <= 4 && 2 <= j <= 4 ==> Pattern(seed, top + i, left + j)
    ensures 1 <= i <= 5 && 1 <= j <= 5 && !(2 <= i <= 4 && 2 <= j <= 4) ==> !Pattern(seed, top + i, left + j)
  {
  }

  /** Outside the three squares every cell keeps its seeded value. */
  lemma OutsideSquaresSeeded(seed: nat, row: nat, col: nat)
    requires row < Size && col < Size
    requires !InSquare(row, col, 0, 0) && !InSquare(row, col, 0, Size - FinderSize)
    requires !InSquare(row, col, Size - FinderSize, 0)
    ensures Pattern(seed, row, col) == SeedCell(seed, row, col)
  {
  }

  /** Codes with the same characters in any order give the same picture. */
  lemma AnagramsSharePattern(a: string, b: string, row: nat, col: nat)
    requires multiset(a) == multiset(b)
    ensures Pattern(Seed(a), row, col) == Pattern(Seed(b), row, col)
  {
    AnagramsShareSeed(a, b);
  }

  /** `addFinderPattern(startX, startY)`: overwrite the 7×7 square at row
      `startY`, column `startX` and leave every other cell alone. */
  method AddFinderPattern(cells: array2<bool>, startX: nat, startY: nat)
    requires startY + FinderSize <= cells.Length0 && startX + FinderSize <= cells.Length1
    modifies cells
    ensures forall r, c :: 0 <= r < cells.Length0 && 0 <= c < cells.Length1 ==>
              cells[r, c] == if InSquare(r, c, startY, startX) then FinderDark(r - startY, c - startX)
                             else old(cells[r, c])
  {
    var i := 0;
    while i < FinderSize
      invariant 0 <= i <= FinderSize
      invariant forall r, c :: 0 <= r < cells.Length0 && 0 <= c < cells.Length1 ==>
                  cells[r, c] == if startY <= r < startY + i && startX <= c < startX + FinderSize
                                 then FinderDark(r - startY, c - startX) else old(cells[r, c])
    {
      var j := 0;
      while j < FinderSize
        invariant 0 <= j <= FinderSize
        invariant forall r, c :: 0 <= r < cells.Length0 && 0 <= c < cells.Length1 ==>
                    cells[r, c] == if (startY <= r < startY + i && startX <= c < startX + FinderSize)
                                      || (r == startY + i && startX <= c < startX + j)
                                   then FinderDark(r - startY, c - startX) else old(cells[r, c])
      {
        if i == 0 || i == 6 || j == 0 || j == 6 || (i >= 2 && i <= 4 && j >= 2 && j <= 4) {
          cells[startY + i, startX + j] := true;
        } else {
          cells[startY + i, startX + j] := false;
        }
        j := j + 1;
      }
      i := i + 1;
    }
  }

  /** `generateQRPattern()` for the confirmation code `code`. */
  method GeneratePattern(code: string) returns (cells: array2<bool>)
    ensures fresh(cells)
    ensures cells.Length0 == Size && cells.Length1 == Size
    ensures forall r, c :: 0 <= r < Size && 0 <= c < Size ==> cells[r, c] == Pattern(Seed(code), r, c)
  {
    var seed := Seed(code);
    cells := new bool[Size, Size];
    var i := 0;
    while i < Size
      invariant 0 <= i <= Size
      invariant forall r, c :: 0 <= r < i && 0 <= c < Size ==> cells[r, c] == SeedCell(seed, r, c)
    {
      var j := 0;
      while j < Size
        invariant 0 <= j <= Size
        invariant forall r, c :: 0 <= r < i && 0 <= c < Size ==> cells[r, c] == SeedCell(seed, r, c)
        invariant forall c :: 0 <= c < j ==> cells[i, c] == SeedCell(seed, i, c)
      {
        cells[i, j] := (seed * (i + 1) * (j + 1)) % 7 < 3;
        j := j + 1;
      }
      i := i + 1;
    }
    AddFinderPattern(cells, 0, 0);
    AddFinderPattern(cells, Size - FinderSize, 0);
    AddFinderPattern(cells, 0, Size - FinderSize);
  }
}
