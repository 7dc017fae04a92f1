/** The Deep Zoom tiler of `tiling.py`: the pyramid arithmetic (level count,
    per-level size, tile grid, crop boxes with the one-pixel overlap on the
    right and bottom edges), the tile file names, the `.dzi` descriptor text
    and the command-line driver's file selection. Pixels, resizing and file
    writes are abstracted away: a tile is the record of where it is cut from
    and where it is saved. */
module Tiling {
  import opened Seqs
  import opened Text

  const TileSize: nat := 256
  const Overlap: nat := 1
  const TileFormat: string := "png"
  const DeepZoomNamespace: string := "http://schemas.microsoft.com/deepzoom/2008"

  function Pow2(n: nat): (r: nat)
    ensures r >= 1
  {
    if n == 0 then 1 else 2 * Pow2(n - 1)
  }

  lemma {:induction false} Pow2Monotone(a: nat, b: nat)
    requires a <= b
    ensures Pow2(a) <= Pow2(b)
  {
    if a < b {
      Pow2Monotone(a, b - 1);
    }
  }

  /** `math.ceil(a / b)` on non-negative integers. */
  function CeilDiv(a: nat, b: nat): (r: nat)
    requires b > 0
    ensures a <= r * b
    ensures r == 0 || (r - 1) * b < a
    ensures a == 0 <==> r == 0
    ensures 1 <= a <= b ==> r == 1
    decreases a
  {
    if a == 0 then 0 else if a <= b then 1 else 1 + CeilDiv(a - b, b)
  }

  function Max(a: nat, b: nat): nat
  {
    if a >= b then a else b
  }

  /** The least `n` with `2^n >= m`, i.e. `ceil(log2(m))` computed exactly. */
  function CeilLog2(m: nat): (n: nat)
    requires m >= 1
    ensures m <= Pow2(n)
    ensures n == 0 || Pow2(n - 1) < m
  {
    if m == 1 then 0 else 1 + CeilLog2((m + 1) / 2)
  }

  /** `compute_levels`: 0 for images whose longer side is at most one pixel,
      otherwise the least `n` with `2^n` at least the longer side. */
  function ComputeLevels(width: nat, height: nat): (n: nat)
    ensures Max(width, height) <= 1 ==> n == 0
    ensures Max(width, height) > 1 ==> n >= 1 && Max(width, height) <= Pow2(n) && Pow2(n - 1) < Max(width, height)
  {
    var maxDim := Max(width, height);
    if maxDim > 1 then CeilLog2(maxDim) else 0
  }

  /** No smaller exponent covers the longer side: the level count is minimal. */
  lemma ComputeLevelsLeast(width: nat, height: nat, k: nat)
    requires Max(width, height) <= Pow2(k)
    ensures ComputeLevels(width, height) <= k
  {
    var n := ComputeLevels(width, height);
    if n > k {
      Pow2Monotone(k, n - 1);
    }
  }

  /** The size of one pyramid level and its tile grid. */
  datatype Level = Level(width: nat, height: nat, cols: nat, rows: nat)

  /** Levels `0..max_level` of the pyramid: the image scaled down by `2^(max_level - level)`,
      rounded up, cut into a grid of `TileSize` squares. */
  function LevelOf(width: nat, height: nat, level: nat): (l: Level)
    requires level <= ComputeLevels(width, height)
    ensures l.cols * TileSize >= l.width && (l.cols == 0 || (l.cols - 1) * TileSize < l.width)
    ensures l.rows * TileSize >= l.height && (l.rows == 0 || (l.rows - 1) * TileSize < l.height)
  {
    var scale := Pow2(ComputeLevels(width, height) - level);
    var levelWidth := CeilDiv(width, scale);
    var levelHeight := CeilDiv(height, scale);
    Level(levelWidth, levelHeight, CeilDiv(levelWidth, TileSize), CeilDiv(levelHeight, TileSize))
  }

  /** The top level is the full-size image. */
  lemma TopLevelIsFullSize(width: nat, height: nat)
    ensures LevelOf(width, height, ComputeLevels(width, height)).width == width
    ensures LevelOf(width, height, ComputeLevels(width, height)).height == height
  {
  }

  /** Level 0 of any non-empty image is a single pixel. */
  lemma BottomLevelIsOnePixel(width: nat, height: nat)
    requires width >= 1 && height >= 1
    ensures LevelOf(width, height, 0) == Level(1, 1, 1, 1)
  {
    var n := ComputeLevels(width, height);
    assert Max(width, height) <= Pow2(n);
  }

  /** The number of tiles a level reports: `cols * rows`. */
  function TileCount(l: Level): nat
  {
    l.cols * l.rows
  }

  /** The crop rectangle `(left, upper, right, lower)` passed to `crop`. */
  datatype Box = Box(left: nat, upper: nat, right: nat, lower: nat)

  function Min(a: nat, b: nat): nat
  {
    if a <= b then a else b
  }

  /** The tile at grid position (col, row) of a `levelWidth` x `levelHeight` level:
      a `TileSize` square starting on the grid, extended by `Overlap` pixels to the
      right and below, and cut off at the level's edge. */
  function CropBox(col: nat, row: nat, levelWidth: nat, levelHeight: nat): (b: Box)
    ensures b.left == col * TileSize && b.upper == row * TileSize
    ensures b.right == Min(b.left + TileSize + Overlap, levelWidth)
    ensures b.lower == Min(b.upper + TileSize + Overlap, levelHeight)
  {
    var left := col * TileSize;
    var upper := row * TileSize;
    Box(left, upper, Min(left + TileSize + Overlap, levelWidth), Min(upper + TileSize + Overlap, levelHeight))
  }

  /** Every box of the grid is non-empty, inside the level and at most 257 pixels wide and high. */
  lemma CropBoxInside(l: Level, col: nat, row: nat)
    requires l.cols * TileSize >= l.width && (l.cols == 0 || (l.cols - 1) * TileSize < l.width)
    requires l.rows * TileSize >= l.height && (l.rows == 0 || (l.rows - 1) * TileSize < l.height)
    requires col < l.cols && row < l.rows
    ensures var b := CropBox(col, row, l.width, l.height);
      b.left < b.right <= l.width && b.right - b.left <= TileSize + Overlap
      && b.upper < b.lower <= l.height && b.lower - b.upper <= TileSize + Overlap
  {
    assert col * TileSize <= (l.cols - 1) * TileSize;
    assert row * TileSize <= (l.rows - 1) * TileSize;
  }

  /** Neighbouring boxes of a row share exactly the overlap column: the right edge of a
      box that is not the last is one pixel past the next box's left edge. */
  lemma CropBoxesOverlap(l: Level, col: nat, row: nat)
    requires l.cols * TileSize >= l.width && (l.cols == 0 || (l.cols - 1) * TileSize < l.width)
    requires col + 1 < l.cols
    ensures CropBox(col, row, l.width, l.height).right == CropBox(col + 1, row, l.width, l.height).left + Overlap
  {
    assert (col + 1) * TileSize <= (l.cols - 1) * TileSize;
  }

  /** Every pixel column of a level lies in the box of grid column `x / TileSize`. */
  lemma CropBoxesCover(l: Level, x: nat, row: nat)
    requires l.cols * TileSize >= l.width && (l.cols == 0 || (l.cols - 1) * TileSize < l.width)
    requires x < l.width
    ensures x / TileSize < l.cols
    ensures var b := CropBox(x / TileSize, row, l.width, l.height); b.left <= x < b.right
  {
    var c := x / TileSize;
    assert c * TileSize <= x < c * TileSize + TileSize;
  }

  /** `os.path.join(a, b)` on POSIX. */
  function PathJoin(a: string, b: string): string
  {
    if StartsWith(b, "/") then b
    else if a == "" || EndsWith(a, "/") then a + b
    else a + "/" + b
  }

  /** `f"{col}_{row}.{TILE_FORMAT}"` */
  function TileFileName(col: nat, row: nat): string
  {
    NatToString(col) + "_" + NatToString(row) + "." + TileFormat
  }

  /** `<output>/<level>/<col>_<row>.png` */
  function TilePath(outputDir: string, level: nat, col: nat, row: nat): string
  {
    PathJoin(PathJoin(outputDir, NatToString(level)), TileFileName(col, row))
  }

  /** One saved tile: where it sits in the pyramid, what is cut, where it is written. */
  datatype Tile = Tile(level: nat, col: nat, row: nat, box: Box, path: string)

  function MkTile(outputDir: string, level: nat, l: Level, col: nat, row: nat): Tile
  {
    Tile(level, col, row, CropBox(col, row, l.width, l.height), TilePath(outputDir, level, col, row))
  }

  /** The tiles of one row, columns left to right. */
  function RowTiles(outputDir: string, level: nat, l: Level, row: nat): (r: seq<Tile>)
    ensures |r| == l.cols
    ensures forall c :: 0 <= c < l.cols ==> r[c] == MkTile(outputDir, level, l, c, row)
  {
    seq(l.cols, (c: int) requires 0 <= c => MkTile(outputDir, level, l, c, row))
  }

  /** The tiles of rows `0..rows-1`, row by row. */
  function GridTiles(outputDir: string, level: nat, l: Level, rows: nat): seq<Tile>
  {
    if rows == 0 then [] else GridTiles(outputDir, level, l, rows - 1) + RowTiles(outputDir, level, l, rows - 1)
  }

  function LevelTiles(outputDir: string, width: nat, height: nat, level: nat): seq<Tile>
    requires level <= ComputeLevels(width, height)
  {
    var l := LevelOf(width, height, level);
    GridTiles(outputDir, level, l, l.rows)
  }

  /** The tiles of levels `0..n-1`, level by level. */
  function TilesUpTo(outputDir: string, width: nat, height: nat, n: nat): seq<Tile>
    requires n <= ComputeLevels(width, height) + 1
  {
    if n == 0 then [] else TilesUpTo(outputDir, width, height, n - 1) + LevelTiles(outputDir, width, height, n - 1)
  }

  /** Everything `generate_tiles` saves, in the order it saves it. */
  function PyramidTiles(outputDir: string, width: nat, height: nat): seq<Tile>
  {
    TilesUpTo(outputDir, width, height, ComputeLevels(width, height) + 1)
  }

  /** A grid of `rows` rows holds `rows * cols` tiles, and position `row * cols + col`
      holds the tile of (col, row): one tile per grid cell, in row-major order. */
  lemma GridTileAt(outputDir: string, level: nat, l: Level, rows: nat, col: nat, row: nat)
    requires col < l.cols && row < rows
    ensures |GridTiles(outputDir, level, l, rows)| == rows * l.cols
    ensures GridTiles(outputDir, level, l, rows)[row * l.cols + col] == MkTile(outputDir, level, l, col, row)
  {
    GridCellAt(outputDir, level, l, rows, col, row);
    CellPosIsProduct(l.cols, 0, rows);
    CellPosIsProduct(l.cols, col, row);
  }

  /** The position of cell (col, row) in a row-major layout with `cols` columns, counted
      row by row so that the grid lemmas need no multiplication. */
  function CellPos(cols: nat, col: nat, row: nat): nat
  {
    if row == 0 then col else cols + CellPos(cols, col, row - 1)
  }

  lemma {:induction false} CellPosIsProduct(cols: nat, col: nat, row: nat)
    ensures CellPos(cols, col, row) == row * cols + col
  {
    if row > 0 {
      CellPosIsProduct(cols, col, row - 1);
      assert row * cols == (row - 1) * cols + cols;
    }
  }

  lemma {:induction false} CellPosShift(cols: nat, col: nat, row: nat)
    ensures CellPos(cols, col, row) == CellPos(cols, 0, row) + col
  {
    if row > 0 {
      CellPosShift(cols, col, row - 1);
    }
  }

  lemma {:induction false} GridLength(outputDir: string, level: nat, l: Level, rows: nat)
    ensures |GridTiles(outputDir, level, l, rows)| == CellPos(l.cols, 0, rows)
  {
    if rows > 0 {
      GridLength(outputDir, level, l, rows - 1);
    }
  }

  lemma {:induction false} GridCellAt(outputDir: string, level: nat, l: Level, rows: nat, col: nat, row: nat)
    requires col < l.cols && row < rows
    ensures |GridTiles(outputDir, level, l, rows)| == CellPos(l.cols, 0, rows)
    ensures CellPos(l.cols, col, row) < |GridTiles(outputDir, level, l, rows)|
    ensures GridTiles(outputDir, level, l, rows)[CellPos(l.cols, col, row)] == MkTile(outputDir, level, l, col, row)
  {
    GridLength(outputDir, level, l, rows);
    if row < rows - 1 {
      GridCellAt(outputDir, level, l, rows - 1, col, row);
      GridPrefixAt(outputDir, level, l, rows, CellPos(l.cols, col, row));
    } else {
      GridCellLast(outputDir, level, l, rows, col);
    }
  }

  lemma GridCellLast(outputDir: string, level: nat, l: Level, rows: nat, col: nat)
    requires rows > 0 && col < l.cols
    ensures CellPos(l.cols, col, rows - 1) < |GridTiles(outputDir, level, l, rows)|
    ensures GridTiles(outputDir, level, l, rows)[CellPos(l.cols, col, rows - 1)] == MkTile(outputDir, level, l, col, rows - 1)
  {
    var before := GridTiles(outputDir, level, l, rows - 1);
    var last := RowTiles(outputDir, level, l, rows - 1);
    var k := CellPos(l.cols, col, rows - 1);
    GridLength(outputDir, level, l, rows - 1);
    CellPosShift(l.cols, col, rows - 1);
    assert k == |before| + col;
    ConcatAt(before, last, col, k);
  }

  lemma ConcatAt<T>(before: seq<T>, last: seq<T>, col: nat, k: nat)
    requires col < |last| && k == |before| + col
    ensures k < |before + last| && (before + last)[k] == last[col]
  {
  }

  lemma GridPrefixAt(outputDir: string, level: nat, l: Level, rows: nat, k: nat)
    requires rows > 0 && k < |GridTiles(outputDir, level, l, rows - 1)|
    ensures k < |GridTiles(outputDir, level, l, rows)|
    ensures GridTiles(outputDir, level, l, rows)[k] == GridTiles(outputDir, level, l, rows - 1)[k]
  {
  }

  /** Every tile of a grid is the tile of some cell of that grid. */
  lemma {:induction false} GridTileIsCell(outputDir: string, level: nat, l: Level, rows: nat, t: Tile)
    requires t in GridTiles(outputDir, level, l, rows)
    ensures t.col < l.cols && t.row < rows && t == MkTile(outputDir, level, l, t.col, t.row)
  {
    if t !in RowTiles(outputDir, level, l, rows - 1) {
      GridTileIsCell(outputDir, level, l, rows - 1, t);
    }
  }

  /** Each level reports `cols * rows` tiles. */
  lemma LevelTileCount(outputDir: string, width: nat, height: nat, level: nat)
    requires level <= ComputeLevels(width, height)
    ensures |LevelTiles(outputDir, width, height, level)| == LevelOf(width, height, level).cols * LevelOf(width, height, level).rows
  {
    var l := LevelOf(width, height, level);
    GridLength(outputDir, level, l, l.rows);
    CellPosIsProduct(l.cols, 0, l.rows);
  }

  /** A tile of level `t.level` of the pyramid: a cell of that level's grid, with its crop
      box inside the level and at most `TileSize + Overlap` pixels wide and high, written
      to `<output>/<level>/<col>_<row>.png`. */
  predicate WellCut(outputDir: string, width: nat, height: nat, t: Tile)
  {
    t.level <= ComputeLevels(width, height) &&
    var l := LevelOf(width, height, t.level);
    t.col < l.cols && t.row < l.rows
    && t.box == CropBox(t.col, t.row, l.width, l.height)
    && t.box.left < t.box.right <= l.width && t.box.upper < t.box.lower <= l.height
    && t.box.right - t.box.left <= TileSize + Overlap && t.box.lower - t.box.upper <= TileSize + Overlap
    && t.path == TilePath(outputDir, t.level, t.col, t.row)
  }

  /** Every saved tile belongs to a level of the pyramid and is well cut. */
  lemma {:induction false} PyramidTileFacts(outputDir: string, width: nat, height: nat, n: nat, t: Tile)
    requires n <= ComputeLevels(width, height) + 1
    requires t in TilesUpTo(outputDir, width, height, n)
    ensures t.level < n && WellCut(outputDir, width, height, t)
  {
    if t in LevelTiles(outputDir, width, height, n - 1) {
      LevelTileFacts(outputDir, width, height, n - 1, t);
    } else {
      PyramidTileFacts(outputDir, width, height, n - 1, t);
    }
  }

  lemma LevelTileFacts(outputDir: string, width: nat, height: nat, level: nat, t: Tile)
    requires level <= ComputeLevels(width, height)
    requires t in LevelTiles(outputDir, width, height, level)
    ensures t.level == level && WellCut(outputDir, width, height, t)
  {
    var l := LevelOf(width, height, level);
    GridTileIsCell(outputDir, level, l, l.rows, t);
    CropBoxInside(l, t.col, t.row);
  }

  predicate NotDigit(c: char)
  {
    !IsDigit(c)
  }

  /** In a digit run followed by a separator, the separator is the first non-digit. */
  lemma FirstNonDigit(a: string, sep: char, x: string)
    requires AllDigits(a) && !IsDigit(sep)
    ensures FirstIndex(a + [sep] + x, NotDigit) == Some(|a|)
  {
    var s := a + [sep] + x;
    assert s[|a|] == sep;
    assert forall j :: 0 <= j < |a| ==> s[j] == a[j];
  }

  /** A digit run followed by a non-digit separator determines where it ends. */
  lemma SplitAtSeparator(a: string, b: string, x: string, y: string, sep: char)
    requires AllDigits(a) && AllDigits(b) && !IsDigit(sep)
    requires a + [sep] + x == b + [sep] + y
    ensures a == b && x == y
  {
    var s := a + [sep] + x;
    FirstNonDigit(a, sep, x);
    FirstNonDigit(b, sep, y);
    assert a == s[..|a|] == b;
    assert x == s[|a| + 1..] == y;
  }

  /** The directory part that `PathJoin(outputDir, _)` puts before a relative name. */
  function DirPrefix(outputDir: string): string
  {
    if outputDir == "" || EndsWith(outputDir, "/") then outputDir else outputDir + "/"
  }

  /** Joining a relative name puts it after the directory prefix. */
  lemma JoinRelative(a: string, b: string)
    requires |b| >= 1 && b[0] != '/'
    ensures PathJoin(a, b) == DirPrefix(a) + b
  {
    assert b[..1][0] == b[0];
  }

  lemma NestedJoin(outputDir: string, dir: string, name: string)
    requires |dir| >= 1 && AllDigits(dir) && |name| >= 1 && IsDigit(name[0])
    ensures PathJoin(PathJoin(outputDir, dir), name) == DirPrefix(outputDir) + (dir + ['/'] + name)
  {
    JoinRelative(outputDir, dir);
    var d := DirPrefix(outputDir) + dir;
    assert d[|d| - 1] == dir[|dir| - 1];
    PrefixOfUnslashed(d);
    JoinRelative(d, name);
    assert d + "/" + name == DirPrefix(outputDir) + (dir + ['/'] + name);
  }

  /** A directory whose last character is not `/` gets one. */
  lemma PrefixOfUnslashed(d: string)
    requires |d| >= 1 && d[|d| - 1] != '/'
    ensures DirPrefix(d) == d + "/"
  {
    assert d[|d| - 1..] == [d[|d| - 1]];
  }

  lemma TilePathShape(outputDir: string, level: nat, col: nat, row: nat)
    ensures TilePath(outputDir, level, col, row)
      == DirPrefix(outputDir) + (NatToString(level) + ['/'] + (NatToString(col) + ['_'] + (NatToString(row) + ['.'] + TileFormat)))
  {
    var C := NatToString(col);
    var f := TileFileName(col, row);
    assert f == C + ['_'] + (NatToString(row) + ['.'] + TileFormat);
    assert f[0] == C[0];
    NestedJoin(outputDir, NatToString(level), f);
  }

  /** Different tiles of one output directory are saved under different paths. */
  lemma TilePathInjective(outputDir: string, l1: nat, c1: nat, r1: nat, l2: nat, c2: nat, r2: nat)
    requires TilePath(outputDir, l1, c1, r1) == TilePath(outputDir, l2, c2, r2)
    ensures l1 == l2 && c1 == c2 && r1 == r2
  {
    var base := DirPrefix(outputDir);
    var t1 := NatToString(r1) + ['.'] + TileFormat;
    var t2 := NatToString(r2) + ['.'] + TileFormat;
    var f1 := NatToString(c1) + ['_'] + t1;
    var f2 := NatToString(c2) + ['_'] + t2;
    var p1 := NatToString(l1) + ['/'] + f1;
    var p2 := NatToString(l2) + ['/'] + f2;
    TilePathShape(outputDir, l1, c1, r1);
    TilePathShape(outputDir, l2, c2, r2);
    assert p1 == (base + p1)[|base|..];
    assert p2 == (base + p2)[|base|..];
    SplitAtSeparator(NatToString(l1), NatToString(l2), f1, f2, '/');
    SplitAtSeparator(NatToString(c1), NatToString(c2), t1, t2, '_');
    SplitAtSeparator(NatToString(r1), NatToString(r2), TileFormat, TileFormat, '.');
    NatToStringInjective(l1, l2);
    NatToStringInjective(c1, c2);
    NatToStringInjective(r1, r2);
  }

  /** The innermost loop of `generate_tiles`: the tiles of one row of a level, left to right. */
  method CutRow(outputDir: string, level: nat, l: Level, levelDir: string, row: nat) returns (rowTiles: seq<Tile>)
    requires levelDir == PathJoin(outputDir, NatToString(level))
    ensures rowTiles == RowTiles(outputDir, level, l, row)
  {
    rowTiles := [];
    var col := 0;
    while col < l.cols
      invariant col <= l.cols
      invariant rowTiles == RowTiles(outputDir, level, l, row)[..col]
    {
      var left := col * TileSize;
      var upper := row * TileSize;
      var right := Min(left + TileSize + Overlap, l.width);
      var lower := Min(upper + TileSize + Overlap, l.height);
      var tile := Tile(level, col, row, Box(left, upper, right, lower), PathJoin(levelDir, TileFileName(col, row)));
      assert tile == MkTile(outputDir, level, l, col, row);
      rowTiles := rowTiles + [tile];
      col := col + 1;
    }
    assert RowTiles(outputDir, level, l, row)[..l.cols] == RowTiles(outputDir, level, l, row);
  }

  /** The middle loop of `generate_tiles`: the rows of one level, top to bottom. */
  method CutLevel(outputDir: string, level: nat, l: Level, levelDir: string) returns (levelTiles: seq<Tile>)
    requires levelDir == PathJoin(outputDir, NatToString(level))
    ensures levelTiles == GridTiles(outputDir, level, l, l.rows)
  {
    levelTiles := [];
    var row := 0;
    while row < l.rows
      invariant row <= l.rows
      invariant levelTiles == GridTiles(outputDir, level, l, row)
    {
      var rowTiles := CutRow(outputDir, level, l, levelDir, row);
      levelTiles := levelTiles + rowTiles;
      row := row + 1;
    }
  }

  /** The numbers the first `n` levels report: `counts[level]` is the tile count of that level. */
  function LevelCounts(width: nat, height: nat, n: nat): (counts: seq<nat>)
    requires n <= ComputeLevels(width, height) + 1
    ensures |counts| == n
    ensures forall level :: 0 <= level < n ==> counts[level] == TileCount(LevelOf(width, height, level))
  {
    if n == 0 then [] else LevelCounts(width, height, n - 1) + [TileCount(LevelOf(width, height, n - 1))]
  }

  /** The size of one level as the loop of `generate_tiles` computes it. */
  method LevelSize(width: nat, height: nat, maxLevel: nat, level: nat) returns (l: Level)
    requires maxLevel == ComputeLevels(width, height) && level <= maxLevel
    ensures l == LevelOf(width, height, level)
  {
    var scale := Pow2(maxLevel - level);
    var levelWidth := CeilDiv(width, scale);
    var levelHeight := CeilDiv(height, scale);
    var cols := CeilDiv(levelWidth, TileSize);
    var rows := CeilDiv(levelHeight, TileSize);
    l := Level(levelWidth, levelHeight, cols, rows);
  }

  /** `generate_tiles`: for each level, row by row and column by column, the crop box and
      the path the tile is saved to; `counts[level]` is the number the level reports. */
  method GenerateTiles(width: nat, height: nat, outputDir: string) returns (tiles: seq<Tile>, counts: seq<nat>)
    ensures tiles == PyramidTiles(outputDir, width, height)
    ensures |counts| == ComputeLevels(width, height) + 1
    ensures counts == LevelCounts(width, height, ComputeLevels(width, height) + 1)
  {
    var maxLevel := ComputeLevels(width, height);
    tiles, counts := [], [];
    var level := 0;
    while level < maxLevel + 1
      invariant level <= maxLevel + 1
      invariant tiles == TilesUpTo(outputDir, width, height, level)
      invariant counts == LevelCounts(width, height, level)
    {
      var l := LevelSize(width, height, maxLevel, level);
      var levelDir := PathJoin(outputDir, NatToString(level));
      var levelTiles := CutLevel(outputDir, level, l, levelDir);
      assert TilesUpTo(outputDir, width, height, level + 1) == tiles + levelTiles;
      tiles := tiles + levelTiles;
      counts := counts + [TileCount(l)];
      level := level + 1;
    }
  }

  // The `.dzi` descriptor, written in the order of the `f.write` calls.

  const XmlHeader: string := "<?xml version=\"1.0\" encoding=\"UTF-8\"?>\n"
  const ImageOpen: string := "<Image TileSize=\""
  const OverlapAttr: string := "\" Overlap=\""
  const FormatAttr: string := "\" Format=\""
  const NamespaceAttr: string := "\" xmlns=\"" + DeepZoomNamespace + "\""
  const UrlOpen: string := " Url=\""
  const TagEnd: string := ">\n"
  const SizeOpen: string := "  <Size Width=\""
  const HeightAttr: string := "\" Height=\""
  const SizeClose: string := "\"/>\n"
  const ImageClose: string := "</Image>\n"

  /** Python truthiness of the optional `url` argument: present and non-empty. */
  predicate UrlGiven(url: Option<string>)
  {
    url.Some? && url.value != ""
  }

  /** `url if url.endswith("/") else url + "/"` */
  function NormalizeUrl(url: string): (r: string)
    ensures EndsWith(r, "/")
    ensures StartsWith(r, url) && |r| <= |url| + 1
    ensures r == url <==> EndsWith(url, "/")
  {
    if EndsWith(url, "/") then url else url + "/"
  }

  /** Normalising twice is normalising once. */
  lemma NormalizeUrlIdempotent(url: string)
    ensures NormalizeUrl(NormalizeUrl(url)) == NormalizeUrl(url)
  {
    var r := NormalizeUrl(url);
    assert EndsWith(r, "/");
  }

  /** The optional `Url="..."` attribute: only for a truthy `url`, pointing at the
      image's tile directory under the normalised base. */
  function UrlAttribute(imageName: string, url: Option<string>): string
  {
    if UrlGiven(url) then UrlOpen + NormalizeUrl(url.value) + imageName + "/\"" else ""
  }

  /** The text `generate_dzi` writes for an image of `width` x `height` pixels. The
      header and the opening tag are grouped to the right and the size element to the
      left, which is how the reader below takes them apart. */
  function DziText(width: nat, height: nat, imageName: string, url: Option<string>): string
  {
    XmlHeader + (ImageOpen + (NatToString(TileSize) + (OverlapAttr + (NatToString(Overlap)
      + (FormatAttr + (TileFormat + (NamespaceAttr + DziTail(width, height, imageName, url))))))))
  }

  /** Everything after `xmlns`: the optional `Url`, the end of the tag and the size element. */
  function DziTail(width: nat, height: nat, imageName: string, url: Option<string>): string
  {
    UrlAttribute(imageName, url) + TagEnd + SizeOpen + NatToString(width) + HeightAttr + NatToString(height) + SizeClose + ImageClose
  }

  /** `os.path.join(output_dir, f"{image_name}.dzi")` */
  function DziPath(outputDir: string, imageName: string): string
  {
    PathJoin(outputDir, imageName + ".dzi")
  }

  // A reader for descriptors of that shape, the partner the text is checked against.

  /** What a descriptor states. */
  datatype DziInfo = DziInfo(tileSize: nat, overlap: nat, format: string, width: nat, height: nat, url: Option<string>)

  function StripPrefix(s: string, prefix: string): Option<string>
  {
    if StartsWith(s, prefix) then Some(s[|prefix|..]) else None
  }

  function StripSuffix(s: string, suffix: string): Option<string>
  {
    if EndsWith(s, suffix) then Some(s[..|s| - |suffix|]) else None
  }

  lemma StripPrefixOf(prefix: string, rest: string)
    ensures StripPrefix(prefix + rest, prefix) == Some(rest)
  {
    assert (prefix + rest)[..|prefix|] == prefix;
    assert (prefix + rest)[|prefix|..] == rest;
  }

  lemma StripSuffixOf(rest: string, suffix: string)
    ensures StripSuffix(rest + suffix, suffix) == Some(rest)
  {
    var s := rest + suffix;
    assert s[|s| - |suffix|..] == suffix;
    assert s[..|s| - |suffix|] == rest;
  }

  /** Length of the run of digits at the front of `s`. */
  function LeadingDigits(s: string): (n: nat)
    ensures n <= |s| && AllDigits(s[..n])
    ensures n < |s| ==> !IsDigit(s[n])
  {
    if s == [] || !IsDigit(s[0]) then 0
    else
      var k := LeadingDigits(s[1..]);
      assert s[..k + 1] == [s[0]] + s[1..][..k];
      k + 1
  }

  /** Length of the run of digits at the back of `s`. */
  function TrailingDigits(s: string): (n: nat)
    ensures n <= |s| && AllDigits(s[|s| - n..])
    ensures n < |s| ==> !IsDigit(s[|s| - n - 1])
  {
    if s == [] || !IsDigit(s[|s| - 1]) then 0
    else
      var front := s[..|s| - 1];
      var k := TrailingDigits(front);
      assert s[|s| - (k + 1)..] == front[|front| - k..] + [s[|s| - 1]];
      k + 1
  }

  /** A decimal number at the front, and what follows it. */
  function ReadNat(s: string): Option<(nat, string)>
  {
    var n := LeadingDigits(s);
    if n == 0 then None else Some((ParseNat(s[..n]), s[n..]))
  }

  /** A decimal number at the back, and what precedes it. */
  function ReadNatBack(s: string): Option<(string, nat)>
  {
    var n := TrailingDigits(s);
    if n == 0 then None else Some((s[..|s| - n], ParseNat(s[|s| - n..])))
  }

  predicate IsQuote(c: char)
  {
    c == '"'
  }

  /** The text up to the next `"`, and the rest from that quote on. */
  function ReadQuoted(s: string): Option<(string, string)>
  {
    match FirstIndex(s, IsQuote)
    case None => None
    case Some(i) => Some((s[..i], s[i..]))
  }

  /** The attribute values of the opening tag, front to back, and the text after `xmlns`. */
  function ParseImageTag(s: string): Option<(nat, nat, string, string)>
  {
    match ReadNat(s)
    case None => None
    case Some((tileSize, s1)) =>
      match StripPrefix(s1, OverlapAttr)
      case None => None
      case Some(s2) =>
        match ReadNat(s2)
        case None => None
        case Some((overlap, s3)) =>
          match StripPrefix(s3, FormatAttr)
          case None => None
          case Some(s4) =>
            match ReadQuoted(s4)
            case None => None
            case Some((format, s5)) =>
              match StripPrefix(s5, NamespaceAttr)
              case None => None
              case Some(rest) => Some((tileSize, overlap, format, rest))
  }

  /** The optional `Url` attribute: absent, or its quoted value. */
  function ParseUrlAttribute(attr: string): Option<Option<string>>
  {
    if attr == "" then Some(None)
    else if |attr| >= |UrlOpen| + 1 && StartsWith(attr, UrlOpen) && attr[|attr| - 1] == '"' then
      Some(Some(attr[|UrlOpen|..|attr| - 1]))
    else None
  }

  /** The rest of the descriptor, back to front: height, width, then the `Url` attribute. */
  function ParseTail(m: string): Option<(Option<string>, nat, nat)>
  {
    match StripSuffix(m, ImageClose)
    case None => None
    case Some(b0) =>
    match StripSuffix(b0, SizeClose)
    case None => None
    case Some(b1) =>
      match ReadNatBack(b1)
      case None => None
      case Some((b2, height)) =>
        match StripSuffix(b2, HeightAttr)
        case None => None
        case Some(b3) =>
          match ReadNatBack(b3)
          case None => None
          case Some((b4, width)) =>
            match StripSuffix(b4, SizeOpen)
            case None => None
            case Some(b5) =>
            match StripSuffix(b5, TagEnd)
            case None => None
            case Some(attr) =>
              match ParseUrlAttribute(attr)
              case None => None
              case Some(url) => Some((url, width, height))
  }

  function ParseDzi(text: string): Option<DziInfo>
  {
    match StripPrefix(text, XmlHeader)
    case None => None
    case Some(s0) =>
    match StripPrefix(s0, ImageOpen)
    case None => None
    case Some(s) =>
      match ParseImageTag(s)
      case None => None
      case Some((tileSize, overlap, format, m)) =>
        match ParseTail(m)
        case None => None
        case Some((url, width, height)) => Some(DziInfo(tileSize, overlap, format, width, height, url))
  }

  lemma {:induction false} LeadingDigitsOf(d: string, rest: string)
    requires AllDigits(d)
    requires rest == [] || !IsDigit(rest[0])
    ensures LeadingDigits(d + rest) == |d|
  {
    if d != [] {
      assert (d + rest)[1..] == d[1..] + rest;
      LeadingDigitsOf(d[1..], rest);
    } else {
      assert d + rest == rest;
    }
  }

  lemma {:induction false} TrailingDigitsOf(front: string, d: string)
    requires AllDigits(d)
    requires front == [] || !IsDigit(front[|front| - 1])
    ensures TrailingDigits(front + d) == |d|
  {
    if d != [] {
      var s := front + d;
      assert s[..|s| - 1] == front + d[..|d| - 1];
      TrailingDigitsOf(front, d[..|d| - 1]);
    } else {
      assert front + d == front;
    }
  }

  lemma ReadNatOf(n: nat, rest: string)
    requires rest == [] || !IsDigit(rest[0])
    ensures ReadNat(NatToString(n) + rest) == Some((n, rest))
  {
    var d := NatToString(n);
    LeadingDigitsOf(d, rest);
    assert (d + rest)[..|d|] == d;
    assert (d + rest)[|d|..] == rest;
    ParseNatToString(n);
  }

  lemma ReadNatBackOf(front: string, n: nat)
    requires front == [] || !IsDigit(front[|front| - 1])
    ensures ReadNatBack(front + NatToString(n)) == Some((front, n))
  {
    var d := NatToString(n);
    var s := front + d;
    TrailingDigitsOf(front, d);
    assert s[..|s| - |d|] == front;
    assert s[|s| - |d|..] == d;
    ParseNatToString(n);
  }

  lemma ReadQuotedOf(v: string, rest: string)
    requires forall j :: 0 <= j < |v| ==> v[j] != '"'
    requires |rest| >= 1 && rest[0] == '"'
    ensures ReadQuoted(v + rest) == Some((v, rest))
  {
    var s := v + rest;
    assert s[|v|] == '"';
    assert forall j :: 0 <= j < |v| ==> s[j] == v[j];
    assert s[..|v|] == v;
    assert s[|v|..] == rest;
  }

  lemma ParseImageTagOf(m: string)
    ensures ParseImageTag(NatToString(TileSize) + (OverlapAttr + (NatToString(Overlap) + (FormatAttr + (TileFormat + (NamespaceAttr + m))))))
      == Some((TileSize, Overlap, TileFormat, m))
  {
    var s3 := FormatAttr + (TileFormat + (NamespaceAttr + m));
    var s1 := OverlapAttr + (NatToString(Overlap) + s3);
    ReadNatOf(TileSize, s1);
    StripPrefixOf(OverlapAttr, NatToString(Overlap) + s3);
    ReadNatOf(Overlap, s3);
    StripPrefixOf(FormatAttr, TileFormat + (NamespaceAttr + m));
    ReadQuotedOf(TileFormat, NamespaceAttr + m);
    StripPrefixOf(NamespaceAttr, m);
  }

  /** The text of the `Url` attribute reads back as the value written into it. */
  lemma ParseUrlAttributeOf(imageName: string, url: Option<string>)
    ensures ParseUrlAttribute(UrlAttribute(imageName, url))
      == Some(if UrlGiven(url) then Some(NormalizeUrl(url.value) + imageName + "/") else None)
  {
    if UrlGiven(url) {
      var v := NormalizeUrl(url.value) + imageName + "/";
      assert UrlAttribute(imageName, url) == UrlOpen + v + "\"";
      QuotedUrlOf(v);
    }
  }

  lemma QuotedUrlOf(v: string)
    ensures ParseUrlAttribute(UrlOpen + v + "\"") == Some(Some(v))
  {
    var a := UrlOpen + v + "\"";
    assert a[..|UrlOpen|] == UrlOpen;
    assert a[|UrlOpen|..|a| - 1] == v;
  }

  lemma ParseTailOf(attr: string, width: nat, height: nat)
    requires ParseUrlAttribute(attr).Some?
    ensures ParseTail(attr + TagEnd + SizeOpen + NatToString(width) + HeightAttr + NatToString(height) + SizeClose + ImageClose)
      == Some((ParseUrlAttribute(attr).value, width, height))
  {
    var b5 := attr + TagEnd;
    var b4 := b5 + SizeOpen;
    var b3 := b4 + NatToString(width);
    var b2 := b3 + HeightAttr;
    var b1 := b2 + NatToString(height);
    var b0 := b1 + SizeClose;
    StripSuffixOf(b0, ImageClose);
    StripSuffixOf(b1, SizeClose);
    ReadNatBackOf(b2, height);
    StripSuffixOf(b3, HeightAttr);
    ReadNatBackOf(b4, width);
    StripSuffixOf(b5, SizeOpen);
    StripSuffixOf(attr, TagEnd);
  }

  /** Reading the descriptor back gives TileSize 256, Overlap 1, Format png, the image's
      own width and height, and a `Url` exactly when `url` is truthy: the normalised
      `url` followed by the image name and `/`. */
  lemma DziRoundTrip(width: nat, height: nat, imageName: string, url: Option<string>)
    ensures ParseDzi(DziText(width, height, imageName, url))
      == Some(DziInfo(TileSize, Overlap, TileFormat, width, height,
                      if UrlGiven(url) then Some(NormalizeUrl(url.value) + imageName + "/") else None))
  {
    var m := DziTail(width, height, imageName, url);
    var tag := NatToString(TileSize) + (OverlapAttr + (NatToString(Overlap) + (FormatAttr + (TileFormat + (NamespaceAttr + m)))));
    StripPrefixOf(XmlHeader, ImageOpen + tag);
    StripPrefixOf(ImageOpen, tag);
    ParseImageTagOf(m);
    ParseUrlAttributeOf(imageName, url);
    ParseTailOf(UrlAttribute(imageName, url), width, height);
    ParseDziSteps(DziText(width, height, imageName, url), ImageOpen + tag, tag, m);
  }

  /** The reader's stages chained: the header, the tag opening, the tag's attributes, the tail. */
  lemma ParseDziSteps(text: string, s0: string, s: string, m: string)
    requires StripPrefix(text, XmlHeader) == Some(s0) && StripPrefix(s0, ImageOpen) == Some(s)
    requires ParseImageTag(s).Some? && ParseImageTag(s).value.3 == m && ParseTail(m).Some?
    ensures ParseDzi(text) == Some(DziInfo(ParseImageTag(s).value.0, ParseImageTag(s).value.1, ParseImageTag(s).value.2,
      ParseTail(m).value.1, ParseTail(m).value.2, ParseTail(m).value.0))
  {
  }

  // File names and the command-line driver.

  /** Position of the last `c` in `s`. */
  function LastIndexOf(s: string, c: char): (r: Option<nat>)
    ensures r.Some? ==> r.value < |s| && s[r.value] == c && forall j :: r.value < j < |s| ==> s[j] != c
    ensures r.None? ==> forall j :: 0 <= j < |s| ==> s[j] != c
  {
    if s == [] then None
    else if s[|s| - 1] == c then Some(|s| - 1)
    else LastIndexOf(s[..|s| - 1], c)
  }

  /** `os.path.basename`: what follows the last `/`. */
  function BaseName(path: string): (r: string)
    ensures forall j :: 0 <= j < |r| ==> r[j] != '/'
    ensures EndsWith(path, r)
    ensures (forall j :: 0 <= j < |path| ==> path[j] != '/') ==> r == path
    ensures |r| < |path| ==> path[|path| - |r| - 1] == '/'
  {
    match LastIndexOf(path, '/')
    case None => path
    case Some(i) => path[i + 1..]
  }

  predicate AllDots(s: string)
  {
    forall j :: 0 <= j < |s| ==> s[j] == '.'
  }

  /** `os.path.splitext(name)[0]` for a name without `/`: everything before the last `.`,
      except that dots leading the name do not start an extension (`.png` stays `.png`). */
  function StripExtension(name: string): (r: string)
    ensures StartsWith(name, r)
    ensures r == name || (|r| < |name| && name[|r|] == '.' && !AllDots(r) && forall j :: |r| < j < |name| ==> name[j] != '.')
    ensures r == name <==> forall i :: 0 <= i < |name| && name[i] == '.' && IsLastDot(name, i) ==> AllDots(name[..i])
  {
    match LastIndexOf(name, '.')
    case None => name
    case Some(i) =>
      assert IsLastDot(name, i);
      if AllDots(name[..i]) then name else name[..i]
  }

  /** No `.` follows position `i`. */
  predicate IsLastDot(name: string, i: nat)
  {
    forall j :: i < j < |name| ==> name[j] != '.'
  }

  /** `os.path.splitext(os.path.basename(image_path))[0]` */
  function ImageName(imagePath: string): string
  {
    StripExtension(BaseName(imagePath))
  }

  /** A stem with at least one character other than `.`, followed by an extension
      without dots, gives back the stem. */
  lemma StripExtensionOf(stem: string, ext: string)
    requires exists j :: 0 <= j < |stem| && stem[j] != '.'
    requires forall j :: 0 <= j < |ext| ==> ext[j] != '.'
    ensures StripExtension(stem + "." + ext) == stem
  {
    var name := stem + "." + ext;
    assert name[|stem|] == '.';
    assert forall j :: |stem| < j < |name| ==> name[j] == ext[j - |stem| - 1];
    assert name[..|stem|] == stem;
  }

  /** A name that is only a leading dot and an extension has no extension to strip. */
  lemma LeadingDotIsNotExtension()
    ensures StripExtension(".png") == ".png"
  {
    assert ".png"[..0] == "";
  }

  /** The file a listing entry names, joined under the input directory, keeps its name. */
  lemma BaseNameOfJoin(dir: string, file: string)
    requires |file| >= 1 && forall j :: 0 <= j < |file| ==> file[j] != '/'
    ensures BaseName(PathJoin(dir, file)) == file
  {
    JoinRelative(dir, file);
    var p := DirPrefix(dir) + file;
    if DirPrefix(dir) != "" {
      var d := DirPrefix(dir);
      assert d[|d| - 1] == '/';
      assert p[|d| - 1] == '/';
      assert forall j :: |d| <= j < |p| ==> p[j] == file[j - |d|];
      assert p[|d|..] == file;
    } else {
      assert p == file;
    }
  }

  /** What `process_image` produces for one image of `width` x `height` pixels. */
  datatype ImageOutput = ImageOutput(tileDir: string, tiles: seq<Tile>, counts: seq<nat>, dziPath: string, dzi: string)

  /** `process_image`: the tiles go to `<base_output>/<image_name>/`, the descriptor to
      `<base_output>/<image_name>.dzi`. The pixel size is what `Image.open` would report. */
  method ProcessImage(imagePath: string, baseOutput: string, url: Option<string>, width: nat, height: nat)
    returns (out: ImageOutput)
    ensures out.tileDir == PathJoin(baseOutput, ImageName(imagePath))
    ensures out.tiles == PyramidTiles(out.tileDir, width, height)
    ensures |out.counts| == ComputeLevels(width, height) + 1
    ensures forall level :: 0 <= level < |out.counts| ==> out.counts[level] == TileCount(LevelOf(width, height, level))
    ensures out.dziPath == DziPath(baseOutput, ImageName(imagePath))
    ensures ParseDzi(out.dzi) == Some(DziInfo(TileSize, Overlap, TileFormat, width, height,
      if UrlGiven(url) then Some(NormalizeUrl(url.value) + ImageName(imagePath) + "/") else None))
  {
    var imageName := ImageName(imagePath);
    var tileDir := PathJoin(baseOutput, imageName);
    var tiles, counts := GenerateTiles(width, height, tileDir);
    var dzi := DziText(width, height, imageName, url);
    DziRoundTrip(width, height, imageName, url);
    out := ImageOutput(tileDir, tiles, counts, DziPath(baseOutput, imageName), dzi);
  }

  /** `file.lower().endswith((".jpg", ".jpeg", ".png", ".tif", ".tiff"))` */
  predicate HasImageExtension(file: string)
  {
    var f := Lower(file);
    EndsWith(f, ".jpg") || EndsWith(f, ".jpeg") || EndsWith(f, ".png") || EndsWith(f, ".tif") || EndsWith(f, ".tiff")
  }

  function JoinAll(dir: string, files: seq<string>): (r: seq<string>)
    ensures |r| == |files| && forall k :: 0 <= k < |files| ==> r[k] == PathJoin(dir, files[k])
  {
    if files == [] then [] else [PathJoin(dir, files[0])] + JoinAll(dir, files[1..])
  }

  /** Looking at one more listing entry adds its path exactly when it has an image extension. */
  lemma ImagePathsStep(dir: string, files: seq<string>, file: string)
    ensures JoinAll(dir, Filter(files + [file], HasImageExtension))
      == JoinAll(dir, Filter(files, HasImageExtension)) + (if HasImageExtension(file) then [PathJoin(dir, file)] else [])
  {
    FilterAppend(files, [file], HasImageExtension);
    assert [file][1..] == [];
    JoinAllAppend(dir, Filter(files, HasImageExtension), Filter([file], HasImageExtension));
  }

  lemma {:induction false} JoinAllAppend(dir: string, a: seq<string>, b: seq<string>)
    ensures JoinAll(dir, a + b) == JoinAll(dir, a) + JoinAll(dir, b)
  {
    if a == [] {
      assert a + b == b;
    } else {
      assert (a + b)[1..] == a[1..] + b;
      JoinAllAppend(dir, a[1..], b);
    }
  }

  /** What `main` does with its arguments: the usage exit, or the directories, the
      optional base URL and the image paths handed to `process_image`, in listing order. */
  datatype MainOutcome =
    | UsageExit(status: int)
    | Process(inputDir: string, baseOutput: string, url: Option<string>, images: seq<string>)

  /** `main`, for the argument vector `argv` and the entries `listing` of the input
      directory as `os.listdir` returns them. */
  method RunMain(argv: seq<string>, listing: seq<string>) returns (outcome: MainOutcome)
    ensures |argv| < 3 <==> outcome == UsageExit(1)
    ensures |argv| >= 3 ==> outcome == Process(argv[1], argv[2], if |argv| > 3 then Some(argv[3]) else None,
                                               JoinAll(argv[1], Filter(listing, HasImageExtension)))
  {
    if |argv| < 3 {
      return UsageExit(1);
    }
    var inputDir := argv[1];
    var baseOutput := argv[2];
    var url := if |argv| > 3 then Some(argv[3]) else None;
    var images := ImagePaths(inputDir, listing);
    outcome := Process(inputDir, baseOutput, url, images);
  }

  /** The loop of `main` over the listing: the paths of the entries with an image
      extension, in listing order. */
  method ImagePaths(inputDir: string, listing: seq<string>) returns (images: seq<string>)
    ensures images == JoinAll(inputDir, Filter(listing, HasImageExtension))
  {
    images := [];
    for i := 0 to |listing|
      invariant images == JoinAll(inputDir, Filter(listing[..i], HasImageExtension))
    {
      var file := listing[i];
      assert listing[..i + 1] == listing[..i] + [file];
      ImagePathsStep(inputDir, listing[..i], file);
      images := images + (if HasImageExtension(file) then [PathJoin(inputDir, file)] else []);
    }
    assert listing[..|listing|] == listing;
  }

  /** Upper-case extensions count: `photo.JPG` is processed. */
  lemma UpperCaseExtensionAccepted()
    ensures HasImageExtension("photo.JPG")
  {
    assert Lower("photo.JPG") == "photo.jpg";
    assert "photo.jpg"[5..] == ".jpg";
  }

  lemma EndsWithLast(s: string, suffix: string)
    requires |suffix| >= 1
    ensures EndsWith(s, suffix) ==> s[|s| - 1] == suffix[|suffix| - 1]
  {
    if EndsWith(s, suffix) {
      assert s[|s| - |suffix|..][|suffix| - 1] == s[|s| - 1];
    }
  }

  /** A name whose last character is neither `g` nor `f` in either case is never processed. */
  lemma NotImageByLastChar(file: string)
    requires |file| >= 1
    requires LowerChar(file[|file| - 1]) != 'g' && LowerChar(file[|file| - 1]) != 'f'
    ensures !HasImageExtension(file)
  {
    var f := Lower(file);
    EndsWithLast(f, ".jpg");
    EndsWithLast(f, ".jpeg");
    EndsWithLast(f, ".png");
    EndsWithLast(f, ".tif");
    EndsWithLast(f, ".tiff");
  }

  /** Only the end of the name counts: `image.jpg.bak` is skipped. */
  lemma InnerExtensionRejected()
    ensures !HasImageExtension("image.jpg.bak")
  {
    NotImageByLastChar("image.jpg.bak");
  }
}
