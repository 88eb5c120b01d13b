/**
 * The tile grid shared by the two cafe-wall demos: their constants, the
 * position and colour of every tile, the height of every mortar line, and
 * the sequences a rebuild is expected to produce.
 *
 * Both demos compute the same layout with the same formulas; the only
 * difference is whether odd rows are shifted by half a tile, which is the
 * parameter `offsetOn` below.  Arithmetic is on exact reals.
 */
module WallGrid {

  const Rows: nat := 12
  const TilesPerRow: nat := 16
  const TileWidth: real := 1.2
  const TileHeight: real := 0.8
  const MortarThickness: real := 0.15
  /** Half a tile: the shift of an odd row. */
  const OffsetAmount: real := TileWidth * 0.5

  /** Depth of the mortar lines and of the guide lines in front of the tiles. */
  const MortarDepth: real := 0.01
  const GuideDepth: real := 0.02

  datatype Colour = Black | White

  /** A tile mesh: its centre and its material (its depth is always 0). */
  datatype Tile = Tile(x: real, y: real, colour: Colour)

  /** A plane geometry of the given size, turned by `rotationZ` radians about z. */
  datatype Plane = Plane(width: real, height: real, rotationZ: real)

  /** A horizontal line mesh (a mortar line or a guide line), centred on x = 0. */
  datatype Strip = Strip(geometry: Plane, y: real, z: real)

  /** Height of the centre of row `row`; row 0 is the top row. */
  function RowY(row: nat): real
  {
    (Rows - 1) as real * (TileHeight + MortarThickness) / 2.0 - row as real * (TileHeight + MortarThickness)
  }

  /** Height of the mortar line drawn under row `row`. */
  function MortarY(row: nat): real
  {
    RowY(row) - (TileHeight + MortarThickness) / 2.0
  }

  /** Centre of the first tile of row `row`. */
  function StartX(row: nat, offsetOn: bool): real
  {
    var base := -(TilesPerRow as real * TileWidth) / 2.0 + TileWidth / 2.0;
    if row % 2 != 0 && offsetOn then base + OffsetAmount else base
  }

  /** Even columns are black, odd columns white. */
  function ColourOf(col: nat): Colour
  {
    if col % 2 == 0 then Black else White
  }

  /** The tile of a row and column. */
  function TileAt(row: nat, col: nat, offsetOn: bool): Tile
  {
    Tile(StartX(row, offsetOn) + col as real * TileWidth, RowY(row), ColourOf(col))
  }

  /** The first `n` tiles a row-by-row, left-to-right build produces. */
  function GridPrefix(n: nat, offsetOn: bool): seq<Tile>
  {
    if n == 0 then [] else GridPrefix(n - 1, offsetOn) + [TileAt((n - 1) / TilesPerRow, (n - 1) % TilesPerRow, offsetOn)]
  }

  /** The whole wall in row-major order: position k holds row k / 16, column k % 16. */
  function Grid(offsetOn: bool): seq<Tile>
  {
    seq(Rows * TilesPerRow, k requires 0 <= k => TileAt(k / TilesPerRow, k % TilesPerRow, offsetOn))
  }

  /** The lines under the first `n` rows, top to bottom. */
  function Strips(n: nat, geometry: Plane, z: real): seq<Strip>
  {
    if n == 0 then [] else Strips(n - 1, geometry, z) + [Strip(geometry, MortarY(n - 1), z)]
  }

  /** The number of lines a rebuild draws: one under every row but the last. */
  function LineCount(): nat
  {
    Rows - 1
  }

  /** The lines of a full rebuild: the one at index r lies under row r. */
  function Lines(geometry: Plane, z: real): seq<Strip>
  {
    seq(LineCount(), r requires 0 <= r => Strip(geometry, MortarY(r), z))
  }

  // ----- Lemmas about the layout -----

  lemma {:induction false} GridPrefixLength(n: nat, offsetOn: bool)
    ensures |GridPrefix(n, offsetOn)| == n
  {
    if n > 0 {
      GridPrefixLength(n - 1, offsetOn);
    }
  }

  lemma {:induction false} GridPrefixAt(n: nat, offsetOn: bool, k: nat)
    requires k < n
    ensures |GridPrefix(n, offsetOn)| == n
    ensures GridPrefix(n, offsetOn)[k] == TileAt(k / TilesPerRow, k % TilesPerRow, offsetOn)
  {
    GridPrefixLength(n, offsetOn);
    if k < n - 1 {
      GridPrefixAt(n - 1, offsetOn, k);
    }
  }

  lemma RowMajor(row: nat, col: nat)
    requires col < TilesPerRow
    ensures (row * TilesPerRow + col) / TilesPerRow == row
    ensures (row * TilesPerRow + col) % TilesPerRow == col
  {
    assert TilesPerRow == 16;
    assert row * TilesPerRow == row * 16;
  }

  /** The build step that draws the tile of row `row` and column `col`. */
  lemma GridPrefixStep(row: nat, col: nat, offsetOn: bool)
    requires col < TilesPerRow
    ensures GridPrefix(row * TilesPerRow + col + 1, offsetOn)
         == GridPrefix(row * TilesPerRow + col, offsetOn) + [TileAt(row, col, offsetOn)]
  {
    RowMajor(row, col);
  }

  /** The wall holds `Rows * TilesPerRow` tiles, row-major. */
  lemma GridAt(offsetOn: bool, row: nat, col: nat)
    requires row < Rows && col < TilesPerRow
    ensures |Grid(offsetOn)| == Rows * TilesPerRow == 192
    ensures row * TilesPerRow + col < 192
    ensures Grid(offsetOn)[row * TilesPerRow + col] == TileAt(row, col, offsetOn)
  {
    RowMajor(row, col);
  }

  /** Building tile after tile, row by row, yields exactly the wall. */
  lemma GridPrefixIsGrid(offsetOn: bool)
    ensures GridPrefix(Rows * TilesPerRow, offsetOn) == Grid(offsetOn)
  {
    GridPrefixLength(Rows * TilesPerRow, offsetOn);
    forall k | 0 <= k < |Grid(offsetOn)|
      ensures GridPrefix(Rows * TilesPerRow, offsetOn)[k] == Grid(offsetOn)[k]
    {
      GridPrefixAt(Rows * TilesPerRow, offsetOn, k);
    }
  }

  /** A tile is black exactly when its column is even, in every row. */
  lemma GridColour(offsetOn: bool, row: nat, col: nat)
    requires row < Rows && col < TilesPerRow
    ensures row * TilesPerRow + col < |Grid(offsetOn)|
    ensures Grid(offsetOn)[row * TilesPerRow + col].colour == Black <==> col % 2 == 0
    ensures Grid(offsetOn)[row * TilesPerRow + col].colour == White <==> col % 2 == 1
  {
    GridAt(offsetOn, row, col);
  }

  /**
   * Even rows are never shifted; an odd row starts half a tile (0.6) to the
   * right of an even row when the offset is on, and level with it when off.
   */
  lemma RowOffset(row: nat, offsetOn: bool)
    ensures row % 2 == 0 ==> StartX(row, offsetOn) == StartX(0, offsetOn) == -9.0
    ensures row % 2 == 1 && offsetOn ==> StartX(row, offsetOn) == StartX(0, offsetOn) + 0.6
    ensures row % 2 == 1 && !offsetOn ==> StartX(row, offsetOn) == StartX(0, offsetOn)
  {
  }

  /** In a row, neighbouring tiles are one tile width apart at the same height. */
  lemma TileSpacing(row: nat, col: nat, offsetOn: bool)
    ensures TileAt(row, col + 1, offsetOn).x - TileAt(row, col, offsetOn).x == TileWidth
    ensures TileAt(row, col + 1, offsetOn).y == TileAt(row, col, offsetOn).y
  {
  }

  /**
   * Each row is one tile height plus one mortar thickness below the previous
   * one, and the rows are placed symmetrically about y = 0.
   */
  lemma RowSpacing(row: nat)
    ensures RowY(row) - RowY(row + 1) == TileHeight + MortarThickness
    ensures row < Rows ==> RowY(Rows - 1 - row) == -RowY(row)
    ensures RowY(0) == 5.225
  {
  }

  /** The mortar line under row r lies midway between rows r and r + 1. */
  lemma MortarMidway(row: nat)
    ensures MortarY(row) == (RowY(row) + RowY(row + 1)) / 2.0
    ensures RowY(row + 1) < MortarY(row) < RowY(row)
  {
  }

  /** An unshifted row is symmetric about x = 0. */
  lemma UnshiftedRowSymmetric(row: nat, col: nat, offsetOn: bool)
    requires col < TilesPerRow
    requires row % 2 == 0 || !offsetOn
    ensures TileAt(row, TilesPerRow - 1 - col, offsetOn).x == -TileAt(row, col, offsetOn).x
  {
  }

  lemma {:induction false} StripsAt(n: nat, geometry: Plane, z: real, row: nat)
    requires row < n
    ensures |Strips(n, geometry, z)| == n
    ensures Strips(n, geometry, z)[row] == Strip(geometry, MortarY(row), z)
  {
    if row < n - 1 {
      StripsAt(n - 1, geometry, z, row);
    } else {
      StripsLength(n - 1, geometry, z);
    }
  }

  lemma {:induction false} StripsLength(n: nat, geometry: Plane, z: real)
    ensures |Strips(n, geometry, z)| == n
  {
    if n > 0 {
      StripsLength(n - 1, geometry, z);
    }
  }

  /** The lines the builder loops emit, one after another, are exactly `Lines`. */
  lemma StripsAreLines(geometry: Plane, z: real)
    ensures Strips(LineCount(), geometry, z) == Lines(geometry, z)
  {
    StripsLength(LineCount(), geometry, z);
    forall r | 0 <= r < LineCount()
      ensures Strips(LineCount(), geometry, z)[r] == Lines(geometry, z)[r]
    {
      StripsAt(LineCount(), geometry, z, r);
    }
  }

  /**
   * A full rebuild draws `Rows - 1` (11) lines, the one at index r midway
   * under row r; none lies under the last row.
   */
  lemma LinesUnderRows(geometry: Plane, z: real, row: nat)
    requires row < LineCount()
    ensures |Lines(geometry, z)| == 11
    ensures Lines(geometry, z)[row].y == (RowY(row) + RowY(row + 1)) / 2.0
    ensures Lines(geometry, z)[row].y > RowY(Rows - 1)
  {
  }
}
