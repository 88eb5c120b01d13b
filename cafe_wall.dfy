/**
 * The cafe-wall demo: a wall of black and white tiles whose odd rows are
 * shifted by half a tile, grey mortar lines between the rows, optional red
 * guide lines over the mortar, and two buttons (guide lines on/off, offset
 * on/off) that flip a flag, rebuild, and ask for a redraw.
 *
 * The scene graph is abstracted away: each mesh is a value record, and the
 * scene's content is the three sequences the demo keeps.
 */
module CafeWall {
  import opened WallGrid

  /** The tiles a rebuild draws. */
  function Pattern(offsetRemoved: bool): seq<Tile>
  {
    Grid(!offsetRemoved)
  }

  /** The mortar lines a rebuild draws, all sharing one geometry. */
  function MortarLines(geometry: Plane): seq<Strip>
  {
    Lines(geometry, MortarDepth)
  }

  /** The guide lines drawn for the given visibility. */
  function GuideLines(geometry: Plane, visible: bool): seq<Strip>
  {
    if visible then Lines(geometry, GuideDepth) else []
  }

  /**
   * A rebuild draws 192 tiles and 11 mortar lines, in row-major order,
   * black exactly in the even columns.
   */
  lemma PatternShape(offsetRemoved: bool, mortarGeometry: Plane, row: nat, col: nat)
    requires row < Rows && col < TilesPerRow
    ensures |Pattern(offsetRemoved)| == 192 && |MortarLines(mortarGeometry)| == 11
    ensures Pattern(offsetRemoved)[row * TilesPerRow + col] == TileAt(row, col, !offsetRemoved)
    ensures Pattern(offsetRemoved)[row * TilesPerRow + col].colour == Black <==> col % 2 == 0
  {
    GridAt(!offsetRemoved, row, col);
  }

  /**
   * Row 1 starts 0.6 to the right of row 0 while the offset is present,
   * and level with it once the offset is removed; even rows never move.
   */
  lemma OddRowShift(offsetRemoved: bool, row: nat, col: nat)
    requires row < Rows && col < TilesPerRow
    ensures |Pattern(offsetRemoved)| == 192
    ensures Pattern(offsetRemoved)[row * TilesPerRow + col].x ==
            Pattern(offsetRemoved)[col].x + (if row % 2 == 1 && !offsetRemoved then 0.6 else 0.0)
    ensures Pattern(offsetRemoved)[TilesPerRow].x == Pattern(offsetRemoved)[0].x + (if offsetRemoved then 0.0 else 0.6)
  {
    GridAt(!offsetRemoved, row, col);
    GridAt(!offsetRemoved, 0, col);
    GridAt(!offsetRemoved, 1, 0);
    GridAt(!offsetRemoved, 0, 0);
  }

  /** Hidden guide lines are none; shown ones lie exactly on the mortar lines. */
  lemma GuidesOverMortar(mortarGeometry: Plane, guideGeometry: Plane, visible: bool, row: nat)
    requires row < LineCount()
    ensures !visible ==> GuideLines(guideGeometry, visible) == []
    ensures visible ==> |GuideLines(guideGeometry, visible)| == |MortarLines(mortarGeometry)| == 11
    ensures visible ==> GuideLines(guideGeometry, visible)[row].y == MortarLines(mortarGeometry)[row].y == MortarY(row)
  {
    LinesUnderRows(guideGeometry, GuideDepth, row);
    LinesUnderRows(mortarGeometry, MortarDepth, row);
  }

  /** Removing the offset changes the odd rows only. */
  lemma OffsetMovesOddRowsOnly(offsetRemoved: bool, row: nat, col: nat)
    requires row < Rows && col < TilesPerRow
    ensures |Pattern(offsetRemoved)| == |Pattern(!offsetRemoved)| == 192
    ensures Pattern(offsetRemoved)[row * TilesPerRow + col] == Pattern(!offsetRemoved)[row * TilesPerRow + col]
            <==> row % 2 == 0
  {
    GridAt(offsetRemoved, row, col);
    GridAt(!offsetRemoved, row, col);
  }

  class CafeWall {
    /** The shared plane geometries of the mortar lines and of the guide lines. */
    const mortarGeometry: Plane
    const guideGeometry: Plane

    var tiles: seq<Tile>
    var mortarLines: seq<Strip>
    var guideLines: seq<Strip>
    var guideLinesVisible: bool
    var offsetRemoved: bool
    var needsRedraw: bool

    /** The scene shows exactly what the two flags call for. */
    ghost predicate Valid()
      reads this
    {
      && tiles == Pattern(offsetRemoved)
      && mortarLines == MortarLines(mortarGeometry)
      && guideLines == GuideLines(guideGeometry, guideLinesVisible)
    }

    /** Page load: empty arrays, both flags off, then `init`. */
    constructor ()
      ensures Valid()
      ensures !guideLinesVisible && !offsetRemoved && needsRedraw
      ensures mortarGeometry == Plane(20.0, MortarThickness, 0.0)
      ensures guideGeometry == Plane(20.0, 0.02, 0.0)
    {
      mortarGeometry := Plane(20.0, MortarThickness, 0.0);
      guideGeometry := Plane(20.0, 0.02, 0.0);
      tiles, mortarLines, guideLines := [], [], [];
      guideLinesVisible, offsetRemoved, needsRedraw := false, false, false;
      new;
      Init();
    }

    /** Clears the tiles and mortar lines and draws them again from the flags. */
    method CreateCafeWallPattern()
      modifies this`tiles, this`mortarLines
      ensures tiles == Pattern(offsetRemoved)
      ensures mortarLines == MortarLines(mortarGeometry)
    {
      tiles := [];
      mortarLines := [];
      var row := 0;
      while row < Rows
        invariant 0 <= row <= Rows
        invariant tiles == GridPrefix(row * TilesPerRow, !offsetRemoved)
        invariant row < Rows ==> mortarLines == Strips(row, mortarGeometry, MortarDepth)
        invariant row == Rows ==> mortarLines == Strips(row - 1, mortarGeometry, MortarDepth)
      {
        var isEvenRow := row % 2 == 0;
        var rowY := RowY(row);
        var startX := -(TilesPerRow as real * TileWidth) / 2.0 + TileWidth / 2.0;
        if !isEvenRow && !offsetRemoved {
          startX := startX + OffsetAmount;
        }
        assert startX == StartX(row, !offsetRemoved);
        var col := 0;
        while col < TilesPerRow
          modifies this`tiles
          invariant 0 <= col <= TilesPerRow
          invariant tiles == GridPrefix(row * TilesPerRow + col, !offsetRemoved)
        {
          var tileX := startX + col as real * TileWidth;
          var isBlack := col % 2 == 0;
          var colour := if isBlack then Black else White;
          assert Tile(tileX, rowY, colour) == TileAt(row, col, !offsetRemoved);
          GridPrefixStep(row, col, !offsetRemoved);
          tiles := tiles + [Tile(tileX, rowY, colour)];
          col := col + 1;
        }
        assert row * TilesPerRow + TilesPerRow == (row + 1) * TilesPerRow;
        if row < Rows - 1 {
          var mortarY := rowY - (TileHeight + MortarThickness) / 2.0;
          assert mortarY == MortarY(row);
          mortarLines := mortarLines + [Strip(mortarGeometry, mortarY, MortarDepth)];
        }
        row := row + 1;
      }
      GridPrefixIsGrid(!offsetRemoved);
      StripsAreLines(mortarGeometry, MortarDepth);
    }

    /** Clears the guide lines and, when they are visible, draws one per mortar line. */
    method CreateGuideLines()
      modifies this`guideLines
      ensures guideLines == GuideLines(guideGeometry, guideLinesVisible)
    {
      guideLines := [];
      if !guideLinesVisible {
        return;
      }
      var row := 0;
      while row < Rows - 1
        invariant 0 <= row <= Rows - 1
        invariant guideLines == Strips(row, guideGeometry, GuideDepth)
      {
        var rowY := (Rows - 1) as real * (TileHeight + MortarThickness) / 2.0 - row as real * (TileHeight + MortarThickness);
        var mortarY := rowY - (TileHeight + MortarThickness) / 2.0;
        guideLines := guideLines + [Strip(guideGeometry, mortarY, GuideDepth)];
        row := row + 1;
      }
      StripsAreLines(guideGeometry, GuideDepth);
    }

    method Init()
      modifies this`tiles, this`mortarLines, this`guideLines, this`needsRedraw
      ensures Valid() && needsRedraw
      ensures guideLinesVisible == old(guideLinesVisible) && offsetRemoved == old(offsetRemoved)
    {
      CreateCafeWallPattern();
      CreateGuideLines();
      needsRedraw := true;
    }

    /** The "toggle guide lines" button. */
    method ToggleLines()
      requires Valid()
      modifies this`guideLinesVisible, this`guideLines, this`needsRedraw
      ensures Valid()
      ensures guideLinesVisible == !old(guideLinesVisible)
      ensures guideLines == GuideLines(guideGeometry, guideLinesVisible)
      ensures needsRedraw
    {
      guideLinesVisible := !guideLinesVisible;
      CreateGuideLines();
      needsRedraw := true;
    }

    /** The "toggle offset" button. */
    method ToggleOffset()
      modifies this`offsetRemoved, this`tiles, this`mortarLines, this`guideLines, this`needsRedraw
      ensures offsetRemoved == !old(offsetRemoved)
      ensures Valid()
      ensures tiles == Pattern(offsetRemoved) && mortarLines == MortarLines(mortarGeometry)
      ensures guideLines == GuideLines(guideGeometry, guideLinesVisible)
      ensures needsRedraw
    {
      offsetRemoved := !offsetRemoved;
      CreateCafeWallPattern();
      CreateGuideLines();
      needsRedraw := true;
    }

    /** One animation frame: render only when something changed, then clear the flag. */
    method Animate() returns (rendered: bool)
      requires Valid()
      modifies this`needsRedraw
      ensures Valid()
      ensures rendered == old(needsRedraw)
      ensures !needsRedraw
    {
      rendered := false;
      if needsRedraw {
        rendered := true;
        needsRedraw := false;
      }
    }

    /** Pressing "toggle offset" twice gives back the scene from before. */
    method ToggleOffsetTwice()
      requires Valid()
      modifies this`offsetRemoved, this`tiles, this`mortarLines, this`guideLines, this`needsRedraw
      ensures Valid() && needsRedraw
      ensures offsetRemoved == old(offsetRemoved)
      ensures tiles == old(tiles) && mortarLines == old(mortarLines) && guideLines == old(guideLines)
    {
      ToggleOffset();
      ToggleOffset();
    }
  }
}
