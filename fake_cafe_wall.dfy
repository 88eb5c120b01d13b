/**
 * The fake cafe-wall demo: the same tile wall as the cafe-wall demo, but
 * its mortar lines really are slanted by an angle set with a slider, odd
 * rows are always shifted, and one button removes the whole tile pattern.
 * Straight red guide lines can be shown over the mortar positions.
 */
module FakeCafeWall {
  import opened WallGrid

  /** The approximation of pi the demo's runtime provides. */
  const Pi: real := 3.141592653589793

  /** The slider's starting angle, in degrees. */
  const InitialSlantAngle: real := 3.0

  /** Degrees to radians, as the mortar geometry is rotated; the sign of the angle is kept. */
  function DegreesToRadians(angle: real): (r: real)
    ensures r == 0.0 <==> angle == 0.0
    ensures r > 0.0 <==> angle > 0.0
  {
    angle * Pi / 180.0
  }

  /** A fresh mortar plane, 20 by the mortar thickness, turned by `angle` degrees. */
  function CreateSlantedMortarGeometry(angle: real): Plane
  {
    Plane(20.0, MortarThickness, DegreesToRadians(angle))
  }

  /** The tiles a rebuild draws: none once the pattern is removed. */
  function Pattern(patternRemoved: bool): seq<Tile>
  {
    if patternRemoved then [] else Grid(true)
  }

  /** The mortar lines a rebuild draws for the given angle. */
  function MortarLines(patternRemoved: bool, slantAngle: real): seq<Strip>
  {
    if patternRemoved then [] else Lines(CreateSlantedMortarGeometry(slantAngle), MortarDepth)
  }

  /** The plane every guide line of one rebuild shares: 20 wide, 0.03 high, not turned. */
  function GuideGeometry(): Plane
  {
    Plane(20.0, 0.03, 0.0)
  }

  /** The guide lines drawn for the given visibility: straight, whatever the slant. */
  function GuideLines(visible: bool): seq<Strip>
  {
    if visible then Lines(GuideGeometry(), GuideDepth) else []
  }

  /** The conversion to radians is linear: it keeps sums and scales, and sends 0 to 0. */
  lemma RadiansLinear(a: real, b: real, c: real)
    ensures DegreesToRadians(a + b) == DegreesToRadians(a) + DegreesToRadians(b)
    ensures DegreesToRadians(c * a) == c * DegreesToRadians(a)
    ensures DegreesToRadians(0.0) == 0.0
  {
    calc {
      DegreesToRadians(c * a);
      (c * a) * Pi / 180.0;
      { assert (c * a) * Pi == c * (a * Pi); }
      c * (a * Pi) / 180.0;
    }
  }

  /** Distinct angles give distinct rotations, larger angles larger ones. */
  lemma RadiansStrictlyMonotone(a: real, b: real)
    requires a < b
    ensures DegreesToRadians(a) < DegreesToRadians(b)
  {
    assert b * Pi - a * Pi == (b - a) * Pi;
  }

  /**
   * Turning the slider adds up: the rotation for a + b is the sum of the
   * two rotations, a larger angle turns the mortar strictly further, and
   * at 0 degrees the mortar plane is as long and as unturned as the guide
   * lines' plane.
   */
  lemma SlantedMortarRotation(a: real, b: real)
    ensures CreateSlantedMortarGeometry(a + b).rotationZ ==
            CreateSlantedMortarGeometry(a).rotationZ + CreateSlantedMortarGeometry(b).rotationZ
    ensures a < b ==> CreateSlantedMortarGeometry(a).rotationZ < CreateSlantedMortarGeometry(b).rotationZ
    ensures CreateSlantedMortarGeometry(a).width == GuideGeometry().width
    ensures CreateSlantedMortarGeometry(a).height == MortarThickness
    ensures CreateSlantedMortarGeometry(0.0) == Plane(GuideGeometry().width, MortarThickness, GuideGeometry().rotationZ)
  {
    RadiansLinear(a, b, 1.0);
    if a < b {
      RadiansStrictlyMonotone(a, b);
    }
  }

  /** Without the pattern a rebuild leaves no tile and no mortar line. */
  lemma RemovedPatternIsEmpty(slantAngle: real)
    ensures Pattern(true) == [] && MortarLines(true, slantAngle) == []
  {
  }

  /**
   * With the pattern, a rebuild draws 192 tiles, black exactly in the even
   * columns, and every odd row is shifted by half a tile: nothing here
   * turns the offset off.
   */
  lemma FullPattern(row: nat, col: nat)
    requires row < Rows && col < TilesPerRow
    ensures |Pattern(false)| == 192
    ensures Pattern(false)[row * TilesPerRow + col].colour == Black <==> col % 2 == 0
    ensures Pattern(false)[row * TilesPerRow + col].x ==
            Pattern(false)[col].x + (if row % 2 == 1 then OffsetAmount else 0.0)
  {
    GridAt(true, row, col);
    GridAt(true, 0, col);
  }

  /**
   * With the pattern, a rebuild draws 11 mortar lines, each midway under its
   * row and each turned by the current slant angle.
   */
  lemma MortarFollowsSlant(slantAngle: real, row: nat)
    requires row < LineCount()
    ensures |MortarLines(false, slantAngle)| == 11
    ensures MortarLines(false, slantAngle)[row].y == MortarY(row)
    ensures MortarLines(false, slantAngle)[row].geometry.rotationZ == DegreesToRadians(slantAngle)
  {
  }

  /** Shown guide lines lie on the mortar heights whatever the slant or the pattern. */
  lemma GuidesStraight(slantAngle: real, row: nat)
    requires row < LineCount()
    ensures |GuideLines(true)| == 11 && GuideLines(false) == []
    ensures GuideLines(true)[row].y == MortarLines(false, slantAngle)[row].y
    ensures GuideLines(true)[row].geometry.rotationZ == 0.0
  {
  }

  class FakeCafeWall {
    var tiles: seq<Tile>
    var mortarLines: seq<Strip>
    var guideLines: seq<Strip>
    var guideLinesVisible: bool
    var patternRemoved: bool
    var slantAngle: real
    var needsRedraw: bool

    /** The scene shows exactly what the flags and the angle call for. */
    ghost predicate Valid()
      reads this
    {
      && tiles == Pattern(patternRemoved)
      && mortarLines == MortarLines(patternRemoved, slantAngle)
      && guideLines == GuideLines(guideLinesVisible)
    }

    /** Page load: empty arrays, both flags off, an angle of 3 degrees, then `init`. */
    constructor ()
      ensures Valid()
      ensures !guideLinesVisible && !patternRemoved && slantAngle == InitialSlantAngle && needsRedraw
    {
      tiles, mortarLines, guideLines := [], [], [];
      guideLinesVisible, patternRemoved, slantAngle, needsRedraw := false, false, InitialSlantAngle, false;
      new;
      Init();
    }

    /** Clears the tiles and mortar lines and, unless the pattern is removed, draws them again. */
    method CreateFakeCafeWallPattern()
      modifies this`tiles, this`mortarLines
      ensures tiles == Pattern(patternRemoved)
      ensures mortarLines == MortarLines(patternRemoved, slantAngle)
    {
      tiles := [];
      mortarLines := [];
      if patternRemoved {
        return;
      }
      var row := 0;
      while row < Rows
        invariant 0 <= row <= Rows
        invariant tiles == GridPrefix(row * TilesPerRow, true)
        invariant row < Rows ==> mortarLines == Strips(row, CreateSlantedMortarGeometry(slantAngle), MortarDepth)
        invariant row == Rows ==> mortarLines == Strips(row - 1, CreateSlantedMortarGeometry(slantAngle), MortarDepth)
      {
        var isEvenRow := row % 2 == 0;
        var rowY := RowY(row);
        var startX := -(TilesPerRow as real * TileWidth) / 2.0 + TileWidth / 2.0;
        if !isEvenRow {
          startX := startX + OffsetAmount;
        }
        assert startX == StartX(row, true);
        var col := 0;
        while col < TilesPerRow
          modifies this`tiles
          invariant 0 <= col <= TilesPerRow
          invariant tiles == GridPrefix(row * TilesPerRow + col, true)
        {
          var tileX := startX + col as real * TileWidth;
          var isBlack := col % 2 == 0;
          var colour := if isBlack then Black else White;
          assert Tile(tileX, rowY, colour) == TileAt(row, col, true);
          GridPrefixStep(row, col, true);
          tiles := tiles + [Tile(tileX, rowY, colour)];
          col := col + 1;
        }
        assert row * TilesPerRow + TilesPerRow == (row + 1) * TilesPerRow;
        if row < Rows - 1 {
          var mortarY := rowY - (TileHeight + MortarThickness) / 2.0;
          assert mortarY == MortarY(row);
          var slantedMortarGeometry := CreateSlantedMortarGeometry(slantAngle);
          mortarLines := mortarLines + [Strip(slantedMortarGeometry, mortarY, MortarDepth)];
        }
        row := row + 1;
      }
      GridPrefixIsGrid(true);
      StripsAreLines(CreateSlantedMortarGeometry(slantAngle), MortarDepth);
    }

    /** Clears the guide lines and, when visible, draws one straight line per mortar height. */
    method CreateGuideLines()
      modifies this`guideLines
      ensures guideLines == GuideLines(guideLinesVisible)
    {
      guideLines := [];
      if !guideLinesVisible {
        return;
      }
      var guideGeometry := Plane(20.0, 0.03, 0.0);
      var row := 0;
      while row < Rows - 1
        invariant 0 <= row <= Rows - 1
        invariant guideLines == Strips(row, guideGeometry, GuideDepth)
      {
        var rowY := (Rows - 1) as real * (TileHeight + MortarThickness) / 2.0 - row as real * (TileHeight + MortarThickness);
        var mortarY := rowY - (TileHeight + MortarThickness) / 2.0;
        guideLines := guideLines + [Strip(guideGeometry, mortarY, GuideDepth)];
        row := row + 1;
      }
      StripsAreLines(guideGeometry, GuideDepth);
    }

    method Init()
      modifies this`tiles, this`mortarLines, this`guideLines, this`needsRedraw
      ensures Valid() && needsRedraw
      ensures guideLinesVisible == old(guideLinesVisible) && patternRemoved == old(patternRemoved)
      ensures slantAngle == old(slantAngle)
    {
      CreateFakeCafeWallPattern();
      CreateGuideLines();
      needsRedraw := true;
    }

    /** The slider: store the new angle and rebuild with it. */
    method UpdateSlantAngle(newAngle: real)
      modifies this`slantAngle, this`tiles, this`mortarLines, this`guideLines, this`needsRedraw
      ensures slantAngle == newAngle
      ensures Valid() && needsRedraw
      ensures patternRemoved == old(patternRemoved) && guideLinesVisible == old(guideLinesVisible)
    {
      slantAngle := newAngle;
      CreateFakeCafeWallPattern();
      CreateGuideLines();
      needsRedraw := true;
    }

    /** The "toggle guide lines" button. */
    method ToggleLines()
      requires Valid()
      modifies this`guideLinesVisible, this`guideLines, this`needsRedraw
      ensures Valid()
      ensures guideLinesVisible == !old(guideLinesVisible)
      ensures guideLines == GuideLines(guideLinesVisible)
      ensures needsRedraw
    {
      guideLinesVisible := !guideLinesVisible;
      CreateGuideLines();
      needsRedraw := true;
    }

    /** The "toggle pattern" button. */
    method TogglePattern()
      modifies this`patternRemoved, this`tiles, this`mortarLines, this`guideLines, this`needsRedraw
      ensures patternRemoved == !old(patternRemoved)
      ensures Valid() && needsRedraw
      ensures slantAngle == old(slantAngle) && guideLinesVisible == old(guideLinesVisible)
    {
      patternRemoved := !patternRemoved;
      CreateFakeCafeWallPattern();
      CreateGuideLines();
      needsRedraw := true;
    }

    /** One animation frame: render only when something changed, then clear the flag. */
    method Animate() returns (rendered: bool)
      requires Valid()
      modifies this`needsRedraw
      ensures Valid()
      ensures rendered == old(needsRedraw)
      ensures !needsRedraw
    {
      rendered := false;
      if needsRedraw {
        rendered := true;
        needsRedraw := false;
      }
    }

    /**
     * Rebuilding a second time with the same flags and angle changes
     * nothing: the arrays after the second rebuild are those of the first,
     * which are returned.
     */
    method RebuildTwice() returns (firstTiles: seq<Tile>, firstMortarLines: seq<Strip>, firstGuideLines: seq<Strip>)
      modifies this`tiles, this`mortarLines, this`guideLines
      ensures Valid()
      ensures tiles == firstTiles && mortarLines == firstMortarLines && guideLines == firstGuideLines
    {
      CreateFakeCafeWallPattern();
      CreateGuideLines();
      firstTiles, firstMortarLines, firstGuideLines := tiles, mortarLines, guideLines;
      CreateFakeCafeWallPattern();
      CreateGuideLines();
    }

    /** Pressing "toggle pattern" twice gives back the scene from before. */
    method TogglePatternTwice()
      requires Valid()
      modifies this`patternRemoved, this`tiles, this`mortarLines, this`guideLines, this`needsRedraw
      ensures Valid() && needsRedraw
      ensures patternRemoved == old(patternRemoved)
      ensures tiles == old(tiles) && mortarLines == old(mortarLines) && guideLines == old(guideLines)
    {
      TogglePattern();
      TogglePattern();
    }
  }
}
