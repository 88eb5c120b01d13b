/**
 * The squint illusion: twelve colour-wheel rings whose shared rotation
 * uniform is driven by the clock, and four grey arrows in the centre whose
 * visibility follows a fixed schedule that switches every three seconds.
 *
 * The clock reading is a parameter of each frame; the shader, the ring
 * positions on the circle and the renderer are not modelled.
 */
module Penrose {

  /** The approximation of pi the demo's runtime provides. */
  const Pi: real := 3.141592653589793

  const RingCount: nat := 12
  /** Radians of colour rotation per second. */
  const RotationSpeed: real := 16.0
  /** Seconds between two arrow patterns. */
  const ArrowInterval: real := 3.0

  const HeadWidth: real := 1.2
  const HeadLength: real := 0.7
  const StemWidth: real := 0.6
  const StemLength: real := 0.7
  /** Distance of each arrow from the centre. */
  const ArrowDist: real := 1.5

  // ----- Rings -----

  /** The rotation uniform ring `i` starts with: its angle on the circle of rings. */
  function InitialRotation(i: nat): real
  {
    (i as real / 12.0) * Pi * 2.0
  }

  /** The rotation uniform every ring holds in the frame drawn at `elapsed` seconds. */
  function FrameRotation(elapsed: real): real
  {
    -elapsed * RotationSpeed
  }

  /** The rings start evenly spread: 0 for the first, then one twelfth of a turn apart, all below a full turn. */
  lemma InitialRotationsSpread(i: nat)
    requires i < RingCount
    ensures InitialRotation(0) == 0.0
    ensures InitialRotation(i + 1) - InitialRotation(i) == Pi / 6.0
    ensures 0.0 <= InitialRotation(i) < 2.0 * Pi
  {
    assert InitialRotation(i) == i as real * (Pi / 6.0);
    assert InitialRotation(i + 1) == (i + 1) as real * (Pi / 6.0);
  }

  /** The colour turns clockwise at a constant speed: each second lowers the uniform by 16. */
  lemma FrameRotationClockwise(elapsed: real, later: real)
    requires elapsed <= later
    ensures FrameRotation(later) <= FrameRotation(elapsed)
    ensures FrameRotation(later) - FrameRotation(elapsed) == -(later - elapsed) * RotationSpeed
    ensures FrameRotation(0.0) == 0.0
  {
  }

  // ----- Arrow schedule -----

  datatype Arrow = Up | Down | Left | Right

  /** The arrows in the order the demo's arrow table lists them. */
  const AllArrows: seq<Arrow> := [Up, Down, Left, Right]

  /** JavaScript's `Math.floor` of a real. */
  function Floor(x: real): (n: int)
    ensures n as real <= x < n as real + 1.0
  {
    x.Floor
  }

  /**
   * JavaScript's `%` on integers: the remainder of the division truncated
   * toward zero, which takes the sign of the dividend (unlike Dafny's `%`).
   */
  function JsRem(a: int, b: int): (r: int)
    requires b > 0
    ensures -b < r < b
    ensures a >= 0 ==> r == a % b
    ensures a < 0 ==> r <= 0
  {
    if a >= 0 then a % b else -((-a) % b)
  }

  /**
   * For the divisor 4 of the arrow schedule: a negative dividend gives the
   * Euclidean remainder shifted down by 4 (or 0), so both remainders agree
   * modulo 4.
   */
  lemma JsRemNegative(a: int)
    requires a < 0
    ensures JsRem(a, 4) == (if a % 4 == 0 then 0 else a % 4 - 4)
    ensures (a - JsRem(a, 4)) % 4 == 0
  {
  }

  /**
   * The pattern number of the frame drawn at `elapsed` seconds: from the
   * start of the clock it is the number of whole intervals gone by, modulo 4.
   */
  function ArrowState(elapsed: real): (state: int)
    ensures -4 < state < 4
    ensures elapsed >= 0.0 ==> state == Floor(elapsed / ArrowInterval) % 4
  {
    JsRem(Floor(elapsed / ArrowInterval), 4)
  }

  /** The arrows a pattern number shows; a number outside 0..3 matches no case and shows none. */
  function VisibleArrows(state: int): (shown: set<Arrow>)
    ensures shown != {} <==> 0 <= state <= 3
    ensures shown == {Up, Down, Left, Right} <==> state == 3
    ensures Up in shown && !(Down in shown) <==> state == 2
  {
    match state
    case 0 => {Up, Down}
    case 1 => {Left, Right}
    case 2 => {Up}
    case 3 => {Up, Down, Left, Right}
    case _ => {}
  }

  /** From the start of the clock the pattern number is always one of the four cases. */
  lemma ArrowStateRange(elapsed: real)
    ensures elapsed >= 0.0 ==> 0 <= ArrowState(elapsed) <= 3
    ensures elapsed < 0.0 ==> -3 <= ArrowState(elapsed) <= 0
  {
    var n := Floor(elapsed / ArrowInterval);
    if elapsed >= 0.0 {
      assert n >= 0;
    } else {
      assert n < 0;
    }
  }

  /** Throughout the k-th three-second interval the pattern number is k mod 4. */
  lemma ArrowStateSteady(elapsed: real, k: nat)
    requires 3.0 * k as real <= elapsed < 3.0 * k as real + 3.0
    ensures ArrowState(elapsed) == k % 4
  {
    assert k as real <= elapsed / ArrowInterval < k as real + 1.0;
    assert Floor(elapsed / ArrowInterval) == k;
  }

  /** The schedule repeats every 12 seconds. */
  lemma ArrowStatePeriodic(elapsed: real)
    requires elapsed >= 0.0
    ensures ArrowState(elapsed + 12.0) == ArrowState(elapsed)
  {
    var n := Floor(elapsed / ArrowInterval);
    assert n >= 0;
    assert (elapsed + 12.0) / ArrowInterval == elapsed / ArrowInterval + 4.0;
    assert Floor((elapsed + 12.0) / ArrowInterval) == n + 4;
    assert (n + 4) % 4 == n % 4;
  }

  /**
   * In every 12-second cycle each arrow is shown at some moment, and all
   * four are shown together during the cycle's last three seconds.
   */
  lemma EveryArrowShownEachCycle(k: nat, a: Arrow)
    ensures VisibleArrows(ArrowState(12.0 * k as real + 9.0)) == {Up, Down, Left, Right}
    ensures exists e :: 12.0 * k as real <= e < 12.0 * k as real + 12.0 && a in VisibleArrows(ArrowState(e))
  {
    var e := 12.0 * k as real + 9.0;
    ArrowStateSteady(e, 4 * k + 3);
    assert (4 * k + 3) % 4 == 3;
    assert a in VisibleArrows(ArrowState(e));
  }

  /** The upward arrow is the one shown most: in three of the four patterns. */
  lemma UpShownMost(state: int)
    requires 0 <= state <= 3
    ensures Up in VisibleArrows(state) <==> state != 1
    ensures Down in VisibleArrows(state) <==> state == 0 || state == 3
    ensures Left in VisibleArrows(state) <==> Right in VisibleArrows(state)
    ensures Left in VisibleArrows(state) <==> state == 1 || state == 3
  {
  }

  // ----- Arrow outline and placement -----

  datatype Point = Point(x: real, y: real)

  function Mirror(p: Point): Point
  {
    Point(-p.x, p.y)
  }

  /** Twice the signed area enclosed by a closed polyline (the shoelace sum). */
  function TwiceSignedArea(pts: seq<Point>): real
  {
    if |pts| < 2 then 0.0
    else pts[0].x * pts[1].y - pts[1].x * pts[0].y + TwiceSignedArea(pts[1..])
  }

  /**
   * The outline of the upward arrow, centred on the origin: the stem's
   * bottom-left corner, then counter-clockwise round the stem and the head
   * and back to the start.
   */
  function ArrowOutline(): (pts: seq<Point>)
    ensures |pts| == 8
    ensures pts[7] == pts[0]
    ensures forall i :: 0 <= i < 7 ==> Mirror(pts[i]) == pts[(8 - i) % 7]
    ensures pts[4] == Point(0.0, StemLength / 2.0 + HeadLength)
    ensures forall i :: 0 <= i < 8 && i != 4 ==> pts[i].y < pts[4].y
    ensures forall i :: 0 <= i < 8 ==> -HeadWidth / 2.0 <= pts[i].x <= HeadWidth / 2.0
  {
    var headBaseY := StemLength / 2.0;
    var stemBaseY := -StemLength / 2.0;
    var tipY := headBaseY + HeadLength;
    [ Point(-StemWidth / 2.0, stemBaseY),
      Point(StemWidth / 2.0, stemBaseY),
      Point(StemWidth / 2.0, headBaseY),
      Point(HeadWidth / 2.0, headBaseY),
      Point(0.0, tipY),
      Point(-HeadWidth / 2.0, headBaseY),
      Point(-StemWidth / 2.0, headBaseY),
      Point(-StemWidth / 2.0, stemBaseY) ]
  }

  /**
   * The outline runs counter-clockwise and encloses exactly the stem
   * rectangle plus the head triangle.
   */
  lemma ArrowOutlineArea()
    ensures TwiceSignedArea(ArrowOutline()) == 2.0 * (StemWidth * StemLength + HeadWidth * HeadLength / 2.0)
    ensures TwiceSignedArea(ArrowOutline()) > 0.0
  {
    var pts := ArrowOutline();
    assert TwiceSignedArea(pts[7..]) == 0.0;
    assert TwiceSignedArea(pts[6..]) == pts[6].x * pts[7].y - pts[7].x * pts[6].y;
    assert TwiceSignedArea(pts[5..]) == pts[5].x * pts[6].y - pts[6].x * pts[5].y + TwiceSignedArea(pts[6..]);
    assert TwiceSignedArea(pts[4..]) == pts[4].x * pts[5].y - pts[5].x * pts[4].y + TwiceSignedArea(pts[5..]);
    assert TwiceSignedArea(pts[3..]) == pts[3].x * pts[4].y - pts[4].x * pts[3].y + TwiceSignedArea(pts[4..]);
    assert TwiceSignedArea(pts[2..]) == pts[2].x * pts[3].y - pts[3].x * pts[2].y + TwiceSignedArea(pts[3..]);
    assert TwiceSignedArea(pts[1..]) == pts[1].x * pts[2].y - pts[2].x * pts[1].y + TwiceSignedArea(pts[2..]);
  }

  /** Where each arrow is placed. */
  function ArrowPosition(a: Arrow): Point
  {
    match a
    case Up => Point(0.0, ArrowDist)
    case Down => Point(0.0, -ArrowDist)
    case Left => Point(-ArrowDist, 0.0)
    case Right => Point(ArrowDist, 0.0)
  }

  /** How far each arrow's upward outline is turned, in quarter turns counter-clockwise. */
  function QuarterTurns(a: Arrow): int
  {
    match a
    case Up => 0
    case Down => 2
    case Left => 1
    case Right => -1
  }

  /** The z rotation each arrow mesh is given, in radians. */
  function ArrowRotation(a: Arrow): real
  {
    match a
    case Up => 0.0
    case Down => Pi
    case Left => Pi / 2.0
    case Right => -Pi / 2.0
  }

  /** Turns a direction counter-clockwise by `q` quarter turns (exact, without trigonometry). */
  function Turn(p: Point, q: nat): Point
    decreases q
  {
    if q == 0 then p else Turn(Point(-p.y, p.x), q - 1)
  }

  /**
   * Every arrow points away from the centre: its rotation is a whole number
   * of quarter turns, and turning the upward direction by that many quarter
   * turns gives the direction of its position, at distance 1.5.
   */
  lemma ArrowsPointOutward(a: Arrow)
    ensures ArrowRotation(a) == QuarterTurns(a) as real * (Pi / 2.0)
    ensures ArrowPosition(a) == Point(ArrowDist * Turn(Point(0.0, 1.0), QuarterTurns(a) % 4).x,
                                      ArrowDist * Turn(Point(0.0, 1.0), QuarterTurns(a) % 4).y)
  {
    var up := Point(0.0, 1.0);
    match a
    case Up =>
    case Left =>
      assert Turn(up, 1) == Turn(Point(-1.0, 0.0), 0);
    case Down =>
      assert Turn(up, 2) == Turn(Point(-1.0, 0.0), 1) == Turn(Point(0.0, -1.0), 0);
    case Right =>
      assert Turn(up, 3) == Turn(Point(-1.0, 0.0), 2) == Turn(Point(0.0, -1.0), 1) == Turn(Point(1.0, 0.0), 0);
  }

  // ----- The scene -----

  /** A ring mesh with its own clone of the colour-wheel material. */
  class Ring {
    var uRotation: real

    constructor (rotation: real)
      ensures uRotation == rotation
    {
      uRotation := rotation;
    }
  }

  class Squint {
    var ringMeshes: seq<Ring>
    /** The `visible` flag of each arrow mesh. */
    var visible: map<Arrow, bool>

    /** Scene construction: twelve rings pushed in order, four arrows, all visible. */
    constructor ()
      ensures |ringMeshes| == RingCount
      ensures forall i :: 0 <= i < |ringMeshes| ==> fresh(ringMeshes[i])
      ensures forall i, j :: 0 <= i < j < |ringMeshes| ==> ringMeshes[i] != ringMeshes[j]
      ensures forall i :: 0 <= i < |ringMeshes| ==> ringMeshes[i].uRotation == InitialRotation(i)
      ensures visible == map[Up := true, Down := true, Left := true, Right := true]
    {
      ringMeshes := [];
      visible := map[Up := true, Down := true, Left := true, Right := true];
      new;
      var i := 0;
      while i < 12
        invariant 0 <= i <= 12 && |ringMeshes| == i
        invariant forall j :: 0 <= j < |ringMeshes| ==> fresh(ringMeshes[j])
        invariant forall j, l :: 0 <= j < l < |ringMeshes| ==> ringMeshes[j] != ringMeshes[l]
        invariant forall j :: 0 <= j < |ringMeshes| ==> ringMeshes[j].uRotation == InitialRotation(j)
        invariant visible == map[Up := true, Down := true, Left := true, Right := true]
      {
        var angle := (i as real / 12.0) * Pi * 2.0;
        var mesh := new Ring(angle);
        ringMeshes := ringMeshes + [mesh];
        i := i + 1;
      }
    }

    /**
     * One frame at `elapsedTime` seconds: every ring gets the same rotation,
     * every arrow is hidden, then the current pattern's arrows are shown.
     */
    method Animate(elapsedTime: real)
      modifies this`visible, ringMeshes
      ensures forall i :: 0 <= i < |ringMeshes| ==> ringMeshes[i].uRotation == FrameRotation(elapsedTime)
      ensures forall i, j :: 0 <= i < j < |ringMeshes| ==> ringMeshes[i].uRotation == ringMeshes[j].uRotation
      ensures forall a :: a in visible && (visible[a] <==> a in VisibleArrows(ArrowState(elapsedTime)))
    {
      var rotationSpeed := 16.0;
      var i := 0;
      while i < |ringMeshes|
        modifies ringMeshes
        invariant 0 <= i <= |ringMeshes|
        invariant forall j :: 0 <= j < i ==> ringMeshes[j].uRotation == -elapsedTime * rotationSpeed
      {
        ringMeshes[i].uRotation := -elapsedTime * rotationSpeed;
        i := i + 1;
      }

      var arrowInterval := 3.0;
      var arrowState := JsRem(Floor(elapsedTime / arrowInterval), 4);

      var k := 0;
      while k < |AllArrows|
        modifies this`visible
        invariant 0 <= k <= |AllArrows|
        invariant forall j :: 0 <= j < k ==> AllArrows[j] in visible && !visible[AllArrows[j]]
      {
        visible := visible[AllArrows[k] := false];
        k := k + 1;
      }
      assert forall a :: a in visible && !visible[a] by {
        forall a: Arrow ensures a in visible && !visible[a] {
          assert a == AllArrows[match a case Up => 0 case Down => 1 case Left => 2 case Right => 3];
        }
      }

      match arrowState {
        case 0 =>
          visible := visible[Up := true][Down := true];
        case 1 =>
          visible := visible[Left := true][Right := true];
        case 2 =>
          visible := visible[Up := true];
        case 3 =>
          visible := visible[Up := true][Down := true][Left := true][Right := true];
        case _ =>
      }
    }
  }
}
