/**
 * The lane model and the run controller of a sled run (src/luge/mod.rs):
 * three lanes with saturating shifts, the lane geometry, the scroll speed and
 * its deceleration, the tiling lane sprites, the stale-input guard and the
 * resets on launch and on return to the loadout.
 */
module Luge {
  import Game
  import opened Wrappers

  /** The sub-states of a visit to the Playing state. */
  datatype LugeState = Loadout | Launched

  /** The three lanes, from left to right. */
  datatype LaneLocation = Left | Center | Right

  const DefaultLane: LaneLocation := Center

  /** A lane's position counted from the left. */
  function Index(l: LaneLocation): nat
  {
    match l
    case Left => 0
    case Center => 1
    case Right => 2
  }

  /** One lane to the left; the left lane absorbs. */
  function ShiftLeft(l: LaneLocation): (r: LaneLocation)
    ensures l == Left ==> r == Left
    ensures l != Left ==> Index(r) + 1 == Index(l)
  {
    match l
    case Left => Left
    case Center => Left
    case Right => Center
  }

  /** One lane to the right; the right lane absorbs. */
  function ShiftRight(l: LaneLocation): (r: LaneLocation)
    ensures l == Right ==> r == Right
    ensures l != Right ==> Index(r) == Index(l) + 1
  {
    match l
    case Left => Center
    case Center => Right
    case Right => Right
  }

  /** Away from the boundary it shifts from, each shift is undone by the other. */
  lemma ShiftsUndoEachOther(l: LaneLocation)
    ensures ShiftRight(ShiftLeft(l)) == l <==> l != Left
    ensures ShiftLeft(ShiftRight(l)) == l <==> l != Right
  {
  }

  /** A lane's x position. */
  datatype Lane = Lane(x: real)

  /** The x position of each lane. */
  datatype Lanes = Lanes(left: Lane, center: Lane, right: Lane)
  {
    function XFor(lane: LaneLocation): real
    {
      match lane
      case Left => left.x
      case Center => center.x
      case Right => right.x
    }
  }

  /** The geometry before it is first computed: every lane at x = 0. */
  const DefaultLanes: Lanes := Lanes(Lane(0.0), Lane(0.0), Lane(0.0))

  /** The geometry of a resolution: the centre lane at 0, the side lanes at the table's offsets. */
  function InitLanes(res: Game.Resolution): (lanes: Lanes)
    ensures lanes.center.x == 0.0
    ensures (lanes.left.x, lanes.right.x) == Game.CalculateLanes(res)
  {
    var transform := Game.CalculateLanes(res);
    Lanes(Lane(transform.0), Lane(0.0), Lane(transform.1))
  }

  /**
   * Looking a lane up in computed geometry gives 61 pixels per unit of scale
   * times the lane's signed distance from the centre, so the lanes are
   * mirrored and ordered from left to right.
   */
  lemma XForInitLanes(res: Game.Resolution, l: LaneLocation)
    ensures InitLanes(res).XFor(l) == (Index(l) as real - 1.0) * 61.0 * Game.Scale(res)
    ensures InitLanes(res).XFor(Left) < InitLanes(res).XFor(Center) < InitLanes(res).XFor(Right)
    ensures InitLanes(res).XFor(Left) == -InitLanes(res).XFor(Right)
  {
  }

  /** At the default 1080p the side lanes are at x = -183 and x = 183. */
  lemma DefaultLaneX()
    ensures InitLanes(Game.DefaultResolution).XFor(Left) == -183.0
    ensures InitLanes(Game.DefaultResolution).XFor(Right) == 183.0
  {
  }

  /** The lane after one frame of input: a left press shifts first, then a right press. */
  function Moved(l: LaneLocation, leftPressed: bool, rightPressed: bool): LaneLocation
  {
    var afterLeft := if leftPressed then ShiftLeft(l) else l;
    if rightPressed then ShiftRight(afterLeft) else afterLeft
  }

  /**
   * A frame moves the lane by at most one, towards the pressed side; with
   * both pressed the lane returns to where it was unless it started on the
   * left, where it moves to the centre.
   */
  lemma MovedBounds(l: LaneLocation, leftPressed: bool, rightPressed: bool)
    ensures !leftPressed && !rightPressed ==> Moved(l, leftPressed, rightPressed) == l
    ensures leftPressed && rightPressed ==> Moved(l, leftPressed, rightPressed) == ShiftRight(ShiftLeft(l))
    ensures leftPressed && rightPressed ==> (Moved(l, leftPressed, rightPressed) == l <==> l != Left)
    ensures leftPressed && !rightPressed ==> Index(Moved(l, leftPressed, rightPressed)) == if l == Left then 0 else Index(l) - 1
    ensures !leftPressed && rightPressed ==> Index(Moved(l, leftPressed, rightPressed)) == if l == Right then 2 else Index(l) + 1
  {
  }

  const DefaultScrollSpeed: real := 1000.0
  const BaseDeceleration: real := 50.0

  function BrakingFactor(brakeHeld: bool): real
  {
    if brakeHeld then 3.0 else 1.0
  }

  /** The deceleration rate: the base rate divided by the speed stat, tripled while braking. */
  function Deceleration(speedStat: nat, brakeHeld: bool): (d: real)
    requires speedStat > 0
    ensures d > 0.0
    ensures d * speedStat as real == BaseDeceleration * BrakingFactor(brakeHeld)
  {
    BaseDeceleration / speedStat as real * BrakingFactor(brakeHeld)
  }

  /** The scroll speed after one frame of deceleration, floored at 0. */
  function Decelerated(speed: real, speedStat: nat, brakeHeld: bool, dt: real): (r: real)
    requires speedStat > 0
    ensures r >= 0.0
    ensures speed >= 0.0 && dt >= 0.0 ==> r <= speed
    ensures r == 0.0 <==> speed <= Deceleration(speedStat, brakeHeld) * dt
    ensures r > 0.0 ==> r == speed - Deceleration(speedStat, brakeHeld) * dt
  {
    var s := speed - Deceleration(speedStat, brakeHeld) * dt;
    if s > 0.0 then s else 0.0
  }

  /** Braking never leaves the sled faster than coasting over the same frame. */
  lemma BrakingSlowsMore(speed: real, speedStat: nat, dt: real)
    requires speedStat > 0 && dt >= 0.0
    ensures Decelerated(speed, speedStat, true, dt) <= Decelerated(speed, speedStat, false, dt)
  {
    var coast := Deceleration(speedStat, false);
    var brake := Deceleration(speedStat, true);
    assert brake == 3.0 * coast;
    assert brake * dt >= coast * dt;
  }

  /** How far the world scrolls in one frame: the speed scaled by a tenth of the speed stat. */
  function ScrollDelta(speed: real, speedStat: nat, dt: real): real
  {
    speed * (speedStat as real / 10.0) * dt
  }

  lemma ScrollDeltaNonNegative(speed: real, speedStat: nat, dt: real)
    requires speed >= 0.0 && dt >= 0.0
    ensures ScrollDelta(speed, speedStat, dt) >= 0.0
  {
    var k := speedStat as real / 10.0;
    assert k >= 0.0;
    assert speed * k >= 0.0;
  }

  /** A lane sprite's y after scrolling by delta, wrapped up by two screens once it is a screen below. */
  function Wrapped(y: real, delta: real, h: real): (r: real)
    ensures r == y - delta || r == y - delta + 2.0 * h
    ensures y - delta > -h ==> r == y - delta
    ensures y - delta <= -h ==> r == y - delta + 2.0 * h
  {
    var moved := y - delta;
    if moved <= -h then moved + 2.0 * h else moved
  }

  /** The window a lane sprite stays in: above one screen below the origin, at most one screen above. */
  ghost predicate InWindow(y: real, h: real)
  {
    -h < y <= h
  }

  /**
   * The wrap keeps a sprite in its window for any frame that scrolls at most
   * one screen, and two sprites one screen apart stay one screen apart, so the
   * two tiles keep covering the screen.
   */
  lemma WrapKeepsTiling(y0: real, y1: real, delta: real, h: real)
    requires h > 0.0 && 0.0 <= delta <= h
    requires InWindow(y0, h) && InWindow(y1, h)
    requires y1 - y0 == h || y0 - y1 == h
    ensures InWindow(Wrapped(y0, delta, h), h) && InWindow(Wrapped(y1, delta, h), h)
    ensures Wrapped(y1, delta, h) - Wrapped(y0, delta, h) == h || Wrapped(y0, delta, h) - Wrapped(y1, delta, h) == h
  {
  }

  /** The lane sprites' y positions set on entering the loadout, by sprite index. */
  function LaneOffsets(res: Game.Resolution): seq<real>
  {
    [0.0, 360.0 * Game.Scale(res)]
  }

  /** The reset places the two tiles one screen apart, both inside their window. */
  lemma LaneOffsetsTile(res: Game.Resolution)
    ensures |LaneOffsets(res)| == 2
    ensures LaneOffsets(res)[1] - LaneOffsets(res)[0] == Game.Size(res).y
    ensures InWindow(LaneOffsets(res)[0], Game.Size(res).y) && InWindow(LaneOffsets(res)[1], Game.Size(res).y)
  {
  }

  /**
   * The resources of a run and the transforms it writes: the player's lane,
   * the scroll speed, the lane geometry, the player sprite's position, the
   * lane sprites' y positions, the stale-input guard, whether the Continue
   * action is disabled, the run timer and the pending state request.
   */
  class Run {
    var lane: LaneLocation
    var speed: real
    var lanes: Lanes
    var playerX: real
    var playerY: real
    var laneYs: seq<real>
    var cooldown: bool
    var continueDisabled: bool
    var elapsed: real
    var requested: Option<LugeState>

    /** The resources as the plugin inserts them, before any sprite exists. */
    constructor ()
      ensures lane == DefaultLane && speed == DefaultScrollSpeed && lanes == DefaultLanes
      ensures playerX == 0.0 && playerY == 0.0 && laneYs == []
      ensures !cooldown && !continueDisabled && elapsed == 0.0 && requested == None
    {
      lane := DefaultLane;
      speed := DefaultScrollSpeed;
      lanes := DefaultLanes;
      playerX, playerY := 0.0, 0.0;
      laneYs := [];
      cooldown, continueDisabled := false, false;
      elapsed := 0.0;
      requested := None;
    }

    /** The player sprite appears in the centre, a third of a screen below the origin. */
    method SpawnLuigee(res: Game.Resolution)
      modifies this`playerX, this`playerY
      ensures playerX == 0.0 && playerY == -(Game.Size(res).y / 3.0)
    {
      playerX := 0.0;
      playerY := -(Game.Size(res).y / 3.0);
    }

    /** Two lane sprites appear, one at the origin and one a screen above it. */
    method SpawnLanes(res: Game.Resolution)
      modifies this`laneYs
      ensures laneYs == old(laneYs) + [0.0, 360.0 * Game.Scale(res)]
    {
      laneYs := laneYs + [0.0, 360.0 * Game.Scale(res)];
    }

    method UpdateLanes(res: Game.Resolution)
      modifies this`lanes
      ensures lanes == InitLanes(res)
    {
      lanes := InitLanes(res);
    }

    method SetInputCooldown()
      modifies this`cooldown
      ensures cooldown
    {
      cooldown := true;
    }

    /** A left press shifts left, then a right press shifts right. */
    method MoveLuigee(leftJustPressed: bool, rightJustPressed: bool)
      modifies this`lane
      ensures lane == Moved(old(lane), leftJustPressed, rightJustPressed)
    {
      if leftJustPressed {
        lane := ShiftLeft(lane);
      }
      if rightJustPressed {
        lane := ShiftRight(lane);
      }
    }

    /** When the lane resource changed, the player sprite moves to that lane's x. */
    method UpdateLuigeeSprite(laneChanged: bool)
      modifies this`playerX
      ensures playerX == if laneChanged then lanes.XFor(lane) else old(playerX)
    {
      if laneChanged {
        playerX := lanes.XFor(lane);
      }
    }

    /** Every lane sprite moves down by the frame's scroll distance and wraps. */
    method ScrollLanes(res: Game.Resolution, speedStat: nat, dt: real)
      modifies this`laneYs
      ensures |laneYs| == |old(laneYs)|
      ensures forall i :: 0 <= i < |laneYs| ==>
                laneYs[i] == Wrapped(old(laneYs)[i], ScrollDelta(old(speed), speedStat, dt), Game.Size(res).y)
    {
      var delta := speed * (speedStat as real / 10.0) * dt;
      var i := 0;
      while i < |laneYs|
        invariant 0 <= i <= |laneYs| == |old(laneYs)|
        invariant forall k :: 0 <= k < i ==> laneYs[k] == Wrapped(old(laneYs)[k], delta, Game.Size(res).y)
        invariant forall k :: i <= k < |laneYs| ==> laneYs[k] == old(laneYs)[k]
      {
        var y := laneYs[i] - delta;
        var h := Game.Size(res).y;
        if y <= -h {
          y := y + h * 2.0;
        }
        laneYs := laneYs[i := y];
        i := i + 1;
      }
    }

    /**
     * While the pointer button or the space key is held, Continue stays
     * disabled and the guard stays; once neither is held, Continue is enabled
     * and the guard is removed. The schedule runs this only while the guard exists.
     */
    method ConsumeStaleInput(mouseLeftHeld: bool, spaceHeld: bool)
      requires cooldown
      modifies this`continueDisabled, this`cooldown
      ensures mouseLeftHeld || spaceHeld ==> continueDisabled && cooldown
      ensures !mouseLeftHeld && !spaceHeld ==> !continueDisabled && !cooldown
    {
      if mouseLeftHeld || spaceHeld {
        if !continueDisabled {
          continueDisabled := true;
        }
        return;
      }
      continueDisabled := false;
      cooldown := false;
    }

    /** The run timer advances by the frame time. */
    method TickRunTimer(dt: real)
      requires dt >= 0.0
      modifies this`elapsed
      ensures elapsed == old(elapsed) + dt && elapsed >= old(elapsed)
    {
      elapsed := elapsed + dt;
    }

    method ResetRunTimer()
      modifies this`elapsed
      ensures elapsed == 0.0
    {
      elapsed := 0.0;
    }

    /** One frame of deceleration; reaching 0 requests the return to the loadout. */
    method DecelerateLuigee(speedStat: nat, brakeHeld: bool, dt: real)
      requires speedStat > 0
      modifies this`speed, this`requested
      ensures speed == Decelerated(old(speed), speedStat, brakeHeld, dt)
      ensures requested == if speed == 0.0 then Some(Loadout) else old(requested)
    {
      var braking := if brakeHeld then 3.0 else 1.0;
      var decel := BaseDeceleration / speedStat as real * braking;
      var s := speed - decel * dt;
      speed := if s > 0.0 then s else 0.0;
      if speed == 0.0 {
        requested := Some(Loadout);
      }
    }

    /** On launch the scroll speed is restored to its default. */
    method ResetScrollSpeed()
      modifies this`speed
      ensures speed == DefaultScrollSpeed
    {
      speed := DefaultScrollSpeed;
    }

    /**
     * On entering the loadout: the lane returns to the centre, the player
     * sprite to x = 0, and the lane sprites to their tiling offsets by index.
     * The offsets table has two entries, and only two lane sprites exist.
     */
    method ResetLuge(res: Game.Resolution)
      requires |laneYs| <= 2
      modifies this`lane, this`playerX, this`laneYs
      ensures lane == DefaultLane && playerX == 0.0
      ensures laneYs == LaneOffsets(res)[..|old(laneYs)|]
    {
      lane := DefaultLane;
      playerX := 0.0;
      var offsets := [0.0, 360.0 * Game.Scale(res)];
      var i := 0;
      while i < |laneYs|
        invariant 0 <= i <= |laneYs| == |old(laneYs)|
        invariant lane == DefaultLane && playerX == 0.0
        invariant laneYs[..i] == offsets[..i]
      {
        laneYs := laneYs[i := offsets[i]];
        i := i + 1;
      }
      assert laneYs == laneYs[..i];
    }
  }
}
