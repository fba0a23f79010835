/**
 * The square player of player.py: a 40 by 40 box standing on the ground line
 * y = 350 that jumps and falls under gravity.
 *
 * Velocities are kept in tenths of a pixel (gravity 0.8 is 8, the jump force
 * -15 is -150), so they stay exact. The box's `y` is a whole pixel, and the
 * pixel that `rect.y += vel_y` stores is passed in by the caller, who only has
 * to keep it within one pixel of the exact sum.
 */
module BoxPlayer {

  const GroundY: int := 350
  const Size: int := 40
  const StartX: int := 80
  const Gravity: int := 8
  const JumpForce: int := -150

  /** The box and its motion. */
  datatype Body = Body(x: int, y: int, w: int, h: int, velY: int, onGround: bool)

  /** 40 by 40 with its bottom centre at (100, 350), at rest on the ground. */
  function StartBody(): (b: Body)
    ensures b.x + b.w / 2 == 100 && b.y + b.h == GroundY
    ensures b.w == Size && b.h == Size && b.velY == 0 && b.onGround
  {
    Body(StartX, GroundY - Size, Size, Size, 0, true)
  }

  /** The fixed size and column, the ground as a floor, and no speed while standing. */
  predicate BodyValid(b: Body)
  {
    && b.x == StartX && b.w == Size && b.h == Size
    && b.y + b.h <= GroundY
    && (b.onGround ==> b.velY == 0 && b.y + b.h == GroundY)
  }

  /** `jump`: only from the ground. */
  function Jumped(b: Body): (r: Body)
    ensures b.onGround ==> r == b.(velY := JumpForce, onGround := false)
    ensures !b.onGround ==> r == b
  {
    if b.onGround then b.(velY := JumpForce, onGround := false) else b
  }

  /** The vertical speed `update` adds to `y`: after the jump (SPACE held) and gravity. */
  function Accelerated(b: Body, space: bool): int
  {
    (if space then Jumped(b) else b).velY + Gravity
  }

  /** `px` is within one pixel of the position `tenths` (in tenths of a pixel). */
  predicate NearPixel(tenths: int, px: int)
  {
    10 * px - 10 < tenths < 10 * px + 10
  }

  /**
   * `update` with SPACE held or not, where `movedY` is the pixel that
   * `rect.y += vel_y` stored. Landing clamps the box to the ground and stops it.
   */
  function Stepped(b: Body, space: bool, movedY: int): (r: Body)
    ensures r.x == b.x && r.w == b.w && r.h == b.h
    ensures r.y + r.h <= GroundY
    ensures r.y + r.h == GroundY && r.velY == 0 && r.onGround <==> movedY + b.h >= GroundY
    ensures movedY + b.h < GroundY ==> r.y == movedY && r.velY == Accelerated(b, space)
    ensures movedY + b.h < GroundY ==> r.onGround == (b.onGround && !space)
  {
    var j := if space then Jumped(b) else b;
    var fallen := j.(velY := j.velY + Gravity, y := movedY);
    if fallen.y + fallen.h >= GroundY then fallen.(y := GroundY - fallen.h, velY := 0, onGround := true)
    else fallen
  }

  /** An update keeps the box valid: same size and column, never below the ground. */
  lemma SteppedValid(b: Body, space: bool, movedY: int)
    requires BodyValid(b) && NearPixel(10 * b.y + Accelerated(b, space), movedY)
    ensures BodyValid(Stepped(b, space, movedY))
  {
    if b.onGround && !space {
      assert movedY >= b.y;
    }
  }

  /** Standing without SPACE, the box stays where it is: gravity's 0.8 is clamped away. */
  lemma StandingStill(b: Body, movedY: int)
    requires BodyValid(b) && b.onGround && NearPixel(10 * b.y + Accelerated(b, false), movedY)
    ensures Stepped(b, false, movedY) == b
  {
  }

  /** In the air, SPACE changes nothing: the same update as without it. */
  lemma NoJumpInAir(b: Body, movedY: int)
    requires !b.onGround
    ensures Stepped(b, true, movedY) == Stepped(b, false, movedY)
  {
  }

  /**
   * From the ground, SPACE leaves it: the box rises 14 or 15 pixels on the
   * first update, with speed -14.2 pixels per update.
   */
  lemma JumpTakesOff(b: Body, movedY: int)
    requires BodyValid(b) && b.onGround && NearPixel(10 * b.y + Accelerated(b, true), movedY)
    ensures var r := Stepped(b, true, movedY);
            !r.onGround && r.velY == JumpForce + Gravity && b.y - 16 < r.y < b.y - 13
  {
  }

  /** `Player`: the rect, the vertical speed (in tenths) and the ground flag, changed in place. */
  class Player {
    var x: int
    var y: int
    var w: int
    var h: int
    var velY: int
    var onGround: bool

    function State(): Body
      reads this
    {
      Body(x, y, w, h, velY, onGround)
    }

    constructor ()
      ensures State() == StartBody()
    {
      x := StartX;
      y := GroundY - Size;
      w := Size;
      h := Size;
      velY := 0;
      onGround := true;
    }

    method Jump()
      modifies this
      ensures State() == Jumped(old(State()))
    {
      if onGround {
        velY := JumpForce;
        onGround := false;
      }
    }

    /** `update`; `space` is whether SPACE is held, `movedY` the pixel `rect.y` takes. */
    method Update(space: bool, movedY: int)
      requires NearPixel(10 * y + Accelerated(State(), space), movedY)
      modifies this
      ensures State() == Stepped(old(State()), space, movedY)
    {
      if space {
        Jump();
      }
      velY := velY + Gravity;
      y := movedY;
      if y + h >= GroundY {
        y := GroundY - h;
        velY := 0;
        onGround := true;
      }
    }
  }
}
