/**
 * The box obstacle of obstacle.py: a 20 by 50 rect standing on the ground
 * line, placed at a random column to the right of the screen and moved left
 * at a fixed speed.
 */
module BoxObstacle {

  const GroundY: int := 350
  const Width: int := 20
  const Height: int := 50
  const Speed: int := 6
  const MinSpawnX: int := 800
  const MaxSpawnX: int := 1000

  /** The obstacle's rect and speed. */
  datatype Block = Block(x: int, y: int, w: int, h: int, speed: int)

  /**
   * The obstacle whose bottom centre is `(centreX, 350)`; `centreX` is the
   * value `random.randint(800, 1000)` drew.
   */
  function Spawned(centreX: int): (b: Block)
    requires MinSpawnX <= centreX <= MaxSpawnX
    ensures b.x + b.w / 2 == centreX && b.y + b.h == GroundY
    ensures b.w == Width && b.h == Height && b.speed == Speed
    ensures MinSpawnX - Width / 2 <= b.x <= MaxSpawnX - Width / 2
  {
    Block(centreX - Width / 2, GroundY - Height, Width, Height, Speed)
  }

  /** `update`: one step left by `speed`. */
  function Moved(b: Block): (r: Block)
    ensures r.x == b.x - b.speed
    ensures r.y == b.y && r.w == b.w && r.h == b.h && r.speed == b.speed
  {
    b.(x := b.x - b.speed)
  }

  /** The obstacle after `n` updates. */
  function MovedTimes(b: Block, n: nat): Block
  {
    if n == 0 then b else Moved(MovedTimes(b, n - 1))
  }

  /** `n` updates move the obstacle left by `n` times its speed, and change nothing else. */
  lemma {:induction false} MovedTimesLinear(b: Block, n: nat)
    ensures MovedTimes(b, n) == b.(x := b.x - b.speed * n)
  {
    if n > 0 {
      MovedTimesLinear(b, n - 1);
    }
  }

  /** Wherever it spawned, the obstacle is off screen (right edge below 0) from its 169th update on. */
  lemma LeavesScreen(centreX: int, n: nat)
    requires MinSpawnX <= centreX <= MaxSpawnX && n >= 169
    ensures var b := MovedTimes(Spawned(centreX), n); b.x + b.w < 0
  {
    MovedTimesLinear(Spawned(centreX), n);
  }

  /** `Obstacle`: the rect moves in place; the speed is set once. */
  class Obstacle {
    var x: int
    const y: int
    const w: int
    const h: int
    const speed: int

    function State(): Block
      reads this
    {
      Block(x, y, w, h, speed)
    }

    constructor (centreX: int)
      requires MinSpawnX <= centreX <= MaxSpawnX
      ensures State() == Spawned(centreX)
    {
      x := centreX - Width / 2;
      y := GroundY - Height;
      w := Width;
      h := Height;
      speed := Speed;
    }

    method Update()
      modifies this
      ensures State() == Moved(old(State()))
    {
      x := x - speed;
    }
  }
}
