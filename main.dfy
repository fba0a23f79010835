/**
 * The stand-alone runner of main.py: a dino that jumps under gravity, cacti
 * that scroll in from the right, a spawn timer, hitbox collision, the score
 * and the restart prompt.
 *
 * Vertical motion is kept exactly in tenths of a pixel: the jump force -15 is
 * -150 and the gravity 0.8 is 8.
 */
module DinoPrototype {
  import opened Geometry
  import opened Input

  const ScreenWidth: int := 800
  const GroundY: int := 350
  const BlockSize: int := 4
  /** The dino sprite is 24 rows of 16 blocks; there are four animation frames. */
  const DinoRows: int := 24
  const DinoCols: int := 16
  const DinoFrames: int := 4
  const PlayerX: int := 100
  /** The top of a dino standing on the ground: 350 - 24 * 4. */
  const RestY: int := GroundY - DinoRows * BlockSize
  const Gravity: int := 8
  const JumpForce: int := -150
  const AnimDelay: int := 8
  const CactusSpeed: int := 6
  const MinSpawnInterval: int := 80
  const MaxSpawnInterval: int := 120

  // ---------------------------------------------------------------- the dino

  /** `Player`'s changing fields, with `y` and `vel_y` in tenths of a pixel. */
  datatype Motion = Motion(y: int, velY: int, onGround: bool, animFrame: int, animTimer: int)

  /** `Player.__init__`: standing on the ground, first frame. */
  function StartMotion(): (m: Motion)
    ensures MotionValid(m) && m.onGround && m.y == 10 * RestY && m.velY == 0
  {
    Motion(10 * RestY, 0, true, 0, 0)
  }

  /** What every update keeps: never below the ground, on the ground exactly when resting there. */
  predicate MotionValid(m: Motion)
  {
    && m.y <= 10 * RestY
    && (m.onGround <==> m.y == 10 * RestY)
    && (m.onGround ==> m.velY == 0)
    && 0 <= m.animFrame < DinoFrames
    && 0 <= m.animTimer <= AnimDelay
  }

  /** `Player.update` with the state of SPACE passed in. */
  function Stepped(m: Motion, space: bool): (r: Motion)
    ensures r.y <= 10 * RestY
    ensures MotionValid(m) ==> MotionValid(r)
    ensures MotionValid(m) && m.onGround && space ==>
              !r.onGround && r.velY == JumpForce + Gravity && r.y == m.y + r.velY
    ensures MotionValid(m) && m.onGround && !space ==> r.onGround && r.y == m.y
    ensures !m.onGround && !r.onGround ==> r.velY == m.velY + Gravity && r.y == m.y + r.velY
    ensures !m.onGround && r.onGround ==> r.y == 10 * RestY && r.velY == 0
    ensures r.onGround && m.animTimer >= AnimDelay ==>
              r.animTimer == 0 && r.animFrame == (m.animFrame + 1) % DinoFrames
    ensures r.onGround && m.animTimer < AnimDelay ==>
              r.animTimer == m.animTimer + 1 && r.animFrame == m.animFrame
    ensures !r.onGround ==> r.animTimer == m.animTimer && r.animFrame == m.animFrame
  {
    var jump := space && m.onGround;
    var v0 := if jump then JumpForce else m.velY;
    var g0 := if jump then false else m.onGround;
    var v1 := v0 + Gravity;
    var y1 := m.y + v1;
    var landed := y1 + 10 * DinoRows * BlockSize >= 10 * GroundY;
    var y2 := if landed then 10 * RestY else y1;
    var v2 := if landed then 0 else v1;
    var g2 := landed || g0;
    if g2 && m.animTimer + 1 > AnimDelay then
      Motion(y2, v2, g2, (m.animFrame + 1) % DinoFrames, 0)
    else if g2 then
      Motion(y2, v2, g2, m.animFrame, m.animTimer + 1)
    else
      Motion(y2, v2, g2, m.animFrame, m.animTimer)
  }

  /** SPACE only matters on the ground: in the air it cannot start a second jump. */
  lemma SpaceIgnoredInAir(m: Motion)
    requires !m.onGround
    ensures Stepped(m, true) == Stepped(m, false)
  {
  }

  /** The dino after one update per entry of `spaces` (whether SPACE was held on that tick). */
  function Steps(m: Motion, spaces: seq<bool>): Motion
  {
    if |spaces| == 0 then m else Stepped(Steps(m, spaces[..|spaces| - 1]), spaces[|spaces| - 1])
  }

  /** The top of the dino, in tenths, `n` ticks into a jump: 2540 - 150 n + 4 n (n + 1). */
  function JumpHeight(n: int): int
  {
    10 * RestY + n * JumpForce + (Gravity / 2) * n * (n + 1)
  }

  /**
   * A jump from the ground, whatever SPACE does afterwards: for the first 36
   * ticks the dino is in the air at `JumpHeight`, rising by 15 - 0.8 n each tick.
   */
  lemma {:induction false} JumpArc(m: Motion, spaces: seq<bool>)
    requires MotionValid(m) && m.onGround
    requires 1 <= |spaces| <= 36 && spaces[0]
    ensures !Steps(m, spaces).onGround
    ensures Steps(m, spaces).y == JumpHeight(|spaces|)
    ensures Steps(m, spaces).velY == JumpForce + Gravity * |spaces|
  {
    var n := |spaces|;
    var prefix := spaces[..n - 1];
    assert Steps(m, spaces) == Stepped(Steps(m, prefix), spaces[n - 1]);
    if n == 1 {
      assert Steps(m, prefix) == m;
    } else {
      assert prefix[0] == spaces[0];
      JumpArc(m, prefix);
      var p := Steps(m, prefix);
      JumpHeightStep(n);
      assert p.y + p.velY + Gravity == JumpHeight(n);
      JumpHeightBelowRest(n);
    }
  }

  /** Each tick of a jump adds the velocity of that tick, -150 + 8 n. */
  lemma JumpHeightStep(n: int)
    ensures JumpHeight(n) == JumpHeight(n - 1) + JumpForce + Gravity * n
  {
    assert n * (n + 1) == (n - 1) * n + 2 * n;
  }

  /** Up to tick 36 the dino is still above its resting height. */
  lemma JumpHeightBelowRest(n: int)
    requires 1 <= n <= 36
    ensures JumpHeight(n) < 10 * RestY
  {
    assert JumpHeight(n) - 10 * RestY == n * (4 * n - 146);
    assert n * (146 - 4 * n) > 0;
  }

  /** A jump lands on its 37th tick, back at rest on the ground. */
  lemma JumpLands(m: Motion, spaces: seq<bool>)
    requires MotionValid(m) && m.onGround
    requires |spaces| == 37 && spaces[0]
    ensures Steps(m, spaces).onGround && Steps(m, spaces).y == 10 * RestY
  {
    var prefix := spaces[..36];
    assert prefix[0] == spaces[0];
    JumpArc(m, prefix);
  }

  /** The highest point of a jump is 120.8 pixels from the top of the screen, reached on tick 18. */
  lemma JumpPeak(n: int)
    requires 1 <= n <= 36
    ensures JumpHeight(n) >= 1208
    ensures JumpHeight(18) == 1208
  {
    assert JumpHeight(n) - 1208 == (n - 18) * (4 * n - 74);
    if n <= 18 {
      assert (n - 18) * (4 * n - 74) >= 0 by {
        assert 18 - n >= 0 && 74 - 4 * n > 0;
        assert (n - 18) * (4 * n - 74) == (18 - n) * (74 - 4 * n);
      }
    }
  }

  // ------------------------------------------------------------------- cacti

  /** The three entries of `CACTUS_PATTERNS`, by their size in blocks. */
  datatype Pattern = Small | Tall | Wide {
    function Rows(): int
    {
      match this
      case Small => 12
      case Tall => 16
      case Wide => 13
    }

    function Cols(): int
    {
      match this
      case Small => 6
      case Tall => 6
      case Wide => 8
    }
  }

  /** A cactus: its pattern and its top-left corner in pixels. */
  datatype CactusView = CactusView(pattern: Pattern, x: int, y: int) {
    function Width(): int { pattern.Cols() * BlockSize }
    function Height(): int { pattern.Rows() * BlockSize }
  }

  /** Standing on the ground line. */
  predicate Grounded(c: CactusView)
  {
    c.y + c.Height() == GroundY
  }

  /** `Cactus.__init__`: at the right edge of the screen, standing on the ground. */
  function SpawnedCactus(p: Pattern): (c: CactusView)
    ensures c.pattern == p && c.x == ScreenWidth && Grounded(c)
  {
    CactusView(p, ScreenWidth, GroundY - p.Rows() * BlockSize)
  }

  /** `Cactus.update`. */
  function Moved(c: CactusView): (d: CactusView)
    ensures d.pattern == c.pattern && d.y == c.y && d.x == c.x - CactusSpeed
  {
    c.(x := c.x - CactusSpeed)
  }

  /** The retirement test of the main loop: the right edge has passed the left edge of the screen. */
  predicate OffScreen(c: CactusView)
  {
    c.x + c.Width() < 0
  }

  function CactusRect(c: CactusView): Rect
  {
    Rect(c.x, c.y, c.Width(), c.Height())
  }

  /** `Player.get_rect`: the sprite's box, with `y` cut down to whole pixels. */
  function PlayerRect(m: Motion): Rect
  {
    Rect(PlayerX, m.y / 10, DinoCols * BlockSize, DinoRows * BlockSize)
  }

  /** The collision test: the dino's box shrunk by 8 against the cactus's box shrunk by 4. */
  predicate Hits(m: Motion, c: CactusView)
  {
    Collide(Inflate(PlayerRect(m), -8, -8), Inflate(CactusRect(c), -4, -4))
  }

  /** The hit test spelled out for a grounded cactus: horizontal overlap, and the dino's top below y = cactus top - 90. */
  lemma HitsExactly(m: Motion, c: CactusView)
    requires Grounded(c)
    ensures Hits(m, c) <==> 106 - c.Width() < c.x < 158 && c.y - 90 < m.y / 10 < 344
  {
    var a := Inflate(PlayerRect(m), -8, -8);
    var b := Inflate(CactusRect(c), -4, -4);
    assert a == Rect(104, m.y / 10 + 4, 56, 88);
    assert b == Rect(c.x + 2, c.y + 2, c.Width() - 4, c.Height() - 4);
    CollidePositive(a, b);
  }

  /** A dino standing on the ground is hit exactly while the cactus is in a fixed window of x positions. */
  lemma GroundedHitWindow(m: Motion, c: CactusView)
    requires MotionValid(m) && m.onGround && Grounded(c)
    ensures Hits(m, c) <==> 106 - c.Width() < c.x < 158
  {
    HitsExactly(m, c);
  }

  /** A cactus that has left the screen can no longer hit the dino. */
  lemma RetiredNeverHits(m: Motion, c: CactusView)
    requires Grounded(c)
    ensures OffScreen(c) ==> !Hits(m, c)
  {
    HitsExactly(m, c);
  }

  /** From tick 5 to tick 32 of a jump the dino clears every cactus, even the tall one. */
  lemma JumpClearsCacti(m: Motion, spaces: seq<bool>, c: CactusView)
    requires MotionValid(m) && m.onGround
    requires 5 <= |spaces| <= 32 && spaces[0]
    requires Grounded(c)
    ensures !Hits(Steps(m, spaces), c)
  {
    JumpArc(m, spaces);
    JumpHeightClear(|spaces|);
    HitsExactly(Steps(m, spaces), c);
  }

  /** Between ticks 5 and 32 the dino's top is above 197 pixels, over the tallest cactus's reach. */
  lemma JumpHeightClear(n: int)
    requires 5 <= n <= 32
    ensures JumpHeight(n) < 1970
  {
    assert JumpHeight(n) - 1970 == 4 * n * n - 146 * n + 570;
    if n <= 31 {
      assert (n - 5) * (126 - 4 * n) >= 0;
      assert 4 * n * n - 146 * n + 570 == -((n - 5) * (126 - 4 * n)) - 60;
    }
  }

  /** A cactus `n` updates on. */
  function Advanced(c: CactusView, n: nat): (d: CactusView)
    ensures d.pattern == c.pattern && d.y == c.y
  {
    if n == 0 then c else Moved(Advanced(c, n - 1))
  }

  lemma {:induction false} AdvancedLinear(c: CactusView, n: nat)
    ensures Advanced(c, n).x == c.x - CactusSpeed * n
  {
    if n > 0 {
      AdvancedLinear(c, n - 1);
    }
  }

  /**
   * A dino that never jumps cannot let a cactus through: a cactus coming from
   * x >= 158 hits it after exactly `(x - 158) / 6 + 1` updates, and not before.
   */
  lemma CannotRunThrough(m: Motion, c: CactusView)
    requires MotionValid(m) && m.onGround && Grounded(c) && c.x >= 158
    ensures var n := (c.x - 158) / CactusSpeed + 1;
            && Hits(m, Advanced(c, n))
            && forall j: nat :: j < n ==> !Hits(m, Advanced(c, j))
  {
    var q := (c.x - 158) / CactusSpeed;
    var n := q + 1;
    assert 158 <= c.x - CactusSpeed * q < 164;
    AdvancedLinear(c, n);
    assert 152 <= Advanced(c, n).x < 158;
    GroundedHitWindow(m, Advanced(c, n));
    forall j: nat | j < n
      ensures !Hits(m, Advanced(c, j))
    {
      AdvancedLinear(c, j);
      assert Advanced(c, j).x >= 158;
      GroundedHitWindow(m, Advanced(c, j));
    }
  }

  // ------------------------------------------------------------- the main loop

  /** One tick of the spawn timer against the interval drawn for that tick: (spawned, new timer). */
  function SpawnStep(timer: int, interval: int): (r: (bool, int))
    ensures r.0 ==> r.1 == 0
    ensures !r.0 ==> r.1 == timer + 1 && r.1 < interval
    ensures 0 <= timer < MaxSpawnInterval && interval <= MaxSpawnInterval ==>
              0 <= r.1 < MaxSpawnInterval
  {
    if timer + 1 >= interval then (true, 0) else (false, timer + 1)
  }

  /** The spawn timer over several ticks: whether any tick spawned, and the final timer. */
  function SpawnTicks(timer: int, intervals: seq<int>): (bool, int)
    decreases |intervals|
  {
    if |intervals| == 0 then (false, timer)
    else
      var (spawned, next) := SpawnStep(timer, intervals[0]);
      var (later, last) := SpawnTicks(next, intervals[1..]);
      (spawned || later, last)
  }

  predicate IntervalsInRange(intervals: seq<int>)
  {
    forall k :: 0 <= k < |intervals| ==> MinSpawnInterval <= intervals[k] <= MaxSpawnInterval
  }

  /** After a spawn (timer 0) the next 79 ticks spawn nothing: spawns are at least 80 ticks apart. */
  lemma {:induction false} NoSpawnTooSoon(timer: int, intervals: seq<int>)
    requires 0 <= timer && timer + |intervals| < MinSpawnInterval
    requires IntervalsInRange(intervals)
    ensures SpawnTicks(timer, intervals) == (false, timer + |intervals|)
    decreases |intervals|
  {
    if |intervals| > 0 {
      assert SpawnStep(timer, intervals[0]) == (false, timer + 1);
      NoSpawnTooSoon(timer + 1, intervals[1..]);
    }
  }

  /** From any valid timer, some tick among the next 120 - timer spawns: spawns are at most 120 ticks apart. */
  lemma {:induction false} SpawnWithinMax(timer: int, intervals: seq<int>)
    requires 0 <= timer < MaxSpawnInterval && |intervals| >= MaxSpawnInterval - timer
    requires IntervalsInRange(intervals)
    ensures SpawnTicks(timer, intervals).0
    decreases |intervals|
  {
    if timer + 1 < intervals[0] {
      SpawnWithinMax(timer + 1, intervals[1..]);
    }
  }

  /** The cacti after one pass of the main loop: each moves once and the ones that left the screen are gone. */
  function Scrolled(cs: seq<CactusView>): (r: seq<CactusView>)
    ensures |r| <= |cs|
  {
    if |cs| == 0 then []
    else
      var last := Moved(cs[|cs| - 1]);
      if OffScreen(last) then Scrolled(cs[..|cs| - 1]) else Scrolled(cs[..|cs| - 1]) + [last]
  }

  /** `Scrolled` of the first `n` cacti. */
  function ScrolledPrefix(cs: seq<CactusView>, n: nat): seq<CactusView>
    requires n <= |cs|
  {
    if n == 0 then []
    else
      var last := Moved(cs[n - 1]);
      if OffScreen(last) then ScrolledPrefix(cs, n - 1) else ScrolledPrefix(cs, n - 1) + [last]
  }

  lemma {:induction false} ScrolledPrefixIsScrolled(cs: seq<CactusView>, n: nat)
    requires n <= |cs|
    ensures ScrolledPrefix(cs, n) == Scrolled(cs[..n])
  {
    if n > 0 {
      ScrolledPrefixIsScrolled(cs, n - 1);
      assert cs[..n][..n - 1] == cs[..n - 1];
    }
  }

  /** A cactus is kept, moved once, exactly when the move leaves it on screen. */
  lemma {:induction false} ScrolledContents(cs: seq<CactusView>)
    ensures forall c :: c in Scrolled(cs) ==> !OffScreen(c)
    ensures forall k :: 0 <= k < |cs| && !OffScreen(Moved(cs[k])) ==> Moved(cs[k]) in Scrolled(cs)
    ensures forall c :: c in Scrolled(cs) ==> exists k :: 0 <= k < |cs| && c == Moved(cs[k])
  {
    if |cs| > 0 {
      var init := cs[..|cs| - 1];
      ScrolledContents(init);
      assert forall k :: 0 <= k < |init| ==> init[k] == cs[k];
    }
  }

  /** Whether any cactus, after its move, hits the dino. */
  predicate AnyHit(m: Motion, cs: seq<CactusView>)
  {
    exists k :: 0 <= k < |cs| && Hits(m, Moved(cs[k]))
  }

  /** For grounded cacti, a cactus that hits after its move is one the pass keeps on screen. */
  lemma HitIsOnScreen(m: Motion, cs: seq<CactusView>)
    requires forall k :: 0 <= k < |cs| ==> Grounded(cs[k])
    requires AnyHit(m, cs)
    ensures exists c :: c in Scrolled(cs) && Hits(m, c)
  {
    var k :| 0 <= k < |cs| && Hits(m, Moved(cs[k]));
    RetiredNeverHits(m, Moved(cs[k]));
    ScrolledContents(cs);
  }

  /** `list.remove`: drops the first occurrence of `c` (cacti compare by identity). */
  function Without(s: seq<Cactus>, c: Cactus): (r: seq<Cactus>)
    ensures c in s ==> |r| == |s| - 1
    ensures c !in s ==> r == s
  {
    if |s| == 0 then []
    else if s[0] == c then s[1..]
    else [s[0]] + Without(s[1..], c)
  }

  /** No cactus appears twice. */
  predicate Distinct(s: seq<Cactus>)
  {
    |s| == 0 || (s[|s| - 1] !in s[..|s| - 1] && Distinct(s[..|s| - 1]))
  }

  /** Two different positions of a list without repeats hold different cacti. */
  lemma {:induction false} DistinctIndex(s: seq<Cactus>, a: int, b: int)
    requires Distinct(s) && 0 <= a < |s| && 0 <= b < |s| && a != b
    ensures s[a] != s[b]
  {
    var n := |s| - 1;
    if a == n {
      assert s[b] in s[..n];
    } else if b == n {
      assert s[a] in s[..n];
    } else {
      DistinctIndex(s[..n], a, b);
    }
  }

  /** Appending a cactus not yet in the list keeps it without repeats. */
  lemma DistinctSnoc(s: seq<Cactus>, c: Cactus)
    requires Distinct(s) && c !in s
    ensures Distinct(s + [c])
  {
    assert (s + [c])[..|s|] == s;
  }

  /** Removing an element that sits right after a prefix without it leaves prefix and suffix. */
  lemma {:induction false} WithoutAfterPrefix(a: seq<Cactus>, c: Cactus, b: seq<Cactus>)
    requires c !in a
    ensures Without(a + [c] + b, c) == a + b
  {
    var s := a + [c] + b;
    if |a| == 0 {
      assert s[1..] == b;
    } else {
      assert s == [a[0]] + (a[1..] + [c] + b);
      WithoutAfterPrefix(a[1..], c, b);
      assert a + b == [a[0]] + (a[1..] + b);
    }
  }

  /** The views of a list of cacti. */
  function ViewsOf(s: seq<Cactus>): (v: seq<CactusView>)
    reads s
    ensures |v| == |s|
  {
    if |s| == 0 then [] else ViewsOf(s[..|s| - 1]) + [s[|s| - 1].View()]
  }

  /** Each view is the view of the cactus at the same position. */
  lemma {:induction false} ViewsOfAt(s: seq<Cactus>)
    ensures forall k :: 0 <= k < |s| ==> ViewsOf(s)[k] == s[k].View()
  {
    if |s| > 0 {
      ViewsOfAt(s[..|s| - 1]);
    }
  }

  lemma ViewsOfSnoc(s: seq<Cactus>, c: Cactus)
    ensures ViewsOf(s + [c]) == ViewsOf(s) + [c.View()]
  {
    assert (s + [c])[..|s|] == s;
  }

  /** The first `n` cacti of `s` that stay on screen once moved from the positions in `views`. */
  function Kept(s: seq<Cactus>, views: seq<CactusView>, n: nat): seq<Cactus>
    requires n <= |s| && n <= |views|
  {
    if n == 0 then []
    else if OffScreen(Moved(views[n - 1])) then Kept(s, views, n - 1)
    else Kept(s, views, n - 1) + [s[n - 1]]
  }

  /** One more cactus of the snapshot handled: it is either dropped or joins the kept ones. */
  lemma KeptAdvance(s: seq<Cactus>, views: seq<CactusView>, i: nat)
    requires i < |s| && i < |views|
    ensures Kept(s, views, i) + s[i..] == Kept(s, views, i) + [s[i]] + s[i + 1..]
    ensures OffScreen(Moved(views[i])) ==> Kept(s, views, i + 1) == Kept(s, views, i)
    ensures !OffScreen(Moved(views[i])) ==>
              Kept(s, views, i) + s[i..] == Kept(s, views, i + 1) + s[i + 1..]
  {
    assert s[i..] == [s[i]] + s[i + 1..];
  }

  lemma {:induction false} KeptMembers(s: seq<Cactus>, views: seq<CactusView>, n: nat)
    requires n <= |s| && n <= |views|
    ensures forall c :: c in Kept(s, views, n) ==> exists k :: 0 <= k < n && c == s[k]
  {
    if n > 0 {
      KeptMembers(s, views, n - 1);
    }
  }

  lemma {:induction false} KeptDistinct(s: seq<Cactus>, views: seq<CactusView>, n: nat)
    requires n <= |s| && n <= |views| && Distinct(s)
    ensures Distinct(Kept(s, views, n))
  {
    if n > 0 {
      KeptDistinct(s, views, n - 1);
      if !OffScreen(Moved(views[n - 1])) {
        KeptMembers(s, views, n - 1);
        forall k | 0 <= k < n - 1
          ensures s[k] != s[n - 1]
        {
          DistinctIndex(s, k, n - 1);
        }
        assert s[n - 1] !in Kept(s, views, n - 1);
        DistinctSnoc(Kept(s, views, n - 1), s[n - 1]);
      }
    }
  }

  lemma {:induction false} KeptViews(s: seq<Cactus>, views: seq<CactusView>, n: nat)
    requires n <= |s| && n <= |views|
    requires forall k :: 0 <= k < n ==> s[k].View() == Moved(views[k])
    ensures ViewsOf(Kept(s, views, n)) == ScrolledPrefix(views, n)
  {
    if n > 0 {
      KeptViews(s, views, n - 1);
      if !OffScreen(Moved(views[n - 1])) {
        ViewsOfSnoc(Kept(s, views, n - 1), s[n - 1]);
      }
    }
  }

  /** Two positions of a list without repeats: the cactus at one is at no other. */
  lemma DistinctOthers(s: seq<Cactus>, i: int)
    requires Distinct(s) && 0 <= i < |s|
    ensures forall k :: 0 <= k < |s| && k != i ==> s[k] != s[i]
  {
    forall k | 0 <= k < |s| && k != i
      ensures s[k] != s[i]
    {
      DistinctIndex(s, k, i);
    }
  }

  /**
   * The list after the first `i` cacti of the snapshot `s` were handled, each
   * removed (`list.remove`) when its moved view `views[..]` is off screen.
   */
  function Remains(s: seq<Cactus>, views: seq<CactusView>, i: nat): seq<Cactus>
    requires i <= |s| && i <= |views|
  {
    if i == 0 then s
    else if OffScreen(Moved(views[i - 1])) then Without(Remains(s, views, i - 1), s[i - 1])
    else Remains(s, views, i - 1)
  }

  /** Removing one by one from a list without repeats keeps the others in order. */
  lemma {:induction false} RemainsIsKept(s: seq<Cactus>, views: seq<CactusView>, i: nat)
    requires i <= |s| && i <= |views| && Distinct(s)
    ensures Remains(s, views, i) == Kept(s, views, i) + s[i..]
  {
    if i > 0 {
      RemainsIsKept(s, views, i - 1);
      KeptAdvance(s, views, i - 1);
      if OffScreen(Moved(views[i - 1])) {
        KeptMembers(s, views, i - 1);
        forall k | 0 <= k < i - 1
          ensures s[k] != s[i - 1]
        {
          DistinctIndex(s, k, i - 1);
        }
        WithoutAfterPrefix(Kept(s, views, i - 1), s[i - 1], s[i..]);
      }
    }
  }

  // ------------------------------------------------------- the game-over wait

  /** The wait loop's variables after some events: `run`, whether R restarted the game, `waiting`. */
  datatype WaitState = WaitState(run: bool, restarted: bool, waiting: bool)

  /** One event of the game-over wait: QUIT and ESC end the program, R restarts. */
  function WaitStep(w: WaitState, e: Event): WaitState
  {
    match e
    case Quit => w.(run := false, waiting := false)
    case KeyPress(key) =>
      if key == KeyR then w.(restarted := true, waiting := false)
      else if key == KeyEscape then w.(run := false, waiting := false)
      else w
    case _ => w
  }

  /** One batch from `pygame.event.get()`, handled in order and all of it (no `break`). */
  function WaitBatch(events: seq<Event>, run: bool): WaitState
  {
    if |events| == 0 then WaitState(run, false, true)
    else WaitStep(WaitBatch(events[..|events| - 1], run), events[|events| - 1])
  }

  predicate Stops(e: Event)
  {
    e == Quit || e == KeyPress(KeyEscape)
  }

  /** The batch restarts the game iff it holds an R press. */
  lemma {:induction false} WaitRestartsOnR(events: seq<Event>, run: bool)
    ensures WaitBatch(events, run).restarted <==> KeyPress(KeyR) in events
  {
    if |events| > 0 {
      var front := events[..|events| - 1];
      WaitRestartsOnR(front, run);
      assert events == front + [events[|events| - 1]];
    }
  }

  /** The batch keeps `run` iff it was set and no event is a QUIT or an ESC press. */
  lemma {:induction false} WaitStopsOnQuit(events: seq<Event>, run: bool)
    ensures WaitBatch(events, run).run <==> run && forall k :: 0 <= k < |events| ==> !Stops(events[k])
  {
    if |events| > 0 {
      var front := events[..|events| - 1];
      var last := events[|events| - 1];
      WaitStopsOnQuit(front, run);
      assert forall k :: 0 <= k < |front| ==> front[k] == events[k];
      assert (forall k :: 0 <= k < |events| ==> !Stops(events[k])) <==>
             (forall k :: 0 <= k < |front| ==> !Stops(front[k])) && !Stops(last);
    }
  }

  /** The batch ends the wait iff it holds an R press, a QUIT or an ESC press. */
  lemma {:induction false} WaitEndsOnAnyKey(events: seq<Event>, run: bool)
    ensures !WaitBatch(events, run).waiting <==>
              KeyPress(KeyR) in events || exists k :: 0 <= k < |events| && Stops(events[k])
  {
    if |events| > 0 {
      var front := events[..|events| - 1];
      var last := events[|events| - 1];
      WaitEndsOnAnyKey(front, run);
      assert events == front + [last];
      assert forall k :: 0 <= k < |front| ==> front[k] == events[k];
      assert (exists k :: 0 <= k < |events| && Stops(events[k])) <==>
             (exists k :: 0 <= k < |front| && Stops(front[k])) || Stops(last);
    }
  }

  /** `Player` of main.py. */
  class DinoPlayer {
    const x: int
    var y: int
    var velY: int
    var onGround: bool
    var animFrame: int
    var animTimer: int

    function State(): Motion
      reads this
    {
      Motion(y, velY, onGround, animFrame, animTimer)
    }

    constructor ()
      ensures x == PlayerX && State() == StartMotion()
    {
      x := PlayerX;
      y := 10 * RestY;
      velY := 0;
      onGround := true;
      animFrame := 0;
      animTimer := 0;
    }

    /** `Player.update`; `space` is whether SPACE is held on this tick. */
    method Update(space: bool)
      modifies this
      ensures State() == Stepped(old(State()), space)
    {
      if space && onGround {
        velY := JumpForce;
        onGround := false;
      }
      velY := velY + Gravity;
      y := y + velY;
      if y + 10 * DinoRows * BlockSize >= 10 * GroundY {
        y := 10 * RestY;
        velY := 0;
        onGround := true;
      }
      if onGround {
        animTimer := animTimer + 1;
        if animTimer > AnimDelay {
          animTimer := 0;
          animFrame := (animFrame + 1) % DinoFrames;
        }
      }
    }

    function GetRect(): Rect
      reads this
    {
      PlayerRect(State())
    }
  }

  /** `Cactus` of main.py; the pattern is the one `random.choice` picked. */
  class Cactus {
    const pattern: Pattern
    var x: int
    const y: int
    const speed: int

    function View(): CactusView
      reads this
    {
      CactusView(pattern, x, y)
    }

    /** Fixed for life: standing on the ground, moving 6 pixels per update. */
    predicate Steady()
    {
      y + pattern.Rows() * BlockSize == GroundY && speed == CactusSpeed
    }

    constructor (pattern: Pattern)
      ensures View() == SpawnedCactus(pattern) && Steady()
    {
      this.pattern := pattern;
      x := ScreenWidth;
      y := GroundY - pattern.Rows() * BlockSize;
      speed := CactusSpeed;
    }

    method Update()
      requires Steady()
      modifies this
      ensures View() == Moved(old(View()))
    {
      x := x - speed;
    }

    function GetRect(): Rect
      reads this
    {
      CactusRect(View())
    }
  }

  /** The state of `main()`: the dino, the cacti on screen, the spawn timer, the score and `run`. */
  class Runner {
    var player: DinoPlayer
    var obstacles: seq<Cactus>
    var spawnTimer: int
    var score: int
    var running: bool

    ghost predicate Valid()
      reads this, player, obstacles
    {
      && MotionValid(player.State())
      && 0 <= spawnTimer < MaxSpawnInterval
      && Distinct(obstacles)
      && (forall c :: c in obstacles ==> c.Steady())
    }

    constructor ()
      ensures Valid() && fresh(player) && player.State() == StartMotion()
      ensures obstacles == [] && spawnTimer == 0 && score == 0 && running
    {
      player := new DinoPlayer();
      obstacles := [];
      spawnTimer := 0;
      score := 0;
      running := true;
    }

    /**
     * One pass of the main loop up to the collision test. `quit` is whether a
     * QUIT event came in, `space` whether SPACE is held, `interval` the value
     * `random.randint(80, 120)` drew and `pattern` the one a new cactus would get.
     */
    method Tick(quit: bool, space: bool, interval: int, pattern: Pattern) returns (hit: bool)
      requires Valid() && MinSpawnInterval <= interval <= MaxSpawnInterval
      modifies this, player, obstacles
      ensures Valid() && player == old(player)
      ensures running == (old(running) && !quit)
      ensures player.State() == Stepped(old(player.State()), space)
      ensures score == old(score) + 1
      ensures spawnTimer == SpawnStep(old(spawnTimer), interval).1
      ensures var before := old(ViewsOf(obstacles))
                + (if SpawnStep(old(spawnTimer), interval).0 then [SpawnedCactus(pattern)] else []);
              && ViewsOf(obstacles) == Scrolled(before)
              && hit == AnyHit(player.State(), before)
    {
      Advance(quit, space, interval, pattern);
      hit := MoveObstacles();
    }

    /** The main loop's steps before the obstacle pass: events, the dino, the spawn timer, the score. */
    method Advance(quit: bool, space: bool, interval: int, pattern: Pattern)
      requires Valid() && MinSpawnInterval <= interval <= MaxSpawnInterval
      modifies this, player
      ensures Valid() && player == old(player)
      ensures running == (old(running) && !quit)
      ensures player.State() == Stepped(old(player.State()), space)
      ensures score == old(score) + 1
      ensures spawnTimer == SpawnStep(old(spawnTimer), interval).1
      ensures ViewsOf(obstacles) == old(ViewsOf(obstacles))
                + (if SpawnStep(old(spawnTimer), interval).0 then [SpawnedCactus(pattern)] else [])
      ensures SpawnStep(old(spawnTimer), interval).0 ==>
                |obstacles| > 0 && obstacles[..|obstacles| - 1] == old(obstacles) && fresh(obstacles[|obstacles| - 1])
      ensures !SpawnStep(old(spawnTimer), interval).0 ==> obstacles == old(obstacles)
    {
      ghost var views0 := ViewsOf(obstacles);
      if quit {
        running := false;
      }
      player.Update(space);
      assert ViewsOf(obstacles) == views0;
      SpawnTick(interval, pattern);
      score := score + 1;
    }

    /** The spawn timer's tick: past the drawn interval, a new cactus joins the list and the timer restarts. */
    method SpawnTick(interval: int, pattern: Pattern)
      requires 0 <= spawnTimer < MaxSpawnInterval && MinSpawnInterval <= interval <= MaxSpawnInterval
      requires Distinct(obstacles) && forall c :: c in obstacles ==> c.Steady()
      modifies this
      ensures spawnTimer == SpawnStep(old(spawnTimer), interval).1
      ensures ViewsOf(obstacles) == old(ViewsOf(obstacles))
                + (if SpawnStep(old(spawnTimer), interval).0 then [SpawnedCactus(pattern)] else [])
      ensures SpawnStep(old(spawnTimer), interval).0 ==>
                |obstacles| > 0 && obstacles[..|obstacles| - 1] == old(obstacles) && fresh(obstacles[|obstacles| - 1])
      ensures !SpawnStep(old(spawnTimer), interval).0 ==> obstacles == old(obstacles)
      ensures Distinct(obstacles) && forall c :: c in obstacles ==> c.Steady()
      ensures player == old(player) && score == old(score) && running == old(running)
    {
      spawnTimer := spawnTimer + 1;
      if spawnTimer >= interval {
        var c := new Cactus(pattern);
        ViewsOfSnoc(obstacles, c);
        DistinctSnoc(obstacles, c);
        obstacles := obstacles + [c];
        spawnTimer := 0;
      }
    }

    /**
     * The `for obs in list(obstacles)` loop: every cactus of the snapshot moves,
     * is dropped when off screen, and is tested against the dino (even when
     * just dropped).
     */
    method MoveObstacles() returns (hit: bool)
      requires Valid()
      modifies this, obstacles
      ensures Valid()
      ensures player == old(player) && player.State() == old(player.State())
      ensures spawnTimer == old(spawnTimer) && score == old(score) && running == old(running)
      ensures ViewsOf(obstacles) == Scrolled(old(ViewsOf(obstacles)))
      ensures hit == AnyHit(player.State(), old(ViewsOf(obstacles)))
    {
      ghost var before := ViewsOf(obstacles);
      var snapshot := obstacles;
      var playerBox := Inflate(player.GetRect(), -8, -8);
      ghost var motion := player.State();
      obstacles, hit := MoveCacti(snapshot, playerBox, motion, before);
      assert player.State() == motion;
      KeptFacts(snapshot, before);
    }
    /** The R branch of the game-over wait: a fresh dino, no cacti, timer and score back to 0. */
    method Restart()
      modifies this
      ensures Valid() && fresh(player) && player.State() == StartMotion()
      ensures obstacles == [] && spawnTimer == 0 && score == 0 && running == old(running)
    {
      player := new DinoPlayer();
      obstacles := [];
      spawnTimer := 0;
      score := 0;
    }

    /**
     * One pass of the game-over wait over the batch `events`; the result is
     * whether the game still waits for a key.
     */
    method AwaitKeys(events: seq<Event>) returns (waiting: bool)
      requires Valid()
      modifies this
      ensures Valid()
      ensures running == WaitBatch(events, old(running)).run
      ensures waiting == WaitBatch(events, old(running)).waiting
      ensures WaitBatch(events, old(running)).restarted ==>
                fresh(player) && player.State() == StartMotion() && obstacles == [] && spawnTimer == 0 && score == 0
      ensures !WaitBatch(events, old(running)).restarted ==>
                player == old(player) && obstacles == old(obstacles) && spawnTimer == old(spawnTimer) && score == old(score)
    {
      waiting := true;
      ghost var restarted := false;
      var i := 0;
      while i < |events|
        invariant 0 <= i <= |events| && Valid()
        invariant WaitState(running, restarted, waiting) == WaitBatch(events[..i], old(running))
        invariant restarted ==>
                    fresh(player) && player.State() == StartMotion() && obstacles == [] && spawnTimer == 0 && score == 0
        invariant !restarted ==>
                    player == old(player) && obstacles == old(obstacles) && spawnTimer == old(spawnTimer) && score == old(score)
      {
        assert events[..i + 1][..i] == events[..i];
        match events[i] {
          case Quit =>
            running := false;
            waiting := false;
          case KeyPress(key) =>
            if key == KeyR {
              Restart();
              restarted := true;
              waiting := false;
            } else if key == KeyEscape {
              running := false;
              waiting := false;
            }
          case _ =>
        }
        i := i + 1;
      }
      assert events[..|events|] == events;
    }
  }

  /** What the pass leaves in the list: the moved views scrolled, no repeats, nothing new. */
  lemma KeptFacts(s: seq<Cactus>, views: seq<CactusView>)
    requires |views| == |s| && Distinct(s)
    requires forall k :: 0 <= k < |s| ==> s[k].View() == Moved(views[k])
    ensures ViewsOf(Kept(s, views, |s|)) == Scrolled(views)
    ensures Distinct(Kept(s, views, |s|))
    ensures forall c :: c in Kept(s, views, |s|) ==> c in s
  {
    KeptViews(s, views, |s|);
    ScrolledPrefixIsScrolled(views, |s|);
    assert views[..|s|] == views;
    KeptDistinct(s, views, |s|);
    KeptMembers(s, views, |s|);
  }

  /** Whether one of the first `n` cacti hits the dino once moved. */
  predicate HitAmong(m: Motion, cs: seq<CactusView>, n: nat)
    requires n <= |cs|
  {
    n > 0 && (HitAmong(m, cs, n - 1) || Hits(m, Moved(cs[n - 1])))
  }

  lemma {:induction false} HitAmongIsAnyHit(m: Motion, cs: seq<CactusView>, n: nat)
    requires n <= |cs|
    ensures HitAmong(m, cs, n) <==> exists k :: 0 <= k < n && Hits(m, Moved(cs[k]))
  {
    if n > 0 {
      HitAmongIsAnyHit(m, cs, n - 1);
    }
  }

  /** The collision test of one cactus against the dino's shrunk box. */
  method Collides(playerBox: Rect, obs: Cactus, ghost motion: Motion) returns (collided: bool)
    requires playerBox == Inflate(PlayerRect(motion), -8, -8)
    ensures collided == Hits(motion, obs.View())
  {
    var cactusBox := Inflate(obs.GetRect(), -4, -4);
    collided := Collide(playerBox, cactusBox);
  }

  /**
   * The `for obs in list(obstacles)` loop over a snapshot of the list: every
   * cactus moves, is removed from the list when off screen, and is tested
   * against the dino's shrunk box (even when just removed).
   */
  method MoveCacti(obstacles: seq<Cactus>, playerBox: Rect, ghost motion: Motion,
                   ghost before: seq<CactusView>)
    returns (remaining: seq<Cactus>, hit: bool)
    requires Distinct(obstacles) && forall c :: c in obstacles ==> c.Steady()
    requires playerBox == Inflate(PlayerRect(motion), -8, -8)
    requires before == ViewsOf(obstacles)
    modifies obstacles
    ensures forall k :: 0 <= k < |obstacles| ==> obstacles[k].View() == Moved(before[k])
    ensures remaining == Kept(obstacles, before, |obstacles|)
    ensures hit == AnyHit(motion, before)
  {
    ViewsOfAt(obstacles);
    remaining := obstacles;
    hit := false;
    var i := 0;
    while i < |obstacles|
      invariant 0 <= i <= |obstacles|
      invariant forall k :: 0 <= k < i ==> obstacles[k].View() == Moved(before[k])
      invariant forall k :: i <= k < |obstacles| ==> obstacles[k].View() == before[k]
      invariant hit == HitAmong(motion, before, i)
      invariant remaining == Remains(obstacles, before, i)
    {
      var obs := obstacles[i];
      DistinctOthers(obstacles, i);
      obs.Update();
      assert obs.View() == Moved(before[i]);
      if obs.x + obs.pattern.Cols() * BlockSize < 0 {
        remaining := Without(remaining, obs);
      }
      assert remaining == Remains(obstacles, before, i + 1);
      var collided := Collides(playerBox, obs, motion);
      if collided {
        hit := true;
      }
      i := i + 1;
    }
    RemainsIsKept(obstacles, before, |obstacles|);
    HitAmongIsAnyHit(motion, before, |obstacles|);
    assert obstacles[|obstacles|..] == [];
  }
}
