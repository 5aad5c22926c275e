/**
 * The game-state transitions of AlienInvasion, apart from pygame. Sprite
 * groups are insertion-ordered sequences; the clock, the random draws and
 * the results of pygame's collision routines are parameters.
 */
module AlienInvasion {
  import opened PyRandom
  import opened AlienTimer
  import opened Groups

  /** A bullet sprite, reduced to its rect (y grows downwards). */
  datatype Bullet = Bullet(x: int, bottom: int)

  /** An alien sprite, reduced to its rect's top-left corner; `y` is rect.top. */
  datatype Alien = Alien(x: int, y: int)

  /**
   * The Settings values the core reads, and the rect size of an alien image.
   * Settings and Alien are not part of this model; these are opaque values.
   */
  datatype Settings = Settings(
    screenWidth: int,
    screenHeight: int,
    bulletsAllowed: int,
    alienPoints: int,
    fleetDropSpeed: int,
    alienWidth: nat,
    alienHeight: nat)

  /** The game statistics together with the two sprite groups and the spawn timer. */
  datatype Game = Game(
    shipsLeft: int,
    score: int,
    level: int,
    gameActive: bool,
    bullets: seq<Bullet>,
    aliens: seq<Alien>,
    timer: Timer)

  /** The exceptions _create_fleet can raise. */
  datatype FleetError =
    | ZeroDivision      // alien width 0: the column count divides by it
    | EmptyColumnRange  // randint(0, n) with n < 0 raises ValueError

  /** A transition either yields the next game or ends it with an exception. */
  datatype Result = Ok(game: Game) | Crash(error: FleetError)

  /** What one call of _create_fleet consumes: the clock, the column draw and the delay draw. */
  datatype Draws = Draws(now: int, column: nat, delay: nat)

  /** What GameStats.reset_stats assigns; GameStats is not part of this model. */
  datatype Reset = Reset(shipsLeft: int, score: int, level: int)

  /** Facts every transition keeps. */
  predicate Inv(s: Settings, g: Game) {
    && g.shipsLeft >= 0
    && |g.bullets| <= s.bulletsAllowed
    && ValidDelay(g.timer.alienDelay)
  }

  /** The timer as AlienInvasion.__init__ leaves it: constructed, then given a first delay. */
  function StartTimer(draw: nat): (t: Timer)
    ensures ValidDelay(t.alienDelay)
    ensures t.lastAlienCreatedTime == 0
  {
    SetNextAlienDelay(NewTimer(), draw)
  }

  // ---------------------------------------------------------------- firing

  /** _fire_bullet: one more bullet while fewer than bulletsAllowed exist. */
  function FireBullet(s: Settings, g: Game, b: Bullet): (r: Game)
    ensures |g.bullets| < s.bulletsAllowed ==> r.bullets == g.bullets + [b]
    ensures |g.bullets| >= s.bulletsAllowed ==> r == g
    ensures r.(bullets := g.bullets) == g
    ensures |g.bullets| <= s.bulletsAllowed ==> |r.bullets| <= s.bulletsAllowed
  {
    if |g.bullets| < s.bulletsAllowed then g.(bullets := g.bullets + [b]) else g
  }

  // -------------------------------------------------------------- ship hit

  /**
   * _ship_hit: with a ship left, lose it and clear both groups; with none
   * left, the game goes inactive and nothing else changes.
   */
  function ShipHit(g: Game): (r: Game)
    ensures g.shipsLeft > 0 ==>
      && r.shipsLeft == g.shipsLeft - 1
      && r.aliens == [] && r.bullets == []
      && r.gameActive == g.gameActive
    ensures g.shipsLeft <= 0 ==> r == g.(gameActive := false)
    ensures r.score == g.score && r.level == g.level && r.timer == g.timer
    ensures g.shipsLeft >= 0 ==> r.shipsLeft >= 0
  {
    if g.shipsLeft > 0 then
      g.(shipsLeft := g.shipsLeft - 1, aliens := [], bullets := [])
    else
      g.(gameActive := false)
  }

  /** The game after `k` ship hits in a row. */
  function ShipHits(g: Game, k: nat): Game {
    if k == 0 then g else ShipHit(ShipHits(g, k - 1))
  }

  /**
   * Starting from n >= 0 ships, the game stays active through n hits and goes
   * inactive on hit n + 1: a hit at one ship left only decrements.
   */
  lemma {:induction false} HitsUntilGameOver(g: Game, k: nat)
    requires g.shipsLeft >= 0
    ensures ShipHits(g, k).gameActive <==> g.gameActive && k <= g.shipsLeft
    ensures ShipHits(g, k).shipsLeft == if k <= g.shipsLeft then g.shipsLeft - k else 0
  {
    if k > 0 {
      HitsUntilGameOver(g, k - 1);
    }
  }

  // ------------------------------------------------------------ the fleet

  /** Whether _create_fleet can compute its column range without raising. */
  predicate FleetFits(s: Settings) {
    s.alienWidth > 0 && s.screenWidth >= 2 * s.alienWidth
  }

  /** Floor division by a positive divisor: a / d is the largest q with d * q <= a. */
  lemma FloorDivBounds(a: int, d: int)
    requires d > 0
    ensures d * (a / d) <= a < d * (a / d) + d
    ensures a / d >= 0 <==> a >= 0
  {
    var q := a / d;
    assert a == d * q + a % d && 0 <= a % d < d;
    if q >= 0 {
      assert d * q >= 0;
    } else {
      assert d * (-q - 1) >= 0;
      assert d * q == -d - d * (-q - 1);
    }
  }

  /**
   * number_aliens_x: how many further columns of pitch 2w fit after the first
   * one. Python's // rounds down; for the positive divisor here Dafny's /
   * rounds down as well. The range 0..number_aliens_x that randint draws from
   * is non-empty exactly when two alien widths fit.
   */
  function NumberAliensX(s: Settings): (n: int)
    requires s.alienWidth > 0
    ensures 2 * s.alienWidth * n <= s.screenWidth - 2 * s.alienWidth
    ensures s.screenWidth - 2 * s.alienWidth < 2 * s.alienWidth * (n + 1)
    ensures n >= 0 <==> s.screenWidth >= 2 * s.alienWidth
  {
    FloorDivBounds(s.screenWidth - 2 * s.alienWidth, 2 * s.alienWidth);
    (s.screenWidth - 2 * s.alienWidth) / (2 * s.alienWidth)
  }

  /** A column n with 2w * n <= W - 2w starts at w + 2w * n and ends by W - w. */
  lemma ColumnInsideScreen(w: int, screenWidth: int, n: int, limit: int)
    requires w > 0 && 0 <= n <= limit
    requires 2 * w * limit <= screenWidth - 2 * w
    ensures w <= w + 2 * w * n <= screenWidth - w
  {
    assert 2 * w * n <= 2 * w * limit by {
      assert 2 * w * (limit - n) >= 0;
    }
  }

  /** An alien lies fully on screen horizontally. */
  predicate OnScreenX(s: Settings, a: Alien) {
    s.alienWidth <= a.x <= s.screenWidth - s.alienWidth
  }

  /**
   * _create_alien: the alien of column `alienNumber` and row `rowNumber`.
   * Every column of the range _create_fleet draws from puts it fully on
   * screen horizontally; the top row sits one alien height below the top.
   */
  function CreateAlien(s: Settings, alienNumber: int, rowNumber: int): (r: Alien)
    ensures s.alienWidth > 0 && 0 <= alienNumber <= NumberAliensX(s) ==> OnScreenX(s, r)
    ensures rowNumber == 0 ==> r.y == s.alienHeight
  {
    if s.alienWidth > 0 && 0 <= alienNumber <= NumberAliensX(s) then
      ColumnInsideScreen(s.alienWidth, s.screenWidth, alienNumber, NumberAliensX(s));
      Alien(s.alienWidth + 2 * s.alienWidth * alienNumber,
            s.alienHeight + 2 * s.alienHeight * rowNumber)
    else
      Alien(s.alienWidth + 2 * s.alienWidth * alienNumber,
            s.alienHeight + 2 * s.alienHeight * rowNumber)
  }

  /** The alien is the one _create_alien places in the top row of a column in 0..number_aliens_x. */
  predicate FromDrawnColumn(s: Settings, a: Alien)
    requires s.alienWidth > 0
  {
    exists n :: 0 <= n <= NumberAliensX(s) && a == CreateAlien(s, n, 0)
  }

  /**
   * _create_fleet: draw a column (which raises when no column fits), then add
   * one alien in the top row if the spawn gate fires. Nothing else changes.
   */
  function CreateFleet(s: Settings, g: Game, d: Draws): (r: Result)
    ensures r.Ok? <==> FleetFits(s)
    ensures r.Ok? ==> r.game.(aliens := g.aliens, timer := g.timer) == g
    ensures r.Ok? && !Due(g.timer, d.now) ==> r.game == g
    ensures r.Ok? && Due(g.timer, d.now) ==>
      && |r.game.aliens| == |g.aliens| + 1
      && r.game.aliens[..|g.aliens|] == g.aliens
      && FromDrawnColumn(s, r.game.aliens[|g.aliens|])
      && OnScreenX(s, r.game.aliens[|g.aliens|])
      && r.game.aliens[|g.aliens|].y == s.alienHeight
      && r.game.timer.lastAlienCreatedTime == d.now
      && ValidDelay(r.game.timer.alienDelay)
  {
    if s.alienWidth == 0 then Crash(ZeroDivision)
    else
      match RandInt(0, NumberAliensX(s), d.column)
      case None => Crash(EmptyColumnRange)
      case Some(alienNumber) =>
        var c := TimeToCreateAnotherAlien(g.timer, d.now, d.delay);
        if c.fired then
          Ok(g.(aliens := g.aliens + [CreateAlien(s, alienNumber, 0)], timer := c.timer))
        else
          Ok(g)
  }

  /** Adding to the fleet keeps the invariant. */
  lemma CreateFleetKeepsInv(s: Settings, g: Game, d: Draws)
    requires Inv(s, g)
    requires CreateFleet(s, g, d).Ok?
    ensures Inv(s, CreateFleet(s, g, d).game)
  {
  }

  // --------------------------------------------------------------- bullets

  /** The bullets still on screen, in their original order. */
  function Visible(bullets: seq<Bullet>): (r: seq<Bullet>)
    ensures forall b :: b in r ==> b in bullets && b.bottom > 0
    ensures forall i :: 0 <= i < |bullets| && bullets[i].bottom > 0 ==> bullets[i] in r
    ensures |r| <= |bullets|
    decreases |bullets|
  {
    if |bullets| == 0 then []
    else
      var last := bullets[|bullets| - 1];
      Visible(bullets[..|bullets| - 1]) + (if last.bottom > 0 then [last] else [])
  }

  /** A group that is all on screen loses nothing, so pruning twice prunes nothing more. */
  lemma {:induction false} VisibleKeepsOnScreen(bullets: seq<Bullet>)
    requires forall b :: b in bullets ==> b.bottom > 0
    ensures Visible(bullets) == bullets
    decreases |bullets|
  {
    if |bullets| > 0 {
      var init := bullets[..|bullets| - 1];
      var last := bullets[|bullets| - 1];
      forall b | b in init
        ensures b.bottom > 0
      {
        assert b in bullets;
      }
      VisibleKeepsOnScreen(init);
      assert last in bullets;
      assert Visible(bullets) == Visible(init) + [last];
      assert init + [last] == bullets;
    }
  }

  lemma PruneIsIdempotent(bullets: seq<Bullet>)
    ensures Visible(Visible(bullets)) == Visible(bullets)
  {
    VisibleKeepsOnScreen(Visible(bullets));
  }

  /**
   * The pruning loop of _update_bullets: walk a copy of the group and remove
   * every bullet whose bottom has reached the top of the screen.
   */
  method PruneBullets(bullets: seq<Bullet>) returns (r: seq<Bullet>)
    ensures r == Visible(bullets)
  {
    r := [];
    var i := 0;
    while i < |bullets|
      invariant 0 <= i <= |bullets|
      invariant r == Visible(bullets[..i])
    {
      assert bullets[..i + 1][..i] == bullets[..i];
      if bullets[i].bottom > 0 {
        r := r + [bullets[i]];
      }
      i := i + 1;
    }
    assert bullets[..i] == bullets;
  }

  // ------------------------------------------------------------ collisions

  /**
   * One entry of groupcollide's result: the position of a bullet in the
   * bullet group and the positions of the aliens it hit.
   */
  datatype Hit = Hit(bullet: int, aliens: seq<int>)

  /** Positions of the bullets groupcollide removes. */
  function HitBullets(hits: seq<Hit>): set<int> {
    set h | h in hits :: h.bullet
  }

  /** Positions of the aliens groupcollide removes. */
  function HitAliens(hits: seq<Hit>): set<int> {
    set h, a | h in hits && a in h.aliens :: a
  }

  /** The number of aliens summed over all collision lists. */
  function AliensHit(hits: seq<Hit>): nat
    decreases |hits|
  {
    if |hits| == 0 then 0 else AliensHit(hits[..|hits| - 1]) + |hits[|hits| - 1].aliens|
  }

  /** The scoring loop: alienPoints for every alien in every collision list. */
  method AwardPoints(score: int, alienPoints: int, hits: seq<Hit>) returns (r: int)
    ensures r == score + alienPoints * AliensHit(hits)
  {
    r := score;
    var i := 0;
    while i < |hits|
      invariant 0 <= i <= |hits|
      invariant r == score + alienPoints * AliensHit(hits[..i])
    {
      assert hits[..i + 1][..i] == hits[..i];
      r := r + alienPoints * |hits[i].aliens|;
      i := i + 1;
    }
    assert hits[..i] == hits;
  }

  /** There was a collision and every alien of the group was among those hit. */
  predicate FleetDestroyed(g: Game, hits: seq<Hit>) {
    |hits| > 0 && forall i :: 0 <= i < |g.aliens| ==> i in HitAliens(hits)
  }

  /**
   * With no collision nothing is removed and the fleet is not destroyed, so
   * by the contract of CheckBulletAlienCollisions the game is unchanged.
   */
  lemma NoCollisionRemovesNothing(g: Game)
    ensures Without(g.bullets, HitBullets([])) == g.bullets
    ensures Without(g.aliens, HitAliens([])) == g.aliens
    ensures AliensHit([]) == 0 && !FleetDestroyed(g, [])
  {
    WithoutNothing(g.bullets, HitBullets([]));
    WithoutNothing(g.aliens, HitAliens([]));
  }

  /**
   * _check_bullet_alien_collisions: remove what collided, score every alien
   * hit, and when the fleet is gone empty the bullets, create a new fleet and
   * go up one level.
   */
  method CheckBulletAlienCollisions(s: Settings, g: Game, hits: seq<Hit>, d: Draws) returns (r: Result)
    ensures FleetDestroyed(g, hits) ==> (r.Ok? <==> FleetFits(s))
    ensures !FleetDestroyed(g, hits) ==> r.Ok?
    ensures r.Ok? ==> r.game.score == g.score + s.alienPoints * AliensHit(hits)
    ensures r.Ok? ==> r.game.shipsLeft == g.shipsLeft && r.game.gameActive == g.gameActive
    ensures r.Ok? && !FleetDestroyed(g, hits) ==>
      && r.game.level == g.level
      && r.game.bullets == Without(g.bullets, HitBullets(hits))
      && r.game.aliens == Without(g.aliens, HitAliens(hits))
      && r.game.timer == g.timer
    ensures r.Ok? && FleetDestroyed(g, hits) ==>
      && r.game.level == g.level + 1
      && r.game.bullets == []
      && |r.game.aliens| <= 1
      && (|r.game.aliens| == 1 <==> Due(g.timer, d.now))
    ensures r.Ok? && Inv(s, g) ==> Inv(s, r.game)
  {
    var bullets := Without(g.bullets, HitBullets(hits));
    var aliens := Without(g.aliens, HitAliens(hits));
    if |hits| == 0 {
      WithoutNothing(g.bullets, HitBullets(hits));
      WithoutNothing(g.aliens, HitAliens(hits));
      r := Ok(g);
    } else {
      var score := AwardPoints(g.score, s.alienPoints, hits);
      var after := g.(score := score, bullets := bullets, aliens := aliens);
      WithoutEmptyIff(g.aliens, HitAliens(hits));
      if |aliens| == 0 {
        r := CreateFleet(s, after.(bullets := []), d);
        if r.Ok? {
          r := Ok(r.game.(level := r.game.level + 1));
        }
      } else {
        r := Ok(after);
      }
    }
  }

  /**
   * Bullet.update, taken as moving every bullet of the group up by the same
   * distance `rise`; the Bullet class is not part of this model.
   */
  function MoveBullets(bullets: seq<Bullet>, rise: int): (r: seq<Bullet>)
    ensures |r| == |bullets|
    ensures forall i :: 0 <= i < |r| ==> r[i].x == bullets[i].x && r[i].bottom == bullets[i].bottom - rise
  {
    seq(|bullets|, i requires 0 <= i < |bullets| => bullets[i].(bottom := bullets[i].bottom - rise))
  }

  /** _update_bullets: move the bullets, prune, then resolve the collisions. */
  method UpdateBullets(s: Settings, g: Game, rise: int, hits: seq<Hit>, d: Draws) returns (r: Result)
    ensures FleetFits(s) ==> r.Ok?
    ensures r.Ok? ==> r.game.score == g.score + s.alienPoints * AliensHit(hits)
    ensures r.Ok? ==> g.level <= r.game.level <= g.level + 1
    ensures r.Ok? ==> r.game.shipsLeft == g.shipsLeft && r.game.gameActive == g.gameActive
    ensures r.Ok? ==> forall b :: b in r.game.bullets ==> b.bottom > 0
    ensures r.Ok? && Inv(s, g) ==> Inv(s, r.game)
  {
    var bullets := PruneBullets(MoveBullets(g.bullets, rise));
    r := CheckBulletAlienCollisions(s, g.(bullets := bullets), hits, d);
  }

  // ---------------------------------------------------------------- aliens

  /** Every alien moved down by the fleet drop speed. */
  function DropFleet(aliens: seq<Alien>, speed: int): (r: seq<Alien>)
    ensures |r| == |aliens|
    ensures forall i :: 0 <= i < |r| ==> r[i].x == aliens[i].x && r[i].y == aliens[i].y + speed
  {
    seq(|aliens|, i requires 0 <= i < |aliens| => aliens[i].(y := aliens[i].y + speed))
  }

  /** How many aliens of the group have their top at or below `bottom`. */
  function AtBottom(aliens: seq<Alien>, bottom: int): (n: nat)
    ensures n <= |aliens|
    decreases |aliens|
  {
    if |aliens| == 0 then 0
    else AtBottom(aliens[..|aliens| - 1], bottom) + (if aliens[|aliens| - 1].y >= bottom then 1 else 0)
  }

  /**
   * _check_aliens_bottom: for every alien of a snapshot of the group that has
   * reached the bottom, the inner loop removes the first alien of the group
   * and breaks, so the front of the group goes, not the offending alien.
   */
  method CheckAliensBottom(aliens: seq<Alien>, bottom: int) returns (r: seq<Alien>)
    ensures r == aliens[AtBottom(aliens, bottom)..]
    ensures |r| == |aliens| - AtBottom(aliens, bottom)
  {
    r := aliens;
    var i := 0;
    while i < |aliens|
      invariant 0 <= i <= |aliens|
      invariant AtBottom(aliens[..i], bottom) <= i
      invariant r == aliens[AtBottom(aliens[..i], bottom)..]
    {
      assert aliens[..i + 1][..i] == aliens[..i];
      if aliens[i].y >= bottom {
        if |r| > 0 {
          r := r[1..];
        }
      }
      i := i + 1;
    }
    assert aliens[..i] == aliens;
  }

  /** No alien at the bottom: the check removes nothing. */
  lemma {:induction false} NoneAtBottom(aliens: seq<Alien>, bottom: int)
    requires forall a :: a in aliens ==> a.y < bottom
    ensures AtBottom(aliens, bottom) == 0
    decreases |aliens|
  {
    if |aliens| > 0 {
      var init := aliens[..|aliens| - 1];
      assert forall a :: a in init ==> a in aliens;
      NoneAtBottom(init, bottom);
    }
  }

  /** The check can remove an alien that is on screen and keep the one at the bottom. */
  lemma BottomCheckCanKeepOffender()
    ensures var aliens := [Alien(0, 0), Alien(0, 1000)];
      var r := aliens[AtBottom(aliens, 1000)..];
      r == [Alien(0, 1000)] && r[0].y >= 1000
  {
    var aliens := [Alien(0, 0), Alien(0, 1000)];
    assert aliens[..1] == [Alien(0, 0)];
    assert AtBottom(aliens[..1], 1000) == 0;
  }

  /**
   * Alien.update, taken as moving every alien of the group across by the
   * same distance `step`; the Alien class is not part of this model.
   */
  function MoveAliens(aliens: seq<Alien>, step: int): (r: seq<Alien>)
    ensures |r| == |aliens|
    ensures forall i :: 0 <= i < |r| ==> r[i].x == aliens[i].x + step && r[i].y == aliens[i].y
  {
    seq(|aliens|, i requires 0 <= i < |aliens| => aliens[i].(x := aliens[i].x + step))
  }

  /**
   * _update_aliens: move the aliens across (Alien.update), drop the fleet, handle a collision
   * with the ship (its result, from spritecollideany, is `shipCollided`),
   * then check the bottom of the screen.
   */
  method UpdateAliens(s: Settings, g: Game, step: int, shipCollided: bool) returns (r: Game)
    ensures r.score == g.score && r.level == g.level && r.timer == g.timer
    ensures shipCollided ==> r.shipsLeft == (if g.shipsLeft > 0 then g.shipsLeft - 1 else g.shipsLeft)
    ensures shipCollided ==> (r.gameActive <==> g.gameActive && g.shipsLeft > 0)
    ensures !shipCollided ==> r.shipsLeft == g.shipsLeft && r.gameActive == g.gameActive
    ensures shipCollided && g.shipsLeft > 0 ==> r.aliens == [] && r.bullets == []
    ensures !(shipCollided && g.shipsLeft > 0) ==> r.bullets == g.bullets
    ensures |r.aliens| <= |g.aliens|
    ensures Inv(s, g) ==> Inv(s, r)
  {
    var dropped := g.(aliens := DropFleet(MoveAliens(g.aliens, step), s.fleetDropSpeed));
    var hit := if shipCollided then ShipHit(dropped) else dropped;
    var aliens := CheckAliensBottom(hit.aliens, s.screenHeight);
    r := hit.(aliens := aliens);
  }

  // ------------------------------------------------------------ play button

  /**
   * _check_play_button: a click on the button while the game is inactive
   * resets the statistics, clears both groups, makes the game active and
   * creates a fleet; anything else has no effect.
   */
  function CheckPlayButton(s: Settings, g: Game, clicked: bool, reset: Reset, d: Draws): (r: Result)
    ensures !clicked || g.gameActive ==> r == Ok(g)
    ensures clicked && !g.gameActive ==> (r.Ok? <==> FleetFits(s))
    ensures clicked && !g.gameActive && r.Ok? ==>
      && r.game.gameActive
      && r.game.bullets == []
      && |r.game.aliens| <= 1
      && (|r.game.aliens| == 1 <==> Due(g.timer, d.now))
      && r.game.shipsLeft == reset.shipsLeft
      && r.game.score == reset.score
      && r.game.level == reset.level
    ensures r.Ok? && Inv(s, g) && reset.shipsLeft >= 0 ==> Inv(s, r.game)
  {
    if clicked && !g.gameActive then
      var started := g.(shipsLeft := reset.shipsLeft, score := reset.score, level := reset.level,
                        gameActive := true, aliens := [], bullets := []);
      CreateFleet(s, started, d)
    else
      Ok(g)
  }

  // ------------------------------------------------------------- one frame

  /** What one active frame of run_game consumes besides the game itself. */
  datatype FrameInputs = FrameInputs(
    fleet: Draws,         // the _create_fleet call of the frame
    bulletRise: int,      // how far Bullet.update moves every bullet up
    hits: seq<Hit>,       // groupcollide's result
    levelFleet: Draws,    // the _create_fleet call of a level-up
    alienStep: int,       // how far Alien.update moves every alien across
    shipCollided: bool)   // spritecollideany's result

  /**
   * The body of run_game's loop while the game is active: create the fleet,
   * update the bullets, update the aliens. Ship movement is not modelled.
   */
  method ActiveFrame(s: Settings, g: Game, inputs: FrameInputs) returns (r: Result)
    ensures r.Ok? <==> FleetFits(s)
    ensures r.Ok? && Inv(s, g) ==> Inv(s, r.game)
    ensures r.Ok? ==> g.level <= r.game.level <= g.level + 1
    ensures r.Ok? ==> r.game.score == g.score + s.alienPoints * AliensHit(inputs.hits)
    ensures r.Ok? && !inputs.shipCollided ==> r.game.shipsLeft == g.shipsLeft && r.game.gameActive == g.gameActive
  {
    var fleet := CreateFleet(s, g, inputs.fleet);
    if fleet.Crash? {
      return fleet;
    }
    var updated := UpdateBullets(s, fleet.game, inputs.bulletRise, inputs.hits, inputs.levelFleet);
    if updated.Crash? {
      return updated;
    }
    var next := UpdateAliens(s, updated.game, inputs.alienStep, inputs.shipCollided);
    return Ok(next);
  }
}
