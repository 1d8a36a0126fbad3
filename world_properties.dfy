/**
 * Properties of the pure rules of the simulation (js/game.js): floor numbering,
 * floor types, wind ramps, difficulty, floor animation, fading, coins and the
 * game-over test.
 */
module WorldProperties {
  import opened Wrappers
  import opened GameConfig
  import opened World

  // ---------------------------------------------------------------------------
  // Floor numbering
  // ---------------------------------------------------------------------------

  /** The band formula of generateMoreFloorsIfNeeded recovers the number of a floor from its top. */
  lemma FloorNumberOfFloorTop(n: int)
    ensures FloorNumberAt(FloorY(n)) == n
  {
    assert (CanvasHeight - 50.0 - FloorY(n)) / FloorVerticalSpacing == n as real;
  }

  /** Every height lies in exactly one band: the band of floor k runs from just above floor k + 1's top down to floor k's top. */
  lemma FloorBand(y: real)
    ensures var k := FloorNumberAt(y); FloorY(k + 1) < y <= FloorY(k)
  {
    var q := (CanvasHeight - 50.0 - y) / FloorVerticalSpacing;
    var k := q.Floor;
    assert k as real <= q < k as real + 1.0;
    assert CanvasHeight - 50.0 - y == q * FloorVerticalSpacing;
  }

  /** Floors higher up have smaller tops, exactly FLOOR_VERTICAL_SPACING apart. */
  lemma FloorsStacked(m: int, n: int)
    requires m < n
    ensures FloorY(n) + (n - m) as real * FloorVerticalSpacing == FloorY(m)
    ensures FloorY(n) < FloorY(m)
  {
  }

  // ---------------------------------------------------------------------------
  // Floor types
  // ---------------------------------------------------------------------------

  /** A special floor comes from the floor number alone, never from the draw; the first one is floor 100. */
  lemma SpecialFloorsByNumber(n: nat, d: Difficulty, r: real)
    ensures DetermineFloorType(n, d, r) == Special <==> IsSpecialNumber(n)
    ensures IsSpecialNumber(n) ==> n >= SpecialFloorInterval
    ensures n == 0 ==> DetermineFloorType(n, d, r) == Normal
  {
  }

  /** While difficulty is active every floor-type chance is capped at DIFFICULTY_MAX_CHANCE; before that it is the base chance. */
  lemma FloorChanceCapped(base: real, d: Difficulty)
    ensures d.active ==> FloorChance(base, d) <= DifficultyMaxChance
    ensures !d.active ==> FloorChance(base, d) == base
    ensures d.active && d.current >= 1.0 && 0.0 <= base <= DifficultyMaxChance ==> base <= FloorChance(base, d)
  {
    if d.active && d.current >= 1.0 && 0.0 <= base {
      var m := 1.0 + (d.current - 1.0) * 0.5;
      assert m >= 1.0;
      assert base * m >= base * 1.0;
    }
  }

  /**
   * The draw selects the first bucket, in the order moving, shrinking, breaking,
   * whose cumulative chance exceeds it; draws beyond all three give a normal floor.
   */
  lemma FloorTypeByDraw(n: nat, d: Difficulty, r: real)
    requires DrawsFloorType(n)
    requires d.current >= 1.0
    ensures
      var m, s, b := FloorChance(BaseMovingFloorChance, d), FloorChance(BaseShrinkingFloorChance, d), FloorChance(BaseBreakingFloorChance, d);
      var t := DetermineFloorType(n, d, r);
      (t == Moving <==> r < m) &&
      (t == Shrinking <==> m <= r < m + s) &&
      (t == Breaking <==> m + s <= r < m + s + b) &&
      (t == Normal <==> m + s + b <= r) &&
      t != Special
  {
    FloorChanceCapped(BaseMovingFloorChance, d);
    FloorChanceCapped(BaseShrinkingFloorChance, d);
    FloorChanceCapped(BaseBreakingFloorChance, d);
  }

  // ---------------------------------------------------------------------------
  // Wind ramps
  // ---------------------------------------------------------------------------

  /** The ramp-up progress 1 - t / (t + 1) is 1 / (t + 1): in (0, 1], and exactly 1 on the last tick. */
  lemma RampUpProgressBounds(t: int)
    requires t >= 0
    ensures RampUpProgress(t) == 1.0 / (t as real + 1.0)
    ensures 0.0 < RampUpProgress(t) <= 1.0
    ensures t == 0 ==> RampUpProgress(t) == 1.0
  {
    var u := t as real + 1.0;
    assert t as real / u + 1.0 / u == 1.0;
  }

  /** The ramp-down progress t / (t + 1) lies in [0, 1) and is exactly 0 on the last tick. */
  lemma RampDownProgressBounds(t: int)
    requires t >= 0
    ensures 0.0 <= RampDownProgress(t) < 1.0
    ensures t == 0 ==> RampDownProgress(t) == 0.0
    ensures RampUpProgress(t) + RampDownProgress(t) == 1.0
  {
    var u := t as real + 1.0;
    assert t as real / u < 1.0;
  }

  lemma ScaledDraw2(p: real, v: real)
    requires 0.0 <= p <= 1.0 && 0.0 <= v
    ensures 0.0 <= p * v <= v
  {
    assert v - p * v == (1.0 - p) * v;
  }

  /** A force scaled by a ramp progress in [0, 1] keeps its sign and never exceeds the force it ramps towards or from. */
  lemma RampedForceBounded(p: real, force: real)
    requires 0.0 <= p <= 1.0
    ensures force >= 0.0 ==> 0.0 <= p * force <= force
    ensures force <= 0.0 ==> force <= p * force <= 0.0
  {
    if force >= 0.0 {
      ScaledDraw2(p, force);
    } else {
      ScaledDraw2(p, -force);
      assert p * force == -(p * -force);
    }
  }

  // ---------------------------------------------------------------------------
  // Difficulty
  // ---------------------------------------------------------------------------

  /** At DIFFICULTY_START_AT_SCORE the active record still has level 1 and neutral multipliers. */
  lemma DifficultyStartsNeutral()
    ensures ActiveDifficulty(DifficultyStartAtScore).current == 1.0
    ensures NeutralMultipliers(ActiveDifficulty(DifficultyStartAtScore))
    ensures NeutralMultipliers(InitialDifficulty)
  {
    assert DifficultyLevel(DifficultyStartAtScore) == 1.0;
    forall base: real ensures DifficultyMultiplier(1.0, base) == 1.0 {
      assert DifficultyMultiplier(1.0, base) == 1.0;
    }
  }

  /** The difficulty level starts at 1 and grows with the highest floor reached. */
  lemma LevelGrows(m1: int, m2: int)
    requires DifficultyStartAtScore <= m1 <= m2
    ensures 1.0 <= DifficultyLevel(m1) <= DifficultyLevel(m2)
  {
    assert (m1 - DifficultyStartAtScore) as real >= 0.0;
    assert (m2 - DifficultyStartAtScore) as real >= (m1 - DifficultyStartAtScore) as real;
  }

  /** Multipliers whose base exceeds 1 (moving speed and range, shrink speed, crumbling) grow with the highest floor and stay at least 1. */
  lemma DifficultyMultiplierGrows(base: real, m1: int, m2: int)
    requires base >= 1.0
    requires DifficultyStartAtScore <= m1 <= m2
    ensures 1.0 <= DifficultyMultiplier(DifficultyLevel(m1), base) <= DifficultyMultiplier(DifficultyLevel(m2), base)
  {
    var c1, c2 := DifficultyLevel(m1), DifficultyLevel(m2);
    LevelGrows(m1, m2);
    assert (c2 - 1.0) * (base - 1.0) - (c1 - 1.0) * (base - 1.0) == (c2 - c1) * (base - 1.0);
    assert (c1 - 1.0) * (base - 1.0) >= 0.0;
    assert (c2 - c1) * (base - 1.0) >= 0.0;
  }

  /** Multipliers whose base is below 1 (minimum width, shrink delay) shrink as the highest floor grows. */
  lemma DifficultyMultiplierShrinks(base: real, m1: int, m2: int)
    requires base <= 1.0
    requires DifficultyStartAtScore <= m1 <= m2
    ensures DifficultyMultiplier(DifficultyLevel(m2), base) <= DifficultyMultiplier(DifficultyLevel(m1), base) <= 1.0
  {
    var c1, c2 := DifficultyLevel(m1), DifficultyLevel(m2);
    LevelGrows(m1, m2);
    assert (c2 - 1.0) * (1.0 - base) - (c1 - 1.0) * (1.0 - base) == (c2 - c1) * (1.0 - base);
    assert (c1 - 1.0) * (1.0 - base) >= 0.0;
    assert (c2 - c1) * (1.0 - base) >= 0.0;
  }

  /**
   * The reset as written leaves the previous run's multipliers in place: after a
   * run that reached floor 105 the next run starts inactive, yet a moving floor
   * moves 3 per tick instead of MOVING_FLOOR_SPEED = 2.
   */
  lemma StaleMultipliersAfterReset()
    ensures var d := ResetDifficultyAsWritten(ActiveDifficulty(105));
      !d.active && d.current == 1.0 && d.movingSpeed == 1.5 && !NeutralMultipliers(d)
    ensures var f := Floor(1, 100.0, FloorY(1), 100.0, FloorHeight, Moving, false, false, 1.0, 1,
                           100.0, 100.0, 0.0, false, false, None, false, 0.0);
      MoveFloor(f, ResetDifficultyAsWritten(ActiveDifficulty(105))).x == 103.0 &&
      MoveFloor(f, InitialDifficulty).x == 100.0 + MovingFloorSpeed
  {
  }

  // ---------------------------------------------------------------------------
  // Floor animation
  // ---------------------------------------------------------------------------

  /** A moving floor stays within its range around originalX and inside [MOVING_FLOOR_MIN_X, MOVING_FLOOR_MAX_X - width]. */
  lemma MovingFloorBounded(f: Floor, d: Difficulty)
    requires f.kind == Moving
    requires 0.0 <= f.width <= MovingFloorMaxX - MovingFloorMinX
    requires MovingFloorMinX <= f.originalX <= MovingFloorMaxX - f.width
    requires d.movingRange >= 0.0
    ensures var g := MoveFloor(f, d);
      MovingFloorMinX <= g.x <= MovingFloorMaxX - g.width &&
      f.originalX - MovingFloorRange * d.movingRange <= g.x <= f.originalX + MovingFloorRange * d.movingRange &&
      g == f.(x := g.x, movingDirection := g.movingDirection) &&
      (f.movingDirection == 1 || f.movingDirection == -1 ==> g.movingDirection == 1 || g.movingDirection == -1)
  {
    assert MovingFloorRange * d.movingRange >= 0.0;
  }

  /**
   * A shrinking floor first counts its delay down; then each tick it narrows by
   * the shrink speed down to the minimum width, keeping its original centre.
   */
  lemma ShrinkingFloorKeepsCentre(f: Floor, d: Difficulty)
    requires d.shrinkingSpeed >= 0.0
    ensures var g := ShrinkFloor(f, d);
      (f.shrinkDelay > 0.0 ==> g == f.(shrinkDelay := f.shrinkDelay - 1.0)) &&
      (f.shrinkDelay <= 0.0 && f.width > ShrinkMinWidth(d) ==>
        ShrinkMinWidth(d) <= g.width <= f.width &&
        g.width == Max(f.width - ShrinkingFloorShrinkSpeed * d.shrinkingSpeed, ShrinkMinWidth(d)) &&
        g.x + g.width / 2.0 == f.shrinkingOriginalX + f.originalWidth / 2.0) &&
      (f.shrinkDelay <= 0.0 && f.width <= ShrinkMinWidth(d) ==> g == f) &&
      g.number == f.number && g.y == f.y && g.kind == f.kind
  {
    assert ShrinkingFloorShrinkSpeed * d.shrinkingSpeed >= 0.0;
  }

  /** A stepped-on breaking floor loses exactly the scaled crumble speed in alpha and is marked for removal once alpha reaches 0. */
  lemma BreakingFloorCrumbles(f: Floor, d: Difficulty)
    requires !f.shouldRemove
    ensures var g := CrumbleFloor(f, d);
      (f.isBreaking && !f.isFading ==>
        g.fadeAlpha == f.fadeAlpha - BreakingFloorFadeSpeed * d.breakingFadeSpeed &&
        (g.shouldRemove <==> g.fadeAlpha <= 0.0)) &&
      (!(f.isBreaking && !f.isFading) ==> g == f)
  {
  }

  /** updateSpecialFloors drops exactly the floors marked shouldRemove and animates the others, in order. */
  lemma {:induction false} AnimateAllNumbers(fs: seq<Floor>, d: Difficulty)
    ensures forall g :: g in AnimateAll(fs, d) ==> exists i :: 0 <= i < |fs| && !fs[i].shouldRemove && g == AnimateFloor(fs[i], d)
    ensures forall i :: 0 <= i < |fs| && !fs[i].shouldRemove ==> AnimateFloor(fs[i], d) in AnimateAll(fs, d)
    ensures |AnimateAll(fs, d)| <= |fs|
  {
    if fs != [] {
      AnimateAllNumbers(fs[1..], d);
      forall g | g in AnimateAll(fs, d)
        ensures exists i :: 0 <= i < |fs| && !fs[i].shouldRemove && g == AnimateFloor(fs[i], d)
      {
        if g in AnimateAll(fs[1..], d) {
          var i :| 0 <= i < |fs[1..]| && !fs[1..][i].shouldRemove && g == AnimateFloor(fs[1..][i], d);
          assert fs[i + 1] == fs[1..][i];
        }
      }
      forall i | 0 <= i < |fs| && !fs[i].shouldRemove ensures AnimateFloor(fs[i], d) in AnimateAll(fs, d) {
        if i > 0 {
          assert fs[i] == fs[1..][i - 1];
        }
      }
    }
  }

  /** Dropping the coins of one floor after those of others is dropping the coins of all of them. */
  lemma {:induction false} CoinsNotOnTwice(cs: seq<Coin>, a: set<int>, b: set<int>)
    ensures CoinsNotOn(CoinsNotOn(cs, a), b) == CoinsNotOn(cs, a + b)
  {
    if cs != [] {
      var c, rest := cs[0], cs[1..];
      CoinsNotOnTwice(rest, a, b);
      var ra := CoinsNotOn(rest, a);
      if c.floorNumber in a {
        assert CoinsNotOn(cs, a) == ra;
        assert CoinsNotOn(cs, a + b) == CoinsNotOn(rest, a + b);
      } else {
        var xs := [c] + ra;
        assert CoinsNotOn(cs, a) == xs;
        assert xs[0] == c && xs[1..] == ra;
        assert CoinsNotOn(xs, b) == (if c.floorNumber in b then [] else [c]) + CoinsNotOn(ra, b);
        assert CoinsNotOn(cs, a + b) == (if c.floorNumber in b then [] else [c]) + CoinsNotOn(rest, a + b);
      }
    }
  }

  /** Dropping the coins of no floor keeps the list. */
  lemma {:induction false} CoinsNotOnNothing(cs: seq<Coin>)
    ensures CoinsNotOn(cs, {}) == cs
  {
    if cs != [] {
      CoinsNotOnNothing(cs[1..]);
    }
  }

  // ---------------------------------------------------------------------------
  // Fading
  // ---------------------------------------------------------------------------

  /** Starting to fade keeps everything but the fade flag and a crumbling floor's isBreaking. */
  lemma StartFadingKeeps(f: Floor)
    ensures StartFading(f).isFading && !(StartFading(f).kind == Breaking && StartFading(f).isBreaking)
    ensures StartFading(f).number == f.number && StartFading(f).fadeAlpha == f.fadeAlpha && StartFading(f).y == f.y
  {
  }

  /** One sweep step keeps the length and the numbers of the list. */
  lemma FadeStepKeepsNumbers(fs: seq<Floor>, next: int, i: int)
    ensures |FadeStep(fs, next, i).0| == |fs|
    ensures forall k :: 0 <= k < |fs| ==> FadeStep(fs, next, i).0[k].number == fs[k].number
    ensures forall k :: 0 <= k < |fs| && fs[k].number != i ==> FadeStep(fs, next, i).0[k] == fs[k]
    ensures forall k :: 0 <= k < |fs| && fs[k].number == i && (forall j :: 0 <= j < k ==> fs[j].number != i) ==>
      FadeStep(fs, next, i).0[k].isFading
    ensures forall k :: 0 <= k < |fs| && fs[k].isFading ==> FadeStep(fs, next, i).0[k].isFading
    ensures FadeStep(fs, next, i).1 == next || FadeStep(fs, next, i).1 == i + 1
  {
  }

  /**
   * The fade sweep of updateFadingFloors, run over the floor numbers lo to hi - 1,
   * leaves every floor numbered in that range fading, touches no other floor,
   * keeps fading floors fading and never moves nextFloorToFade backwards.
   */
  lemma {:induction false} FadeSweepMarks(fs: seq<Floor>, next: int, lo: int, hi: int)
    requires NumbersIncreasing(fs)
    requires next <= lo
    ensures |FadeSweep(fs, next, lo, hi).0| == |fs|
    ensures forall k :: 0 <= k < |fs| ==> FadeSweep(fs, next, lo, hi).0[k].number == fs[k].number
    ensures forall k :: 0 <= k < |fs| && lo <= fs[k].number < hi ==> FadeSweep(fs, next, lo, hi).0[k].isFading
    ensures forall k :: 0 <= k < |fs| && !(lo <= fs[k].number < hi) ==> FadeSweep(fs, next, lo, hi).0[k] == fs[k]
    ensures forall k :: 0 <= k < |fs| && fs[k].isFading ==> FadeSweep(fs, next, lo, hi).0[k].isFading
    ensures next <= FadeSweep(fs, next, lo, hi).1 <= (if lo < hi then hi else next)
    decreases hi - lo
  {
    if lo < hi {
      var (fs1, next1) := FadeStep(fs, next, lo);
      FadeStepKeepsNumbers(fs, next, lo);
      assert NumbersIncreasing(fs1);
      FadeSweepMarks(fs1, next1, lo + 1, hi);
      var (gs, next') := FadeSweep(fs1, next1, lo + 1, hi);
      assert (gs, next') == FadeSweep(fs, next, lo, hi);
      forall k | 0 <= k < |fs| && fs[k].number == lo ensures gs[k].isFading {
        assert forall j :: 0 <= j < k ==> fs[j].number != lo;
        assert fs1[k].isFading;
      }
    }
  }

  /** The removal loop keeps exactly the floors that have not faded out, faded by one step. */
  lemma {:induction false} FadeAllKeeps(fs: seq<Floor>, speed: real)
    ensures forall g :: g in FadeAll(fs, speed) ==> !FadedOut(g) && exists i :: 0 <= i < |fs| && g == FadeFloor(fs[i], speed)
    ensures forall i :: 0 <= i < |fs| && !FadedOut(FadeFloor(fs[i], speed)) ==> FadeFloor(fs[i], speed) in FadeAll(fs, speed)
    ensures |FadeAll(fs, speed)| <= |fs|
  {
    if fs != [] {
      FadeAllKeeps(fs[1..], speed);
      forall g | g in FadeAll(fs, speed)
        ensures !FadedOut(g) && exists i :: 0 <= i < |fs| && g == FadeFloor(fs[i], speed)
      {
        if g in FadeAll(fs[1..], speed) {
          var i :| 0 <= i < |fs[1..]| && g == FadeFloor(fs[1..][i], speed);
          assert fs[i + 1] == fs[1..][i];
        }
      }
      forall i | 0 <= i < |fs| && !FadedOut(FadeFloor(fs[i], speed)) ensures FadeFloor(fs[i], speed) in FadeAll(fs, speed) {
        if i > 0 {
          assert fs[i] == fs[1..][i - 1];
        }
      }
    }
  }

  /** A fading floor above the minimum alpha loses exactly the fade speed; a floor that is not fading is untouched. */
  lemma FadeFloorStep(f: Floor, speed: real)
    ensures f.isFading && f.fadeAlpha > FloorFadeMinAlpha ==> FadeFloor(f, speed) == f.(fadeAlpha := f.fadeAlpha - speed)
    ensures !f.isFading ==> FadeFloor(f, speed) == f && !FadedOut(FadeFloor(f, speed))
  {
  }

  /** The fade speed factor lies between 1 and DIFFICULTY_MAX_FADE_MULTIPLIER once difficulty has level at least 1. */
  lemma FadeSpeedBounded(d: Difficulty)
    requires d.current >= 1.0
    ensures 1.0 <= FadeSpeedMultiplier(d) <= DifficultyMaxFadeMultiplier
  {
  }

  // ---------------------------------------------------------------------------
  // Coins
  // ---------------------------------------------------------------------------

  lemma {:induction false} PowAtLeastOne(b: real, n: nat)
    requires b >= 1.0
    ensures Pow(b, n) >= 1.0
  {
    if n > 0 {
      PowAtLeastOne(b, n - 1);
      assert b * Pow(b, n - 1) >= 1.0 * Pow(b, n - 1);
    }
  }

  /** The growth factor only raises the base count, and the cap MAX_COINS_PER_FLOOR bounds it. */
  lemma CoinCountBounded(baseCoins: int, n: nat)
    requires MinCoinsPerFloor <= baseCoins <= MaxCoinsPerFloor
    ensures baseCoins <= CoinCount(baseCoins, n) <= MaxCoinsPerFloor
  {
    var p := Pow(CoinsPerFloorMultiplier, n);
    PowAtLeastOne(CoinsPerFloorMultiplier, n);
    assert baseCoins as real * p >= baseCoins as real * 1.0;
  }

  /** The coin chance never exceeds COIN_MAX_CHANCE and grows with the floor number up to it. */
  lemma CoinChanceBounded(m: int, n: int)
    requires 0 <= m <= n
    ensures CoinChanceBase <= CoinChance(m) <= CoinChance(n) <= CoinMaxChance
  {
  }

  /** A collection sweep removes exactly the touched coins: kept plus collected is what there was. */
  lemma {:induction false} CollectionCounts(cs: seq<Coin>, b: Ball)
    ensures |Untouched(cs, b)| + TouchedCount(cs, b) == |cs|
    ensures forall c :: c in Untouched(cs, b) <==> c in cs && !Touches(b, c)
  {
    if cs != [] {
      CollectionCounts(cs[1..], b);
      assert cs == [cs[0]] + cs[1..];
    }
  }

  // ---------------------------------------------------------------------------
  // Floor display
  // ---------------------------------------------------------------------------

  /**
   * The floor updateFloorDisplay reports is never negative on an ordered
   * list: it is the number of the first floor the ball stands in, and the
   * ball's height band (at least 0) when it stands in none.
   */
  lemma DisplayedFloorMeaning(fs: seq<Floor>, b: Ball, i: nat)
    requires NumbersIncreasing(fs)
    ensures DisplayedFloor(fs, b) >= 0
    ensures (forall k :: 0 <= k < |fs| ==> !StandsIn(b, fs[k])) ==> DisplayedFloor(fs, b) == MaxInt(0, FloorNumberAt(b.y))
    ensures i < |fs| && StandsIn(b, fs[i]) && (forall j :: 0 <= j < i ==> !StandsIn(b, fs[j])) ==>
      DisplayedFloor(fs, b) == fs[i].number
  {
    var n := StandingFloor(fs, b);
    if n.Some? {
      var k :| 0 <= k < |fs| && StandsIn(b, fs[k]) && fs[k].number == n.value &&
               forall j :: 0 <= j < k ==> !StandsIn(b, fs[j]);
      assert fs[k].number >= 0;
      if i < |fs| && StandsIn(b, fs[i]) && (forall j :: 0 <= j < i ==> !StandsIn(b, fs[j])) {
        assert !(k < i) && !(i < k);
      }
    }
  }

  // ---------------------------------------------------------------------------
  // Game over
  // ---------------------------------------------------------------------------

  /** The running maximum of checkIfAnyFloorsLeft is the largest top among supporting floors. */
  lemma {:induction false} LowestSupportYIsMax(fs: seq<Floor>)
    ensures LowestSupportY(fs).None? <==> forall i :: 0 <= i < |fs| ==> !Supports(fs[i])
    ensures LowestSupportY(fs).Some? ==>
      (exists i :: 0 <= i < |fs| && Supports(fs[i]) && fs[i].y == LowestSupportY(fs).value) &&
      (forall i :: 0 <= i < |fs| && Supports(fs[i]) ==> fs[i].y <= LowestSupportY(fs).value)
  {
    if fs != [] {
      var init := fs[..|fs| - 1];
      LowestSupportYIsMax(init);
      assert forall i :: 0 <= i < |init| ==> init[i] == fs[i];
    }
  }

  /** The game-over test: floors are left exactly when some supporting floor's top is at most GAME_OVER_FALL_THRESHOLD above the ball. */
  lemma AnyFloorsLeftMeans(fs: seq<Floor>, b: Ball)
    ensures AnyFloorsLeft(fs, b) <==> exists i :: 0 <= i < |fs| && Supports(fs[i]) && b.y <= fs[i].y + GameOverFallThreshold
  {
    LowestSupportYIsMax(fs);
    if AnyFloorsLeft(fs, b) {
      var i :| 0 <= i < |fs| && Supports(fs[i]) && fs[i].y == LowestSupportY(fs).value;
      assert b.y <= fs[i].y + GameOverFallThreshold;
    }
  }

  // ---------------------------------------------------------------------------
  // Walls
  // ---------------------------------------------------------------------------

  /** The CCD sub-step loop always ends at the current position: its last sample is the end point. */
  lemma CcdLastSampleIsEnd(previousX: real, x: real)
    ensures CcdSample(previousX, x, CcdMaxSteps) == x
    ensures CcdSample(previousX, x, 0) == previousX
  {
  }

  /**
   * After checkWallCollisions the ball's centre lies between the two wall
   * lines, a ball already between them is left alone, and a ball that
   * bounced off the left wall never moves left and one that bounced off the right wall never moves right.
   */
  lemma WallsKeepBallInside(b: Ball, c: BallConfig)
    requires WellFormed(c) && b.radius == c.radius
    ensures var b2 := AfterWalls(b, c);
      LeftWallLine(b.radius) <= b2.x <= RightWallLine(b.radius) &&
      b2.radius == b.radius && b2.y == b.y && b2.velocityY == b.velocityY
    ensures LeftWallLine(b.radius) <= b.x <= RightWallLine(b.radius) ==> AfterWalls(b, c) == b
    ensures b.x < LeftWallLine(b.radius) ==> AfterWalls(b, c).velocityX >= 0.0
    ensures b.x > RightWallLine(b.radius) ==> AfterWalls(b, c).velocityX <= 0.0
  {
    BounceSpeedMeaning(b.velocityX, c);
  }

  /** A bounce is never negative, vanishes exactly at or below MIN_BOUNCE_VELOCITY, and otherwise is |v| * WALL_BOUNCE_FACTOR. */
  lemma BounceSpeedMeaning(v: real, c: BallConfig)
    requires c.wallBounceFactor > 0.0
    ensures BounceSpeed(v, c) >= 0.0
    ensures BounceSpeed(v, c) == 0.0 <==> Abs(v) <= c.minBounceVelocity || v == 0.0
  {
    if Abs(v) > c.minBounceVelocity && v != 0.0 {
      assert Abs(v) > 0.0;
      assert Abs(v) * c.wallBounceFactor > 0.0;
    }
  }

  // ---------------------------------------------------------------------------
  // Wind state machine
  // ---------------------------------------------------------------------------

  /**
   * The wind only ever moves one phase on, break -> ramp_up -> active ->
   * ramp_down -> break, and it moves exactly on the ticks where the decremented
   * timer has run out.
   */
  lemma WindPhaseOrder(w: Wind, c: BallConfig, r0: real, r1: real, r2: real, r3: real)
    requires WellFormed(c) && WindInvariant(w)
    requires 0.0 <= r0 < 1.0 && 0.0 <= r1 < 1.0 && 0.0 <= r2 < 1.0 && 0.0 <= r3 < 1.0
    ensures WindTick(w, c, r0, r1, r2, r3).phase == w.phase || WindTick(w, c, r0, r1, r2, r3).phase == NextPhase(w.phase)
    ensures WindTick(w, c, r0, r1, r2, r3).phase != w.phase <==> c.windEnabled && w.timer - 1 <= 0
  {
  }

  /** With wind disabled for the ball the timer stands still, no draw is made and the force is 0. */
  lemma WindDisabledFreezes(w: Wind, c: BallConfig, r0: real, r1: real, r2: real, r3: real)
    requires WellFormed(c) && WindInvariant(w) && !c.windEnabled
    requires 0.0 <= r0 < 1.0 && 0.0 <= r1 < 1.0 && 0.0 <= r2 < 1.0 && 0.0 <= r3 < 1.0
    ensures WindTick(w, c, r0, r1, r2, r3).timer == w.timer
    ensures WindTick(w, c, r0, r1, r2, r3).force == 0.0
    ensures WindTick(w, c, r0, r1, r2, r3).phase == w.phase
    ensures WindDraws(w, c) == 0
  {
  }

  /** A break that runs out starts a ramp towards a force of the drawn magnitude in the drawn direction. */
  lemma BreakStartsRamp(w: Wind, c: BallConfig, r0: real, r1: real, r2: real, r3: real)
    requires WellFormed(c) && WindInvariant(w) && c.windEnabled && w.phase == Break && w.timer - 1 <= 0
    requires 0.0 <= r0 < 1.0 && 0.0 <= r1 < 1.0 && 0.0 <= r2 < 1.0 && 0.0 <= r3 < 1.0
    ensures var v := WindTick(w, c, r0, r1, r2, r3);
      v.phase == RampUp && v.rampProgress == 0.0 && v.force == w.force &&
      (v.direction == 1 || v.direction == -1) &&
      c.windRampUpMinTime <= v.timer <= c.windRampUpMaxTime &&
      c.windMinBurstDuration <= v.duration <= c.windMaxBurstDuration &&
      v.targetForce == (c.windMinForce + r3 * (c.windMaxForce - c.windMinForce)) * v.direction as real
    ensures WindDraws(w, c) == 4
  {
  }

  /** A ramp-up ends with the force exactly at its target and the burst timer started. */
  lemma RampUpReachesTarget(w: Wind, c: BallConfig, r0: real, r1: real, r2: real, r3: real)
    requires WellFormed(c) && WindInvariant(w) && c.windEnabled && w.phase == RampUp && w.timer - 1 <= 0
    requires 0.0 <= r0 < 1.0 && 0.0 <= r1 < 1.0 && 0.0 <= r2 < 1.0 && 0.0 <= r3 < 1.0
    ensures var v := WindTick(w, c, r0, r1, r2, r3);
      v.phase == Active && v.force == w.targetForce && v.timer == w.duration && v.active
  {
  }

  /** A ramp-down ends with no force, the wind inactive and a fresh break drawn. */
  lemma RampDownReachesZero(w: Wind, c: BallConfig, r0: real, r1: real, r2: real, r3: real)
    requires WellFormed(c) && WindInvariant(w) && c.windEnabled && w.phase == RampDown && w.timer - 1 <= 0
    requires 0.0 <= r0 < 1.0 && 0.0 <= r1 < 1.0 && 0.0 <= r2 < 1.0 && 0.0 <= r3 < 1.0
    ensures var v := WindTick(w, c, r0, r1, r2, r3);
      v.phase == Break && v.force == 0.0 && !v.active &&
      c.windMinBreakDuration <= v.timer <= c.windMaxBreakDuration && v.breakDuration == v.timer
  {
  }

  /** While ramping up the force is target / (t + 1) for the decremented timer t: same sign, never beyond the target. */
  lemma RampUpForce(w: Wind, c: BallConfig, r0: real, r1: real, r2: real, r3: real)
    requires WellFormed(c) && WindInvariant(w) && c.windEnabled && w.phase == RampUp && w.timer - 1 > 0
    requires 0.0 <= r0 < 1.0 && 0.0 <= r1 < 1.0 && 0.0 <= r2 < 1.0 && 0.0 <= r3 < 1.0
    ensures var v := WindTick(w, c, r0, r1, r2, r3);
      var t := w.timer - 1;
      v.phase == RampUp && v.timer == t &&
      v.force == w.targetForce / (t as real + 1.0) &&
      (w.targetForce >= 0.0 ==> 0.0 <= v.force <= w.targetForce) &&
      (w.targetForce <= 0.0 ==> w.targetForce <= v.force <= 0.0)
  {
    var t := w.timer - 1;
    var p := RampUpProgress(t);
    RampUpProgressBounds(t);
    RampedForceBounded(p, w.targetForce);
    assert p * w.targetForce == w.targetForce / (t as real + 1.0);
  }

  /** While ramping down the force is start * t / (t + 1): same sign as the start force, never beyond it. */
  lemma RampDownForce(w: Wind, c: BallConfig, r0: real, r1: real, r2: real, r3: real)
    requires WellFormed(c) && WindInvariant(w) && c.windEnabled && w.phase == RampDown && w.timer - 1 > 0
    requires 0.0 <= r0 < 1.0 && 0.0 <= r1 < 1.0 && 0.0 <= r2 < 1.0 && 0.0 <= r3 < 1.0
    ensures var v := WindTick(w, c, r0, r1, r2, r3);
      var t := w.timer - 1;
      v.phase == RampDown && v.timer == t &&
      v.force == w.startForce * (t as real / (t as real + 1.0)) &&
      (w.startForce >= 0.0 ==> 0.0 <= v.force <= w.startForce) &&
      (w.startForce <= 0.0 ==> w.startForce <= v.force <= 0.0)
  {
    var t := w.timer - 1;
    var p := RampDownProgress(t);
    RampDownProgressBounds(t);
    RampedForceBounded(p, w.startForce);
  }

  /** Every tick keeps the ramp phases at least one tick long, so the ramp formulas never divide by zero. */
  lemma WindInvariantKept(w: Wind, c: BallConfig, r0: real, r1: real, r2: real, r3: real)
    requires WellFormed(c) && WindInvariant(w)
    requires 0.0 <= r0 < 1.0 && 0.0 <= r1 < 1.0 && 0.0 <= r2 < 1.0 && 0.0 <= r3 < 1.0
    ensures WindInvariant(WindTick(w, c, r0, r1, r2, r3))
  {
  }

  // ---------------------------------------------------------------------------
  // Input and jump
  // ---------------------------------------------------------------------------

  /** Whatever the input, the horizontal speed after updateInput is within MAX_SPEED. */
  lemma SteeredVelocityBounded(vx: real, onGround: bool, ctl: Controls, s: Settings, c: BallConfig)
    requires WellFormed(c)
    ensures -c.maxSpeed <= SteeredVelocity(vx, onGround, ctl, s, c) <= c.maxSpeed
  {
    var v := Clamp(Accelerated(vx, ctl, s, c.acceleration), c.maxSpeed);
    var f := if onGround then c.groundFriction else c.airResistance;
    ScaledWithin(v, f, c.maxSpeed);
  }

  /** A speed within +-m stays within +-m when scaled by a factor in [0, 1]. */
  lemma ScaledWithin(v: real, f: real, m: real)
    requires 0.0 <= f <= 1.0 && -m <= v <= m
    ensures -m <= v * f <= m
  {
    RampedForceBounded(f, v);
    assert f * v == v * f;
  }

  /** With no input, a ball already within MAX_SPEED only loses speed to friction or air resistance. */
  lemma IdleBallOnlySlows(vx: real, onGround: bool, s: Settings, c: BallConfig)
    requires WellFormed(c) && -c.maxSpeed <= vx <= c.maxSpeed
    ensures var f := if onGround then c.groundFriction else c.airResistance;
      SteeredVelocity(vx, onGround, NoControls, s, c) == vx * f
  {
  }

  /** A share of a positive whole lies in [0, 1] and grows with the part. */
  lemma ShareBounds(a1: real, a2: real, m: real)
    requires 0.0 <= a1 <= a2 <= m && m > 0.0
    ensures 0.0 <= a1 / m <= a2 / m <= 1.0
  {
    var q1, q2 := a1 / m, a2 / m;
    assert q1 * m == a1 && q2 * m == a2;
    if q2 > 1.0 {
      assert (q2 - 1.0) * m > 0.0;
    }
  }

  /**
   * A jump always goes upwards (negative velocity), at least with the base
   * force and at most with base plus the full bonus at top speed.
   */
  lemma JumpForceBounded(c: BallConfig, vx: real)
    requires WellFormed(c) && -c.maxSpeed <= vx <= c.maxSpeed
    ensures c.baseJumpForce + c.maxJumpBonus <= JumpForce(c, vx) <= c.baseJumpForce < 0.0
  {
    var ratio := Abs(vx) / c.maxSpeed;
    ShareBounds(Abs(vx), Abs(vx), c.maxSpeed);
    RampedForceBounded(ratio, c.maxJumpBonus);
  }

  /** Running faster never gives a weaker jump. */
  lemma FasterJumpsHigher(c: BallConfig, v1: real, v2: real)
    requires WellFormed(c) && Abs(v1) <= Abs(v2) <= c.maxSpeed
    ensures JumpForce(c, v2) <= JumpForce(c, v1)
  {
    var r1, r2 := Abs(v1) / c.maxSpeed, Abs(v2) / c.maxSpeed;
    ShareBounds(Abs(v1), Abs(v2), c.maxSpeed);
    assert c.maxJumpBonus * r2 - c.maxJumpBonus * r1 == c.maxJumpBonus * (r2 - r1);
    assert c.maxJumpBonus * (r2 - r1) <= 0.0;
  }

  /**
   * updateInput never moves the ball, never sets it on the ground and keeps
   * its speed within MAX_SPEED; it jumps exactly when the ball was on the
   * ground, not rising, and auto-jump or a jump key asked for it, and a jump
   * always sends it upwards.
   */
  lemma InputJumpsExactlyWhenAsked(b: Ball, ctl: Controls, s: Settings, c: BallConfig)
    requires WellFormed(c)
    ensures var r := AfterInput(b, ctl, s, c);
      r.x == b.x && r.y == b.y && r.radius == b.radius &&
      -c.maxSpeed <= r.velocityX <= c.maxSpeed &&
      (r.onGround ==> b.onGround) &&
      (b.onGround && !r.onGround <==> CanJump(b) && (s.autoJump || JumpKeyHeld(ctl.keys))) &&
      (b.onGround && !r.onGround ==> r.velocityY < 0.0)
  {
    var v := SteeredVelocity(b.velocityX, b.onGround, ctl, s, c);
    SteeredVelocityBounded(b.velocityX, b.onGround, ctl, s, c);
    JumpForceBounded(c, v);
  }

  // ---------------------------------------------------------------------------
  // Landing, cannons and the wall boost
  // ---------------------------------------------------------------------------

  /**
   * A ball that lands on a floor is afterwards on that floor by
   * isPlayerOnFloor's test, even without new landings: its bottom is on the
   * floor's top and it is grounded and at rest vertically.
   */
  lemma LandedBallRestsOnFloor(b: Ball, f: Floor)
    requires LandsOn(b, f)
    ensures var r := Landed(b, f);
      IsPlayerOnFloor(r, f, false) && r.y + r.radius == f.y && r.onGround && CanJump(r) && r.x == b.x
  {
  }

  /**
   * A cannon either shoots a ball that may ride it upwards from the floor's
   * top, off the ground, or stops any other ball on its upper end; it never
   * changes the horizontal motion.
   */
  lemma CannonCatchMeaning(b: Ball, f: Floor, c: BallConfig)
    requires WellFormed(c)
    ensures var r := CannonCatch(b, f, c);
      r.x == b.x && r.velocityX == b.velocityX && r.radius == b.radius &&
      (c.canUseCannon ==> r.velocityY < 0.0 && !r.onGround && r.y + r.radius == f.y) &&
      (!c.canUseCannon ==> r.velocityY == 0.0 && r.onGround && r.y + r.radius == f.y - CannonVerticalLength)
  {
  }

  /**
   * checkWallBoost arms the boost exactly while the ball is closer than
   * WALL_BOOST_MAX_DISTANCE to the wall it bounced off, records that gap, and
   * leaves the wall and the boost display alone.
   */
  lemma WallBoostArmsNearWall(bs: Boost, b: Ball, c: BallConfig)
    ensures var r := WallBoostCheck(bs, b, c);
      r.direction == bs.direction && r.activated == bs.activated && r.activatedFrames == bs.activatedFrames &&
      (r.canWallBoost <==>
        (bs.direction == Some(Left) && LeftWallGap(b) < c.wallBoostMaxDistance) ||
        (bs.direction == Some(Right) && RightWallGap(b) < c.wallBoostMaxDistance)) &&
      (r.canWallBoost ==> 0.0 <= r.distance < c.wallBoostMaxDistance) &&
      (!r.canWallBoost ==> r.distance == 0.0)
  {
  }

  /**
   * A wall boost sends the ball away from the wall it bounced off, at
   * WALL_BOOST_VELOCITY_X, adds WALL_BOOST_VELOCITY_Y to its vertical speed,
   * and cannot fire again until checkWallBoost arms it anew.
   */
  lemma WallBoostPushesAway(b: Ball, bs: Boost, c: BallConfig, s: Settings, pressed: Keys)
    requires WellFormed(c) && bs.direction.Some?
    ensures var r := WallBoosted(b, bs.direction, c);
      (bs.direction == Some(Left) ==> r.velocityX > 0.0) &&
      (bs.direction == Some(Right) ==> r.velocityX < 0.0) &&
      Abs(r.velocityX) == c.wallBoostVelocityX &&
      r.velocityY == b.velocityY + c.wallBoostVelocityY && r.x == b.x && r.y == b.y
    ensures !WallBoostTriggered(FiredBoost(bs), s, pressed)
  {
  }

  /** The boost display after n ticks of updateBoostEffect. */
  function CountedDown(bs: Boost, n: nat): Boost
    decreases n
  {
    if n == 0 then bs else CountedDown(BoostCountdown(bs), n - 1)
  }

  /**
   * The boost display stays on for exactly its remaining frames: within
   * them it is on with one frame fewer per tick, and from the tick after
   * them on it is off with no frames left.
   */
  lemma {:induction false} BoostDisplayLasts(bs: Boost, n: nat)
    requires bs.activated && bs.activatedFrames >= 0
    ensures n <= bs.activatedFrames ==>
      CountedDown(bs, n).activated && CountedDown(bs, n).activatedFrames == bs.activatedFrames - n
    ensures n > bs.activatedFrames ==>
      !CountedDown(bs, n).activated && CountedDown(bs, n).activatedFrames == 0
    decreases n
  {
    if n > 0 {
      var next := BoostCountdown(bs);
      if bs.activatedFrames > 0 {
        BoostDisplayLasts(next, n - 1);
      } else {
        BoostDisplayStaysOff(next, n - 1);
      }
    }
  }

  /** A display that is off stays off. */
  lemma {:induction false} BoostDisplayStaysOff(bs: Boost, n: nat)
    requires !bs.activated && bs.activatedFrames == 0
    ensures CountedDown(bs, n) == bs
    decreases n
  {
    if n > 0 {
      BoostDisplayStaysOff(BoostCountdown(bs), n - 1);
    }
  }

  /**
   * The misspelt constant in getFloorXPosition: a floor generated into an empty
   * floor list gets no position at all (NaN) as written, whatever the width and
   * the draw, while the corrected placement puts it inside the playfield.
   */
  lemma EmptyListPlacementIsNaN(width: real, r: real)
    requires 0.0 <= r < 1.0 && 0.0 <= width <= PlayfieldRight - PlayfieldLeft
    ensures FloorXPositionAsWritten(None, width, r).None?
    ensures var x := FloorXPosition(None, width, r);
      PlayfieldLeft <= x && x + width <= PlayfieldRight
  {
  }

  // ---------------------------------------------------------------------------
  // Floor order
  // ---------------------------------------------------------------------------

  lemma ConsIncreasing(x: Floor, ys: seq<Floor>)
    requires NumbersIncreasing(ys) && x.number >= 0
    requires forall g :: g in ys ==> x.number < g.number
    ensures NumbersIncreasing([x] + ys)
  {
    var zs := [x] + ys;
    forall i, j | 0 <= i < j < |zs| ensures zs[i].number < zs[j].number {
      assert zs[j] == ys[j - 1];
      if i > 0 {
        assert zs[i] == ys[i - 1];
      }
    }
  }

  /** Streaming's filter keeps the floors in increasing number order. */
  lemma {:induction false} FloorsFromKeepsOrder(fs: seq<Floor>, lowest: int)
    requires NumbersIncreasing(fs)
    ensures NumbersIncreasing(FloorsFrom(fs, lowest))
  {
    if fs != [] {
      var rest := FloorsFrom(fs[1..], lowest);
      FloorsFromKeepsOrder(fs[1..], lowest);
      if fs[0].number >= lowest && fs[0].number >= 0 {
        forall g | g in rest ensures fs[0].number < g.number {
          assert g in fs[1..];
          var k :| 0 <= k < |fs[1..]| && fs[1..][k] == g;
          assert fs[k + 1] == g;
        }
        ConsIncreasing(fs[0], rest);
        assert FloorsFrom(fs, lowest) == [fs[0]] + rest;
      } else {
        assert FloorsFrom(fs, lowest) == rest;
      }
    }
  }

  /** Helper: animation keeps a floor's number. */
  lemma AnimateKeepsNumber(f: Floor, d: Difficulty)
    ensures AnimateFloor(f, d).number == f.number
  {
  }

  /** Floor animation and shouldRemove removal keep the floors in increasing number order. */
  lemma {:induction false} AnimateAllKeepsOrder(fs: seq<Floor>, d: Difficulty)
    requires NumbersIncreasing(fs)
    ensures NumbersIncreasing(AnimateAll(fs, d))
  {
    if fs != [] {
      var rest := AnimateAll(fs[1..], d);
      AnimateAllKeepsOrder(fs[1..], d);
      if !fs[0].shouldRemove {
        AnimatedAbove(fs[1..], d, fs[0].number);
        AnimateKeepsNumber(fs[0], d);
        ConsIncreasing(AnimateFloor(fs[0], d), rest);
        assert AnimateAll(fs, d) == [AnimateFloor(fs[0], d)] + rest;
      } else {
        assert AnimateAll(fs, d) == rest;
      }
    }
  }

  /** Animated floors keep their numbers: a bound below every number still holds after updateSpecialFloors. */
  lemma AnimatedAbove(fs: seq<Floor>, d: Difficulty, n: int)
    requires forall i :: 0 <= i < |fs| ==> n < fs[i].number
    ensures forall g :: g in AnimateAll(fs, d) ==> n < g.number
  {
    AnimateAllNumbers(fs, d);
    forall g | g in AnimateAll(fs, d) ensures n < g.number {
      var k :| 0 <= k < |fs| && !fs[k].shouldRemove && g == AnimateFloor(fs[k], d);
      AnimateKeepsNumber(fs[k], d);
    }
  }

  /** Fading and removal of faded floors keep the floors in increasing number order. */
  lemma {:induction false} FadeAllKeepsOrder(fs: seq<Floor>, speed: real)
    requires NumbersIncreasing(fs)
    ensures NumbersIncreasing(FadeAll(fs, speed))
  {
    if fs != [] {
      var rest := FadeAll(fs[1..], speed);
      FadeAllKeepsOrder(fs[1..], speed);
      if !FadedOut(FadeFloor(fs[0], speed)) {
        FadedAbove(fs[1..], speed, fs[0].number);
        assert FadeFloor(fs[0], speed).number == fs[0].number;
        ConsIncreasing(FadeFloor(fs[0], speed), rest);
        assert FadeAll(fs, speed) == [FadeFloor(fs[0], speed)] + rest;
      } else {
        assert FadeAll(fs, speed) == rest;
      }
    }
  }

  /** Fading keeps floor numbers: a bound below every number still holds after updateFadingFloors. */
  lemma FadedAbove(fs: seq<Floor>, speed: real, n: int)
    requires forall i :: 0 <= i < |fs| ==> n < fs[i].number
    ensures forall g :: g in FadeAll(fs, speed) ==> n < g.number
  {
    FadeAllKeeps(fs, speed);
    forall g | g in FadeAll(fs, speed) ensures n < g.number {
      var k :| 0 <= k < |fs| && g == FadeFloor(fs[k], speed);
      assert g.number == fs[k].number;
    }
  }

  /** Appending floors numbered consecutively after the highest keeps the order. */
  lemma AppendKeepsOrder(fs: seq<Floor>, added: seq<Floor>, h: int)
    requires NumbersIncreasing(fs) && h >= 0
    requires forall i :: 0 <= i < |fs| ==> fs[i].number <= h
    requires forall i :: 0 <= i < |added| ==> added[i].number == h + 1 + i
    ensures NumbersIncreasing(fs + added)
  {
    var zs := fs + added;
    forall i, j | 0 <= i < j < |zs| ensures zs[i].number < zs[j].number {
      if j >= |fs| {
        assert zs[j] == added[j - |fs|];
        if i >= |fs| {
          assert zs[i] == added[i - |fs|];
        }
      }
    }
  }

  /** Replacing a floor by one with the same number keeps the list in order. */
  lemma ReplaceKeepsOrder(fs: seq<Floor>, k: nat, g: Floor)
    requires NumbersIncreasing(fs) && k < |fs| && g.number == fs[k].number
    ensures NumbersIncreasing(fs[k := g])
  {
    var zs := fs[k := g];
    assert forall i :: 0 <= i < |zs| ==> zs[i].number == fs[i].number;
  }

  /** The highest number of an ordered list is never negative. */
  lemma HighestNumberBound(fs: seq<Floor>)
    requires NumbersIncreasing(fs)
    ensures HighestNumber(fs) >= 0
  {
    if fs != [] {
      assert fs[0].number <= HighestNumber(fs);
    }
  }

  /** A floor kept by the sweep below `lowest` bounds the highest number from below. */
  lemma KeptBelowHighest(fs: seq<Floor>, f: Floor, lowest: int)
    requires f in fs && f.number >= lowest && f.number >= 0
    ensures f.number <= HighestNumber(FloorsFrom(fs, lowest))
  {
    var r := FloorsFrom(fs, lowest);
    assert f in r;
    var k :| 0 <= k < |r| && r[k] == f;
  }

  /**
   * After the generation loop and the sweep below the lowest needed floor, a
   * floor numbered at least the target remains: the last one generated, or,
   * when nothing was generated, the highest floor that was already there.
   */
  lemma GeneratedReachesTarget(fs: seq<Floor>, added: seq<Floor>, target: int, lowest: int)
    requires NumbersIncreasing(fs) && lowest < target
    requires |added| == MaxInt(0, target - HighestNumber(fs))
    requires forall i :: 0 <= i < |added| ==> added[i].number == HighestNumber(fs) + 1 + i
    ensures HighestNumber(FloorsFrom(fs + added, lowest)) >= target
  {
    var h := HighestNumber(fs);
    HighestNumberBound(fs);
    if |added| > 0 {
      var top := added[|added| - 1];
      assert top.number == h + |added| == target;
      assert top in fs + added;
      KeptBelowHighest(fs + added, top, lowest);
    } else if fs != [] {
      var j :| 0 <= j < |fs| && fs[j].number == h;
      assert fs[j] in fs + added;
      KeptBelowHighest(fs + added, fs[j], lowest);
    }
  }

  // ---------------------------------------------------------------------------
  // One step of the backwards loops
  // ---------------------------------------------------------------------------

  /** The collection sweep over a suffix starting at i: coin i first, then the rest. */
  lemma UntouchedStep(cs: seq<Coin>, i: nat, b: Ball)
    requires i < |cs|
    ensures Untouched(cs[i..], b) == (if Touches(b, cs[i]) then [] else [cs[i]]) + Untouched(cs[i + 1..], b)
    ensures TouchedCount(cs[i..], b) == (if Touches(b, cs[i]) then 1 else 0) + TouchedCount(cs[i + 1..], b)
  {
    assert cs[i..][1..] == cs[i + 1..];
  }

  /** The animation over a suffix starting at i: floor i first, then the rest. */
  lemma AnimateAllStep(fs: seq<Floor>, i: nat, d: Difficulty)
    requires i < |fs|
    ensures AnimateAll(fs[i..], d) == (if fs[i].shouldRemove then [] else [AnimateFloor(fs[i], d)]) + AnimateAll(fs[i + 1..], d)
    ensures RemovedNumbers(fs[i..]) == (if fs[i].shouldRemove then {fs[i].number} else {}) + RemovedNumbers(fs[i + 1..])
  {
    assert fs[i..][1..] == fs[i + 1..];
  }

  /** A list cut around one element: the parts before and after it, and the element replaced. */
  lemma Splice<T>(pre: seq<T>, x: T, rest: seq<T>, y: T)
    ensures var s := pre + [x] + rest;
      |s| == |pre| + 1 + |rest| && s[|pre|] == x && s[..|pre|] + s[|pre| + 1..] == pre + rest &&
      s[|pre| := y] == pre + [y] + rest
  {
    var s := pre + [x] + rest;
    assert s[..|pre|] == pre && s[|pre| + 1..] == rest;
  }

  /**
   * One pass of the backwards removal loop of updateSpecialFloors on the
   * floors: from the list whose floors above i are done, removing or
   * animating floor i gives the list whose floors from i on are done.
   */
  lemma AnimateLoopFloors(fs0: seq<Floor>, i: nat, d: Difficulty)
    requires i < |fs0|
    ensures var fs := fs0[..i + 1] + AnimateAll(fs0[i + 1..], d);
      fs[i] == fs0[i] &&
      (if fs0[i].shouldRemove then fs[..i] + fs[i + 1..] else fs[i := AnimateFloor(fs0[i], d)]) ==
        fs0[..i] + AnimateAll(fs0[i..], d)
  {
    var pre, rest, y := fs0[..i], AnimateAll(fs0[i + 1..], d), AnimateFloor(fs0[i], d);
    AnimateAllStep(fs0, i, d);
    assert fs0[..i + 1] == pre + [fs0[i]];
    Splice(pre, fs0[i], rest, y);
    if fs0[i].shouldRemove {
      assert AnimateAll(fs0[i..], d) == rest;
    } else {
      assert pre + ([y] + rest) == pre + [y] + rest;
    }
  }

  /** The same pass on the coins: removing floor i drops its coins as well. */
  lemma AnimateLoopCoins(fs0: seq<Floor>, cs0: seq<Coin>, i: nat)
    requires i < |fs0|
    ensures var cs := CoinsNotOn(cs0, RemovedNumbers(fs0[i + 1..]));
      (if fs0[i].shouldRemove then CoinsNotOn(cs, {fs0[i].number}) else cs) ==
        CoinsNotOn(cs0, RemovedNumbers(fs0[i..]))
  {
    AnimateAllStep(fs0, i, InitialDifficulty);
    if fs0[i].shouldRemove {
      CoinsNotOnTwice(cs0, RemovedNumbers(fs0[i + 1..]), {fs0[i].number});
      assert RemovedNumbers(fs0[i..]) == RemovedNumbers(fs0[i + 1..]) + {fs0[i].number};
    } else {
      assert RemovedNumbers(fs0[i..]) == RemovedNumbers(fs0[i + 1..]);
    }
  }

  /** One pass of the backwards removal loop of updateFadingFloors on the floors. */
  lemma FadeLoopFloors(fs0: seq<Floor>, i: nat, speed: real)
    requires i < |fs0|
    ensures var fs := fs0[..i + 1] + FadeAll(fs0[i + 1..], speed);
      var f := FadeFloor(fs0[i], speed);
      fs[i] == fs0[i] &&
      (if FadedOut(f) then fs[..i] + fs[i + 1..] else fs[i := f]) == fs0[..i] + FadeAll(fs0[i..], speed)
  {
    var pre, rest, f := fs0[..i], FadeAll(fs0[i + 1..], speed), FadeFloor(fs0[i], speed);
    FadeAllStep(fs0, i, speed);
    assert fs0[..i + 1] == pre + [fs0[i]];
    Splice(pre, fs0[i], rest, f);
    if FadedOut(f) {
      assert FadeAll(fs0[i..], speed) == rest;
    } else {
      assert pre + ([f] + rest) == pre + [f] + rest;
    }
  }

  /** The same pass on the coins: a floor that fades out takes its coins with it. */
  lemma FadeLoopCoins(fs0: seq<Floor>, cs0: seq<Coin>, i: nat, speed: real)
    requires i < |fs0|
    ensures var cs := CoinsNotOn(cs0, FadedOutNumbers(fs0[i + 1..], speed));
      var f := FadeFloor(fs0[i], speed);
      (if FadedOut(f) then CoinsNotOn(cs, {f.number}) else cs) ==
        CoinsNotOn(cs0, FadedOutNumbers(fs0[i..], speed))
  {
    FadeAllStep(fs0, i, speed);
    var f := FadeFloor(fs0[i], speed);
    if FadedOut(f) {
      CoinsNotOnTwice(cs0, FadedOutNumbers(fs0[i + 1..], speed), {f.number});
      assert FadedOutNumbers(fs0[i..], speed) == FadedOutNumbers(fs0[i + 1..], speed) + {f.number};
    } else {
      assert FadedOutNumbers(fs0[i..], speed) == FadedOutNumbers(fs0[i + 1..], speed);
    }
  }

  /** The fade-out over a suffix starting at i: floor i first, then the rest. */
  lemma FadeAllStep(fs: seq<Floor>, i: nat, speed: real)
    requires i < |fs|
    ensures var f := FadeFloor(fs[i], speed);
      FadeAll(fs[i..], speed) == (if FadedOut(f) then [] else [f]) + FadeAll(fs[i + 1..], speed) &&
      FadedOutNumbers(fs[i..], speed) == (if FadedOut(f) then {fs[i].number} else {}) + FadedOutNumbers(fs[i + 1..], speed)
  {
    assert fs[i..][1..] == fs[i + 1..];
  }
}
