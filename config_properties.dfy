/**
 * Properties of the configuration resolver in js/config.js: which entries it
 * applies, what each upgrade effect changes, and that within one archetype the
 * result does not depend on the order of the player's upgrade entries.
 */
module ConfigProperties {
  import opened Wrappers
  import opened GameConfig

  /** Upgrade ids are the keys of a map: no id occurs twice. */
  ghost predicate DistinctIds(es: seq<Entry>) {
    forall i, j :: 0 <= i < j < |es| ==> es[i].id != es[j].id
  }

  // ---------------------------------------------------------------------------
  // Skipped entries
  // ---------------------------------------------------------------------------

  /** An archetype without definitions (an unknown id) ignores every entry. */
  lemma {:induction false} NoDefinitionsNoChange(ballType: string, c: BallConfig, es: seq<Entry>)
    requires UpgradeDefinitions(ballType) == []
    ensures ApplyEntries(ballType, c, es) == c
    decreases |es|
  {
    if es != [] {
      assert ApplyEntry(ballType, c, es[0]) == c;
      NoDefinitionsNoChange(ballType, c, es[1..]);
    }
  }

  /** Entries that are inactive, at level 0 or of an unknown id leave the configuration as it is. */
  lemma {:induction false} SkippedEntriesNoChange(ballType: string, c: BallConfig, es: seq<Entry>)
    requires forall k :: 0 <= k < |es| ==> !Applies(ballType, es[k])
    ensures ApplyEntries(ballType, c, es) == c
    decreases |es|
  {
    if es != [] {
      SkippedEntriesNoChange(ballType, c, es[1..]);
    }
  }

  /**
   * getBallConfigWithUpgrades returns the base configuration unchanged when the
   * player has no upgrades for the archetype or the archetype has no definitions;
   * an unknown archetype resolves to the standard ball.
   */
  lemma NoUpgradesGivesBase(ballType: string, playerUpgrades: map<string, seq<Entry>>)
    requires UpgradesFor(playerUpgrades, ballType) == [] || !IsKnownBall(ballType)
    ensures BallConfigWithUpgrades(ballType, playerUpgrades) == BaseBallConfig(ballType)
    ensures !IsKnownBall(ballType) ==> BallConfigWithUpgrades(ballType, playerUpgrades) == StandardBallConfig
  {
    if IsKnownBall(ballType) {
    } else {
      NoDefinitionsNoChange(ballType, BaseBallConfig(ballType), UpgradesFor(playerUpgrades, ballType));
    }
  }

  // ---------------------------------------------------------------------------
  // What each effect changes
  // ---------------------------------------------------------------------------

  /** 'speed' adds 0.1 to ACCELERATION (0.05 for the rubber ball), whatever the level. */
  lemma SpeedEffect(ballType: string, c: BallConfig, level: int)
    requires IsKnownBall(ballType)
    ensures FindDefinition(ballType, "speed").Some?
    ensures ApplyEffect(FindDefinition(ballType, "speed").value.effect, c, level)
         == c.(acceleration := c.acceleration + (if ballType == Rubber then 0.05 else 0.1))
  {
  }

  /** 'jump' multiplies both jump forces by 1 + 0.2 * level and changes no other field. */
  lemma JumpEffect(ballType: string, c: BallConfig, level: int)
    requires IsKnownBall(ballType)
    ensures FindDefinition(ballType, "jump").Some?
    ensures ApplyEffect(FindDefinition(ballType, "jump").value.effect, c, level)
         == c.(baseJumpForce := c.baseJumpForce * JumpMultiplier(level),
               maxJumpBonus := c.maxJumpBonus * JumpMultiplier(level))
    ensures JumpMultiplier(level) == 1.0 + 0.2 * level as real
  {
  }

  /** 'coin_magnet' switches the magnet on from level 1 with range/force 250/2, 350/5 from level 2, 500/10 from level 3. */
  lemma CoinMagnetEffect(c: BallConfig, level: int)
    ensures FindDefinition(Standard, "coin_magnet").Some?
    ensures var r := ApplyEffect(FindDefinition(Standard, "coin_magnet").value.effect, c, level);
      (level < 1 ==> r == c) &&
      (level == 1 ==> r == c.(magnetEnabled := true, magnetRange := 250.0, magnetForce := 2.0)) &&
      (level == 2 ==> r == c.(magnetEnabled := true, magnetRange := 350.0, magnetForce := 5.0)) &&
      (level >= 3 ==> r == c.(magnetEnabled := true, magnetRange := 500.0, magnetForce := 10.0))
  {
  }

  /**
   * The rubber ball's 'wall_boost' adds 2 to both boost velocities whatever the
   * level. Since the vertical boost velocity is negative (upwards), the upgrade
   * shrinks the upward kick of the base rubber ball from 20 to 18.
   */
  lemma WallBoostEffect(c: BallConfig, level: int)
    ensures FindDefinition(Rubber, "wall_boost").Some?
    ensures ApplyEffect(FindDefinition(Rubber, "wall_boost").value.effect, c, level)
         == c.(wallBoostVelocityX := c.wallBoostVelocityX + 2.0, wallBoostVelocityY := c.wallBoostVelocityY + 2.0)
    ensures var r := ApplyEffect(FindDefinition(Rubber, "wall_boost").value.effect, RubberBallConfig, level);
      r.wallBoostVelocityY == -18.0 && r.wallBoostVelocityX == 10.0
  {
  }

  /** 'wind_resistance' scales both wind force bounds by 1 - 0.15 * level. */
  lemma WindResistanceEffect(c: BallConfig, level: int)
    ensures FindDefinition(Beach, "wind_resistance").Some?
    ensures ApplyEffect(FindDefinition(Beach, "wind_resistance").value.effect, c, level)
         == c.(windMaxForce := c.windMaxForce * WindResistanceFactor(level),
               windMinForce := c.windMinForce * WindResistanceFactor(level))
    ensures WindResistanceFactor(level) == 1.0 - 0.15 * level as real
  {
  }

  /** 'cannon_boost' scales the cannon force by 1 + 0.25 * level. */
  lemma CannonBoostEffect(c: BallConfig, level: int)
    ensures FindDefinition(Golf, "cannon_boost").Some?
    ensures ApplyEffect(FindDefinition(Golf, "cannon_boost").value.effect, c, level)
         == c.(cannonBoostForce := c.cannonBoostForce * CannonBoostMultiplier(level))
    ensures CannonBoostMultiplier(level) == 1.0 + 0.25 * level as real
  {
  }

  /** getUpgradePrice is strictly increasing in the level. */
  lemma UpgradePriceIncreasing(basePrice: int, l1: int, l2: int)
    requires l1 < l2
    ensures UpgradePrice(basePrice, l1) + 50 <= UpgradePrice(basePrice, l2)
  {
  }

  // ---------------------------------------------------------------------------
  // Well-formedness is kept by every upgrade
  // ---------------------------------------------------------------------------

  lemma EffectKeepsWellFormed(e: Effect, c: BallConfig, level: int)
    requires WellFormed(c) && level > 0
    ensures WellFormed(ApplyEffect(e, c, level))
  {
    if e.Jump? {
      var m := JumpMultiplier(level);
      assert m > 0.0;
      assert c.baseJumpForce * m < 0.0;
      assert c.maxJumpBonus * m <= 0.0;
    } else if e.CannonBoost? {
      var m := CannonBoostMultiplier(level);
      assert m > 0.0;
      assert c.cannonBoostForce * m < 0.0;
    }
  }

  lemma {:induction false} EntriesKeepWellFormed(ballType: string, c: BallConfig, es: seq<Entry>)
    requires WellFormed(c)
    ensures WellFormed(ApplyEntries(ballType, c, es))
    decreases |es|
  {
    if es != [] {
      var c1 := ApplyEntry(ballType, c, es[0]);
      if Applies(ballType, es[0]) {
        EffectKeepsWellFormed(FindDefinition(ballType, es[0].id).value.effect, c, es[0].data.level);
      }
      EntriesKeepWellFormed(ballType, c1, es[1..]);
    }
  }

  /** Every resolved configuration is well formed, whatever the player bought. */
  lemma ResolvedConfigWellFormed(ballType: string, playerUpgrades: map<string, seq<Entry>>)
    ensures WellFormed(BallConfigWithUpgrades(ballType, playerUpgrades))
  {
    EntriesKeepWellFormed(ballType, BaseBallConfig(ballType), UpgradesFor(playerUpgrades, ballType));
  }

  // ---------------------------------------------------------------------------
  // Order independence
  // ---------------------------------------------------------------------------

  /** Effects of different kinds write disjoint fields and read only the fields they write, so they commute. */
  lemma EffectsCommute(a: Effect, b: Effect, c: BallConfig, la: int, lb: int)
    requires !SameKind(a, b)
    ensures ApplyEffect(b, ApplyEffect(a, c, la), lb) == ApplyEffect(a, ApplyEffect(b, c, lb), la)
  {
    match a
    case Speed(_) => SpeedCommutes(a, b, c, la, lb);
    case Jump => JumpCommutes(a, b, c, la, lb);
    case CoinMagnet => CoinMagnetCommutes(a, b, c, la, lb);
    case WallBoost => WallBoostCommutes(a, b, c, la, lb);
    case WindResistance => WindResistanceCommutes(a, b, c, la, lb);
    case CannonBoost => CannonBoostCommutes(a, b, c, la, lb);
  }

  lemma SpeedCommutes(a: Effect, b: Effect, c: BallConfig, la: int, lb: int)
    requires a.Speed? && !SameKind(a, b)
    ensures ApplyEffect(b, ApplyEffect(a, c, la), lb) == ApplyEffect(a, ApplyEffect(b, c, lb), la)
  {
    match b
    case Speed(_) =>
    case Jump =>
    case CoinMagnet =>
    case WallBoost =>
    case WindResistance =>
    case CannonBoost =>
  }

  lemma JumpCommutes(a: Effect, b: Effect, c: BallConfig, la: int, lb: int)
    requires a.Jump? && !SameKind(a, b)
    ensures ApplyEffect(b, ApplyEffect(a, c, la), lb) == ApplyEffect(a, ApplyEffect(b, c, lb), la)
  {
    match b
    case Speed(_) =>
    case Jump =>
    case CoinMagnet =>
    case WallBoost =>
    case WindResistance =>
    case CannonBoost =>
  }

  lemma CoinMagnetCommutes(a: Effect, b: Effect, c: BallConfig, la: int, lb: int)
    requires a.CoinMagnet? && !SameKind(a, b)
    ensures ApplyEffect(b, ApplyEffect(a, c, la), lb) == ApplyEffect(a, ApplyEffect(b, c, lb), la)
  {
    match b
    case Speed(_) =>
    case Jump =>
    case CoinMagnet =>
    case WallBoost =>
    case WindResistance =>
    case CannonBoost =>
  }

  lemma WallBoostCommutes(a: Effect, b: Effect, c: BallConfig, la: int, lb: int)
    requires a.WallBoost? && !SameKind(a, b)
    ensures ApplyEffect(b, ApplyEffect(a, c, la), lb) == ApplyEffect(a, ApplyEffect(b, c, lb), la)
  {
    match b
    case Speed(_) =>
    case Jump =>
    case CoinMagnet =>
    case WallBoost =>
    case WindResistance =>
    case CannonBoost =>
  }

  lemma WindResistanceCommutes(a: Effect, b: Effect, c: BallConfig, la: int, lb: int)
    requires a.WindResistance? && !SameKind(a, b)
    ensures ApplyEffect(b, ApplyEffect(a, c, la), lb) == ApplyEffect(a, ApplyEffect(b, c, lb), la)
  {
    match b
    case Speed(_) =>
    case Jump =>
    case CoinMagnet =>
    case WallBoost =>
    case WindResistance =>
    case CannonBoost =>
  }

  lemma CannonBoostCommutes(a: Effect, b: Effect, c: BallConfig, la: int, lb: int)
    requires a.CannonBoost? && !SameKind(a, b)
    ensures ApplyEffect(b, ApplyEffect(a, c, la), lb) == ApplyEffect(a, ApplyEffect(b, c, lb), la)
  {
    match b
    case Speed(_) =>
    case Jump =>
    case CoinMagnet =>
    case WallBoost =>
    case WindResistance =>
    case CannonBoost =>
  }

  /** Within one archetype, different upgrade ids carry effects of different kinds. */
  lemma DistinctIdsDistinctKinds(ballType: string, d1: UpgradeDef, d2: UpgradeDef)
    requires d1 in UpgradeDefinitions(ballType) && d2 in UpgradeDefinitions(ballType)
    requires d1.id != d2.id
    ensures !SameKind(d1.effect, d2.effect)
  {
  }

  /** Within one archetype, entries with different ids commute. */
  lemma EntriesCommute(ballType: string, c: BallConfig, x: Entry, y: Entry)
    requires x.id != y.id
    ensures ApplyEntry(ballType, ApplyEntry(ballType, c, x), y) == ApplyEntry(ballType, ApplyEntry(ballType, c, y), x)
  {
    if Applies(ballType, x) && Applies(ballType, y) {
      var dx, dy := FindDefinition(ballType, x.id).value, FindDefinition(ballType, y.id).value;
      DistinctIdsDistinctKinds(ballType, dx, dy);
      EffectsCommute(dx.effect, dy.effect, c, x.data.level, y.data.level);
    }
  }

  lemma {:induction false} ApplyEntriesAppend(ballType: string, c: BallConfig, xs: seq<Entry>, ys: seq<Entry>)
    ensures ApplyEntries(ballType, c, xs + ys) == ApplyEntries(ballType, ApplyEntries(ballType, c, xs), ys)
    decreases |xs|
  {
    if xs != [] {
      assert (xs + ys)[0] == xs[0] && (xs + ys)[1..] == xs[1..] + ys;
      var c1 := ApplyEntry(ballType, c, xs[0]);
      assert ApplyEntries(ballType, c, xs + ys) == ApplyEntries(ballType, c1, xs[1..] + ys);
      ApplyEntriesAppend(ballType, c1, xs[1..], ys);
    } else {
      assert xs + ys == ys;
    }
  }

  /** An entry whose id occurs nowhere in `ys` can be applied before or after them. */
  lemma {:induction false} CommuteThrough(ballType: string, c: BallConfig, x: Entry, ys: seq<Entry>)
    requires forall k :: 0 <= k < |ys| ==> ys[k].id != x.id
    ensures ApplyEntries(ballType, ApplyEntry(ballType, c, x), ys) == ApplyEntry(ballType, ApplyEntries(ballType, c, ys), x)
    decreases |ys|
  {
    if ys != [] {
      EntriesCommute(ballType, c, x, ys[0]);
      CommuteThrough(ballType, ApplyEntry(ballType, c, ys[0]), x, ys[1..]);
    }
  }

  /** Applying `ys` with `x` spliced in at position k is applying the rest and then `x`. */
  lemma PullOut(ballType: string, c: BallConfig, ys: seq<Entry>, k: nat)
    requires k < |ys|
    requires forall j :: 0 <= j < |ys| && j != k ==> ys[j].id != ys[k].id
    ensures ApplyEntries(ballType, c, ys) == ApplyEntry(ballType, ApplyEntries(ballType, c, ys[..k] + ys[k + 1..]), ys[k])
  {
    var x, pre, post := ys[k], ys[..k], ys[k + 1..];
    assert ys == pre + ([x] + post);
    ApplyEntriesAppend(ballType, c, pre, [x] + post);
    var a := ApplyEntries(ballType, c, pre);
    assert ([x] + post)[0] == x && ([x] + post)[1..] == post;
    assert ApplyEntries(ballType, a, [x] + post) == ApplyEntries(ballType, ApplyEntry(ballType, a, x), post);
    forall j | 0 <= j < |post| ensures post[j].id != x.id {
      assert post[j] == ys[k + 1 + j];
    }
    CommuteThrough(ballType, a, x, post);
    ApplyEntriesAppend(ballType, c, pre, post);
  }

  /** Removing the first element of xs and its occurrence k in ys keeps the multisets equal. */
  lemma RemoveMatching(xs: seq<Entry>, ys: seq<Entry>, k: nat)
    requires xs != [] && k < |ys| && ys[k] == xs[0]
    requires multiset(xs) == multiset(ys)
    ensures multiset(xs[1..]) == multiset(ys[..k] + ys[k + 1..])
  {
    assert xs == [xs[0]] + xs[1..];
    assert multiset(xs[1..]) == multiset(xs) - multiset{xs[0]};
    assert ys == ys[..k] + [ys[k]] + ys[k + 1..];
    assert multiset(ys[..k] + ys[k + 1..]) == multiset(ys) - multiset{ys[k]};
  }

  /**
   * With distinct ids and the first entry matched at k of a rearrangement,
   * the other entries of the rearrangement carry other ids, and the rest of
   * the original still has distinct ids.
   */
  lemma MatchedRestDiffers(xs: seq<Entry>, ys: seq<Entry>, k: nat)
    requires DistinctIds(xs) && xs != [] && k < |ys| && ys[k] == xs[0]
    requires multiset(xs[1..]) == multiset(ys[..k] + ys[k + 1..])
    ensures forall j :: 0 <= j < |ys| && j != k ==> ys[j].id != xs[0].id
    ensures DistinctIds(xs[1..])
  {
    var ys' := ys[..k] + ys[k + 1..];
    forall j | 0 <= j < |ys| && j != k ensures ys[j].id != xs[0].id {
      var y := ys[j];
      assert y == if j < k then ys'[j] else ys'[j - 1];
      assert y in multiset(xs[1..]);
      var i :| 0 <= i < |xs| - 1 && xs[1..][i] == y;
      assert xs[i + 1] == y;
    }
    forall i, j | 0 <= i < j < |xs| - 1 ensures xs[1..][i].id != xs[1..][j].id {
      assert xs[1..][i] == xs[i + 1] && xs[1..][j] == xs[j + 1];
    }
  }

  /**
   * applyUpgradesToConfig folds in the map's entry order, yet the result does not
   * depend on that order: any rearrangement of the entries gives the same configuration.
   */
  lemma {:induction false} OrderIndependent(ballType: string, c: BallConfig, xs: seq<Entry>, ys: seq<Entry>)
    requires DistinctIds(xs)
    requires multiset(xs) == multiset(ys)
    ensures ApplyEntries(ballType, c, xs) == ApplyEntries(ballType, c, ys)
    decreases |xs|
  {
    if xs == [] {
      assert |ys| == |multiset(ys)| == 0;
    } else {
      var x := xs[0];
      assert x in multiset(ys);
      var k :| 0 <= k < |ys| && ys[k] == x;
      var ys' := ys[..k] + ys[k + 1..];
      RemoveMatching(xs, ys, k);
      MatchedRestDiffers(xs, ys, k);
      OrderIndependent(ballType, ApplyEntry(ballType, c, x), xs[1..], ys');
      forall j | 0 <= j < |ys'| ensures ys'[j].id != x.id {
        assert ys'[j] == if j < k then ys[j] else ys[j + 1];
      }
      CommuteThrough(ballType, c, x, ys');
      PullOut(ballType, c, ys, k);
    }
  }

  /** The resolved configuration does not depend on the order of the player's upgrade entries. */
  lemma ResolutionOrderIndependent(ballType: string, playerUpgrades: map<string, seq<Entry>>, reordered: seq<Entry>)
    requires ballType in playerUpgrades && DistinctIds(playerUpgrades[ballType])
    requires multiset(reordered) == multiset(playerUpgrades[ballType])
    ensures BallConfigWithUpgrades(ballType, playerUpgrades[ballType := reordered])
         == BallConfigWithUpgrades(ballType, playerUpgrades)
  {
    OrderIndependent(ballType, BaseBallConfig(ballType), playerUpgrades[ballType], reordered);
  }
}
