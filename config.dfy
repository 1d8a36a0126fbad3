/**
 * The game's configuration (js/config.js): the global constants, the four ball
 * archetypes, the per-archetype upgrade definitions and the resolver that folds
 * purchased upgrades over an archetype's base configuration.
 *
 * All quantities are exact: positions, speeds and factors are `real`, prices,
 * levels and tick counts are `int`.
 */
module GameConfig {
  import opened Wrappers

  // ---------------------------------------------------------------------------
  // Global constants (js/config.js:2-157)
  // ---------------------------------------------------------------------------

  const CanvasWidth: real := 430.0
  const CanvasHeight: real := 932.0
  const PlayerStartX: real := CanvasWidth / 2.0
  const PlayerStartY: real := CanvasHeight - 100.0
  const WallThickness: real := 10.0
  const WallLeftX: real := 0.0
  const WallRightX: real := CanvasWidth
  const CameraThreshold: real := 200.0

  const FloorHeight: real := 15.0
  const StartFloorWidth: real := 410.0
  const FloorMinWidth: real := 70.0
  const FloorMaxWidth: real := 215.0
  const FloorVerticalSpacing: real := 150.0
  const FloorMaxHorizontalGap: real := 330.0
  const FloorMargin: real := 10.0
  const SpecialFloorInterval: int := 100
  const SpecialFloorWidth: real := 410.0
  const FloorsToGenerateAhead: int := 10
  const FloorsToGenerateBehind: int := 10000
  const FloorFadeStartAtScore: int := 5
  const FloorFadeInitialDelay: int := 180
  const FloorFadeTimeBetweenFloors: int := 30
  const FloorFadeMaxFloorsAtOnce: int := 10000
  const FloorFadeAlphaSpeed: real := 0.02
  const FloorFadeMinAlpha: real := 0.1
  const FadingFloorMinAlphaForCollision: real := 0.1
  const GameOverFallThreshold: real := 1000.0

  const MovingFloorEnabled: bool := true
  const MovingFloorMinWidth: real := 70.0
  const MovingFloorMaxWidth: real := 215.0
  const MovingFloorSpeed: real := 2.0
  const MovingFloorRange: real := 120.0
  const MovingFloorMinX: real := 10.0
  const MovingFloorMaxX: real := 420.0
  const ShrinkingFloorEnabled: bool := true
  const ShrinkingFloorMinWidth: real := 7.0
  const ShrinkingFloorShrinkSpeed: real := 0.2
  const ShrinkingFloorStartDelay: real := 180.0
  const BreakingFloorEnabled: bool := true
  const BreakingFloorMinWidth: real := 70.0
  const BreakingFloorMaxWidth: real := 150.0
  const BreakingFloorFadeSpeed: real := 0.03
  const BaseMovingFloorChance: real := 0.1
  const BaseShrinkingFloorChance: real := 0.1
  const BaseBreakingFloorChance: real := 0.05

  const DifficultyEnabled: bool := true
  const DifficultyStartAtScore: int := 5
  const DifficultyFloorFadeMultiplier: real := 1.5
  const DifficultyMaxFadeMultiplier: real := 5.0
  const DifficultyMaxChance: real := 0.3
  const DifficultyMovingSpeedMultiplier: real := 1.5
  const DifficultyMovingRangeMultiplier: real := 1.3
  const DifficultyShrinkingMinWidthMultiplier: real := 0.7
  const DifficultyShrinkingSpeedMultiplier: real := 1.5
  const DifficultyShrinkingDelayMultiplier: real := 0.5
  const DifficultyBreakingFadeSpeedMultiplier: real := 2.0

  const CannonEnabled: bool := true
  const CannonChance: real := 0.02
  const CannonHorizontalLength: real := 20.0
  const CannonVerticalLength: real := 10.0

  const CcdEnabled: bool := true
  const CcdMaxSteps: int := 10
  const CcdMinVelocityForSteps: real := 8.0

  const GameOverEnabled: bool := true

  const CoinsEnabled: bool := true
  const CoinChanceBase: real := 0.15
  const CoinChancePerFloor: real := 0.005
  const CoinMaxChance: real := 0.8
  const MinFloorForCoins: int := 1
  const MinCoinsPerFloor: int := 1
  const MaxCoinsPerFloor: int := 3
  const CoinsPerFloorMultiplier: real := 1.005
  const CoinYOffset: real := -15.0
  const CoinRadius: real := 6.0

  const ShowBoostActivated: bool := true
  const BoostActivatedDuration: int := 10

  // ---------------------------------------------------------------------------
  // Ball archetypes (js/config.js:13-18, 170-183)
  // ---------------------------------------------------------------------------

  const Standard: string := "standard"
  const Rubber: string := "rubber"
  const Beach: string := "beach"
  const Golf: string := "golf"

  predicate IsKnownBall(ballType: string) {
    ballType == Standard || ballType == Rubber || ballType == Beach || ballType == Golf
  }

  /** getBallDisplayName: the display name, or the id itself for an unknown archetype. */
  function BallDisplayName(ballType: string): (name: string)
    ensures !IsKnownBall(ballType) ==> name == ballType
    ensures IsKnownBall(ballType) ==> name != ballType
  {
    if ballType == Standard then "Standard"
    else if ballType == Rubber then "Gum"
    else if ballType == Beach then "Beach"
    else if ballType == Golf then "Golf"
    else ballType
  }

  /** getBallUnlockPrice: the unlock price, 0 for an unknown archetype. */
  function BallUnlockPrice(ballType: string): (price: int)
    ensures price >= 0
    ensures !IsKnownBall(ballType) ==> price == 0
    ensures price > 0 <==> (ballType == Rubber || ballType == Beach || ballType == Golf)
  {
    if ballType == Rubber then 50
    else if ballType == Beach then 100
    else if ballType == Golf then 150
    else 0
  }

  // ---------------------------------------------------------------------------
  // Ball configuration record (js/config.js:188-420)
  // ---------------------------------------------------------------------------

  datatype BallConfig = BallConfig(
    radius: real,
    color: string,
    acceleration: real,
    maxSpeed: real,
    groundFriction: real,
    airResistance: real,
    gravity: real,
    baseJumpForce: real,
    maxJumpBonus: real,
    wallBounceFactor: real,
    minBounceVelocity: real,
    wallBoostEnabled: bool,
    wallBoostMinVelocity: real,
    wallBoostMaxDistance: real,
    wallBoostVelocityX: real,
    wallBoostVelocityY: real,
    floorReachThreshold: real,
    floorCollisionTolerance: real,
    windEnabled: bool,
    windDebugDisplay: bool,
    windMaxForce: real,
    windMinForce: real,
    windMinBurstDuration: int,
    windMaxBurstDuration: int,
    windMinBreakDuration: int,
    windMaxBreakDuration: int,
    windRampUpMinTime: int,
    windRampUpMaxTime: int,
    windRampDownMinTime: int,
    windRampDownMaxTime: int,
    windAffectsGrounded: bool,
    windAffectsAir: bool,
    windAirMultiplier: real,
    canUseCannon: bool,
    cannonBoostForce: real,
    magnetEnabled: bool,
    magnetRange: real,
    magnetForce: real)

  /**
   * What the simulation needs of a configuration: a ball that fits between the
   * walls, a positive speed cap (the jump divides by it), a jump that always
   * goes upwards and grows with speed, friction factors that
   * only slow the ball down, wall bounces and wall boosts that push away from
   * the wall, wind timings whose ramp phases last at least one
   * tick (the ramp formulas divide by timer + 1), and a cannon force that
   * launches upwards (a zero force would fall back to a global the
   * configuration does not define).
   */
  predicate WellFormed(c: BallConfig) {
    0.0 < c.radius && 2.0 * c.radius < WallRightX - WallLeftX - 2.0 * WallThickness &&
    c.maxSpeed > 0.0 && c.baseJumpForce < 0.0 && c.maxJumpBonus <= 0.0 &&
    0.0 <= c.groundFriction <= 1.0 && 0.0 <= c.airResistance <= 1.0 &&
    c.wallBounceFactor > 0.0 && c.wallBoostVelocityX > 0.0 &&
    0 <= c.windMinBurstDuration <= c.windMaxBurstDuration &&
    0 <= c.windMinBreakDuration <= c.windMaxBreakDuration &&
    1 <= c.windRampUpMinTime <= c.windRampUpMaxTime &&
    1 <= c.windRampDownMinTime <= c.windRampDownMaxTime &&
    c.cannonBoostForce < 0.0
  }

  const StandardBallConfig: BallConfig := BallConfig(
    15.0, "#4a9eff",
    0.2, 8.0, 0.96, 0.98,
    0.5, -12.0, -10.0,
    0.7, 0.5,
    true, 3.0, 30.0, 8.0, -8.0,
    5.0, 10.0,
    false, false, 0.3, 0.05, 180, 300, 120, 240, 30, 60, 30, 60, true, true, 2.0,
    false, -50.0,
    false, 0.0, 0.0)

  const RubberBallConfig: BallConfig := BallConfig(
    12.0, "#ff4a4a",
    0.3, 10.0, 0.92, 0.98,
    1.0, -20.0, -12.0,
    1.2, 0.2,
    true, 1.0, 50.0, 8.0, -20.0,
    5.0, 10.0,
    false, false, 0.3, 0.05, 180, 300, 120, 240, 30, 60, 30, 60, true, true, 2.0,
    false, -50.0,
    false, 0.0, 0.0)

  const BeachBallConfig: BallConfig := BallConfig(
    20.0, "#efdc00",
    0.4, 6.0, 0.98, 0.96,
    0.3, -10.0, -10.0,
    0.5, 0.7,
    true, 0.5, 100.0, 8.0, -8.0,
    5.0, 10.0,
    true, true, 0.65, 0.08, 10, 70, 30, 180, 5, 20, 5, 20, true, true, 2.0,
    false, -50.0,
    false, 0.0, 0.0)

  const GolfBallConfig: BallConfig := BallConfig(
    5.0, "#ffffff",
    0.3, 14.0, 0.98, 0.99,
    0.5, -15.0, -15.0,
    0.7, 0.5,
    true, 3.0, 30.0, 8.0, -8.0,
    2.0, 2.0,
    false, false, 0.3, 0.05, 180, 300, 120, 240, 30, 60, 30, 60, true, true, 2.0,
    true, -50.0,
    false, 0.0, 0.0)

  /** getBaseBallConfig: the archetype's record; unknown archetypes get the standard one. */
  function BaseBallConfig(ballType: string): (c: BallConfig)
    ensures WellFormed(c)
    ensures !IsKnownBall(ballType) ==> c == StandardBallConfig
    ensures ballType == Golf <==> c == GolfBallConfig
    ensures ballType == Beach <==> c == BeachBallConfig
    ensures ballType == Rubber <==> c == RubberBallConfig
  {
    if ballType == Rubber then RubberBallConfig
    else if ballType == Beach then BeachBallConfig
    else if ballType == Golf then GolfBallConfig
    else StandardBallConfig
  }

  /** canBallUseCannon: only the golf ball may ride cannons. */
  function CanBallUseCannon(ballType: string): (can: bool)
    ensures can <==> ballType == Golf
  {
    BaseBallConfig(ballType).canUseCannon
  }

  // ---------------------------------------------------------------------------
  // Upgrades (js/config.js:423-631)
  // ---------------------------------------------------------------------------

  /** The effect functions of UPGRADE_DEFINITIONS, one constructor per distinct formula. */
  datatype Effect =
    | Speed(increment: real)   // ACCELERATION + increment, whatever the level
    | Jump                     // jump forces times 1 + 0.2 * level
    | CoinMagnet               // magnet switched on, range/force stepped by level
    | WallBoost                // both wall-boost velocities + 2, whatever the level
    | WindResistance           // wind forces times 1 - 0.15 * level
    | CannonBoost              // cannon force times 1 + 0.25 * level

  datatype UpgradeDef = UpgradeDef(id: string, name: string, basePrice: int, maxLevel: int, effect: Effect)

  /** A player's record of one purchased upgrade. */
  datatype Upgrade = Upgrade(level: int, active: bool)

  /** One key/value pair of an upgrade map; a map is a list of these in insertion order. */
  datatype Entry = Entry(id: string, data: Upgrade)

  function JumpMultiplier(level: int): real { 1.0 + level as real * 0.2 }
  function WindResistanceFactor(level: int): real { 1.0 - level as real * 0.15 }
  function CannonBoostMultiplier(level: int): real { 1.0 + level as real * 0.25 }

  /** Two effects built from the same formula. */
  predicate SameKind(a: Effect, b: Effect) {
    (a.Speed? && b.Speed?) || (a.Jump? && b.Jump?) || (a.CoinMagnet? && b.CoinMagnet?) ||
    (a.WallBoost? && b.WallBoost?) || (a.WindResistance? && b.WindResistance?) || (a.CannonBoost? && b.CannonBoost?)
  }

  /**
   * The coin magnet's three successive `if (level >= n)` blocks each overwrite
   * range and force, so the highest tier reached wins: these give the values
   * left behind for a level of at least 1.
   */
  function MagnetRange(level: int): real {
    if level >= 3 then 500.0 else if level >= 2 then 350.0 else 250.0
  }

  function MagnetForce(level: int): real {
    if level >= 3 then 10.0 else if level >= 2 then 5.0 else 2.0
  }

  function ApplyEffect(e: Effect, c: BallConfig, level: int): BallConfig {
    match e
    case Speed(inc) => c.(acceleration := c.acceleration + inc)
    case Jump =>
      c.(baseJumpForce := c.baseJumpForce * JumpMultiplier(level), maxJumpBonus := c.maxJumpBonus * JumpMultiplier(level))
    case CoinMagnet =>
      if level >= 1 then c.(magnetEnabled := true, magnetRange := MagnetRange(level), magnetForce := MagnetForce(level)) else c
    case WallBoost =>
      c.(wallBoostVelocityY := c.wallBoostVelocityY + 2.0, wallBoostVelocityX := c.wallBoostVelocityX + 2.0)
    case WindResistance =>
      c.(windMaxForce := c.windMaxForce * WindResistanceFactor(level), windMinForce := c.windMinForce * WindResistanceFactor(level))
    case CannonBoost =>
      c.(cannonBoostForce := c.cannonBoostForce * CannonBoostMultiplier(level))
  }

  /** getUpgradeDefinitions: the archetype's upgrade list, empty for an unknown archetype. */
  function UpgradeDefinitions(ballType: string): (defs: seq<UpgradeDef>)
    ensures IsKnownBall(ballType) <==> |defs| == 3
    ensures forall i :: 0 <= i < |defs| ==> defs[i].basePrice > 0 && defs[i].maxLevel == 3
  {
    var speed := UpgradeDef("speed", "Speed", 100, 3, Speed(if ballType == Rubber then 0.05 else 0.1));
    var jump := UpgradeDef("jump", "Jump", 150, 3, Jump);
    if ballType == Standard then [speed, jump, UpgradeDef("coin_magnet", "Coin Magnet", 200, 3, CoinMagnet)]
    else if ballType == Rubber then [speed, jump, UpgradeDef("wall_boost", "Wall Boost", 200, 3, WallBoost)]
    else if ballType == Beach then [speed, jump, UpgradeDef("wind_resistance", "Wind Resistance", 200, 3, WindResistance)]
    else if ballType == Golf then [speed, jump, UpgradeDef("cannon_boost", "Cannon Boost", 200, 3, CannonBoost)]
    else []
  }

  /** The first definition in a list with the given id (Array.prototype.find). */
  function FindDef(defs: seq<UpgradeDef>, id: string): (d: Option<UpgradeDef>)
    ensures d.Some? ==> d.value in defs && d.value.id == id
    ensures d.None? <==> forall k :: 0 <= k < |defs| ==> defs[k].id != id
  {
    if defs == [] then None
    else if defs[0].id == id then Some(defs[0])
    else FindDef(defs[1..], id)
  }

  function FindDefinition(ballType: string, id: string): Option<UpgradeDef> {
    FindDef(UpgradeDefinitions(ballType), id)
  }

  /** getUpgradePrice(basePrice, level) = floor(basePrice + 50 * level); integral inputs make floor the identity. */
  function UpgradePrice(basePrice: int, level: int): (price: int)
    ensures basePrice > 0 && level >= 0 ==> price > 0
  {
    basePrice + level * 50
  }

  /** The condition under which applyUpgradesToConfig applies an entry at all. */
  predicate Applies(ballType: string, e: Entry) {
    e.data.level > 0 && e.data.active && FindDefinition(ballType, e.id).Some?
  }

  /** One step of the fold in applyUpgradesToConfig. */
  function ApplyEntry(ballType: string, c: BallConfig, e: Entry): (r: BallConfig)
    ensures !Applies(ballType, e) ==> r == c
    ensures Applies(ballType, e) ==> r == ApplyEffect(FindDefinition(ballType, e.id).value.effect, c, e.data.level)
  {
    if e.data.level > 0 && e.data.active then
      match FindDefinition(ballType, e.id)
      case Some(d) => ApplyEffect(d.effect, c, e.data.level)
      case None => c
    else c
  }

  /** The forEach over Object.entries(upgrades), in entry order. */
  function ApplyEntries(ballType: string, c: BallConfig, entries: seq<Entry>): BallConfig
    decreases |entries|
  {
    if entries == [] then c
    else ApplyEntries(ballType, ApplyEntry(ballType, c, entries[0]), entries[1..])
  }

  /** `playerUpgrades[ballType] || {}` */
  function UpgradesFor(playerUpgrades: map<string, seq<Entry>>, ballType: string): seq<Entry> {
    if ballType in playerUpgrades then playerUpgrades[ballType] else []
  }

  function ApplyUpgradesToConfig(ballType: string, baseConfig: BallConfig, playerUpgrades: map<string, seq<Entry>>): BallConfig {
    ApplyEntries(ballType, baseConfig, UpgradesFor(playerUpgrades, ballType))
  }

  function BallConfigWithUpgrades(ballType: string, playerUpgrades: map<string, seq<Entry>>): BallConfig {
    ApplyUpgradesToConfig(ballType, BaseBallConfig(ballType), playerUpgrades)
  }
}
