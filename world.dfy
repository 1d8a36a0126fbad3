/**
 * The world of one run (js/game.js): the records the simulation keeps for the
 * ball, the floors, the coins, the wind and the difficulty, and the pure rules
 * that the phases of a tick apply to them.
 *
 * Screen coordinates grow downwards: a floor higher up the tower has a smaller
 * `y`, a jump makes `velocityY` negative and gravity makes it grow.
 */
module World {
  import opened Wrappers
  import opened GameConfig

  // ---------------------------------------------------------------------------
  // Records
  // ---------------------------------------------------------------------------

  datatype FloorType = Normal | Special | Moving | Shrinking | Breaking

  datatype Side = Left | Right

  /** `this.player`. */
  datatype Ball = Ball(x: real, y: real, radius: real, velocityX: real, velocityY: real, onGround: bool, isSmall: bool)

  /** One platform, as built by generateFloor. */
  datatype Floor = Floor(
    number: int,
    x: real,
    y: real,
    width: real,
    height: real,
    kind: FloorType,
    isSpecial: bool,
    isFading: bool,
    fadeAlpha: real,
    movingDirection: int,
    originalX: real,
    originalWidth: real,
    shrinkDelay: real,
    isBreaking: bool,
    hasCannon: bool,
    cannonSide: Option<Side>,
    shouldRemove: bool,
    shrinkingOriginalX: real)

  /** A coin still in play; collected coins leave the list at once. */
  datatype Coin = Coin(x: real, y: real, radius: real, floorNumber: int)

  datatype WindPhase = Break | RampUp | Active | RampDown

  /** The wind fields of the game (windState, windTimer, windForce, ...). */
  datatype Wind = Wind(
    active: bool,
    force: real,
    direction: int,
    timer: int,
    duration: int,
    breakDuration: int,
    rampProgress: real,
    phase: WindPhase,
    targetForce: real,
    startForce: real)

  /** currentDifficulty, difficultyActive and the six per-floor-type multipliers. */
  datatype Difficulty = Difficulty(
    current: real,
    active: bool,
    movingSpeed: real,
    movingRange: real,
    shrinkingMinWidth: real,
    shrinkingSpeed: real,
    shrinkingDelay: real,
    breakingFadeSpeed: real)

  /** The keys held down during a tick (`this.keys`). */
  datatype Keys = Keys(arrowLeft: bool, arrowRight: bool, arrowUp: bool, a: bool, d: bool, w: bool, space: bool)

  /** Keyboard, touch and tilt input as the event handlers left it before a tick. */
  datatype Controls = Controls(keys: Keys, touchActive: bool, touchDirection: int, tiltX: real)

  /** No key held, no touch, no tilt: what resetGameState leaves. */
  const NoControls: Controls := Controls(Keys(false, false, false, false, false, false, false), false, 0, 0.0)

  /** The game-relevant part of the menu settings (`state.settings`). */
  datatype Settings = Settings(autoJump: bool, mobileControls: bool, accelerometer: bool)

  /**
   * The wall-boost fields of the game (canWallBoost, wallBoostDirection,
   * wallBoostDistance) and its boost display (boostActivated,
   * boostActivatedFrames).
   */
  datatype Boost = Boost(canWallBoost: bool, direction: Option<Side>, distance: real, activated: bool, activatedFrames: int)

  /** No boost armed or shown. */
  const NoBoost: Boost := Boost(false, None, 0.0, false, 0)

  /** floorFadeTimer, nextFloorToFade and fadeProcessActive. */
  datatype Fade = Fade(timer: int, next: int, active: bool)

  /** The fade process before it starts. */
  const NoFade: Fade := Fade(0, 0, false)

  /**
   * The readouts a tick refreshes: cameraY, currentHeight, maxJumpHeight,
   * currentVelocityX, currentVelocityY, maxVelocityX and maxVelocityY.
   */
  datatype Readouts = Readouts(
    cameraY: real,
    height: int,
    maxHeight: int,
    velocityX: real,
    velocityY: real,
    maxVelocityX: real,
    maxVelocityY: real)

  const NoReadouts: Readouts := Readouts(0.0, 0, 0, 0.0, 0.0, 0.0, 0.0)

  // ---------------------------------------------------------------------------
  // Arithmetic helpers
  // ---------------------------------------------------------------------------

  function Abs(v: real): real { if v < 0.0 then -v else v }

  function Min(a: real, b: real): real { if a <= b then a else b }

  function Max(a: real, b: real): real { if a >= b then a else b }

  function MinInt(a: int, b: int): int { if a <= b then a else b }

  function MaxInt(a: int, b: int): int { if a >= b then a else b }

  /** Math.round: halves round towards +infinity. */
  function Round(v: real): int { (v + 0.5).Floor }

  /** A draw in [0, 1) scaled by a non-negative span stays within the span. */
  lemma ScaledDraw(r: real, span: real)
    requires 0.0 <= r < 1.0 && 0.0 <= span
    ensures 0.0 <= r * span <= span
    ensures 0.0 < span ==> r * span < span
  {
    assert span - r * span == (1.0 - r) * span;
  }

  /** `lo + Math.random() * (hi - lo)`. */
  function Between(lo: real, hi: real, r: real): (v: real)
    requires lo <= hi && 0.0 <= r < 1.0
    ensures lo <= v <= hi
    ensures lo < hi ==> v < hi
  {
    var span := hi - lo;
    ScaledDraw(r, span);
    var step := r * span;
    lo + step
  }

  /** `Math.floor(min + Math.random() * (max - min))`. */
  function RandomInt(min: int, max: int, r: real): (k: int)
    requires min <= max && 0.0 <= r < 1.0
    ensures min <= k <= max
    ensures min < max ==> k < max
  {
    Between(min as real, max as real, r).Floor
  }

  /** `Math.random() > 0.5 ? 1 : -1`. */
  function Direction(r: real): (dir: int)
    ensures dir == 1 || dir == -1
  {
    if r > 0.5 then 1 else -1
  }

  /** The first index whose element satisfies `p` (Array.prototype.find / a loop with break). */
  function FirstIndex<T>(s: seq<T>, p: T -> bool): (i: Option<nat>)
    ensures i.Some? ==> i.value < |s| && p(s[i.value]) && forall j :: 0 <= j < i.value ==> !p(s[j])
    ensures i.None? <==> forall j :: 0 <= j < |s| ==> !p(s[j])
  {
    if s == [] then None
    else if p(s[0]) then Some(0)
    else match FirstIndex(s[1..], p)
      case None => None
      case Some(k) => Some(k + 1)
  }

  // ---------------------------------------------------------------------------
  // Floor numbering (js/game.js:531, 695, 1775)
  // ---------------------------------------------------------------------------

  /** The top of floor n: CANVAS_HEIGHT - 50 - n * FLOOR_VERTICAL_SPACING. */
  function FloorY(n: int): real {
    CanvasHeight - 50.0 - n as real * FloorVerticalSpacing
  }

  /** The floor band a height belongs to: Math.floor((CANVAS_HEIGHT - 50 - y) / FLOOR_VERTICAL_SPACING). */
  function FloorNumberAt(y: real): int {
    ((CanvasHeight - 50.0 - y) / FloorVerticalSpacing).Floor
  }

  /** The highest floor generateMoreFloorsIfNeeded wants for a ball at height y. */
  function HighestNeededFloor(y: real): int {
    FloorNumberAt(y) + FloorsToGenerateAhead
  }

  /** The lowest floor generateMoreFloorsIfNeeded keeps for a ball at height y. */
  function LowestNeededFloor(y: real): int {
    FloorNumberAt(y) - FloorsToGenerateBehind
  }

  /** The last floor of the list, the one getFloorXPosition places a new floor against. */
  function LastFloor(fs: seq<Floor>): Option<Floor> {
    if fs == [] then None else Some(fs[|fs| - 1])
  }

  /** Floor numbers of a list, in list order. */
  function Numbers(fs: seq<Floor>): seq<int> {
    if fs == [] then [] else [fs[0].number] + Numbers(fs[1..])
  }

  /** `Math.max(...floors.map(f => f.number))`, 0 for an empty list. */
  function HighestNumber(fs: seq<Floor>): (h: int)
    ensures forall i :: 0 <= i < |fs| ==> fs[i].number <= h
    ensures fs != [] ==> exists i :: 0 <= i < |fs| && fs[i].number == h
  {
    if fs == [] then 0
    else if |fs| == 1 then fs[0].number
    else
      var rest := HighestNumber(fs[1..]);
      assert forall i :: 1 <= i < |fs| ==> fs[i] == fs[1..][i - 1];
      if fs[0].number >= rest then fs[0].number else rest
  }

  /** Floors are kept in strictly increasing number order, all numbers non-negative. */
  ghost predicate NumbersIncreasing(fs: seq<Floor>) {
    (forall i :: 0 <= i < |fs| ==> 0 <= fs[i].number) &&
    (forall i, j :: 0 <= i < j < |fs| ==> fs[i].number < fs[j].number)
  }

  // ---------------------------------------------------------------------------
  // Floor types (js/game.js:582-620)
  // ---------------------------------------------------------------------------

  /** Every SPECIAL_FLOOR_INTERVAL-th floor from 5 on is a full-width special floor. */
  predicate IsSpecialNumber(n: nat) {
    n % SpecialFloorInterval == 0 && n >= 5
  }

  /** determineFloorType consumes a random draw only for floors that are neither special nor floor 0. */
  predicate DrawsFloorType(n: nat) {
    !IsSpecialNumber(n) && n != 0
  }

  /** The chance of one floor type: scaled by 1 + (difficulty - 1) / 2 and capped once difficulty is active. */
  function FloorChance(base: real, d: Difficulty): real {
    if d.active then Min(base * (1.0 + (d.current - 1.0) * 0.5), DifficultyMaxChance) else base
  }

  /** determineFloorType with its Math.random() draw `r`. */
  function DetermineFloorType(n: nat, d: Difficulty, r: real): FloorType {
    if IsSpecialNumber(n) then Special
    else if n == 0 then Normal
    else
      var moving := FloorChance(BaseMovingFloorChance, d);
      var shrinking := FloorChance(BaseShrinkingFloorChance, d);
      var breaking := FloorChance(BaseBreakingFloorChance, d);
      if r < moving && MovingFloorEnabled then Moving
      else if r < moving + shrinking && ShrinkingFloorEnabled then Shrinking
      else if r < moving + shrinking + breaking && BreakingFloorEnabled then Breaking
      else Normal
  }

  // ---------------------------------------------------------------------------
  // Floor placement (js/game.js:665-689)
  // ---------------------------------------------------------------------------

  /** The innermost x a floor may start at: wall plus FLOOR_MARGIN. */
  const PlayfieldLeft: real := WallLeftX + WallThickness + FloorMargin

  /** The outermost x a floor may end at. */
  const PlayfieldRight: real := WallRightX - WallThickness - FloorMargin

  function PlacementMinX(prev: Floor): real {
    Max(PlayfieldLeft, prev.x - FloorMaxHorizontalGap)
  }

  function PlacementMaxX(prev: Floor, width: real): real {
    Min(PlayfieldRight - width, prev.x + prev.width + FloorMaxHorizontalGap - width)
  }

  /** getFloorXPosition draws a random number unless the window after the previous floor is empty. */
  predicate PlacementDraws(prev: Option<Floor>, width: real) {
    prev.None? || PlacementMinX(prev.value) <= PlacementMaxX(prev.value, width)
  }

  /**
   * getFloorXPosition: a position within FLOOR_MAX_HORIZONTAL_GAP of the previous
   * floor and inside the walls, or centred when no such position exists. The
   * branch for an empty floor list uses WALL_THICKNESS, which the source
   * misspells (FloorXPositionAsWritten).
   */
  function FloorXPosition(prev: Option<Floor>, width: real, r: real): (x: real)
    requires 0.0 <= r < 1.0 && 0.0 <= width <= PlayfieldRight - PlayfieldLeft
    ensures PlayfieldLeft <= x && x + width <= PlayfieldRight
    ensures prev.Some? && PlacementDraws(prev, width) ==>
      prev.value.x - FloorMaxHorizontalGap <= x && x + width <= prev.value.x + prev.value.width + FloorMaxHorizontalGap
  {
    match prev
    case Some(p) =>
      var lo, hi := PlacementMinX(p), PlacementMaxX(p, width);
      if lo > hi then (CanvasWidth - width) / 2.0 else Between(lo, hi, r)
    case None =>
      Between(PlayfieldLeft, PlayfieldLeft + (CanvasWidth - 2.0 * (WallThickness + FloorMargin) - width), r)
  }

  /**
   * getFloorXPosition as written: the branch for an empty floor list adds the
   * undefined GameConfig.WALL_THICKness, so the position there is NaN (None);
   * with a previous floor it places the floor as FloorXPosition does.
   */
  function FloorXPositionAsWritten(prev: Option<Floor>, width: real, r: real): (x: Option<real>)
    requires 0.0 <= r < 1.0 && 0.0 <= width <= PlayfieldRight - PlayfieldLeft
    ensures prev.Some? ==> x == Some(FloorXPosition(prev, width, r))
  {
    match prev
    case Some(p) =>
      var lo, hi := PlacementMinX(p), PlacementMaxX(p, width);
      Some(if lo > hi then (CanvasWidth - width) / 2.0 else Between(lo, hi, r))
    case None => None
  }

  // ---------------------------------------------------------------------------
  // Coins (js/game.js:623-662, 961-965)
  // ---------------------------------------------------------------------------

  /** The chance that a floor carries coins: COIN_CHANCE_BASE + n * COIN_CHANCE_PER_FLOOR, capped. */
  function CoinChance(n: int): real {
    Min(CoinChanceBase + n as real * CoinChancePerFloor, CoinMaxChance)
  }

  function Pow(b: real, n: nat): real {
    if n == 0 then 1.0 else b * Pow(b, n - 1)
  }

  /** `MIN_COINS_PER_FLOOR + Math.floor(Math.random() * (MAX_COINS_PER_FLOOR - MIN_COINS_PER_FLOOR + 1))`. */
  function BaseCoinDraw(r: real): (k: int)
    requires 0.0 <= r < 1.0
    ensures MinCoinsPerFloor <= k <= MaxCoinsPerFloor
  {
    var span := (MaxCoinsPerFloor - MinCoinsPerFloor + 1) as real;
    ScaledDraw(r, span);
    MinCoinsPerFloor + (r * span).Floor
  }

  /** `Math.min(Math.floor(baseCoins * COINS_PER_FLOOR_MULTIPLIER ** n), MAX_COINS_PER_FLOOR)`. */
  function CoinCount(baseCoins: int, n: nat): int {
    MinInt((baseCoins as real * Pow(CoinsPerFloorMultiplier, n)).Floor, MaxCoinsPerFloor)
  }

  /** Margin kept between a coin and the ends of its floor: 3 * COIN_RADIUS. */
  const CoinMargin: real := CoinRadius * 3.0

  /** The coin hit test, distance < r1 + r2, compared on squares. */
  predicate Touches(b: Ball, c: Coin) {
    (b.x - c.x) * (b.x - c.x) + (b.y - c.y) * (b.y - c.y) < (b.radius + c.radius) * (b.radius + c.radius)
  }

  /** Coins whose floor number is not in `gone`, in order (the coins.filter of a floor removal). */
  function CoinsNotOn(cs: seq<Coin>, gone: set<int>): (r: seq<Coin>)
    ensures forall c :: c in r <==> c in cs && c.floorNumber !in gone
    ensures |r| <= |cs|
  {
    if cs == [] then []
    else (if cs[0].floorNumber in gone then [] else [cs[0]]) + CoinsNotOn(cs[1..], gone)
  }

  /** `coins.filter(coin => coin.floorNumber >= lowest)`. */
  function CoinsFrom(cs: seq<Coin>, lowest: int): (r: seq<Coin>)
    ensures forall c :: c in r <==> c in cs && c.floorNumber >= lowest
    ensures |r| <= |cs|
  {
    if cs == [] then []
    else (if cs[0].floorNumber >= lowest then [cs[0]] else []) + CoinsFrom(cs[1..], lowest)
  }

  /** `floors.filter(floor => floor.number >= lowest && floor.number >= 0)`. */
  function FloorsFrom(fs: seq<Floor>, lowest: int): (r: seq<Floor>)
    ensures forall f :: f in r <==> f in fs && f.number >= lowest && f.number >= 0
    ensures |r| <= |fs|
  {
    if fs == [] then []
    else (if fs[0].number >= lowest && fs[0].number >= 0 then [fs[0]] else []) + FloorsFrom(fs[1..], lowest)
  }

  /** The coins a backwards collection sweep keeps: those the ball does not touch. */
  function Untouched(cs: seq<Coin>, b: Ball): seq<Coin> {
    if cs == [] then [] else (if Touches(b, cs[0]) then [] else [cs[0]]) + Untouched(cs[1..], b)
  }

  /** How many coins of a list the ball touches. */
  function TouchedCount(cs: seq<Coin>, b: Ball): nat {
    if cs == [] then 0 else (if Touches(b, cs[0]) then 1 else 0) + TouchedCount(cs[1..], b)
  }

  // ---------------------------------------------------------------------------
  // Wind (js/game.js:737-856)
  // ---------------------------------------------------------------------------

  /** windRampProgress while ramping up: 1 - t / (t + 1). */
  function RampUpProgress(t: int): real
    requires t >= 0
  {
    1.0 - t as real / (t as real + 1.0)
  }

  /** windRampProgress while ramping down: t / (t + 1). */
  function RampDownProgress(t: int): real
    requires t >= 0
  {
    t as real / (t as real + 1.0)
  }

  /** The ramp phases divide by timer + 1 after the decrement, so they hold at least one tick. */
  predicate WindInvariant(w: Wind) {
    (w.phase == RampUp || w.phase == RampDown) ==> w.timer >= 1
  }

  /** The phase a wind state machine moves to when its timer runs out. */
  function NextPhase(p: WindPhase): WindPhase {
    match p
    case Break => RampUp
    case RampUp => Active
    case Active => RampDown
    case RampDown => Break
  }

  /** How many Math.random() draws one updateWind makes. */
  function WindDraws(w: Wind, c: BallConfig): nat {
    if !c.windEnabled || w.timer - 1 > 0 then 0
    else match w.phase
      case Break => 4
      case RampUp => 0
      case Active => 1
      case RampDown => 1
  }

  /**
   * The wind state after one updateWind, with the draws r0..r3 in the order the
   * source makes them (ramp-up time, direction, burst length, force magnitude
   * when a break ends; the new timer when an active or ramp-down phase ends).
   */
  function WindTick(w: Wind, c: BallConfig, r0: real, r1: real, r2: real, r3: real): Wind
    requires WellFormed(c) && WindInvariant(w)
    requires 0.0 <= r0 < 1.0 && 0.0 <= r1 < 1.0 && 0.0 <= r2 < 1.0 && 0.0 <= r3 < 1.0
  {
    if !c.windEnabled then
      if w.force != 0.0 then w.(force := 0.0, active := false) else w
    else
      var t := w.timer - 1;
      match w.phase
      case Break =>
        if t <= 0 then
          var dir := Direction(r1);
          var magnitude := c.windMinForce + r3 * (c.windMaxForce - c.windMinForce);
          w.(phase := RampUp, rampProgress := 0.0,
             timer := RandomInt(c.windRampUpMinTime, c.windRampUpMaxTime, r0),
             direction := dir,
             duration := RandomInt(c.windMinBurstDuration, c.windMaxBurstDuration, r2),
             targetForce := magnitude * dir as real)
        else w.(timer := t)
      case RampUp =>
        var p := RampUpProgress(t);
        if t <= 0 then w.(rampProgress := p, active := true, phase := Active, timer := w.duration, force := w.targetForce)
        else w.(timer := t, rampProgress := p, force := p * w.targetForce, active := true)
      case Active =>
        if t <= 0 then
          w.(phase := RampDown, rampProgress := 1.0, startForce := w.force,
             timer := RandomInt(c.windRampDownMinTime, c.windRampDownMaxTime, r0))
        else w.(timer := t)
      case RampDown =>
        var p := RampDownProgress(t);
        if t <= 0 then
          var pause := RandomInt(c.windMinBreakDuration, c.windMaxBreakDuration, r0);
          w.(rampProgress := p, phase := Break, active := false, force := 0.0,
             timer := pause, breakDuration := pause, targetForce := 0.0, startForce := 0.0)
        else w.(timer := t, rampProgress := p, force := p * w.startForce)
  }

  /** Whether applyWindForce pushes a ball in this grounded/airborne state. */
  predicate WindPushes(c: BallConfig, onGround: bool) {
    c.windEnabled && ((onGround && c.windAffectsGrounded) || (!onGround && c.windAffectsAir))
  }

  /**
   * The ball after applyWindForce: pushed by `force` when the wind may push it
   * in its state, by WIND_AIR_MULTIPLIER times `force` in the air.
   */
  function WindPushed(b: Ball, force: real, c: BallConfig): (r: Ball)
    requires c.windEnabled
    ensures r == b.(velocityX := r.velocityX)
    ensures !WindPushes(c, b.onGround) ==> r == b
    ensures WindPushes(c, b.onGround) && b.onGround ==> r.velocityX == b.velocityX + force
    ensures WindPushes(c, b.onGround) && !b.onGround ==> r.velocityX == b.velocityX + force * c.windAirMultiplier
  {
    if !WindPushes(c, b.onGround) then b
    else b.(velocityX := b.velocityX + force * (if b.onGround then 1.0 else c.windAirMultiplier))
  }

  // ---------------------------------------------------------------------------
  // Input and jump (js/game.js:1066-1144)
  // ---------------------------------------------------------------------------

  predicate JumpKeyHeld(k: Keys) { k.arrowUp || k.w || k.space }

  /** The horizontal push of one tick's input: keys, then touch, then tilt. */
  function Accelerated(vx: real, ctl: Controls, s: Settings, a: real): real {
    var v1 := if ctl.keys.arrowLeft || ctl.keys.a then vx - a else vx;
    var v2 := if ctl.keys.arrowRight || ctl.keys.d then v1 + a else v1;
    var v3 := if s.mobileControls && ctl.touchActive then
                (if ctl.touchDirection == -1 then v2 - a else if ctl.touchDirection == 1 then v2 + a else v2)
              else v2;
    if s.accelerometer && Abs(ctl.tiltX) > 0.1 then v3 + ctl.tiltX * a * 2.0 else v3
  }

  /** The speed cap: values beyond +-maxSpeed are cut back to it. */
  function Clamp(v: real, maxSpeed: real): (r: real)
    requires maxSpeed >= 0.0
    ensures -maxSpeed <= r <= maxSpeed
    ensures -maxSpeed <= v <= maxSpeed ==> r == v
  {
    if v > maxSpeed then maxSpeed else if v < -maxSpeed then -maxSpeed else v
  }

  /** The horizontal velocity updateInput leaves: pushed, capped, then slowed by ground friction or air resistance. */
  function SteeredVelocity(vx: real, onGround: bool, ctl: Controls, s: Settings, c: BallConfig): real
    requires c.maxSpeed >= 0.0
  {
    var v := Clamp(Accelerated(vx, ctl, s, c.acceleration), c.maxSpeed);
    v * (if onGround then c.groundFriction else c.airResistance)
  }

  /** performJump's launch velocity: the base force plus the bonus scaled by the share of top speed. */
  function JumpForce(c: BallConfig, vx: real): real
    requires c.maxSpeed > 0.0
  {
    c.baseJumpForce + c.maxJumpBonus * (Abs(vx) / c.maxSpeed)
  }

  /** keysPressedThisFrame after updateInput: only a and d, each when held without its arrow key. */
  function PressedThisFrame(k: Keys): Keys {
    Keys(false, false, false, k.a && !k.arrowLeft, k.d && !k.arrowRight, false, false)
  }

  /** Whether updateInput lets the ball jump: on the ground and not rising. */
  predicate CanJump(b: Ball) {
    b.onGround && b.velocityY >= 0.0
  }

  /** performJump: the ball launched with JumpForce and off the ground. */
  function Jumped(b: Ball, c: BallConfig): Ball
    requires c.maxSpeed > 0.0
  {
    b.(velocityY := JumpForce(c, b.velocityX), onGround := false)
  }

  /**
   * The ball updateInput leaves: steered, then jumped when it can jump and
   * auto-jump or a jump key asks for it.
   */
  function AfterInput(b: Ball, ctl: Controls, s: Settings, c: BallConfig): Ball
    requires c.maxSpeed > 0.0
  {
    var b1 := b.(velocityX := SteeredVelocity(b.velocityX, b.onGround, ctl, s, c));
    if CanJump(b1) && (s.autoJump || JumpKeyHeld(ctl.keys)) then Jumped(b1, c) else b1
  }

  // ---------------------------------------------------------------------------
  // Collisions (js/game.js:1147-1395)
  // ---------------------------------------------------------------------------

  /** The x-span [left - radius, left + width + radius] the ball's centre must be in. */
  predicate WithinSpan(b: Ball, left: real, width: real) {
    left - b.radius <= b.x <= left + width + b.radius
  }

  /** The ball's bottom was at or above `top` before this tick's move and is at or below it now. */
  predicate CrossesDown(b: Ball, top: real) {
    b.y - b.velocityY + b.radius <= top && b.y + b.radius >= top
  }

  /** A floor the descending ball can land on: visible enough and not crumbled away. */
  predicate Collidable(f: Floor) {
    f.fadeAlpha > 0.0 &&
    !(f.isFading && f.fadeAlpha < FadingFloorMinAlphaForCollision) &&
    !(f.kind == Breaking && f.isBreaking && !f.isFading && f.fadeAlpha < FadingFloorMinAlphaForCollision)
  }

  /** The landing test of checkFloorCollisions for a descending ball. */
  predicate LandsOn(b: Ball, f: Floor) {
    Collidable(f) && WithinSpan(b, f.x, f.width) && CrossesDown(b, f.y)
  }

  /** isPlayerOnFloor: the ball's bottom is within 5 of the floor top and over the floor. */
  predicate IsPlayerOnFloor(b: Ball, f: Floor, allowNewLanding: bool) {
    var dist := b.y + b.radius - f.y;
    f.fadeAlpha > 0.0 &&
    !(f.isFading && f.fadeAlpha < FadingFloorMinAlphaForCollision) &&
    (allowNewLanding || dist >= 0.0) &&
    -5.0 <= dist <= 5.0 &&
    WithinSpan(b, f.x, f.width)
  }

  /** The centre line a ball touching the left wall sits on. */
  function LeftWallLine(radius: real): real { WallLeftX + WallThickness + radius }

  /** The centre line a ball touching the right wall sits on. */
  function RightWallLine(radius: real): real { WallRightX - WallThickness - radius }

  /** The speed after hitting a wall: |v| * WALL_BOUNCE_FACTOR above MIN_BOUNCE_VELOCITY, else 0. */
  function BounceSpeed(v: real, c: BallConfig): real {
    if Abs(v) > c.minBounceVelocity then Abs(v) * c.wallBounceFactor else 0.0
  }

  /** A wall bounce arms the wall boost when it was a real bounce fast enough for WALL_BOOST_MIN_VELOCITY. */
  predicate BoostArmed(v: real, c: BallConfig) {
    Abs(v) > c.minBounceVelocity && Abs(BounceSpeed(v, c)) >= c.wallBoostMinVelocity && c.wallBoostEnabled
  }

  /** The ball after hitting the left wall: on the wall line, bounced rightwards. */
  function BounceLeft(b: Ball, c: BallConfig): Ball {
    b.(x := LeftWallLine(b.radius), velocityX := BounceSpeed(b.velocityX, c))
  }

  /** The ball after hitting the right wall: on the wall line, bounced leftwards. */
  function BounceRight(b: Ball, c: BallConfig): Ball {
    b.(x := RightWallLine(b.radius), velocityX := -BounceSpeed(b.velocityX, c))
  }

  /** The left-wall check of checkWallCollisions: a ball past the wall line bounces off it. */
  function AfterLeftWall(b: Ball, c: BallConfig): Ball {
    if b.x < LeftWallLine(b.radius) then BounceLeft(b, c) else b
  }

  /** checkWallCollisions: the left-wall check, then the right-wall check on its result. */
  function AfterWalls(b: Ball, c: BallConfig): Ball {
    var b1 := AfterLeftWall(b, c);
    if b1.x > RightWallLine(b1.radius) then BounceRight(b1, c) else b1
  }

  /** The wall a bounce of checkWallCollisions arms the boost for; `dir` when no bounce arms it. */
  function BoostSideAfterWalls(b: Ball, c: BallConfig, dir: Option<Side>): Option<Side> {
    var d1 := if b.x < LeftWallLine(b.radius) && BoostArmed(b.velocityX, c) then Some(Left) else dir;
    var b1 := AfterLeftWall(b, c);
    if b1.x > RightWallLine(b1.radius) && BoostArmed(b1.velocityX, c) then Some(Right) else d1
  }

  /** A position past a wall line: left of the left line, right of the right line. */
  predicate PastWall(v: real, line: real, side: Side) {
    if side == Left then v < line else v > line
  }

  /** The CCD sample at step i of CCD_MAX_STEPS between the previous and the current x. */
  function CcdSample(previousX: real, x: real, i: int): real {
    previousX + (x - previousX) * (i as real / CcdMaxSteps as real)
  }

  /** The cannon's left end: against the right wall for a right-side cannon, else against the left wall. */
  function CannonX(f: Floor): real {
    if f.cannonSide == Some(Right) then WallRightX - WallThickness - CannonHorizontalLength
    else WallLeftX + WallThickness
  }

  /** A ball that may ride cannons is caught at the floor top, any other on the cannon's upper end. */
  function CannonCollisionY(f: Floor, canUseCannon: bool): real {
    if canUseCannon then f.y else f.y - CannonVerticalLength
  }

  predicate HitsCannon(b: Ball, f: Floor, canUseCannon: bool) {
    f.hasCannon && f.fadeAlpha > 0.0 &&
    WithinSpan(b, CannonX(f), CannonHorizontalLength) &&
    CrossesDown(b, CannonCollisionY(f, canUseCannon))
  }

  /** Landing on an unbroken breaking floor starts it crumbling. */
  function StepOn(f: Floor): Floor {
    if f.kind == Breaking && !f.isBreaking then f.(isBreaking := true) else f
  }

  /**
   * The ball after a cannon catches it: a cannon-riding ball is shot upwards
   * with CANNON_BOOST_FORCE, any other rests on the cannon's upper end.
   */
  function CannonCatch(b: Ball, f: Floor, c: BallConfig): Ball {
    b.(y := CannonCollisionY(f, c.canUseCannon) - b.radius,
       velocityY := if c.canUseCannon then c.cannonBoostForce else 0.0,
       onGround := !c.canUseCannon)
  }

  /** Gap between the ball's left edge and the inner face of the left wall. */
  function LeftWallGap(b: Ball): real { Abs((b.x - b.radius) - (WallLeftX + WallThickness)) }

  /** Gap between the ball's right edge and the inner face of the right wall. */
  function RightWallGap(b: Ball): real { Abs((b.x + b.radius) - (WallRightX - WallThickness)) }

  /** The ball after a wall boost: kicked away from the wall it bounced off, and upwards by WALL_BOOST_VELOCITY_Y. */
  function WallBoosted(b: Ball, dir: Option<Side>, c: BallConfig): Ball {
    b.(velocityX := if dir == Some(Left) then c.wallBoostVelocityX else -c.wallBoostVelocityX,
       velocityY := b.velocityY + c.wallBoostVelocityY)
  }

  /** The first floor whose cannon catches the descending ball. */
  function CannonHit(fs: seq<Floor>, b: Ball, canUseCannon: bool): Option<nat> {
    FirstIndex(fs, (f: Floor) => HitsCannon(b, f, canUseCannon))
  }

  /** A cannon shot shows the boost for three times BOOST_ACTIVATED_DURATION ticks; a mere catch shows nothing. */
  function CannonShotBoost(bs: Boost, c: BallConfig): Boost {
    if c.canUseCannon && ShowBoostActivated then bs.(activated := true, activatedFrames := BoostActivatedDuration * 3)
    else bs
  }

  /** The first floor the descending ball lands on. */
  function Landing(fs: seq<Floor>, b: Ball): Option<nat> {
    FirstIndex(fs, (f: Floor) => LandsOn(b, f))
  }

  /** Whether a ball that is not descending rests on some floor (isPlayerOnFloor without new landings). */
  predicate OnAnyFloor(fs: seq<Floor>, b: Ball) {
    exists i :: 0 <= i < |fs| && IsPlayerOnFloor(b, fs[i], false)
  }

  /** The ball set down on a floor's top, at rest and on the ground. */
  function Landed(b: Ball, f: Floor): Ball {
    b.(y := f.y - b.radius, velocityY := 0.0, onGround := true)
  }

  /** A landing disarms the wall boost and ends the boost display; the measured distance stays. */
  function LandedBoost(bs: Boost): Boost {
    bs.(canWallBoost := false, direction := None, activated := false, activatedFrames := 0)
  }

  /**
   * checkWallBoost: the boost is armed, with the measured gap, while the ball
   * is closer than WALL_BOOST_MAX_DISTANCE to the wall it bounced off.
   */
  function WallBoostCheck(bs: Boost, b: Ball, c: BallConfig): Boost {
    var dl := LeftWallGap(b);
    var dr := RightWallGap(b);
    if dl < c.wallBoostMaxDistance && bs.direction == Some(Left) then bs.(distance := dl, canWallBoost := true)
    else if dr < c.wallBoostMaxDistance && bs.direction == Some(Right) then bs.(distance := dr, canWallBoost := true)
    else bs.(canWallBoost := false, distance := 0.0)
  }

  /**
   * activateWallBoost's trigger: an armed boost fires at once with mobile
   * controls, otherwise on the key pressed away from the wall.
   */
  predicate WallBoostTriggered(bs: Boost, s: Settings, pressed: Keys) {
    bs.canWallBoost && bs.direction.Some? &&
    (s.mobileControls || (bs.direction == Some(Left) && pressed.d) || (bs.direction == Some(Right) && pressed.a))
  }

  /** performWallBoost's boost fields: disarmed, no gap, the display on for BOOST_ACTIVATED_DURATION ticks. */
  function FiredBoost(bs: Boost): Boost {
    if ShowBoostActivated then Boost(false, None, 0.0, true, BoostActivatedDuration)
    else bs.(canWallBoost := false, direction := None, distance := 0.0)
  }

  /** updateBoostEffect: the display counts down one tick at a time and is off once the count is out. */
  function BoostCountdown(bs: Boost): Boost {
    if bs.activated && bs.activatedFrames > 0 then bs.(activatedFrames := bs.activatedFrames - 1)
    else bs.(activated := false, activatedFrames := 0)
  }

  /** The floor-display test of updateFloorDisplay: standing inside the floor's rectangle. */
  predicate StandsIn(b: Ball, f: Floor) {
    b.onGround &&
    f.y <= b.y + b.radius <= f.y + f.height &&
    f.x <= b.x <= f.x + f.width
  }

  /** The number of the first floor the ball stands in, if any. */
  function StandingFloor(fs: seq<Floor>, b: Ball): (n: Option<int>)
    ensures n.None? <==> forall i :: 0 <= i < |fs| ==> !StandsIn(b, fs[i])
    ensures n.Some? ==> exists i :: 0 <= i < |fs| && StandsIn(b, fs[i]) && fs[i].number == n.value &&
                          forall j :: 0 <= j < i ==> !StandsIn(b, fs[j])
  {
    if fs == [] then None
    else if StandsIn(b, fs[0]) then Some(fs[0].number)
    else
      var n := StandingFloor(fs[1..], b);
      assert forall i :: 1 <= i < |fs| ==> fs[i] == fs[1..][i - 1];
      if n.Some? then
        var i :| 0 <= i < |fs[1..]| && StandsIn(b, fs[1..][i]) && fs[1..][i].number == n.value &&
                 forall j :: 0 <= j < i ==> !StandsIn(b, fs[1..][j]);
        assert forall j :: 0 <= j < i + 1 ==> !StandsIn(b, fs[j]);
        n
      else n
  }

  /** The floor updateFloorDisplay reports: the one stood in, else the height band, at least 0. */
  function DisplayedFloor(fs: seq<Floor>, b: Ball): int {
    match StandingFloor(fs, b)
    case Some(n) => n
    case None => MaxInt(0, FloorNumberAt(b.y))
  }

  // ---------------------------------------------------------------------------
  // Difficulty (js/game.js:1652-1674)
  // ---------------------------------------------------------------------------

  /** Difficulty before it becomes active: level 1, every multiplier 1. */
  const InitialDifficulty: Difficulty := Difficulty(1.0, false, 1.0, 1.0, 1.0, 1.0, 1.0, 1.0)

  /** calculateDifficultyMultiplier. */
  function DifficultyMultiplier(current: real, base: real): real {
    1.0 + (current - 1.0) * (base - 1.0)
  }

  /** currentDifficulty once active: 1 + 0.01 per floor beyond DIFFICULTY_START_AT_SCORE. */
  function DifficultyLevel(maxFloorReached: int): real {
    1.0 + (maxFloorReached - DifficultyStartAtScore) as real * 0.01
  }

  /** The active difficulty record for the highest floor reached. */
  function ActiveDifficulty(maxFloorReached: int): Difficulty {
    var c := DifficultyLevel(maxFloorReached);
    Difficulty(c, true,
      DifficultyMultiplier(c, DifficultyMovingSpeedMultiplier),
      DifficultyMultiplier(c, DifficultyMovingRangeMultiplier),
      DifficultyMultiplier(c, DifficultyShrinkingMinWidthMultiplier),
      DifficultyMultiplier(c, DifficultyShrinkingSpeedMultiplier),
      DifficultyMultiplier(c, DifficultyShrinkingDelayMultiplier),
      DifficultyMultiplier(c, DifficultyBreakingFadeSpeedMultiplier))
  }

  /** Every multiplier is still 1: what floor animation sees before difficulty starts. */
  predicate NeutralMultipliers(d: Difficulty) {
    d.movingSpeed == 1.0 && d.movingRange == 1.0 && d.shrinkingMinWidth == 1.0 &&
    d.shrinkingSpeed == 1.0 && d.shrinkingDelay == 1.0 && d.breakingFadeSpeed == 1.0
  }

  /**
   * The difficulty part of resetGameState as the source writes it: level and
   * flag are reset, the six multipliers keep the previous run's values.
   */
  function ResetDifficultyAsWritten(d: Difficulty): Difficulty {
    d.(current := 1.0, active := false)
  }

  // ---------------------------------------------------------------------------
  // Floor animation (js/game.js:1533-1600)
  // ---------------------------------------------------------------------------

  /** A moving floor's step: advance, bounce off its range, then off the playfield edges. */
  function MoveFloor(f: Floor, d: Difficulty): Floor {
    var speed := MovingFloorSpeed * d.movingSpeed;
    var range := MovingFloorRange * d.movingRange;
    var x1 := f.x + speed * f.movingDirection as real;
    var x2 := if x1 > f.originalX + range then f.originalX + range
              else if x1 < f.originalX - range then f.originalX - range
              else x1;
    var dir2 := if x1 > f.originalX + range then -1
                else if x1 < f.originalX - range then 1
                else f.movingDirection;
    var maxX := MovingFloorMaxX - f.width;
    var minX := MovingFloorMinX;
    var x3 := if x2 > maxX then maxX else if x2 < minX then minX else x2;
    var dir3 := if x2 > maxX then -1 else if x2 < minX then 1 else dir2;
    f.(x := x3, movingDirection := dir3)
  }

  /** The minimum width a shrinking floor stops at: max(20, SHRINKING_FLOOR_MIN_WIDTH * multiplier). */
  function ShrinkMinWidth(d: Difficulty): real {
    Max(20.0, ShrinkingFloorMinWidth * d.shrinkingMinWidth)
  }

  /** A shrinking floor's step: count down the delay, then narrow around the original centre. */
  function ShrinkFloor(f: Floor, d: Difficulty): Floor {
    if f.shrinkDelay > 0.0 then f.(shrinkDelay := f.shrinkDelay - 1.0)
    else
      var speed := ShrinkingFloorShrinkSpeed * d.shrinkingSpeed;
      var minWidth := ShrinkMinWidth(d);
      if f.width > minWidth then
        var w := Max(f.width - speed, minWidth);
        f.(width := w, x := f.shrinkingOriginalX + (f.originalWidth - w) / 2.0)
      else f
  }

  /** A breaking floor's step: once stepped on it loses alpha and is marked for removal at 0. */
  function CrumbleFloor(f: Floor, d: Difficulty): Floor {
    if f.isBreaking && !f.isFading then
      var alpha := f.fadeAlpha - BreakingFloorFadeSpeed * d.breakingFadeSpeed;
      if alpha <= 0.0 then f.(fadeAlpha := alpha, shouldRemove := true) else f.(fadeAlpha := alpha)
    else f
  }

  /** The per-type switch of updateSpecialFloors. */
  function AnimateFloor(f: Floor, d: Difficulty): Floor {
    match f.kind
    case Moving => MoveFloor(f, d)
    case Shrinking => ShrinkFloor(f, d)
    case Breaking => CrumbleFloor(f, d)
    case _ => f
  }

  /** What updateSpecialFloors leaves of a list: floors marked shouldRemove dropped, the rest animated. */
  function AnimateAll(fs: seq<Floor>, d: Difficulty): seq<Floor> {
    if fs == [] then []
    else (if fs[0].shouldRemove then [] else [AnimateFloor(fs[0], d)]) + AnimateAll(fs[1..], d)
  }

  /** Numbers of the floors marked shouldRemove. */
  function RemovedNumbers(fs: seq<Floor>): (gone: set<int>)
    ensures forall n :: n in gone <==> exists i :: 0 <= i < |fs| && fs[i].shouldRemove && fs[i].number == n
  {
    if fs == [] then {}
    else
      var rest := RemovedNumbers(fs[1..]);
      assert forall i :: 1 <= i < |fs| ==> fs[i] == fs[1..][i - 1];
      (if fs[0].shouldRemove then {fs[0].number} else {}) + rest
  }

  // ---------------------------------------------------------------------------
  // Fading (js/game.js:1603-1649)
  // ---------------------------------------------------------------------------

  /** The fade speed factor: min(1.5 * difficulty, 5) while difficulty is active, else 1. */
  function FadeSpeedMultiplier(d: Difficulty): real {
    if d.active then Min(DifficultyFloorFadeMultiplier * d.current, DifficultyMaxFadeMultiplier) else 1.0
  }

  /** How many floors, counted from floor 0, should have started fading by a fade timer value. */
  function FloorsToFade(timer: int): int
    requires timer >= FloorFadeInitialDelay
  {
    MinInt((timer - FloorFadeInitialDelay) / FloorFadeTimeBetweenFloors, FloorFadeMaxFloorsAtOnce)
  }

  /** Alpha a fading floor loses per tick: FLOOR_FADE_ALPHA_SPEED times the fade speed factor. */
  function FadeSpeed(d: Difficulty): real {
    FloorFadeAlphaSpeed * FadeSpeedMultiplier(d)
  }

  /** `floors.find(f => f.number === n)`, as an index. */
  function FindNumber(fs: seq<Floor>, n: int): (k: Option<nat>)
    ensures k.Some? ==> k.value < |fs| && fs[k.value].number == n && forall j :: 0 <= j < k.value ==> fs[j].number != n
    ensures k.None? <==> forall j :: 0 <= j < |fs| ==> fs[j].number != n
  {
    FirstIndex(fs, (f: Floor) => f.number == n)
  }

  /** A floor that starts to fade; a crumbling breaking floor stops crumbling. */
  function StartFading(f: Floor): Floor {
    if f.kind == Breaking && f.isBreaking then f.(isFading := true, isBreaking := false)
    else f.(isFading := true)
  }

  /** One step of the fade sweep over floor number i: (floors, nextFloorToFade). */
  function FadeStep(fs: seq<Floor>, next: int, i: int): (seq<Floor>, int) {
    match FindNumber(fs, i)
    case Some(k) => if !fs[k].isFading then (fs[k := StartFading(fs[k])], i + 1) else (fs, next)
    case None => (fs, next)
  }

  /** The loop `for (i = lo; i < hi; i++)` of the fade sweep. */
  function FadeSweep(fs: seq<Floor>, next: int, lo: int, hi: int): (seq<Floor>, int)
    decreases hi - lo
  {
    if lo >= hi then (fs, next)
    else
      var (fs1, next1) := FadeStep(fs, next, lo);
      FadeSweep(fs1, next1, lo + 1, hi)
  }

  /** A fading floor loses alpha while above FLOOR_FADE_MIN_ALPHA. */
  function FadeFloor(f: Floor, speed: real): Floor {
    if f.isFading && f.fadeAlpha > FloorFadeMinAlpha then f.(fadeAlpha := f.fadeAlpha - speed) else f
  }

  /** A fading floor that has reached FLOOR_FADE_MIN_ALPHA is removed. */
  predicate FadedOut(f: Floor) {
    f.isFading && f.fadeAlpha <= FloorFadeMinAlpha
  }

  /** What the removal loop of updateFadingFloors leaves: fading floors faded, faded-out ones dropped. */
  function FadeAll(fs: seq<Floor>, speed: real): seq<Floor> {
    if fs == [] then []
    else
      var f := FadeFloor(fs[0], speed);
      (if FadedOut(f) then [] else [f]) + FadeAll(fs[1..], speed)
  }

  /** Numbers of the floors the removal loop drops. */
  function FadedOutNumbers(fs: seq<Floor>, speed: real): (gone: set<int>)
    ensures forall n :: n in gone <==> exists i :: 0 <= i < |fs| && FadedOut(FadeFloor(fs[i], speed)) && fs[i].number == n
  {
    if fs == [] then {}
    else
      var rest := FadedOutNumbers(fs[1..], speed);
      assert forall i :: 1 <= i < |fs| ==> fs[i] == fs[1..][i - 1];
      (if FadedOut(FadeFloor(fs[0], speed)) then {fs[0].number} else {}) + rest
  }

  // ---------------------------------------------------------------------------
  // Game over (js/game.js:1818-1838)
  // ---------------------------------------------------------------------------

  /** A floor checkIfAnyFloorsLeft still counts as something to land on. */
  predicate Supports(f: Floor) {
    !((f.isFading || (f.kind == Breaking && f.isBreaking)) && f.fadeAlpha < FadingFloorMinAlphaForCollision) &&
    f.fadeAlpha > 0.0
  }

  /** The largest y (lowest on screen) of a supporting floor, in the loop's left-to-right order. */
  function LowestSupportY(fs: seq<Floor>): Option<real> {
    if fs == [] then None
    else
      var acc := LowestSupportY(fs[..|fs| - 1]);
      var f := fs[|fs| - 1];
      if !Supports(f) then acc
      else match acc
        case None => Some(f.y)
        case Some(y) => if f.y > y then Some(f.y) else acc
  }

  /** checkIfAnyFloorsLeft. */
  predicate AnyFloorsLeft(fs: seq<Floor>, b: Ball) {
    match LowestSupportY(fs)
    case None => false
    case Some(lowest) => !(b.y > lowest + GameOverFallThreshold)
  }
}
