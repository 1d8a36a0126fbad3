/**
 * The game object of js/game.js: the state of one run and the phases of its
 * fixed tick. Math.random() is the stream `rng`, read in source order through
 * the cursor `rngPos`; the canvas, the DOM, the event listeners and the
 * storage are not part of this model (see README.md).
 */
module Simulation {
  import opened Wrappers
  import opened GameConfig
  import opened World
  import ConfigProperties
  import WorldProperties

  class Game {
    /** The i-th value Math.random() returns during the run. */
    const rng: nat -> real
    /** How many values of `rng` have been consumed. */
    var rngPos: nat

    var gameStarted: bool
    var isPaused: bool
    var isGameOver: bool
    var gameOver: bool

    var player: Ball
    var startFloorLevel: real
    /** cameraY and the height and velocity readouts. */
    var hud: Readouts
    /** The wall-boost fields and the boost display. */
    var boost: Boost

    var floors: seq<Floor>
    var currentFloorIndex: int
    var maxFloorReached: int
    var highestFloorEver: int

    /** floorFadeTimer, nextFloorToFade and fadeProcessActive. */
    var fade: Fade
    var difficulty: Difficulty

    var coins: seq<Coin>
    var collectedCoins: int

    var wind: Wind
    var magnetActive: bool
    var magnetRange: real

    var currentBallType: string
    var config: BallConfig
    var activeUpgrades: seq<Entry>

    /** `state.settings`; mobileControlsEnabled and useAccelerometer always mirror it. */
    var settings: Settings
    var autoJumpActive: bool
    /** `keys`, touchActive, touchDirection and tiltX as the input handlers left them. */
    var controls: Controls
    /** keysPressedThisFrame. */
    var pressed: Keys

    /** Every draw of Math.random() lies in [0, 1). */
    ghost predicate RngInRange() {
      forall i: nat :: 0.0 <= rng(i) < 1.0
    }

    /**
     * What every operation of the game keeps: a well-formed ball of the
     * configured size, a consistent wind state, floors in increasing number
     * order, a difficulty that is either untouched or active from
     * DIFFICULTY_START_AT_SCORE on, a best score never below the run's, and
     * non-negative counters.
     */
    ghost predicate Valid()
      reads this`config, this`player, this`wind, this`floors, this`difficulty, this`maxFloorReached,
        this`highestFloorEver, this`collectedCoins, this`fade, this`boost
    {
      RngInRange() &&
      WellFormed(config) && player.radius == config.radius &&
      WindInvariant(wind) &&
      NumbersIncreasing(floors) &&
      (!difficulty.active ==> difficulty == InitialDifficulty) &&
      (difficulty.active ==> maxFloorReached >= DifficultyStartAtScore && difficulty.current >= 1.0) &&
      0 <= maxFloorReached <= highestFloorEver &&
      0 <= collectedCoins && 0 <= fade.next && 0 <= fade.timer && 0 <= boost.activatedFrames
    }

    /** Whether update runs a tick: the game is started, neither paused nor over. */
    predicate Running()
      reads this`gameStarted, this`isPaused, this`isGameOver
    {
      gameStarted && !isPaused && !isGameOver
    }

    // -------------------------------------------------------------------------
    // Life cycle (js/game.js:3-35, 140-228, 318-477)
    // -------------------------------------------------------------------------

    /**
     * init: a stopped game with the standard ball, the best score loaded from
     * storage, wind in a break and floors 0 to FLOORS_TO_GENERATE_AHEAD.
     */
    constructor (draws: nat -> real, savedBestScore: nat, menuSettings: Settings)
      requires forall i: nat :: 0.0 <= draws(i) < 1.0
      ensures Valid() && FreshWorld()
      ensures rng == draws && !Running()
      ensures currentBallType == Standard && config == StandardBallConfig
      ensures highestFloorEver == savedBestScore && collectedCoins == 0 && !difficulty.active
      ensures settings == menuSettings && autoJumpActive == menuSettings.autoJump
    {
      rng := draws;
      rngPos := 0;
      isPaused, isGameOver, gameStarted, gameOver := false, false, false, false;
      var base := BaseBallConfig(Standard);
      player := Ball(PlayerStartX, PlayerStartY, base.radius, 0.0, 0.0, false, false);
      startFloorLevel := CanvasHeight - 100.0 - base.radius;
      hud := NoReadouts;
      boost := NoBoost;
      floors := [];
      currentFloorIndex := 0;
      maxFloorReached := 0;
      highestFloorEver := savedBestScore;
      fade := NoFade;
      difficulty := InitialDifficulty;
      controls := NoControls;
      pressed := NoControls.keys;
      // applySettings, which init calls last, only sets these two
      autoJumpActive := menuSettings.autoJump;
      settings := menuSettings;
      coins := [];
      collectedCoins := 0;
      wind := Wind(false, 0.0, 1, 0, 0, 0, 0.0, Break, 0.0, 0.0);
      magnetActive := false;
      magnetRange := 0.0;
      currentBallType := Standard;
      config := base;
      activeUpgrades := [];
      new;
      // initSystems ends with initWind and initFloors; coins and floors are empty already
      RegenerateWorld();
    }

    /** The input handlers' net effect between two ticks. */
    method SetControls(c: Controls)
      requires Valid()
      modifies this`controls
      ensures Valid() && controls == c
    {
      controls := c;
    }

    /** applySettings: take over the menu's settings. */
    method ApplySettings(s: Settings)
      requires Valid()
      modifies this`settings, this`autoJumpActive
      ensures Valid() && settings == s && autoJumpActive == s.autoJump
    {
      settings := s;
      autoJumpActive := s.autoJump;
    }

    /** setPaused. */
    method SetPaused(paused: bool)
      requires Valid()
      modifies this`isPaused
      ensures Valid() && isPaused == paused
    {
      isPaused := paused;
    }

    /**
     * startGame: switch to the chosen ball with the upgrades the menu passes,
     * reset the run, mark it started and take over the settings.
     */
    method StartGame(ballType: string, upgrades: seq<Entry>, menuSettings: Settings)
      requires Valid()
      modifies this`currentBallType, this`activeUpgrades, this`config,
        this`player, this`hud, this`boost, this`gameOver, this`maxFloorReached, this`difficulty,
        this`fade, this`collectedCoins, this`controls, this`autoJumpActive, this`pressed,
        this`wind, this`rngPos, this`floors, this`coins, this`gameStarted, this`isPaused, this`isGameOver, this`settings
      ensures Valid() && RunReset() && FreshWorld() && Running()
      ensures currentBallType == ballType && activeUpgrades == upgrades
      ensures config == BallConfigWithUpgrades(ballType, map[ballType := upgrades])
      ensures highestFloorEver == old(highestFloorEver)
      ensures settings == menuSettings && autoJumpActive == menuSettings.autoJump
    {
      ChangeBall(ballType, upgrades);
      ResetAndBegin(menuSettings);
    }

    /** The rest of startGame once the ball is chosen: resetGameState, then the flags and the settings. */
    method ResetAndBegin(s: Settings)
      requires Valid()
      modifies this`player, this`hud, this`boost, this`gameOver, this`maxFloorReached, this`difficulty,
        this`fade, this`collectedCoins, this`controls, this`autoJumpActive, this`pressed,
        this`wind, this`rngPos, this`floors, this`coins, this`gameStarted, this`isPaused, this`isGameOver, this`settings
      ensures Valid() && RunReset() && FreshWorld() && Running()
      ensures settings == s && autoJumpActive == s.autoJump
      ensures config == old(config) && currentBallType == old(currentBallType)
      ensures activeUpgrades == old(activeUpgrades) && highestFloorEver == old(highestFloorEver)
    {
      ResetGameState();
      Begin(s);
    }

    /**
     * The flags startGame sets (running, neither paused nor over) and the
     * settings applySettings takes over. No step of startGame in between reads
     * the flags, so setting them last leaves the same state.
     */
    method Begin(s: Settings)
      requires Valid()
      modifies this`gameStarted, this`isPaused, this`isGameOver, this`settings, this`autoJumpActive
      ensures Valid() && Running()
      ensures settings == s && autoJumpActive == s.autoJump
    {
      gameStarted, isPaused, isGameOver := true, false, false;
      settings, autoJumpActive := s, s.autoJump;
    }

    /** changeBall: resolve the ball's configuration with its upgrades and resize the ball. */
    method ChangeBall(ballType: string, upgrades: seq<Entry>)
      requires Valid()
      modifies this`currentBallType, this`activeUpgrades, this`config, this`player
      ensures Valid()
      ensures currentBallType == ballType && activeUpgrades == upgrades
      ensures config == BallConfigWithUpgrades(ballType, map[ballType := upgrades])
      ensures player == old(player).(radius := config.radius)
    {
      currentBallType := ballType;
      activeUpgrades := upgrades;
      config := BallConfigWithUpgrades(ballType, map[ballType := upgrades]);
      ConfigProperties.ResolvedConfigWellFormed(ballType, map[ballType := upgrades]);
      player := player.(radius := config.radius);
    }

    /**
     * The run as resetGameState leaves it: the ball at rest at its start
     * point, the readouts zeroed, no floor reached, no coin collected, the
     * difficulty at its initial values, no boost and no floor fading.
     */
    ghost predicate RunReset()
      reads this`player, this`config, this`hud, this`boost, this`gameOver, this`maxFloorReached,
        this`difficulty, this`fade, this`collectedCoins
    {
      player == Ball(PlayerStartX, PlayerStartY, config.radius, 0.0, 0.0, false, false) &&
      hud == NoReadouts && boost == NoBoost && !gameOver &&
      maxFloorReached == 0 && difficulty == InitialDifficulty && fade == NoFade && collectedCoins == 0
    }

    /**
     * A freshly generated world: wind in a break, floors 0 to
     * FLOORS_TO_GENERATE_AHEAD in order, and coins only on floors 1 and up.
     */
    ghost predicate FreshWorld()
      reads this`wind, this`floors, this`coins
    {
      wind.phase == Break && !wind.active && wind.force == 0.0 &&
      |floors| == FloorsToGenerateAhead + 1 &&
      (forall i :: 0 <= i < |floors| ==> floors[i].number == i && floors[i].y == FloorY(i)) &&
      (forall c :: c in coins ==> 1 <= c.floorNumber <= FloorsToGenerateAhead)
    }

    /**
     * resetGameState: the ball back at the start, every counter of the run
     * zeroed, the input cleared, a new wind break and a new set of floors. The
     * difficulty is reset as a whole, multipliers included (see Findings in
     * README.md).
     */
    method ResetGameState()
      requires Valid()
      modifies this`player, this`hud, this`boost, this`gameOver, this`maxFloorReached, this`difficulty,
        this`fade, this`collectedCoins, this`controls, this`autoJumpActive, this`pressed,
        this`wind, this`rngPos, this`floors, this`coins
      ensures Valid() && RunReset() && FreshWorld()
      ensures controls == NoControls && !autoJumpActive && pressed == NoControls.keys
    {
      ResetRun();
      RegenerateWorld();
    }

    /** The ball, the counters and the input of resetGameState. */
    method ResetRun()
      requires Valid()
      modifies this`player, this`hud, this`boost, this`gameOver, this`maxFloorReached, this`difficulty,
        this`fade, this`collectedCoins, this`controls, this`autoJumpActive, this`pressed
      ensures Valid() && RunReset()
      ensures controls == NoControls && !autoJumpActive && pressed == NoControls.keys
    {
      ResetBallAndBoost();
      ResetProgress();
      ResetInput();
    }

    /** The ball back at its start point at rest, the readouts zeroed, no boost, not over. */
    method ResetBallAndBoost()
      requires Valid()
      modifies this`player, this`hud, this`boost, this`gameOver
      ensures Valid()
      ensures player == Ball(PlayerStartX, PlayerStartY, config.radius, 0.0, 0.0, false, false)
      ensures hud == NoReadouts && boost == NoBoost && !gameOver
    {
      player := Ball(PlayerStartX, PlayerStartY, player.radius, 0.0, 0.0, false, false);
      hud := NoReadouts;
      boost := NoBoost;
      gameOver := false;
    }

    /** No floor reached, the difficulty reset as a whole, no fading, no coin collected. */
    method ResetProgress()
      requires Valid()
      modifies this`maxFloorReached, this`difficulty, this`fade, this`collectedCoins
      ensures Valid()
      ensures maxFloorReached == 0 && difficulty == InitialDifficulty && fade == NoFade && collectedCoins == 0
    {
      maxFloorReached := 0;
      difficulty := InitialDifficulty;
      fade := NoFade;
      collectedCoins := 0;
    }

    /** No key, touch or tilt, auto-jump off until the next tick takes the setting over. */
    method ResetInput()
      requires Valid()
      modifies this`controls, this`autoJumpActive, this`pressed
      ensures Valid() && controls == NoControls && !autoJumpActive && pressed == NoControls.keys
    {
      controls := NoControls;
      autoJumpActive := false;
      pressed := NoControls.keys;
    }

    /** The emptied coin list, the new wind break and the new floors of resetGameState. */
    method RegenerateWorld()
      requires Valid()
      modifies this`wind, this`rngPos, this`floors, this`coins
      ensures Valid() && FreshWorld()
    {
      coins := [];
      InitWind();
      floors := [];
      ghost var starts, cuts := InitFloors();
    }

    // -------------------------------------------------------------------------
    // Floor generation (js/game.js:480-711)
    // -------------------------------------------------------------------------

    /**
     * initFloors: floor 0, then floors 1 to FLOORS_TO_GENERATE_AHEAD, each
     * generated after the previous one and drawing where the previous one
     * stopped, each with its coins.
     */
    method InitFloors() returns (ghost starts: seq<nat>, ghost cuts: seq<nat>)
      requires Valid() && floors == []
      modifies this`floors, this`coins, this`rngPos
      ensures Valid()
      ensures |floors| == FloorsToGenerateAhead + 1
      ensures forall i :: 0 <= i < |floors| ==> floors[i].number == i && floors[i].y == FloorY(i)
      ensures |old(coins)| <= |coins| && coins[..|old(coins)|] == old(coins)
      ensures GeneratedRun(floors, 0, None, difficulty, starts, coins[|old(coins)|..], cuts)
      ensures starts[0] == old(rngPos) && rngPos == starts[|floors|]
      ensures forall k :: |old(coins)| <= k < |coins| ==> 1 <= coins[k].floorNumber <= FloorsToGenerateAhead
    {
      var fs, cs, p;
      fs, cs, p, starts, cuts := GenerateRun([], 0, FloorsToGenerateAhead);
      assert (coins + cs)[|coins|..] == cs;
      floors, coins, rngPos := fs, coins + cs, p;
    }

    /**
     * generateFloor: choose the floor's type, size and place, maybe a cannon,
     * and its coins, which are appended to the game's coin list; the floor is
     * built after the last floor of the list, drawing from the stream's
     * current position on.
     */
    method GenerateFloor(n: nat) returns (f: Floor)
      requires Valid()
      modifies this`rngPos, this`coins
      ensures Valid()
      ensures FloorGenerated(f, n, LastFloor(floors), difficulty, old(rngPos))
      ensures rngPos == FloorEnd(f, n, LastFloor(floors), old(rngPos))
      ensures |old(coins)| <= |coins| <= |old(coins)| + MaxCoinsPerFloor && coins[..|old(coins)|] == old(coins)
      ensures CoinsGenerated(coins[|old(coins)|..], f, ShapeEnd(f, n, LastFloor(floors), old(rngPos)))
      ensures forall k :: |old(coins)| <= k < |coins| ==> coins[k].floorNumber == n
      ensures n < MinFloorForCoins ==> coins == old(coins)
    {
      var floorCoins, p;
      f, floorCoins, p := BuildFloor(n, LastFloor(floors), rngPos);
      assert (coins + floorCoins)[|coins|..] == floorCoins;
      coins := coins + floorCoins;
      rngPos := p;
    }

    /**
     * The floor numbered `n` generateFloor builds after floor `prev` and its
     * coins, drawing from position p of the stream on; q is the position after
     * its draws.
     */
    method BuildFloor(n: nat, prev: Option<Floor>, p: nat) returns (f: Floor, cs: seq<Coin>, q: nat)
      requires Valid()
      ensures FloorGenerated(f, n, prev, difficulty, p) && q == FloorEnd(f, n, prev, p)
      ensures CoinsGenerated(cs, f, ShapeEnd(f, n, prev, p))
      ensures |cs| <= MaxCoinsPerFloor && (n < MinFloorForCoins ==> cs == [])
      ensures forall k :: 0 <= k < |cs| ==> cs[k].floorNumber == n
    {
      f, q := ShapeFloor(n, prev, p);
      cs, q := GenerateCoinsForFloor(f, q);
    }

    // The positions of the stream generateFloor reads. Its draws come in this
    // order: the type (determineFloorType), the width and the x, the cannon,
    // the moving direction, then the coins (generateCoinsForFloor).

    /** The position after determineFloorType's draw for floor n, drawn at p if at all. */
    function AfterTypeDraw(n: nat, p: nat): nat {
      if DrawsFloorType(n) then p + 1 else p
    }

    /**
     * The draws for the width and x of a floor of type `kind`: none for a
     * full-width floor, two for a moving floor, and otherwise one for the
     * width and getFloorXPosition's.
     */
    function PlaceDraws(n: nat, kind: FloorType, prev: Option<Floor>, width: real): nat {
      if kind == Special || (kind == Normal && n == 0) then 0
      else if kind == Moving then 2
      else if PlacementDraws(prev, width) then 2
      else 1
    }

    /** The cannon draw: from floor 5 on, while cannons are enabled. */
    function CannonDraws(n: nat): nat {
      if CannonEnabled && n >= 5 then 1 else 0
    }

    /** The position after the draws of floor f itself, its coins aside, begun at p. */
    function ShapeEnd(f: Floor, n: nat, prev: Option<Floor>, p: nat): nat {
      AfterTypeDraw(n, p) + PlaceDraws(n, f.kind, prev, f.width) + CannonDraws(n) +
      (if f.kind == Moving then 1 else 0)
    }

    /**
     * generateCoinsForFloor's draws for floor n begun at p: none below
     * MIN_FLOOR_FOR_COINS, the chance, then the base count and two per coin.
     */
    ghost function CoinDraws(n: int, p: nat): nat
      requires RngInRange()
    {
      if n < MinFloorForCoins then 0
      else if rng(p) > CoinChance(n) then 1
      else
        WorldProperties.CoinCountBounded(BaseCoinDraw(rng(p + 1)), n);
        2 + 2 * CoinCount(BaseCoinDraw(rng(p + 1)), n)
    }

    /**
     * What generateCoinsForFloor promises of the coins `cs` of floor `f`, its
     * draws begun at p: none below MIN_FLOOR_FOR_COINS or when the chance draw
     * exceeds the floor's coin chance; otherwise CoinCount of the base draw,
     * coin k with its x from draw 2 + 2k scaled between the floor's margins,
     * COIN_Y_OFFSET from the floor's top.
     */
    ghost predicate CoinsGenerated(cs: seq<Coin>, f: Floor, p: nat)
      requires RngInRange() && f.width >= 2.0 * CoinMargin
    {
      (if f.number < MinFloorForCoins || rng(p) > CoinChance(f.number) then cs == []
       else |cs| == CoinCount(BaseCoinDraw(rng(p + 1)), f.number)) &&
      forall k :: 0 <= k < |cs| ==>
        cs[k] == Coin(Between(f.x + CoinMargin, f.x + f.width - CoinMargin, rng(p + 2 + 2 * k)),
                      f.y + CoinYOffset, CoinRadius, f.number)
    }

    /** The position after every draw of generateFloor for floor f begun at p, coins included. */
    ghost function FloorEnd(f: Floor, n: nat, prev: Option<Floor>, p: nat): (q: nat)
      requires RngInRange()
      ensures p <= q
    {
      var s := ShapeEnd(f, n, prev, p);
      s + CoinDraws(n, s)
    }

    /**
     * What generateFloor promises of floor `f` numbered `n`, built after
     * floor `prev` at difficulty `d` with its draws begun at `p`: the type
     * from the first draw, the width and x from the next ones (a placed floor
     * within FLOOR_MAX_HORIZONTAL_GAP of `prev`), the cannon with chance
     * CANNON_CHANCE from the one after, and a moving floor's direction from
     * the last.
     */
    ghost predicate FloorGenerated(f: Floor, n: nat, prev: Option<Floor>, d: Difficulty, p: nat)
      requires RngInRange()
    {
      var w := AfterTypeDraw(n, p);
      var c := w + PlaceDraws(n, f.kind, prev, f.width);
      f.number == n && f.y == FloorY(n) && f.height == FloorHeight &&
      f.kind == DetermineFloorType(n, d, if DrawsFloorType(n) then rng(p) else 0.0) &&
      f.originalWidth == f.width && f.width >= 2.0 * CoinMargin &&
      WallLeftX + WallThickness <= f.x && f.x + f.width <= WallRightX - WallThickness &&
      (f.isSpecial <==> f.kind == Special || n == 0) &&
      !f.isFading && f.fadeAlpha == 1.0 && !f.isBreaking && !f.shouldRemove &&
      (f.kind == Special || n == 0 ==> f.x == WallLeftX + WallThickness && f.x + f.width == WallRightX - WallThickness) &&
      (f.kind == Moving ==>
        f.width == Between(MovingFloorMinWidth, MovingFloorMaxWidth, rng(w)) &&
        f.x == Between(MovingFloorMinX, MovingFloorMaxX - f.width, rng(w + 1)) &&
        f.movingDirection == Direction(rng(c + CannonDraws(n))) && f.originalX == f.x) &&
      (f.kind != Moving ==> f.movingDirection == 0 && f.originalX == 0.0) &&
      (f.kind == Shrinking ==>
        f.shrinkingOriginalX == f.x &&
        f.shrinkDelay == ShrinkingFloorStartDelay * (if d.active then d.shrinkingDelay else 1.0)) &&
      (f.kind != Shrinking ==> f.shrinkDelay == 0.0 && f.shrinkingOriginalX == 0.0) &&
      (f.kind == Breaking ==> f.width == Between(BreakingFloorMinWidth, BreakingFloorMaxWidth, rng(w))) &&
      ((f.kind == Shrinking || (f.kind == Normal && n != 0)) ==> f.width == Between(FloorMinWidth, FloorMaxWidth, rng(w))) &&
      ((f.kind == Shrinking || f.kind == Breaking || (f.kind == Normal && n != 0)) ==>
        f.x == FloorXPosition(prev, f.width, rng(w + 1))) &&
      (f.hasCannon <==> CannonEnabled && n >= 5 && rng(c) < CannonChance) &&
      f.cannonSide == (if f.hasCannon then Some(if f.x + f.width / 2.0 < CanvasWidth / 2.0 then Right else Left) else None)
    }

    /** The floor the i-th floor of a run is placed against: the one before it, `prev` for the first. */
    function Before(fs: seq<Floor>, i: nat, prev: Option<Floor>): Option<Floor>
      requires i <= |fs|
    {
      if i == 0 then prev else Some(fs[i - 1])
    }

    /**
     * Floor i of the run `fs` is what generateFloor promises of floor
     * `first + i` placed after the floor before it (the first after `prev`),
     * its draws begun at starts[i] and ended at starts[i + 1]; its coins are
     * cs[cuts[i]..cuts[i + 1]], what generateCoinsForFloor promises after the
     * floor's own draws.
     */
    ghost predicate RunFloor(fs: seq<Floor>, first: nat, prev: Option<Floor>, d: Difficulty,
                             starts: seq<nat>, cs: seq<Coin>, cuts: seq<nat>, i: nat)
      requires RngInRange() && |starts| == |fs| + 1 && |cuts| == |fs| + 1 && i < |fs|
    {
      FloorGenerated(fs[i], first + i, Before(fs, i, prev), d, starts[i]) &&
      starts[i + 1] == FloorEnd(fs[i], first + i, Before(fs, i, prev), starts[i]) &&
      cuts[i] <= cuts[i + 1] <= |cs| &&
      CoinsGenerated(cs[cuts[i]..cuts[i + 1]], fs[i], ShapeEnd(fs[i], first + i, Before(fs, i, prev), starts[i]))
    }

    /**
     * The floors `fs`, numbered from `first` on, and their coins `cs`, as the
     * loops of initFloors and generateMoreFloorsIfNeeded generate them at
     * difficulty `d`: each floor placed after the one before it, its draws
     * begun where those of the floor before it ended, its coins the next
     * slice of `cs`.
     */
    ghost predicate GeneratedRun(fs: seq<Floor>, first: nat, prev: Option<Floor>, d: Difficulty,
                                 starts: seq<nat>, cs: seq<Coin>, cuts: seq<nat>)
      requires RngInRange()
    {
      |starts| == |fs| + 1 && |cuts| == |fs| + 1 && cuts[0] == 0 && cuts[|fs|] == |cs| &&
      forall i :: 0 <= i < |fs| ==> RunFloor(fs, first, prev, d, starts, cs, cuts, i)
    }

    /** Floor i of a run is still floor i of the run extended by further floors and coins. */
    lemma RunFloorExtends(fs: seq<Floor>, more: seq<Floor>, first: nat, prev: Option<Floor>, d: Difficulty,
                          starts: seq<nat>, moreStarts: seq<nat>, cs: seq<Coin>, moreCoins: seq<Coin>,
                          cuts: seq<nat>, moreCuts: seq<nat>, i: nat)
      requires RngInRange() && |starts| == |fs| + 1 && |cuts| == |fs| + 1 && i < |fs|
      requires |moreStarts| == |more| && |moreCuts| == |more|
      requires RunFloor(fs, first, prev, d, starts, cs, cuts, i)
      ensures RunFloor(fs + more, first, prev, d, starts + moreStarts, cs + moreCoins, cuts + moreCuts, i)
    {
      var fs', cs' := fs + more, cs + moreCoins;
      assert fs'[i] == fs[i] && Before(fs', i, prev) == Before(fs, i, prev);
      assert (starts + moreStarts)[i] == starts[i] && (starts + moreStarts)[i + 1] == starts[i + 1];
      assert (cuts + moreCuts)[i] == cuts[i] && (cuts + moreCuts)[i + 1] == cuts[i + 1];
      assert cs'[cuts[i]..cuts[i + 1]] == cs[cuts[i]..cuts[i + 1]];
    }

    /** A run grows by the floor generated after it, drawing where the run stopped, and by its coins. */
    lemma RunGrows(fs: seq<Floor>, f: Floor, fc: seq<Coin>, first: nat, prev: Option<Floor>, d: Difficulty,
                   starts: seq<nat>, cs: seq<Coin>, cuts: seq<nat>, q: nat)
      requires RngInRange() && GeneratedRun(fs, first, prev, d, starts, cs, cuts)
      requires FloorGenerated(f, first + |fs|, Before(fs, |fs|, prev), d, starts[|fs|])
      requires q == FloorEnd(f, first + |fs|, Before(fs, |fs|, prev), starts[|fs|])
      requires CoinsGenerated(fc, f, ShapeEnd(f, first + |fs|, Before(fs, |fs|, prev), starts[|fs|]))
      ensures GeneratedRun(fs + [f], first, prev, d, starts + [q], cs + fc, cuts + [|cs| + |fc|])
    {
      var fs', starts', cs', cuts' := fs + [f], starts + [q], cs + fc, cuts + [|cs| + |fc|];
      forall i | 0 <= i < |fs|
        ensures RunFloor(fs', first, prev, d, starts', cs', cuts', i)
      {
        assert RunFloor(fs, first, prev, d, starts, cs, cuts, i);
        RunFloorExtends(fs, [f], first, prev, d, starts, [q], cs, fc, cuts, [|cs| + |fc|], i);
      }
      assert Before(fs', |fs|, prev) == Before(fs, |fs|, prev);
      assert starts'[|fs|] == starts[|fs|] && cuts'[|fs|] == |cs|;
      assert cs'[|cs|..|cs| + |fc|] == fc;
      assert RunFloor(fs', first, prev, d, starts', cs', cuts', |fs|);
    }

    /** The floors of a run are numbered consecutively from `first`, each at its band's height. */
    lemma RunNumbers(fs: seq<Floor>, first: nat, prev: Option<Floor>, d: Difficulty,
                     starts: seq<nat>, cs: seq<Coin>, cuts: seq<nat>)
      requires RngInRange() && GeneratedRun(fs, first, prev, d, starts, cs, cuts)
      ensures forall k :: 0 <= k < |fs| ==> fs[k].number == first + k && fs[k].y == FloorY(fs[k].number)
    {
      forall k | 0 <= k < |fs|
        ensures fs[k].number == first + k && fs[k].y == FloorY(fs[k].number)
      {
        assert RunFloor(fs, first, prev, d, starts, cs, cuts, k);
      }
    }

    /** A run consumes the stream forwards: floor i's draws begin no earlier than the run's. */
    lemma {:induction false} RunMovesForward(fs: seq<Floor>, first: nat, prev: Option<Floor>, d: Difficulty,
                                             starts: seq<nat>, cs: seq<Coin>, cuts: seq<nat>, i: nat)
      requires RngInRange() && GeneratedRun(fs, first, prev, d, starts, cs, cuts) && i <= |fs|
      ensures starts[0] <= starts[i]
    {
      if i > 0 {
        RunMovesForward(fs, first, prev, d, starts, cs, cuts, i - 1);
        assert RunFloor(fs, first, prev, d, starts, cs, cuts, i - 1);
      }
    }

    /**
     * The floor generateFloor builds, without its coins, drawing from
     * position p of the stream on; q is the position after its draws.
     */
    method ShapeFloor(n: nat, prev: Option<Floor>, p: nat) returns (f: Floor, q: nat)
      requires Valid()
      ensures FloorGenerated(f, n, prev, difficulty, p) && q == ShapeEnd(f, n, prev, p)
      ensures f.width >= 2.0 * CoinMargin
    {
      var r := if DrawsFloorType(n) then rng(p) else 0.0;
      q := AfterTypeDraw(n, p);
      var kind := DetermineFloorType(n, difficulty, r);
      var width, x;
      width, x, q := FloorPlace(n, kind, prev, q);
      var shrinkDelay := if kind == Shrinking then
        ShrinkingFloorStartDelay * (if difficulty.active then difficulty.shrinkingDelay else 1.0) else 0.0;
      var hasCannon, cannonSide;
      hasCannon, cannonSide, q := CannonDraw(n, x, width, q);
      var movingDirection := 0;
      if kind == Moving {
        movingDirection := Direction(rng(q));
        q := q + 1;
      }
      f := Floor(n, x, FloorY(n), width, FloorHeight, kind, kind == Special || n == 0, false, 1.0,
                 movingDirection, if kind == Moving then x else 0.0, width, shrinkDelay, false,
                 hasCannon, cannonSide, false, if kind == Shrinking then x else 0.0);
    }

    /** The width and x generateFloor gives a floor of type `kind`, drawing from position p on. */
    method FloorPlace(n: nat, kind: FloorType, prev: Option<Floor>, p: nat) returns (width: real, x: real, q: nat)
      requires RngInRange()
      ensures q == p + PlaceDraws(n, kind, prev, width)
      ensures WallLeftX + WallThickness <= x && x + width <= WallRightX - WallThickness
      ensures kind == Special ==> width == SpecialFloorWidth && x == WallLeftX + WallThickness
      ensures kind == Normal && n == 0 ==> width == StartFloorWidth && x == WallLeftX + WallThickness
      ensures kind == Moving ==>
        width == Between(MovingFloorMinWidth, MovingFloorMaxWidth, rng(p)) &&
        x == Between(MovingFloorMinX, MovingFloorMaxX - width, rng(p + 1))
      ensures kind == Breaking ==> width == Between(BreakingFloorMinWidth, BreakingFloorMaxWidth, rng(p))
      ensures kind == Shrinking || (kind == Normal && n != 0) ==> width == Between(FloorMinWidth, FloorMaxWidth, rng(p))
      ensures (kind == Shrinking || kind == Breaking || (kind == Normal && n != 0)) ==>
        x == FloorXPosition(prev, width, rng(p + 1))
    {
      match kind {
        case Special =>
          width := SpecialFloorWidth;
          x := (CanvasWidth - width) / 2.0;
          q := p;
        case Moving =>
          width := Between(MovingFloorMinWidth, MovingFloorMaxWidth, rng(p));
          x := Between(MovingFloorMinX, MovingFloorMaxX - width, rng(p + 1));
          q := p + 2;
        case Shrinking =>
          width := Between(FloorMinWidth, FloorMaxWidth, rng(p));
          x, q := GetFloorXPosition(width, prev, p + 1);
        case Breaking =>
          width := Between(BreakingFloorMinWidth, BreakingFloorMaxWidth, rng(p));
          x, q := GetFloorXPosition(width, prev, p + 1);
        case Normal =>
          if n == 0 {
            width := StartFloorWidth;
            x := (CanvasWidth - width) / 2.0;
            q := p;
          } else {
            width := Between(FloorMinWidth, FloorMaxWidth, rng(p));
            x, q := GetFloorXPosition(width, prev, p + 1);
          }
      }
    }

    /** The cannon draw of generateFloor: from floor 5 on, a cannon with chance CANNON_CHANCE. */
    method CannonDraw(n: nat, x: real, width: real, p: nat) returns (hasCannon: bool, side: Option<Side>, q: nat)
      requires RngInRange()
      ensures q == if CannonEnabled && n >= 5 then p + 1 else p
      ensures hasCannon <==> CannonEnabled && n >= 5 && rng(p) < CannonChance
      ensures side == if hasCannon then Some(if x + width / 2.0 < CanvasWidth / 2.0 then Right else Left) else None
    {
      hasCannon, side, q := false, None, p;
      if CannonEnabled && n >= 5 {
        q := p + 1;
        if rng(p) < CannonChance {
          hasCannon := true;
          var centre := x + width / 2.0;
          side := Some(if centre < CanvasWidth / 2.0 then Right else Left);
        }
      }
    }

    /**
     * getFloorXPosition: place a floor of the given width within
     * FLOOR_MAX_HORIZONTAL_GAP of the last floor of the list, `prev`, inside
     * the playfield; centred when no such place exists.
     */
    method GetFloorXPosition(width: real, prev: Option<Floor>, p: nat) returns (x: real, q: nat)
      requires RngInRange() && 0.0 <= width <= PlayfieldRight - PlayfieldLeft
      ensures x == FloorXPosition(prev, width, rng(p))
      ensures PlayfieldLeft <= x && x + width <= PlayfieldRight
      ensures q == p + (if PlacementDraws(prev, width) then 1 else 0)
    {
      q := p;
      if prev.Some? {
        var minX, maxX := PlacementMinX(prev.value), PlacementMaxX(prev.value, width);
        if minX > maxX {
          x := (CanvasWidth - width) / 2.0;
        } else {
          x := Between(minX, maxX, rng(p));
          q := p + 1;
        }
      } else {
        x := Between(PlayfieldLeft, PlayfieldLeft + (CanvasWidth - 2.0 * (WallThickness + FloorMargin) - width), rng(p));
        q := p + 1;
      }
    }

    /**
     * generateCoinsForFloor: from floor MIN_FLOOR_FOR_COINS on, a floor carries
     * coins with probability CoinChance; then 1 to MAX_COINS_PER_FLOOR of them,
     * spread over the floor at least CoinMargin from its ends. Each coin also
     * spends one draw on its random id.
     */
    method GenerateCoinsForFloor(f: Floor, p: nat) returns (cs: seq<Coin>, q: nat)
      requires RngInRange() && f.width >= 2.0 * CoinMargin
      ensures CoinsGenerated(cs, f, p)
      ensures |cs| <= MaxCoinsPerFloor && q == p + CoinDraws(f.number, p)
      ensures forall c :: c in cs ==>
        c.floorNumber == f.number && c.radius == CoinRadius && c.y == f.y + CoinYOffset &&
        f.x + CoinMargin <= c.x <= f.x + f.width - CoinMargin
      ensures f.number < MinFloorForCoins ==> cs == [] && q == p
      ensures f.number >= MinFloorForCoins && rng(p) > CoinChance(f.number) ==> cs == [] && q == p + 1
      ensures f.number >= MinFloorForCoins && rng(p) <= CoinChance(f.number) ==>
        |cs| == CoinCount(BaseCoinDraw(rng(p + 1)), f.number) &&
        MinCoinsPerFloor <= |cs| && q == p + 2 + 2 * |cs|
    {
      if f.number < MinFloorForCoins {
        return [], p;
      }
      if rng(p) > CoinChance(f.number) {
        return [], p + 1;
      }
      var numCoins := CoinCount(BaseCoinDraw(rng(p + 1)), f.number);
      WorldProperties.CoinCountBounded(BaseCoinDraw(rng(p + 1)), f.number);
      q := p + 2;
      cs := [];
      var minX := f.x + CoinMargin;
      var maxX := f.x + f.width - CoinMargin;
      var i := 0;
      while i < numCoins
        invariant 0 <= i <= numCoins && |cs| == i
        invariant q == p + 2 + 2 * i
        invariant forall k :: 0 <= k < i ==>
          cs[k] == Coin(Between(minX, maxX, rng(p + 2 + 2 * k)), f.y + CoinYOffset, CoinRadius, f.number)
      {
        var x := Between(minX, maxX, rng(q));
        // rng(q + 1) is the draw behind the coin's random id string
        cs := cs + [Coin(x, f.y + CoinYOffset, CoinRadius, f.number)];
        q := q + 2;
        i := i + 1;
      }
    }

    // -------------------------------------------------------------------------
    // The tick (js/game.js:1864-1902)
    // -------------------------------------------------------------------------

    /**
     * update: nothing while the game is stopped, paused or over; otherwise
     * input, wind and movement, the collisions, the wall boost, the world's
     * evolution, the readouts and the game-over test, in that order. A tick
     * never lowers the highest floor reached, the best score or the coin
     * count, and consumes the random stream only forwards.
     */
    method Update()
      requires Valid()
      modifies this
      ensures Valid()
      ensures !old(Running()) ==> unchanged(this)
      ensures old(maxFloorReached) <= maxFloorReached && old(highestFloorEver) <= highestFloorEver
      ensures old(collectedCoins) <= collectedCoins && old(rngPos) <= rngPos
    {
      if isPaused || isGameOver || !gameStarted {
        return;
      }
      BallStep();
      WorldStep();
    }

    /** The first half of a tick: the ball moves, collides and takes its boosts. */
    method BallStep()
      requires Valid()
      modifies this`player, this`pressed, this`autoJumpActive, this`wind, this`rngPos, this`boost,
        this`floors, this`coins, this`collectedCoins, this`magnetActive, this`magnetRange
      ensures Valid() && old(rngPos) <= rngPos && old(collectedCoins) <= collectedCoins
    {
      MovementPhase();
      CollisionPhase();
      BoostPhase();
    }

    /** The second half of a tick: the world evolves, the readouts follow, and the run may end. */
    method WorldStep()
      requires Valid()
      modifies this`floors, this`coins, this`rngPos, this`difficulty, this`fade, this`hud, this`currentFloorIndex,
        this`maxFloorReached, this`highestFloorEver, this`gameOver, this`isGameOver
      ensures Valid() && old(rngPos) <= rngPos
      ensures old(maxFloorReached) <= maxFloorReached && old(highestFloorEver) <= highestFloorEver
    {
      WorldPhase();
      ReadoutPhase();
      CheckGameOver();
    }

    /** updateInput, updateWind, then gravity and the position step. */
    method MovementPhase()
      requires Valid()
      modifies this`player, this`pressed, this`autoJumpActive, this`wind, this`rngPos
      ensures Valid() && old(rngPos) <= rngPos
    {
      UpdateInput();
      UpdateWind();
      MoveBall();
    }

    /** checkWallCollisions, checkCannonCollisions, checkFloorCollisions and checkCoinCollisions. */
    method CollisionPhase()
      requires Valid()
      modifies this`player, this`boost, this`floors, this`coins, this`collectedCoins
      ensures Valid() && old(collectedCoins) <= collectedCoins
    {
      CheckWallCollisions();
      CheckCannonCollisions();
      CheckFloorCollisions();
      CheckCoinCollisions();
    }

    /** checkWallBoost, activateWallBoost, updateBoostEffect and updateMagnet. */
    method BoostPhase()
      requires Valid()
      modifies this`player, this`boost, this`magnetActive, this`magnetRange
      ensures Valid()
    {
      CheckWallBoost();
      ActivateWallBoost();
      UpdateBoostEffect();
      UpdateMagnet();
    }

    /** generateMoreFloorsIfNeeded, updateDifficulty, updateSpecialFloors and updateFadingFloors. */
    method WorldPhase()
      requires Valid()
      modifies this`floors, this`coins, this`rngPos, this`difficulty, this`fade
      ensures Valid() && old(rngPos) <= rngPos
    {
      ghost var added, addedCoins, starts, cuts := GenerateMoreFloorsIfNeeded();
      EvolveFloors();
    }

    /** updateDifficulty, updateSpecialFloors and updateFadingFloors. */
    method EvolveFloors()
      requires Valid()
      modifies this`floors, this`coins, this`difficulty, this`fade
      ensures Valid()
    {
      UpdateDifficulty();
      UpdateSpecialFloors();
      UpdateFadingFloors();
    }

    /** updateCamera, updateHeight, updateVelocityDisplay and updateFloorDisplay. */
    method ReadoutPhase()
      requires Valid()
      modifies this`hud, this`currentFloorIndex, this`maxFloorReached, this`fade, this`highestFloorEver
      ensures Valid()
      ensures old(maxFloorReached) <= maxFloorReached && old(highestFloorEver) <= highestFloorEver
    {
      UpdateCamera();
      UpdateHeight();
      UpdateVelocityDisplay();
      UpdateFloorDisplay();
    }

    // -------------------------------------------------------------------------
    // Input, wind and movement (js/game.js:714-856, 1066-1144, 1870-1879)
    // -------------------------------------------------------------------------

    /**
     * updateInput: note a and d held without their arrow keys, push the ball
     * by the keys, touch and tilt, cap the speed, slow it by ground friction or
     * air resistance, take over the auto-jump setting and jump (performJump)
     * when auto-jump or a jump key asks for it and the ball can jump.
     */
    method UpdateInput()
      requires Valid()
      modifies this`player, this`pressed, this`autoJumpActive
      ensures Valid()
      ensures pressed == PressedThisFrame(controls.keys) && autoJumpActive == settings.autoJump
      ensures player == AfterInput(old(player), controls, settings, config)
    {
      pressed := PressedThisFrame(controls.keys);
      var b := player.(velocityX := SteeredVelocity(player.velocityX, player.onGround, controls, settings, config));
      autoJumpActive := settings.autoJump;
      if CanJump(b) && (autoJumpActive || JumpKeyHeld(controls.keys)) {
        b := Jumped(b, config);
      }
      player := b;
    }

    /** The gravity and position step of update: gravity into the vertical speed, then both speeds into the position. */
    method MoveBall()
      requires Valid()
      modifies this`player
      ensures Valid()
      ensures var vy := old(player).velocityY + config.gravity;
        player == old(player).(velocityY := vy, x := old(player).x + old(player).velocityX, y := old(player).y + vy)
    {
      var vy := player.velocityY + config.gravity;
      player := player.(velocityY := vy, x := player.x + player.velocityX, y := player.y + vy);
    }

    /** initWind: calm air, a random direction and a break of random length. */
    method InitWind()
      requires Valid()
      modifies this`wind, this`rngPos
      ensures Valid()
      ensures var p := old(rngPos);
        var pause := RandomInt(config.windMinBreakDuration, config.windMaxBreakDuration, rng(p + 1));
        rngPos == p + 2 &&
        wind == Wind(false, 0.0, Direction(rng(p)), pause, old(wind).duration, pause, 0.0, Break, 0.0, 0.0)
      ensures config.windMinBreakDuration <= wind.timer <= config.windMaxBreakDuration
    {
      var dir := Direction(rng(rngPos));
      var pause := RandomInt(config.windMinBreakDuration, config.windMaxBreakDuration, rng(rngPos + 1));
      wind := Wind(false, 0.0, dir, pause, wind.duration, pause, 0.0, Break, 0.0, 0.0);
      rngPos := rngPos + 2;
    }

    /**
     * updateWind: the wind state machine's step (AdvanceWind), then
     * applyWindForce, which pushes the ball only when wind is enabled.
     */
    method UpdateWind()
      requires Valid()
      modifies this`wind, this`rngPos, this`player
      ensures Valid()
      ensures var p := old(rngPos);
        wind == WindTick(old(wind), config, rng(p), rng(p + 1), rng(p + 2), rng(p + 3)) &&
        rngPos == p + WindDraws(old(wind), config)
      ensures config.windEnabled ==> player == WindPushed(old(player), wind.force, config)
      ensures !config.windEnabled ==> player == old(player)
    {
      AdvanceWind();
      ApplyWindForce();
    }

    /**
     * The state-machine part of updateWind: with wind disabled for the ball,
     * drop any force; otherwise count the timer down and move on to the next
     * phase when it runs out, drawing the new timings, direction and force.
     */
    method AdvanceWind()
      requires Valid()
      modifies this`wind, this`rngPos
      ensures Valid()
      ensures var p := old(rngPos);
        wind == WindTick(old(wind), config, rng(p), rng(p + 1), rng(p + 2), rng(p + 3)) &&
        rngPos == p + WindDraws(old(wind), config)
    {
      var p := rngPos;
      WorldProperties.WindInvariantKept(wind, config, rng(p), rng(p + 1), rng(p + 2), rng(p + 3));
      var w, q := NextWind(wind, config, p);
      wind, rngPos := w, q;
    }

    /**
     * The wind state machine of updateWind on values: the wind after one tick
     * from `w`, drawing from the stream at p; q is the position after the
     * draws.
     */
    method NextWind(w0: Wind, c: BallConfig, p: nat) returns (w: Wind, q: nat)
      requires RngInRange() && WellFormed(c) && WindInvariant(w0)
      ensures w == WindTick(w0, c, rng(p), rng(p + 1), rng(p + 2), rng(p + 3))
      ensures q == p + WindDraws(w0, c)
    {
      w, q := w0, p;
      if !c.windEnabled {
        if w.force != 0.0 {
          w := w.(force := 0.0, active := false);
        }
        return;
      }
      var t := w.timer - 1;
      match w.phase {
        case Break =>
          if t <= 0 {
            var rampUpTime := RandomInt(c.windRampUpMinTime, c.windRampUpMaxTime, rng(q));
            var dir := Direction(rng(q + 1));
            var duration := RandomInt(c.windMinBurstDuration, c.windMaxBurstDuration, rng(q + 2));
            var magnitude := c.windMinForce + rng(q + 3) * (c.windMaxForce - c.windMinForce);
            q := q + 4;
            w := w.(phase := RampUp, rampProgress := 0.0, timer := rampUpTime, direction := dir,
                    duration := duration, targetForce := magnitude * dir as real);
          } else {
            w := w.(timer := t);
          }
        case RampUp =>
          var progress := RampUpProgress(t);
          w := w.(timer := t, rampProgress := progress, force := progress * w.targetForce, active := true);
          if t <= 0 {
            w := w.(phase := Active, timer := w.duration, force := w.targetForce);
          }
        case Active =>
          if t <= 0 {
            var rampDownTime := RandomInt(c.windRampDownMinTime, c.windRampDownMaxTime, rng(q));
            q := q + 1;
            w := w.(phase := RampDown, rampProgress := 1.0, startForce := w.force, timer := rampDownTime);
          } else {
            w := w.(timer := t);
          }
        case RampDown =>
          var progress := RampDownProgress(t);
          w := w.(timer := t, rampProgress := progress, force := progress * w.startForce);
          if t <= 0 {
            var pause := RandomInt(c.windMinBreakDuration, c.windMaxBreakDuration, rng(q));
            q := q + 1;
            w := w.(phase := Break, active := false, force := 0.0, timer := pause, breakDuration := pause,
                    targetForce := 0.0, startForce := 0.0);
          }
      }
    }

    /**
     * applyWindForce: a ball the wind may push in its grounded or airborne
     * state gets the wind force added to its horizontal speed, scaled by
     * WIND_AIR_MULTIPLIER in the air.
     */
    method ApplyWindForce()
      requires Valid()
      modifies this`player
      ensures Valid()
      ensures config.windEnabled ==> player == WindPushed(old(player), wind.force, config)
      ensures !config.windEnabled ==> player == old(player)
    {
      if !config.windEnabled {
        return;
      }
      if (player.onGround && !config.windAffectsGrounded) || (!player.onGround && !config.windAffectsAir) {
        return;
      }
      var multiplier := 1.0;
      if !player.onGround && config.windAffectsAir {
        multiplier := config.windAirMultiplier;
      }
      player := player.(velocityX := player.velocityX + wind.force * multiplier);
    }

    // -------------------------------------------------------------------------
    // Collisions (js/game.js:955-977, 1147-1369)
    // -------------------------------------------------------------------------

    /**
     * checkWallCollisions: a ball past the left wall line is put back on it
     * and bounced rightwards, then a ball past the right wall line is put back
     * and bounced leftwards; a bounce fast enough arms the wall boost for that
     * wall. A fast ball first sweeps the CCD samples, which always reach the
     * wall, so it bounces the same way.
     */
    method CheckWallCollisions()
      requires Valid()
      modifies this`player, this`boost
      ensures Valid()
      ensures player == AfterWalls(old(player), config)
      ensures boost == old(boost).(direction := BoostSideAfterWalls(old(player), config, old(boost).direction))
    {
      var b, dir := BounceOffWalls(player, config, boost.direction);
      player, boost := b, boost.(direction := dir);
    }

    /**
     * The wall checks of checkWallCollisions on values: the ball after the
     * left and then the right check, and the wall the boost is armed for.
     * A fast ball is first swept by CCD, which finds the same bounce.
     */
    method BounceOffWalls(b0: Ball, c: BallConfig, dir0: Option<Side>) returns (b: Ball, dir: Option<Side>)
      ensures b == AfterWalls(b0, c)
      ensures dir == BoostSideAfterWalls(b0, c, dir0)
    {
      b, dir := b0, dir0;
      var previousX := b.x - b.velocityX;
      if b.x < LeftWallLine(b.radius) {
        if CcdEnabled && Abs(b.velocityX) > CcdMinVelocityForSteps {
          var step := CcdSweep(previousX, b.x, LeftWallLine(b.radius), Left);
        }
        if BoostArmed(b.velocityX, c) {
          dir := Some(Left);
        }
        b := BounceLeft(b, c);
      }
      if b.x > RightWallLine(b.radius) {
        if CcdEnabled && Abs(b.velocityX) > CcdMinVelocityForSteps {
          var step := CcdSweep(previousX, b.x, RightWallLine(b.radius), Right);
        }
        if BoostArmed(b.velocityX, c) {
          dir := Some(Right);
        }
        b := BounceRight(b, c);
      }
    }

    /**
     * The CCD loop of checkWallCollisions: the first of the samples 0 to
     * CCD_MAX_STEPS between the previous and the current x that lies past the
     * wall line. The last sample is the current x, so a ball past the line
     * always finds one.
     */
    method CcdSweep(previousX: real, x: real, line: real, side: Side) returns (step: int)
      requires PastWall(x, line, side)
      ensures 0 <= step <= CcdMaxSteps && PastWall(CcdSample(previousX, x, step), line, side)
      ensures forall j :: 0 <= j < step ==> !PastWall(CcdSample(previousX, x, j), line, side)
    {
      WorldProperties.CcdLastSampleIsEnd(previousX, x);
      step := 0;
      while !PastWall(CcdSample(previousX, x, step), line, side)
        invariant 0 <= step <= CcdMaxSteps
        invariant forall j :: 0 <= j < step ==> !PastWall(CcdSample(previousX, x, j), line, side)
        decreases CcdMaxSteps - step
      {
        step := step + 1;
      }
    }

    /**
     * checkCannonCollisions: a descending ball crossing the catch line of a
     * floor's cannon is caught by the first such cannon; a cannon-riding ball
     * is shot upwards with the boost shown, any other rests on the cannon.
     */
    method CheckCannonCollisions()
      requires Valid()
      modifies this`player, this`boost
      ensures Valid()
      ensures var hit := CannonHit(floors, old(player), config.canUseCannon);
        if old(player).velocityY > 0.0 && hit.Some? then
          player == CannonCatch(old(player), floors[hit.value], config) && boost == CannonShotBoost(old(boost), config)
        else
          player == old(player) && boost == old(boost)
    {
      if player.velocityY <= 0.0 {
        return;
      }
      var hit := FindCannon(player);
      if hit.Some? {
        player, boost := CannonCatch(player, floors[hit.value], config), CannonShotBoost(boost, config);
      }
    }

    /** The loop of checkCannonCollisions: the first floor whose cannon catches the ball. */
    method FindCannon(b: Ball) returns (hit: Option<nat>)
      ensures hit == CannonHit(floors, b, config.canUseCannon)
    {
      var i := 0;
      while i < |floors|
        invariant 0 <= i <= |floors|
        invariant forall j :: 0 <= j < i ==> !HitsCannon(b, floors[j], config.canUseCannon)
      {
        if HitsCannon(b, floors[i], config.canUseCannon) {
          return Some(i);
        }
        i := i + 1;
      }
      return None;
    }

    /**
     * checkFloorCollisions: a ball that is not descending is on the ground
     * exactly when it rests on some floor. A descending ball lands on the
     * first floor whose top its bottom crossed this tick: it is set on the
     * top at rest, a breaking floor starts crumbling, and the wall boost and
     * the boost display end. A descending ball that lands nowhere is airborne.
     */
    method CheckFloorCollisions()
      requires Valid()
      modifies this`player, this`floors, this`boost
      ensures Valid()
      ensures old(player).velocityY <= 0.0 ==>
        player == old(player).(onGround := OnAnyFloor(floors, old(player))) &&
        floors == old(floors) && boost == old(boost)
      ensures var k := Landing(old(floors), old(player));
        old(player).velocityY > 0.0 ==>
        if k.Some? then
          player == Landed(old(player), old(floors)[k.value]) &&
          floors == old(floors)[k.value := StepOn(old(floors)[k.value])] && boost == LandedBoost(old(boost))
        else
          player == old(player).(onGround := false) && floors == old(floors) && boost == old(boost)
    {
      var b := player;
      if b.velocityY <= 0.0 {
        var on := RestsOnAnyFloor(b);
        player := b.(onGround := on);
        return;
      }
      var k := FindLanding(b);
      if k.None? {
        player := b.(onGround := false);
        return;
      }
      var f := floors[k.value];
      WorldProperties.ReplaceKeepsOrder(floors, k.value, StepOn(f));
      player, floors, boost := Landed(b, f), floors[k.value := StepOn(f)], LandedBoost(boost);
    }

    /** The rising-or-resting loop of checkFloorCollisions: is the ball on some floor? */
    method RestsOnAnyFloor(b: Ball) returns (on: bool)
      ensures on == OnAnyFloor(floors, b)
    {
      var i := 0;
      while i < |floors|
        invariant 0 <= i <= |floors|
        invariant forall j :: 0 <= j < i ==> !IsPlayerOnFloor(b, floors[j], false)
      {
        if IsPlayerOnFloor(b, floors[i], false) {
          return true;
        }
        i := i + 1;
      }
      return false;
    }

    /** The landing loop of checkFloorCollisions: the first floor the descending ball lands on. */
    method FindLanding(b: Ball) returns (k: Option<nat>)
      ensures k == Landing(floors, b)
    {
      var i := 0;
      while i < |floors|
        invariant 0 <= i <= |floors|
        invariant forall j :: 0 <= j < i ==> !LandsOn(b, floors[j])
      {
        if LandsOn(b, floors[i]) {
          return Some(i);
        }
        i := i + 1;
      }
      return None;
    }

    /**
     * checkCoinCollisions: walking the coin list backwards, every coin the
     * ball touches is collected; the coins it does not touch stay in order.
     */
    method CheckCoinCollisions()
      requires Valid()
      modifies this`coins, this`collectedCoins
      ensures Valid()
      ensures coins == Untouched(old(coins), player)
      ensures collectedCoins == old(collectedCoins) + TouchedCount(old(coins), player)
    {
      ghost var cs0 := coins;
      var i := |coins|;
      while i > 0
        invariant 0 <= i <= |cs0|
        invariant coins == cs0[..i] + Untouched(cs0[i..], player)
        invariant collectedCoins == old(collectedCoins) + TouchedCount(cs0[i..], player)
        invariant Valid()
      {
        i := i - 1;
        WorldProperties.UntouchedStep(cs0, i, player);
        assert coins[..i] == cs0[..i] && coins[i] == cs0[i];
        if Touches(player, coins[i]) {
          CollectCoin(i);
        } else {
          assert cs0[..i + 1] == cs0[..i] + [cs0[i]];
        }
      }
      assert cs0[0..] == cs0;
    }

    /** collectCoin: the coin at index i leaves the list and the count grows by one. */
    method CollectCoin(i: nat)
      requires Valid() && i < |coins|
      modifies this`coins, this`collectedCoins
      ensures Valid()
      ensures coins == old(coins)[..i] + old(coins)[i + 1..] && collectedCoins == old(collectedCoins) + 1
    {
      collectedCoins, coins := collectedCoins + 1, coins[..i] + coins[i + 1..];
    }

    // -------------------------------------------------------------------------
    // Wall boost, boost display and magnet (js/game.js:1466-1520, 1681-1695)
    // -------------------------------------------------------------------------

    /** checkWallBoost: with wall boosts enabled, arm or disarm the boost by the gap to the bounced-off wall. */
    method CheckWallBoost()
      requires Valid()
      modifies this`boost
      ensures Valid()
      ensures boost == if config.wallBoostEnabled then WallBoostCheck(old(boost), player, config) else old(boost)
    {
      if !config.wallBoostEnabled {
        return;
      }
      var toLeft := LeftWallGap(player);
      var toRight := RightWallGap(player);
      if toLeft < config.wallBoostMaxDistance && boost.direction == Some(Left) {
        boost := boost.(distance := toLeft, canWallBoost := true);
      } else if toRight < config.wallBoostMaxDistance && boost.direction == Some(Right) {
        boost := boost.(distance := toRight, canWallBoost := true);
      } else {
        boost := boost.(canWallBoost := false, distance := 0.0);
      }
    }

    /** activateWallBoost: an armed boost fires on mobile controls or on the key pressed away from the wall. */
    method ActivateWallBoost()
      requires Valid()
      modifies this`player, this`boost
      ensures Valid()
      ensures if WallBoostTriggered(old(boost), settings, pressed) then
          player == WallBoosted(old(player), old(boost).direction, config) && boost == FiredBoost(old(boost))
        else
          player == old(player) && boost == old(boost)
    {
      if !boost.canWallBoost || boost.direction.None? {
        return;
      }
      if settings.mobileControls {
        PerformWallBoost();
      } else if (boost.direction == Some(Left) && pressed.d) || (boost.direction == Some(Right) && pressed.a) {
        PerformWallBoost();
      }
    }

    /** performWallBoost: kick the ball away from the wall and upwards, show the boost, disarm it. */
    method PerformWallBoost()
      requires Valid()
      modifies this`player, this`boost
      ensures Valid()
      ensures player == WallBoosted(old(player), old(boost).direction, config) && boost == FiredBoost(old(boost))
    {
      player, boost := WallBoosted(player, boost.direction, config), FiredBoost(boost);
    }

    /** updateBoostEffect: count the boost display down; it is off once the count is out. */
    method UpdateBoostEffect()
      requires Valid()
      modifies this`boost
      ensures Valid()
      ensures boost == BoostCountdown(old(boost))
    {
      if boost.activated && boost.activatedFrames > 0 {
        boost := boost.(activatedFrames := boost.activatedFrames - 1);
      } else {
        boost := boost.(activated := false, activatedFrames := 0);
      }
    }

    /** updateMagnet: the magnet follows the ball's configuration. */
    method UpdateMagnet()
      requires Valid()
      modifies this`magnetActive, this`magnetRange
      ensures Valid()
      ensures magnetActive == config.magnetEnabled && magnetRange == config.magnetRange
    {
      magnetActive, magnetRange := config.magnetEnabled, config.magnetRange;
    }

    // -------------------------------------------------------------------------
    // The world's evolution (js/game.js:692-711, 1527-1668)
    // -------------------------------------------------------------------------

    /**
     * generateMoreFloorsIfNeeded: generate the floors above the highest one up
     * to FLOORS_TO_GENERATE_AHEAD above the ball's band, each with its coins,
     * then drop the floors and coins more than FLOORS_TO_GENERATE_BEHIND below
     * it. `added` and `addedCoins` are the floors and coins generated.
     */
    method GenerateMoreFloorsIfNeeded()
      returns (ghost added: seq<Floor>, ghost addedCoins: seq<Coin>, ghost starts: seq<nat>, ghost cuts: seq<nat>)
      requires Valid()
      modifies this`floors, this`coins, this`rngPos
      ensures Valid() && old(rngPos) <= rngPos
      ensures |added| == MaxInt(0, old(HighestNeededFloor(player.y)) - HighestNumber(old(floors)))
      ensures forall i :: 0 <= i < |added| ==> added[i].number == HighestNumber(old(floors)) + 1 + i && added[i].y == FloorY(added[i].number)
      ensures forall c :: c in addedCoins ==> HighestNumber(old(floors)) < c.floorNumber <= old(HighestNeededFloor(player.y))
      ensures GeneratedRun(added, HighestNumber(old(floors)) + 1, LastFloor(old(floors)), difficulty, starts, addedCoins, cuts)
      ensures starts[0] == old(rngPos) && rngPos == starts[|added|]
      ensures floors == FloorsFrom(old(floors) + added, old(LowestNeededFloor(player.y)))
      ensures coins == CoinsFrom(old(coins) + addedCoins, old(LowestNeededFloor(player.y)))
      ensures HighestNumber(floors) >= old(HighestNeededFloor(player.y))
    {
      ghost var before, target, lowest := floors, HighestNeededFloor(player.y), LowestNeededFloor(player.y);
      assert lowest < target;
      added, addedCoins, starts, cuts := AddFloorsUpTo(HighestNeededFloor(player.y));
      WorldProperties.GeneratedReachesTarget(before, added, target, lowest);
      ghost var n := |added|;
      DropFloorsBelow(LowestNeededFloor(player.y));
      assert n == |added|;
    }

    /**
     * The loop of generateMoreFloorsIfNeeded: the floors above the highest
     * one up to `target` join the list, each generated after the last floor
     * so far, and their coins join the coin list.
     */
    method AddFloorsUpTo(target: int)
      returns (ghost added: seq<Floor>, ghost addedCoins: seq<Coin>, ghost starts: seq<nat>, ghost cuts: seq<nat>)
      requires Valid()
      modifies this`floors, this`coins, this`rngPos
      ensures Valid() && old(rngPos) <= rngPos
      ensures |added| == MaxInt(0, target - HighestNumber(old(floors)))
      ensures forall i :: 0 <= i < |added| ==> added[i].number == HighestNumber(old(floors)) + 1 + i && added[i].y == FloorY(added[i].number)
      ensures forall c :: c in addedCoins ==> HighestNumber(old(floors)) < c.floorNumber <= target
      ensures GeneratedRun(added, HighestNumber(old(floors)) + 1, LastFloor(old(floors)), difficulty, starts, addedCoins, cuts)
      ensures starts[0] == old(rngPos) && rngPos == starts[|added|]
      ensures floors == old(floors) + added && coins == old(coins) + addedCoins
    {
      var h := HighestNumber(floors);
      WorldProperties.HighestNumberBound(floors);
      var fs, cs, q;
      fs, cs, q, starts, cuts := GenerateRun(floors, h + 1, target);
      WorldProperties.AppendKeepsOrder(floors, fs, h);
      added, addedCoins := fs, cs;
      floors, coins, rngPos := floors + fs, coins + cs, q;
    }

    /**
     * The generation loop of initFloors and generateMoreFloorsIfNeeded, on
     * values: floors `from` up to `target`, each generated after the last
     * floor of `fs` and of those before it, with their coins; q is the stream
     * position after their draws.
     */
    method GenerateRun(fs: seq<Floor>, from: nat, target: int)
      returns (added: seq<Floor>, cs: seq<Coin>, q: nat, ghost starts: seq<nat>, ghost cuts: seq<nat>)
      requires Valid()
      ensures |added| == MaxInt(0, target - from + 1)
      ensures forall k :: 0 <= k < |added| ==> added[k].number == from + k && added[k].y == FloorY(added[k].number)
      ensures GeneratedRun(added, from, LastFloor(fs), difficulty, starts, cs, cuts)
      ensures starts[0] == rngPos && q == starts[|added|] && rngPos <= q
      ensures forall c :: c in cs ==> MaxInt(from, MinFloorForCoins) <= c.floorNumber <= target
    {
      added, cs, q, starts, cuts := [], [], rngPos, [rngPos], [0];
      var n := from;
      while n <= target
        invariant from <= n <= MaxInt(from - 1, target) + 1
        invariant |added| == n - from
        invariant GeneratedRun(added, from, LastFloor(fs), difficulty, starts, cs, cuts)
        invariant starts[0] == rngPos && q == starts[|added|]
        invariant forall c :: c in cs ==> MaxInt(from, MinFloorForCoins) <= c.floorNumber < n
      {
        var f, floorCoins;
        assert LastFloor(fs + added) == Before(added, |added|, LastFloor(fs)) by {
          if added != [] { assert (fs + added)[|fs + added| - 1] == added[|added| - 1]; }
        }
        f, floorCoins, q := BuildFloor(n, LastFloor(fs + added), q);
        RunGrows(added, f, floorCoins, from, LastFloor(fs), difficulty, starts, cs, cuts, q);
        added, cs, starts, cuts := added + [f], cs + floorCoins, starts + [q], cuts + [|cs| + |floorCoins|];
        n := n + 1;
      }
      RunMovesForward(added, from, LastFloor(fs), difficulty, starts, cs, cuts, |added|);
      RunNumbers(added, from, LastFloor(fs), difficulty, starts, cs, cuts);
    }

    /** The filters of generateMoreFloorsIfNeeded: coins and floors below `lowest` are dropped. */
    method DropFloorsBelow(lowest: int)
      requires Valid()
      modifies this`floors, this`coins
      ensures Valid()
      ensures floors == FloorsFrom(old(floors), lowest) && coins == CoinsFrom(old(coins), lowest)
    {
      WorldProperties.FloorsFromKeepsOrder(floors, lowest);
      coins, floors := CoinsFrom(coins, lowest), FloorsFrom(floors, lowest);
    }

    /**
     * updateDifficulty: from the moment the highest floor reached is
     * DIFFICULTY_START_AT_SCORE the difficulty is active, and while active its
     * level and multipliers follow the highest floor reached.
     */
    method UpdateDifficulty()
      requires Valid()
      modifies this`difficulty
      ensures Valid()
      ensures difficulty ==
        if old(difficulty).active || maxFloorReached >= DifficultyStartAtScore then ActiveDifficulty(maxFloorReached)
        else old(difficulty)
    {
      // DIFFICULTY_ENABLED is true
      var active := difficulty.active || maxFloorReached >= DifficultyStartAtScore;
      if active {
        WorldProperties.LevelGrows(DifficultyStartAtScore, maxFloorReached);
        difficulty := ActiveDifficulty(maxFloorReached);
      }
    }

    /**
     * updateSpecialFloors: walking the floors backwards, a floor marked for
     * removal leaves the list together with its coins; every other floor takes
     * its per-type step.
     */
    method UpdateSpecialFloors()
      requires Valid()
      modifies this`floors, this`coins
      ensures Valid()
      ensures floors == AnimateAll(old(floors), difficulty)
      ensures coins == CoinsNotOn(old(coins), RemovedNumbers(old(floors)))
    {
      var fs, cs := AnimateFloors(floors, coins, difficulty);
      WorldProperties.AnimateAllKeepsOrder(floors, difficulty);
      floors, coins := fs, cs;
    }

    /** The backwards loop of updateSpecialFloors on the floor and coin lists. */
    method AnimateFloors(fs0: seq<Floor>, cs0: seq<Coin>, d: Difficulty) returns (fs: seq<Floor>, cs: seq<Coin>)
      ensures fs == AnimateAll(fs0, d)
      ensures cs == CoinsNotOn(cs0, RemovedNumbers(fs0))
    {
      fs, cs := fs0, cs0;
      var i := |fs0|;
      WorldProperties.CoinsNotOnNothing(cs0);
      while i > 0
        invariant 0 <= i <= |fs0|
        invariant fs == fs0[..i] + AnimateAll(fs0[i..], d)
        invariant cs == CoinsNotOn(cs0, RemovedNumbers(fs0[i..]))
      {
        i := i - 1;
        WorldProperties.AnimateLoopFloors(fs0, i, d);
        WorldProperties.AnimateLoopCoins(fs0, cs0, i);
        var floor := fs[i];
        if floor.shouldRemove {
          cs := CoinsNotOn(cs, {floor.number});
          fs := fs[..i] + fs[i + 1..];
        } else {
          fs := fs[i := AnimateFloor(floor, d)];
        }
      }
      assert fs0[0..] == fs0;
    }

    /**
     * updateFadingFloors: while the fade process runs, its timer advances;
     * from FLOOR_FADE_INITIAL_DELAY on, the floors numbered from
     * nextFloorToFade up to the timer's target start fading. Then every fading
     * floor loses alpha, and one that has faded out leaves the list together
     * with its coins.
     */
    method UpdateFadingFloors()
      requires Valid()
      modifies this`fade, this`floors, this`coins
      ensures Valid()
      ensures !old(fade).active ==> fade == old(fade) && floors == old(floors) && coins == old(coins)
      ensures old(fade).active ==>
        var timer := old(fade).timer + 1;
        var swept := if timer >= FloorFadeInitialDelay
          then FadeSweep(old(floors), old(fade).next, old(fade).next, FloorsToFade(timer))
          else (old(floors), old(fade).next);
        var speed := FadeSpeed(difficulty);
        fade == Fade(timer, swept.1, true) &&
        floors == FadeAll(swept.0, speed) && coins == CoinsNotOn(old(coins), FadedOutNumbers(swept.0, speed))
    {
      if fade.active {
        var fd, fs, cs := FadeTick(fade, floors, coins, FadeSpeed(difficulty));
        fade, floors, coins := fd, fs, cs;
      }
    }

    /**
     * One tick of a running fade process on values: the timer advances, the
     * sweep marks the floors that start fading, then fading floors lose alpha
     * and the faded-out ones leave together with their coins. The floors stay
     * in number order and the counters stay non-negative.
     */
    method FadeTick(fd: Fade, fs0: seq<Floor>, cs0: seq<Coin>, speed: real) returns (fade': Fade, fs: seq<Floor>, cs: seq<Coin>)
      requires NumbersIncreasing(fs0) && 0 <= fd.next && 0 <= fd.timer
      ensures var timer := fd.timer + 1;
        var swept := if timer >= FloorFadeInitialDelay
          then FadeSweep(fs0, fd.next, fd.next, FloorsToFade(timer))
          else (fs0, fd.next);
        fade' == Fade(timer, swept.1, true) &&
        fs == FadeAll(swept.0, speed) && cs == CoinsNotOn(cs0, FadedOutNumbers(swept.0, speed))
      ensures NumbersIncreasing(fs) && 0 <= fade'.next && 0 <= fade'.timer
    {
      var timer := fd.timer + 1;
      var swept, next := fs0, fd.next;
      if timer >= FloorFadeInitialDelay {
        swept, next := SweepFade(fs0, fd.next, FloorsToFade(timer));
        WorldProperties.FadeSweepMarks(fs0, fd.next, fd.next, FloorsToFade(timer));
      }
      fs, cs := FadeOutFloors(swept, cs0, speed);
      WorldProperties.FadeAllKeepsOrder(swept, speed);
      fade' := Fade(timer, next, true);
    }

    /** The marking loop of updateFadingFloors, over the floor numbers from `next` below `target`. */
    method SweepFade(fs0: seq<Floor>, next0: int, target: int) returns (fs: seq<Floor>, next: int)
      ensures (fs, next) == FadeSweep(fs0, next0, next0, target)
    {
      fs, next := fs0, next0;
      var i := next0;
      while i < target
        invariant FadeSweep(fs, next, i, target) == FadeSweep(fs0, next0, next0, target)
        decreases target - i
      {
        ghost var step := FadeStep(fs, next, i);
        var k := FindNumber(fs, i);
        if k.Some? && !fs[k.value].isFading {
          fs := fs[k.value := StartFading(fs[k.value])];
          next := i + 1;
        }
        assert (fs, next) == step;
        i := i + 1;
      }
    }

    /** The backwards removal loop of updateFadingFloors on the floor and coin lists. */
    method FadeOutFloors(fs0: seq<Floor>, cs0: seq<Coin>, speed: real) returns (fs: seq<Floor>, cs: seq<Coin>)
      ensures fs == FadeAll(fs0, speed)
      ensures cs == CoinsNotOn(cs0, FadedOutNumbers(fs0, speed))
    {
      fs, cs := fs0, cs0;
      var i := |fs0|;
      WorldProperties.CoinsNotOnNothing(cs0);
      while i > 0
        invariant 0 <= i <= |fs0|
        invariant fs == fs0[..i] + FadeAll(fs0[i..], speed)
        invariant cs == CoinsNotOn(cs0, FadedOutNumbers(fs0[i..], speed))
      {
        i := i - 1;
        WorldProperties.FadeLoopFloors(fs0, i, speed);
        WorldProperties.FadeLoopCoins(fs0, cs0, i, speed);
        var floor := fs[i];
        if floor.isFading {
          if floor.fadeAlpha > FloorFadeMinAlpha {
            floor := floor.(fadeAlpha := floor.fadeAlpha - speed);
          }
          if floor.fadeAlpha <= FloorFadeMinAlpha {
            cs := CoinsNotOn(cs, {floor.number});
            fs := fs[..i] + fs[i + 1..];
          } else {
            fs := fs[i := floor];
          }
        } else {
          assert fs[i := floor] == fs;
        }
      }
      assert fs0[0..] == fs0;
    }

    // -------------------------------------------------------------------------
    // Readouts and floor display (js/game.js:1674-1800)
    // -------------------------------------------------------------------------

    /** updateCamera: the view follows a ball above CAMERA_THRESHOLD, and rests otherwise. */
    method UpdateCamera()
      requires Valid()
      modifies this`hud
      ensures Valid()
      ensures hud == old(hud).(cameraY := hud.cameraY)
      ensures player.y < CameraThreshold ==> hud.cameraY == CameraThreshold - player.y
      ensures player.y >= CameraThreshold ==> hud.cameraY == 0.0
    {
      hud := hud.(cameraY := if player.y < CameraThreshold then CameraThreshold - player.y else 0.0);
    }

    /** updateHeight: the height above the start floor, never negative, and the best height so far. */
    method UpdateHeight()
      requires Valid()
      modifies this`hud
      ensures Valid()
      ensures hud == old(hud).(height := hud.height, maxHeight := hud.maxHeight)
      ensures hud.height == MaxInt(0, Round(startFloorLevel - player.y))
      ensures hud.maxHeight == MaxInt(old(hud).maxHeight, hud.height)
    {
      var h := MaxInt(0, Round(startFloorLevel - player.y));
      var best := hud.maxHeight;
      if h > best {
        best := h;
      }
      hud := hud.(height := h, maxHeight := best);
    }

    /** updateVelocityDisplay: the speeds as magnitudes, and the largest so far. */
    method UpdateVelocityDisplay()
      requires Valid()
      modifies this`hud
      ensures Valid()
      ensures hud == old(hud).(velocityX := hud.velocityX, velocityY := hud.velocityY,
                               maxVelocityX := hud.maxVelocityX, maxVelocityY := hud.maxVelocityY)
      ensures hud.velocityX == Abs(player.velocityX) && hud.velocityY == Abs(player.velocityY)
      ensures hud.maxVelocityX == Max(old(hud).maxVelocityX, hud.velocityX)
      ensures hud.maxVelocityY == Max(old(hud).maxVelocityY, hud.velocityY)
    {
      var vx, vy := Abs(player.velocityX), Abs(player.velocityY);
      var mx, my := hud.maxVelocityX, hud.maxVelocityY;
      if vx > mx {
        mx := vx;
      }
      if vy > my {
        my := vy;
      }
      hud := hud.(velocityX := vx, velocityY := vy, maxVelocityX := mx, maxVelocityY := my);
    }

    /**
     * updateFloorDisplay: the floor the ball stands in, else its height band,
     * is the current floor; a grounded ball on a floor above the highest one
     * reached raises that record, starts the fade process from
     * FLOOR_FADE_START_AT_SCORE on, and raises the best score when beaten.
     */
    method UpdateFloorDisplay()
      requires Valid()
      modifies this`currentFloorIndex, this`maxFloorReached, this`fade, this`highestFloorEver
      ensures Valid()
      ensures var standing := StandingFloor(floors, player);
        currentFloorIndex == if standing.Some? then standing.value else old(currentFloorIndex)
      ensures var shown := DisplayedFloor(floors, player);
        maxFloorReached == if player.onGround && shown > old(maxFloorReached) then shown else old(maxFloorReached)
      ensures highestFloorEver == MaxInt(old(highestFloorEver), maxFloorReached)
      ensures fade ==
        if maxFloorReached != old(maxFloorReached) && maxFloorReached >= FloorFadeStartAtScore && !old(fade).active
        then Fade(0, 0, true) else old(fade)
    {
      var standing := FindStandingFloor();
      var shown := 0;
      if standing.Some? {
        shown := standing.value;
        currentFloorIndex := shown;
      } else {
        shown := MaxInt(0, FloorNumberAt(player.y));
      }
      if player.onGround && shown > maxFloorReached {
        // the best score is raised together with the record; the fade
        // process, which the source starts in between, reads neither
        maxFloorReached, highestFloorEver := shown, MaxInt(highestFloorEver, shown);
        if maxFloorReached >= FloorFadeStartAtScore && !fade.active {
          StartFloorFadeProcess();
        }
      }
    }

    /** The loop of updateFloorDisplay: the number of the first floor the ball stands in. */
    method FindStandingFloor() returns (n: Option<int>)
      ensures n == StandingFloor(floors, player)
    {
      var i := 0;
      while i < |floors|
        invariant 0 <= i <= |floors|
        invariant StandingFloor(floors, player) == StandingFloor(floors[i..], player)
      {
        if StandsIn(player, floors[i]) {
          return Some(floors[i].number);
        }
        assert floors[i..][1..] == floors[i + 1..];
        i := i + 1;
      }
      return None;
    }

    /** startFloorFadeProcess: start the fade process afresh unless it runs already. */
    method StartFloorFadeProcess()
      requires Valid()
      modifies this`fade
      ensures Valid()
      ensures fade == if old(fade).active then old(fade) else Fade(0, 0, true)
    {
      if fade.active {
        return;
      }
      fade := Fade(0, 0, true);
    }

    // -------------------------------------------------------------------------
    // Game over (js/game.js:1818-1859)
    // -------------------------------------------------------------------------

    /**
     * checkIfAnyFloorsLeft: the lowest floor the ball could still land on,
     * found in one pass, and whether the ball is still within
     * GAME_OVER_FALL_THRESHOLD below it.
     */
    method CheckIfAnyFloorsLeft() returns (left: bool)
      ensures left == AnyFloorsLeft(floors, player)
    {
      var lowest: Option<real> := None;
      var i := 0;
      while i < |floors|
        invariant 0 <= i <= |floors|
        invariant lowest == LowestSupportY(floors[..i])
      {
        var f := floors[i];
        assert floors[..i + 1][..i] == floors[..i];
        if Supports(f) && (lowest.None? || f.y > lowest.value) {
          lowest := Some(f.y);
        }
        i := i + 1;
      }
      assert floors[..|floors|] == floors;
      if lowest.None? {
        return false;
      }
      return !(player.y > lowest.value + GameOverFallThreshold);
    }

    /**
     * checkGameOver: with no floor left to land on while falling, the game is
     * over and the best score takes in the highest floor reached.
     */
    method CheckGameOver()
      requires Valid()
      modifies this`gameOver, this`isGameOver, this`highestFloorEver
      ensures Valid()
      ensures if !AnyFloorsLeft(floors, player) && player.velocityY > 0.0 then
          gameOver && isGameOver && highestFloorEver == MaxInt(old(highestFloorEver), maxFloorReached)
        else
          gameOver == old(gameOver) && isGameOver == old(isGameOver) && highestFloorEver == old(highestFloorEver)
    {
      // GAME_OVER_ENABLED is true
      var left := CheckIfAnyFloorsLeft();
      if !left && player.velocityY > 0.0 {
        gameOver, isGameOver := true, true;
        if maxFloorReached > highestFloorEver {
          highestFloorEver := maxFloorReached;
        }
      }
    }
  }
}
