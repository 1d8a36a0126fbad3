# Ball Tower Climber — a Dafny model of the game core

Ball Tower Climber is a browser game. A ball climbs an endless tower of floors
between two walls. Floors move, shrink, crumble and fade away. Wind pushes
the ball sideways. Coins collected during a run buy new balls and upgrades
in the menu. This project models three parts of the game:

- **the simulation** (`js/game.js`): the fixed tick that moves the ball and
  evolves the world;
- **the ball configuration resolver** (`js/config.js`): it combines a ball
  archetype with the upgrades the player owns;
- **the menu's economy** (`js/menu.js`): coins, unlocked balls, upgrade
  purchases, and the start and end of a run.

The project has seven modules, one concern each:

| module | file | what it holds |
|---|---|---|
| `Wrappers` | `wrappers.dfy` | `Option` |
| `GameConfig` | `config.dfy` | the constants, the four ball configurations, the upgrade definitions and the resolver (`getUpgradePrice`, `applyUpgradesToConfig`, `getBaseBallConfig`, `getBallConfigWithUpgrades`, ...) |
| `ConfigProperties` | `config_properties.dfy` | lemmas about the resolver: skip rules, each upgrade's effect, well-formedness, order independence |
| `World` | `world.dfy` | the game's records (ball, floor, coin, wind, difficulty, boost, fade) and the value-level rules of the tick, as functions |
| `WorldProperties` | `world_properties.dfy` | lemmas about those rules |
| `Simulation` | `game.dfy` | `class Game`: the game object, its fields and its methods, each proved against the `World` functions |
| `Economy` | `menu.dfy` | `class Menu`: the menu's `state` record and its transitions, proved against value-level specification functions |

A few conventions run through the model:

- **Randomness.** `Math.random()` is an injected stream `rng: nat -> real` of
  draws in [0, 1), read in source order through the cursor `rngPos`. The
  methods that draw themselves state exactly which positions they consume:
  wind (`InitWind`, `UpdateWind`), floor generation (`GenerateFloor`,
  `InitFloors`, `GenerateMoreFloorsIfNeeded` and their helpers),
  `GetFloorXPosition` and `GenerateCoinsForFloor`. The composites of a tick
  (`Update` and its phases) and `RegenerateWorld` state only that the cursor
  never moves back.
- **Arithmetic.** Numbers are exact `real`s or unbounded `int`s. `Math.floor`,
  `Math.round`, `Math.min`, `Math.max` and `Math.pow` are written out.
- **Upgrade maps.** A JavaScript object keyed by upgrade id becomes a sequence
  of `Entry(id, Upgrade(level, active))` records in insertion order. That is
  the order `Object.entries` walks.
- **Game to menu.** The game writes into `window.Menu.state` in a few places.
  These writes are `Economy.Menu.ReportCoins`, `Economy.Menu.ReportScore` and
  `Economy.Menu.RecordBestScore`.

The tick (`update`) runs four phases, each a method of `Game`:
1. movement (input, wind, gravity);
2. collisions (walls with continuous collision detection, cannons, floors,
   coins);
3. boosts (wall boost, boost display, magnet);
4. the world (floor streaming, difficulty, special and fading floors, the
   readouts and the game-over test).

Every loop of the source is a `while` loop with invariants. Each loop is tied
to a function of the old state. The properties of that function are lemmas.

## Model

| member | source | states |
|---|---|---|
| GameConfig.BallDisplayName | js/config.js:671-673 | An unknown ball's display name is its id; a known ball's name differs from its id. |
| GameConfig.BallUnlockPrice | js/config.js:660-662 | Prices are never negative; an unknown ball costs 0; exactly the rubber, beach and golf balls cost something. |
| GameConfig.BaseBallConfig | js/config.js:634-646 | Each archetype gets its own well-formed record; an unknown archetype gets the standard ball's. |
| GameConfig.CanBallUseCannon | js/config.js:665-668 | Exactly the golf ball may ride cannons. |
| GameConfig.UpgradeDefinitions | js/config.js:655-657 | Each known ball defines three upgrades, an unknown ball none; every definition has a positive base price and maximum level 3. |
| GameConfig.FindDef | js/config.js:621 | `find` over the definitions: the result has the asked id and comes from the list; there is no result exactly when no definition has that id. |
| GameConfig.UpgradePrice | js/config.js:612-614 | A positive base price gives a positive price at every level. |
| ConfigProperties.NoDefinitionsNoChange | js/config.js:617-631 | A ball with no upgrade definitions ignores every upgrade entry. |
| ConfigProperties.SkippedEntriesNoChange | js/config.js:619-624 | An entry that is inactive, at level 0, or names an unknown upgrade leaves the configuration unchanged. |
| ConfigProperties.NoUpgradesGivesBase | js/config.js:649-652 | With no upgrades, or for a ball without definitions, the resolved configuration is the base one; an unknown ball resolves to the standard base. |
| ConfigProperties.SpeedEffect | js/config.js:423-607 | Every ball's `speed` adds a fixed 0.1 to ACCELERATION (0.05 for the rubber ball) at any level, and changes nothing else. |
| ConfigProperties.JumpEffect | js/config.js:423-607 | Every ball's `jump` multiplies both jump forces by 1 + 0.2 * level and changes nothing else. |
| ConfigProperties.CoinMagnetEffect | js/config.js:451-473 | `coin_magnet` turns the magnet on at range/force 250/2 from level 1, 350/5 from level 2 and 500/10 from level 3. |
| ConfigProperties.WallBoostEffect | js/config.js:504-517 | The rubber ball's `wall_boost` adds a fixed 2 to both boost velocities at any level and changes nothing else; on the base rubber ball this gives 10 and -18. |
| ConfigProperties.WindResistanceEffect | js/config.js:548-560 | `wind_resistance` scales both wind force bounds by 1 - 0.15 * level and changes nothing else. |
| ConfigProperties.CannonBoostEffect | js/config.js:592-604 | `cannon_boost` scales the cannon force by 1 + 0.25 * level and changes nothing else. |
| ConfigProperties.UpgradePriceIncreasing | js/config.js:612-614 | The price of an upgrade rises by at least 50 with every level. |
| ConfigProperties.EffectKeepsWellFormed | js/config.js:423-607 | Applying any effect at any positive level keeps a configuration well formed. |
| ConfigProperties.EntriesKeepWellFormed | js/config.js:617-631 | Folding any list of entries over a well-formed configuration keeps it well formed. |
| ConfigProperties.ResolvedConfigWellFormed | js/config.js:649-652 | Every resolved configuration is well formed, whatever the player bought. |
| ConfigProperties.EffectsCommute | js/config.js:423-607 | Effects of different kinds commute: each writes its own fields and reads only those. |
| ConfigProperties.DistinctIdsDistinctKinds | js/config.js:423-607 | Within one ball, different upgrade ids carry effects of different kinds. |
| ConfigProperties.EntriesCommute | js/config.js:617-631 | Within one ball, two entries with different ids can be applied in either order. |
| ConfigProperties.CommuteThrough | js/config.js:617-631 | An entry whose id is not among some other entries can be applied before or after them. |
| ConfigProperties.PullOut | js/config.js:617-631 | Applying entries with one entry spliced in at any position equals applying the rest and then that entry. |
| ConfigProperties.OrderIndependent | js/config.js:617-631 | Any rearrangement of a list of entries with distinct ids resolves to the same configuration. |
| ConfigProperties.ResolutionOrderIndependent | js/config.js:649-652 | The resolved configuration does not depend on the order of the player's upgrade entries. |
| World.Between | js/game.js:502-503 | `lo + Math.random() * (hi - lo)` lies in [lo, hi], and below hi when lo < hi. |
| World.RandomInt | js/game.js:728 | `Math.floor(min + Math.random() * (max - min))` lies in [min, max], and below max when min < max. |
| World.Direction | js/game.js:721 | The random direction is +1 or -1. |
| World.FirstIndex | js/game.js:1621 | `find`: the result satisfies the predicate, and no earlier element does; there is no result exactly when no element satisfies it. |
| World.HighestNumber | js/game.js:693-694 | The highest floor number is at least every number in the list and, for a non-empty list, belongs to some floor. |
| World.FloorXPosition | js/game.js:664-689 | A new floor lies inside the walls, within FLOOR_MAX_HORIZONTAL_GAP of the previous floor when that is possible, and is centred otherwise. |
| World.FloorXPositionAsWritten | js/game.js:682-686 | As written, the empty-list branch gives no number (NaN); with a previous floor it agrees with FloorXPosition. |
| World.BaseCoinDraw | js/game.js:634-635 | The base coin count lies in [MIN_COINS_PER_FLOOR, MAX_COINS_PER_FLOOR]. |
| World.CoinsNotOn | js/game.js:1539 | The coin filter of a floor removal keeps exactly the coins not on the removed floors. |
| World.CoinsFrom | js/game.js:709 | The streaming filter keeps exactly the coins on floors at or above the lowest needed floor. |
| World.FloorsFrom | js/game.js:710 | The streaming filter keeps exactly the floors numbered at or above both the lowest needed floor and 0. |
| World.WindPushed | js/game.js:831-856 | Wind changes only the horizontal speed: by the force on the ground, by WIND_AIR_MULTIPLIER times the force in the air, and not at all when the ball may not be pushed in its state. |
| World.Clamp | js/game.js:1107-1109 | The capped speed lies within MAX_SPEED, and a speed already within it is unchanged. |
| World.StandingFloor | js/game.js:1761-1772 | The floor found is the first floor the grounded ball stands in; there is none exactly when it stands in no floor. |
| World.RemovedNumbers | js/game.js:1537-1541 | The numbers removed are exactly those of floors marked shouldRemove. |
| World.FindNumber | js/game.js:1621 | `find` by number: the index found holds that number and no earlier floor does; there is none exactly when no floor has it. |
| World.FadedOutNumbers | js/game.js:1632-1647 | The numbers removed are exactly those of the floors that are faded out after this tick's fade step. |
| WorldProperties.FloorNumberOfFloorTop | js/game.js:692-696 | The band formula of generateMoreFloorsIfNeeded recovers a floor's number from its top (the y set at line 531). |
| WorldProperties.FloorBand | js/game.js:696 | Every height lies in exactly one band; the band of floor k runs from just above floor k + 1's top down to floor k's top. |
| WorldProperties.FloorsStacked | js/game.js:531 | Higher floors have smaller tops, exactly FLOOR_VERTICAL_SPACING apart. |
| WorldProperties.SpecialFloorsByNumber | js/game.js:582-589 | A floor is special exactly when its number makes it so, whatever the draw; no floor below SPECIAL_FLOOR_INTERVAL is special; floor 0 is normal. |
| WorldProperties.FloorChanceCapped | js/game.js:597-606 | While difficulty is active, each floor-type chance is capped at DIFFICULTY_MAX_CHANCE and, from level 1 on, never below a base chance within the cap; otherwise it is the base chance. |
| WorldProperties.FloorTypeByDraw | js/game.js:607-620 | The draw selects the first bucket, in the order moving, shrinking, breaking, whose cumulative chance exceeds it, and normal otherwise. |
| WorldProperties.RampUpProgressBounds | js/game.js:784 | The ramp-up progress lies in (0, 1] and is exactly 1 on the ramp's last tick. |
| WorldProperties.RampDownProgressBounds | js/game.js:809 | The ramp-down progress lies in [0, 1), is exactly 0 on the ramp's last tick, and complements the ramp-up progress to 1. |
| WorldProperties.RampedForceBounded | js/game.js:783-824 | A force scaled by a ramp progress keeps its sign and never exceeds the force it ramps towards or from. |
| WorldProperties.DifficultyStartsNeutral | js/game.js:1652-1674 | At DIFFICULTY_START_AT_SCORE the active difficulty has level 1 and every multiplier 1, as the initial difficulty has. |
| WorldProperties.LevelGrows | js/game.js:1660 | The difficulty level starts at 1 and grows with the highest floor reached. |
| WorldProperties.DifficultyMultiplierGrows | js/game.js:1672-1674 | Multipliers whose base exceeds 1 grow with the highest floor reached. |
| WorldProperties.DifficultyMultiplierShrinks | js/game.js:1672-1674 | Multipliers whose base is below 1 shrink as the highest floor grows. |
| WorldProperties.StaleMultipliersAfterReset | js/game.js:411-412 | Resetting as written keeps the previous run's multipliers: the next run starts inactive, yet its moving floors move faster than MOVING_FLOOR_SPEED. |
| WorldProperties.MovingFloorBounded | js/game.js:1545-1569 | A moving floor stays within its range around originalX and inside [MOVING_FLOOR_MIN_X, MOVING_FLOOR_MAX_X - width], reversing at either bound. |
| WorldProperties.ShrinkingFloorKeepsCentre | js/game.js:1571-1585 | A shrinking floor counts its delay down first; then it narrows by the shrink speed, never below the minimum width, and stays centred on its original centre. |
| WorldProperties.BreakingFloorCrumbles | js/game.js:1587-1596 | A stepped-on breaking floor that is not fading loses exactly the scaled crumble speed in alpha, and is marked for removal once alpha reaches 0. |
| WorldProperties.AnimateAllNumbers | js/game.js:1533-1600 | updateSpecialFloors drops exactly the floors marked shouldRemove and animates all the others; the list never grows. |
| WorldProperties.FadeSweepMarks | js/game.js:1615-1630 | The sweep sets every floor in the numbered range fading, touches no other floor, keeps fading floors fading, and never moves nextFloorToFade backwards. |
| WorldProperties.FadeAllKeeps | js/game.js:1632-1648 | The removal loop keeps exactly the floors that have not faded out, each faded by one step. |
| WorldProperties.FadeFloorStep | js/game.js:1635-1641 | A fading floor above the minimum alpha loses exactly the fade speed; a floor that is not fading is untouched. |
| WorldProperties.FadeSpeedBounded | js/game.js:1608-1613 | The fade speed factor lies between 1 and DIFFICULTY_MAX_FADE_MULTIPLIER. |
| WorldProperties.CoinCountBounded | js/game.js:634-637 | The floor-number growth only raises the base coin count, and MAX_COINS_PER_FLOOR caps it. |
| WorldProperties.CoinChanceBounded | js/game.js:627-628 | The coin chance never exceeds COIN_MAX_CHANCE and grows with the floor number up to it. |
| WorldProperties.CollectionCounts | js/game.js:947-970 | A collection sweep removes exactly the coins the ball touches: the kept and the collected coins add up to what there was. |
| WorldProperties.DisplayedFloorMeaning | js/game.js:1757-1776 | The reported floor is never negative: it is the first floor the ball stands in, or else its height band. |
| WorldProperties.LowestSupportYIsMax | js/game.js:1816-1839 | The running maximum of checkIfAnyFloorsLeft is the largest top among the floors that can still support the ball. |
| WorldProperties.AnyFloorsLeftMeans | js/game.js:1816-1839 | Floors are left exactly when some supporting floor's top is within GAME_OVER_FALL_THRESHOLD of the ball. |
| WorldProperties.CcdLastSampleIsEnd | js/game.js:1253-1256 | The CCD sweep's last sample is the current position, so a ball past a wall line is always caught, as without CCD. |
| WorldProperties.WallsKeepBallInside | js/game.js:1238-1325 | After the wall checks the ball's centre lies between the wall lines; a ball already between them is left alone; a bounce off the left wall never leaves the ball moving left, and a bounce off the right wall never leaves it moving right. |
| WorldProperties.BounceSpeedMeaning | js/game.js:1261-1269 | A bounce speed is never negative, and is 0 exactly when the speed is at most MIN_BOUNCE_VELOCITY. |
| WorldProperties.WindPhaseOrder | js/game.js:737-828 | Wind only moves one phase on, break to ramp-up to active to ramp-down to break, exactly when its timer runs out. |
| WorldProperties.WindDisabledFreezes | js/game.js:739-745 | With wind disabled for the ball, the timer stands still, nothing is drawn and the force is 0. |
| WorldProperties.BreakStartsRamp | js/game.js:762-781 | A break that runs out starts a ramp towards a force of the drawn magnitude in the drawn direction. |
| WorldProperties.RampUpReachesTarget | js/game.js:788-792 | A ramp-up ends with the force exactly at its target and the burst timer started. |
| WorldProperties.RampDownReachesZero | js/game.js:812-823 | A ramp-down ends with no force, the wind inactive and a fresh break drawn. |
| WorldProperties.RampUpForce | js/game.js:783-793 | While ramping up, the force is target / (t + 1): same sign as the target and never beyond it. |
| WorldProperties.RampDownForce | js/game.js:808-824 | While ramping down, the force is start * t / (t + 1): same sign as the start force and never beyond it. |
| WorldProperties.WindInvariantKept | js/game.js:737-828 | Every tick keeps each ramp at least one tick long, so the ramp formulas never divide by zero. |
| WorldProperties.SteeredVelocityBounded | js/game.js:1066-1132 | Whatever the input, the horizontal speed after updateInput is within MAX_SPEED. |
| WorldProperties.IdleBallOnlySlows | js/game.js:1066-1132 | With no input, a ball within MAX_SPEED only loses speed, to friction or to air resistance. |
| WorldProperties.JumpForceBounded | js/game.js:1135-1144 | A jump always goes upwards, at least with the base force and at most with the base plus the full speed bonus. |
| WorldProperties.FasterJumpsHigher | js/game.js:1135-1144 | Running faster never gives a weaker jump. |
| WorldProperties.InputJumpsExactlyWhenAsked | js/game.js:1066-1132 | updateInput never moves the ball or grounds it, and keeps its speed within MAX_SPEED. It jumps exactly when the ball is grounded, not rising, and auto-jump or a jump key asks; the jump goes upwards. |
| WorldProperties.LandedBallRestsOnFloor | js/game.js:1147-1235 | A ball that lands on a floor then rests on it by isPlayerOnFloor's test. |
| WorldProperties.CannonCatchMeaning | js/game.js:1328-1395 | A ball that may ride the cannon is shot upwards from the floor's top, off the ground; any other ball is stopped, grounded, on top of the cannon. Neither changes horizontally. |
| WorldProperties.WallBoostArmsNearWall | js/game.js:1471-1490 | checkWallBoost arms the boost exactly while the ball is closer than WALL_BOOST_MAX_DISTANCE to the wall it bounced off. |
| WorldProperties.WallBoostPushesAway | js/game.js:1508-1528 | A wall boost sends the ball away from that wall at WALL_BOOST_VELOCITY_X and adds WALL_BOOST_VELOCITY_Y upwards; it cannot fire again until re-armed. |
| WorldProperties.BoostDisplayLasts | js/game.js:1686-1693 | The boost display stays on for exactly its remaining frames, one fewer per tick. |
| WorldProperties.BoostDisplayStaysOff | js/game.js:1686-1693 | A display that is off stays off. |
| WorldProperties.EmptyListPlacementIsNaN | js/game.js:682-686 | As written, a floor placed into an empty floor list gets no position (NaN) for every width and draw; the corrected placement puts it inside the playfield. |
| WorldProperties.FloorsFromKeepsOrder | js/game.js:710 | The streaming filter keeps the floors in increasing number order. |
| WorldProperties.AnimateAllKeepsOrder | js/game.js:1533-1600 | Animating and removing floors keeps them in increasing number order. |
| WorldProperties.FadeAllKeepsOrder | js/game.js:1603-1649 | Fading and removing faded floors keeps them in increasing number order. |
| WorldProperties.AppendKeepsOrder | js/game.js:692-706 | Appending consecutively numbered floors above the highest keeps the list in order. |
| WorldProperties.GeneratedReachesTarget | js/game.js:692-711 | After floors numbered consecutively from above the highest up to the target are appended and the floors below the lowest needed one are removed, a floor numbered at least the target remains. |
| WorldProperties.KeptBelowHighest | js/game.js:708-711 | A floor that the sweep below the lowest needed floor keeps is numbered at most the highest number left. |
| WorldProperties.AnimateLoopFloors | js/game.js:1534-1542 | One pass of updateSpecialFloors' backwards loop extends the finished suffix of the floor list by one floor. |
| WorldProperties.AnimateLoopCoins | js/game.js:1537-1541 | The same pass on the coins: a removed floor takes its coins with it. |
| WorldProperties.FadeLoopFloors | js/game.js:1632-1648 | One pass of updateFadingFloors' backwards removal loop extends the finished suffix of the floor list by one floor. |
| WorldProperties.FadeLoopCoins | js/game.js:1641-1645 | The same pass on the coins: a floor that fades out takes its coins with it. |
| Simulation.Game.constructor | js/game.js:3-36 | A stopped game with the standard ball, the stored best score, the menu's settings, wind in a break, and floors 0 to FLOORS_TO_GENERATE_AHEAD in order. |
| Simulation.Game.SetControls | js/game.js:140-230 | The input handlers leave exactly the given keys, touch and tilt; nothing else changes. |
| Simulation.Game.ApplySettings | js/game.js:451-475 | The game takes over the menu's settings and the auto-jump flag; nothing else changes. |
| Simulation.Game.SetPaused | js/game.js:347-349 | Only the pause flag changes. |
| Simulation.Game.StartGame | js/game.js:325-345 | The chosen ball is configured with the given upgrades; the run is reset and running, neither paused nor over. |
| Simulation.Game.ChangeBall | js/game.js:356-372 | The configuration is the resolver's result for the ball and the upgrades; the ball's radius follows it; nothing else changes. |
| Simulation.Game.ResetGameState | js/game.js:381-448 | The ball is back at its start at rest; every counter of the run is zeroed; input is cleared; a fresh wind break is drawn; floors 0 to FLOORS_TO_GENERATE_AHEAD are rebuilt; the difficulty is back at its initial value, multipliers included. |
| Simulation.Game.ResetProgress | js/game.js:400-419 | No floor reached, no fading, no coins collected, and the whole difficulty record back at its initial value (the corrected reset). |
| Simulation.Game.InitFloors | js/game.js:480-486 | Floors 0 to FLOORS_TO_GENERATE_AHEAD form a GeneratedRun from no previous floor: floor i is what generateFloor promises (FloorGenerated) placed after floor i - 1, its draws begun where floor i - 1's ended, its coins the next slice of the appended coins as CoinsGenerated states them after the floor's own draws; the cursor ends after the last floor's draws; the coins lie on floors 1 to FLOORS_TO_GENERATE_AHEAD. |
| Simulation.Game.GenerateFloor | js/game.js:489-579 | The floor meets FloorGenerated against the last floor of the list: numbered n at its band's height; its type is determineFloorType of the first draw; its width is the next draw scaled into its type's width range; a moving floor's x is the draw after that scaled into its track, and a shrinking, breaking or normal floor's x is World.FloorXPosition of that draw, within FLOOR_MAX_HORIZONTAL_GAP of the last floor; from floor 5 on it has a cannon exactly when the following draw is below CANNON_CHANCE, on the side away from its centre; a moving floor's direction is Direction of the last draw; originalWidth is the width. The cursor moves by exactly FloorEnd's count, coins included. The coins appended to the list meet CoinsGenerated from the position after the floor's own draws: exactly the count generateCoinsForFloor draws, each at its own draw's x between the margins. |
| Simulation.Game.BuildFloor | js/game.js:489-579 | The floor meets FloorGenerated and the returned cursor is FloorEnd: the floor's own draws and then its coins' draws; the coins meet CoinsGenerated from ShapeEnd, the position after the floor's own draws. |
| Simulation.Game.ShapeFloor | js/game.js:489-568 | The floor meets FloorGenerated and the returned cursor is ShapeEnd: the type draw, the place draws, the cannon draw and the direction draw, each only where the source makes it. |
| Simulation.Game.FloorPlace | js/game.js:494-529 | Special and start floors are centred at full width with no draw; a moving floor's width and x are the next two draws scaled into their ranges; a shrinking, breaking or normal floor's width is the next draw scaled into its range and its x is World.FloorXPosition of the draw after; the draws consumed are PlaceDraws. |
| Simulation.Game.CannonDraw | js/game.js:539-545 | From floor 5 on, one draw decides a cannon with chance CANNON_CHANCE; it sits on the right when the floor's centre is left of the canvas middle, else on the left. Below floor 5 nothing is drawn. |
| Simulation.Game.GetFloorXPosition | js/game.js:664-689 | The position is World.FloorXPosition against the previous floor, inside the walls, and a draw is consumed exactly when the placement needs one. |
| Simulation.Game.GenerateCoinsForFloor | js/game.js:623-661 | Below MIN_FLOOR_FOR_COINS there are no coins and no draw; a draw above the floor's coin chance gives none; otherwise the capped CoinCount of the base draw, at least MIN_COINS_PER_FLOOR. Each coin lies within the floor's margins at COIN_Y_OFFSET from its top and carries its number. Coin k's x is draw 2 + 2k scaled between the margins (CoinsGenerated). The cursor moves by exactly CoinDraws: none, one, or two plus two per coin. |
| Simulation.Game.Update | js/game.js:1864-1902 | Nothing changes while the game is stopped, paused or over; otherwise one tick runs the four phases, and the stream cursor and the best score never go back. |
| Simulation.Game.UpdateInput | js/game.js:1066-1132 | The ball's horizontal speed is the steered, capped speed; it jumps exactly as InputJumpsExactlyWhenAsked says. |
| Simulation.Game.InitWind | js/game.js:716-735 | Calm air, a random direction and a break of random length within [WIND_MIN_BREAK_DURATION, WIND_MAX_BREAK_DURATION], using two draws. |
| Simulation.Game.UpdateWind | js/game.js:737-828 | The wind is the state machine's next state from the old wind and the stream; the ball is pushed by the new force; the cursor advances by the draws made. |
| Simulation.Game.ApplyWindForce | js/game.js:831-856 | The ball becomes WindPushed of the old ball by the current force; nothing else changes. |
| Simulation.Game.CheckWallCollisions | js/game.js:1238-1325 | The ball and the bounced-off wall are the value-level wall checks' result from the old ball and configuration. |
| Simulation.Game.CcdSweep | js/game.js:1252-1272 | For a ball that ends past the wall line, the index found is the first of the samples 0 to CCD_MAX_STEPS that lies past it. |
| Simulation.Game.CheckCannonCollisions | js/game.js:1328-1395 | A descending ball crossing a cannon's catch line is caught by the first such floor; otherwise the ball is unchanged. |
| Simulation.Game.CheckFloorCollisions | js/game.js:1147-1207 | A ball that is not descending is grounded exactly when it rests on some floor, and its height and vertical speed are unchanged; a descending ball lands on the first floor it crosses, or stays airborne. |
| Simulation.Game.CheckCoinCollisions | js/game.js:947-970 | The coins the ball touches leave the list and the count grows by their number; the others stay in order. |
| Simulation.Game.CollectCoin | js/game.js:973-997 | The coin at index i leaves the list and the count grows by one. |
| Simulation.Game.CheckWallBoost | js/game.js:1471-1490 | With wall boosts enabled, the boost is armed exactly while the ball is close enough to the wall it bounced off. |
| Simulation.Game.ActivateWallBoost | js/game.js:1493-1505 | An armed boost fires on mobile controls or on the key pressed away from the wall, and then kicks the ball as PerformWallBoost states. |
| Simulation.Game.PerformWallBoost | js/game.js:1508-1528 | The ball is kicked away from the wall and upwards, the boost shows for its frames, and the boost is disarmed. |
| Simulation.Game.UpdateBoostEffect | js/game.js:1686-1693 | The boost display counts down by one frame, and is off once the count is out. |
| Simulation.Game.UpdateMagnet | js/game.js:1696-1700 | The magnet state follows the ball's configuration. |
| Simulation.Game.GenerateMoreFloorsIfNeeded | js/game.js:692-711 | The floors added are numbered consecutively from above the old highest floor up to FLOORS_TO_GENERATE_AHEAD above the ball's band, and the highest number left after the sweep is at least that target; the added floors and their coins form a GeneratedRun after the old last floor, each floor drawing where the one before it stopped and its coins meeting CoinsGenerated, and the cursor ends after the last one's draws; floors and coins below the lowest needed floor are dropped; the list stays ordered. |
| Simulation.Game.AddFloorsUpTo | js/game.js:698-705 | The floors above the old highest one up to the target are appended in number order as a GeneratedRun after the old last floor, with their coins; the cursor ends after the run's draws. |
| Simulation.Game.GenerateRun | js/game.js:698-705 | The floors `from` to `target`, in number order, form, with the coins cs cut into per-floor slices, a GeneratedRun after the given list's last floor: each is generateFloor's floor after the one before it, its draws begun where the previous floor's ended, its slice of coins meeting CoinsGenerated; q is the position after the last draw and not before the start; the coins lie on floors from MIN_FLOOR_FOR_COINS and `from` up to `target`. |
| Simulation.Game.RunGrows | js/game.js:698-705 | A generated run, followed by a floor generated after its last floor from the position where the run stopped and by that floor's coins, is again a generated run, one position and one cut longer. |
| Simulation.Game.RunFloorExtends | js/game.js:698-705 | Floor i of a generated run, with its draws and its coin slice, is unchanged when later floors and coins are appended. |
| Simulation.Game.RunNumbers | js/game.js:698-705 | The floors of a generated run are numbered consecutively from its first number, each at its band's height. |
| Simulation.Game.RunMovesForward | js/game.js:698-705 | Every floor of a generated run begins its draws no earlier than the run does: floor generation reads the stream forwards only. |
| Simulation.Game.UpdateDifficulty | js/game.js:1652-1669 | From DIFFICULTY_START_AT_SCORE on, the difficulty is active with its level and multipliers computed from the highest floor reached; before that nothing changes. |
| Simulation.Game.UpdateSpecialFloors | js/game.js:1533-1600 | The floors are the animation of the old floors, with shouldRemove floors dropped, and exactly the dropped floors' coins are gone. |
| Simulation.Game.UpdateFadingFloors | js/game.js:1603-1649 | While the fade process runs, the timer advances, the sweep marks floors up to the target, and faded-out floors and their coins are dropped; otherwise nothing changes. |
| Simulation.Game.UpdateCamera | js/game.js:1703-1711 | The view follows a ball above CAMERA_THRESHOLD and rests otherwise. |
| Simulation.Game.UpdateHeight | js/game.js:1714-1728 | The height above the start floor is never negative, and the best height never falls. |
| Simulation.Game.UpdateVelocityDisplay | js/game.js:1731-1754 | The speed readouts are magnitudes, and the maxima never fall. |
| Simulation.Game.UpdateFloorDisplay | js/game.js:1757-1813 | currentFloorIndex becomes the first floor the grounded ball stands in, if any. The floor shown is that floor, else the ball's band; a grounded ball raises the highest floor reached to it, and the best ever follows. Reaching FLOOR_FADE_START_AT_SCORE starts a fade process not yet running. |
| Simulation.Game.StartFloorFadeProcess | js/game.js:1677-1683 | A process not yet running starts afresh at timer 0 from floor 0; a running one is left alone. |
| Simulation.Game.CheckIfAnyFloorsLeft | js/game.js:1816-1839 | The answer is AnyFloorsLeft: some supporting floor is within GAME_OVER_FALL_THRESHOLD of the ball. |
| Simulation.Game.CheckGameOver | js/game.js:1842-1860 | With no floor left to land on while the ball falls, the game is over and the best score takes in the highest floor reached; otherwise nothing changes. |
| Economy.Lookup | js/menu.js:631 | Looking up an upgrade finds a record exactly when some entry has that id, and the record found is one of the entries. |
| Economy.PutThenLookup | js/menu.js:643-646 | After storing a record under an id, that id finds exactly that record, and every other id finds what it found before. |
| Economy.ActiveEntriesMembers | js/menu.js:853-864 | getActiveUpgrades keeps exactly the records with a level above 0 that are active. |
| Economy.ToggleTwice | js/menu.js:660-670 | Toggling a record twice restores the list, and a toggle never changes a level. |
| Economy.ToggleKeepsLevels | js/menu.js:660-670 | A toggle keeps the ids and every level, and flips only the named record. |
| Economy.PurchaseMeaning | js/menu.js:628-657 | A purchase goes through exactly when the ball defines the upgrade, its level is below the maximum, and the coins cover the next level's price; it then costs exactly that price, and the balance falls but stays non-negative. |
| Economy.PurchaseStores | js/menu.js:643-646 | A purchase stores the upgrade at the next level, active, and leaves every other upgrade's record as it was. |
| Economy.RefusedAtMaxLevel | js/menu.js:635 | An upgrade at its maximum level is never bought, whatever the balance. |
| Economy.PurchaseKeepsOwned | js/menu.js:628-657 | After a purchase, every record still has distinct ids, a defined upgrade and a level between 1 and the maximum. |
| Economy.OwnedAfterToggle | js/menu.js:660-670 | After a toggle, every record still has distinct ids, a defined upgrade and a level between 1 and the maximum. |
| Economy.ActiveEntriesResolveSame | js/menu.js:853-864 | Resolving only the active records gives the same configuration as resolving all of them. |
| Economy.HandOverKeepsConfig | js/menu.js:694-696 | The game's ball is configured exactly as the resolver configures the current ball with all its records. |
| Economy.Menu.constructor | js/menu.js:5-30 | No coins, best score 0, only the standard ball unlocked and current, empty upgrade records for the four balls, no game. |
| Economy.Menu.UnlockBall | js/menu.js:594-613 | With enough coins for a ball not yet unlocked, its price is paid and it joins the unlocked balls; otherwise nothing changes. |
| Economy.Menu.SelectBall | js/menu.js:616-625 | An unlocked ball becomes current; a locked one changes nothing. |
| Economy.Menu.BuyUpgrade | js/menu.js:628-657 | The balance and the ball's records become what Purchase gives; when it refuses, nothing changes. |
| Economy.Menu.ToggleUpgrade | js/menu.js:660-670 | An existing record's active flag flips; without a record nothing changes. |
| Economy.Menu.GetActiveUpgrades | js/menu.js:853-864 | The result is the current ball's active records with a level above 0, in key order; the state is unchanged. |
| Economy.Menu.StartGame | js/menu.js:673-702 | The game is started and running with no coins and no score yet; it hands over the current ball and its active records. |
| Economy.Menu.ReportCoins | js/game.js:978-980 | collectCoin's report sets the run's coin count in the menu; nothing else changes. |
| Economy.Menu.ReportScore | js/game.js:1809-1812 | updateFloorDisplay's report sets the run's score, the highest floor reached; nothing else changes. |
| Economy.Menu.RecordBestScore | js/game.js:1790-1793 | The game's new best score is recorded; nothing else changes. |
| Economy.Menu.TogglePause | js/menu.js:705-708 | A started game that is not over flips its pause flag; otherwise nothing changes. |
| Economy.Menu.GameOver | js/menu.js:740-760 | A started game not yet over ends once; the run's coins are credited; the best score rises to the run's score only when that is higher. |
| Economy.Menu.SaveGameProgress | js/menu.js:1098-1106 | The run's coins are added to the total only when asked and when there are some. |

## Left out

- Rendering, canvas drawing, colours and every HUD, DOM and notification call, including `updateGameHUD` and the menu's `update*Screen`, `switchScreen`, `showNotification`, `setupEventListeners`, `checkMobile` and `setupViewport`. These only display state.
- The event listeners and `gameLoop`. Their net effect between two ticks is `Simulation.Game.SetControls`. The frame scheduling is not modelled.
- Storage: `loadHighScore`, `saveHighScore` and `loadTotalCoins` (js/game.js:2219-2291), and `loadData`, `saveData` and `resetData` (js/menu.js:187-293). The stored best score is a constructor parameter; saves are not modelled.
- The menu's button handlers for restart, quit and play again. They combine `SaveGameProgress`, `GameOver` and `StartGame`, which are modelled, with screen code.
- The cross-call from the menu's `togglePause` to `Game.setPaused`. Both halves are modelled, but not as one call.
- The game's calls into the menu (`collectCoin` at js/game.js:979, `updateFloorDisplay`, `checkGameOver`) write `window.Menu.state`. They are modelled as separate `Economy.Menu` methods. `Simulation.Game` does not hold a reference to the menu.
- Simulation.Game.CheckCoinCollisions: the magnet pull before the hit test is not modelled. In the source `checkCoinCollisions` calls `applyMagnetForce` (js/game.js:956-958, 1000-1017) on every coin before testing its distance to the ball, and the coin keeps its pulled position. With `coin_magnet` bought (js/config.js:457-473) and the magnet on (`UpdateMagnet`), the source therefore collects coins sooner and from farther away; the model collects only the coins the ball touches where they were placed, so `CheckCoinCollisions` and `WorldProperties.CollectionCounts` describe the source while the magnet is off. The pull is a per-frame geometric approximation over real-valued distances. The coin effects list (`coinEffects`) is display only.
- Coin ids (`Math.random().toString(36)`), each coin's `collected`, `originalX` and `originalY` fields, and each floor's own `coins` list. No game logic reads them.
- `checkLineIntersection`, `checkCollisionWithCCD` and `getLineIntersection`. Nothing calls them.
- js/standalone-fix.js, js/single-tap.js and service-worker.js. They are page plumbing, not game logic.
- IEEE-754 rounding. Arithmetic is exact over the reals, so `Math.pow` growth and the ramp divisions have no rounding error here.
- Economy.ActiveEntriesMembers: `active` is a boolean. The source's `data.active !== false` would also keep a record whose `active` is undefined. Records created by `buyUpgrade` always set it.
- World.FloorXPositionAsWritten: NaN is modelled as the absence of a position. Once a NaN floor exists, later floors placed against it would also be NaN; that spread is not modelled.

## Findings

| source | as written | input that shows it | evidently intended | confidence | as-written member | corrected member |
|---|---|---|---|---|---|---|
| js/game.js:381-448 | `resetGameState` resets `currentDifficulty` and `difficultyActive`, but not the six difficulty multipliers. `updateSpecialFloors` reads those multipliers whether difficulty is active or not. | A run reaching floor 105, then a new run. The new run starts with difficulty inactive, yet its moving floors move 3 per tick instead of MOVING_FLOOR_SPEED = 2 until difficulty turns on again. | A new run starts with the whole difficulty record at its initial value, every multiplier 1. | not executed; follows directly from the code | WorldProperties.StaleMultipliersAfterReset | Simulation.Game.ResetProgress |
| js/game.js:684-685 | The empty-list branch of `getFloorXPosition` reads `GameConfig.WALL_THICKness`, which does not exist. The position is NaN. | `getFloorXPosition` called while the floor list is empty, for any width and any draw. In play this needs every floor gone while the game goes on; the game-over test normally ends the run first, so the branch is rarely if ever reached. | WALL_THICKNESS, giving a position inside the playfield. | not executed; the code is certain, reachability is uncertain | World.FloorXPositionAsWritten | World.FloorXPosition |
