# The Triumph of the Ancient Sea God — simulation core in Dafny

A model of the game's simulation core, with proofs about it. The game is a
browser arcade game. The player runs along a strip of terrain chunks while a
flood sinks the chunks behind and under them.

The model covers:

- **Terrain** (`structs.dfy`, module `Structs`). Cells, the 16×12 chunk grid,
  and the five chunk builders with `getRandomStraightChunkBuilder`. Also the
  flood front (`updateValues`), the sinking animation (`updateAnimations`),
  the mutable `Vector2` and the `Player` record with its tuning constants.
- **Phases** (`states.dfy`, module `States`). The running phase's `update` in
  the source's order:
  1. decelerate unless jumping;
  2. move, or bounce off a step higher than `MAX_STEP`;
  3. `swapChunks`;
  4. consume a button;
  5. classify as standing, falling or drowning;
  6. flood the three chunks;
  7. animate;
  8. reset the clocks.

  Also the running `process` (airborne timer, jump start, walking or
  standing), the menu and game-over `init`/`update`/`process`, `changeState`,
  and `step`'s update-then-process order.
- **Start-up and loop** (`data.dfy`, `cookies.dfy` and `main.dfy`, modules
  `Data`, `Cookies` and `Page`). `getInitialData`, the first state (the menu),
  the `requestedChange` hand-off in `loop`, and `readScore` with the cookie
  string as a parameter. Also what `saveScore` leaves in the cookie.
- **Numbers** (`consts.dfy` and `jsmath.dfy`). The constants, with lemmas
  deriving them from the source's truncating expressions. `Math.round` and `|0`
  over exact reals.

How the source's constructs are modelled:

- Objects that the source updates in place are classes:
  - `Chunk` with a `array2<Cell>` grid;
  - `Vector2`;
  - `Player`;
  - `PersistentData`;
  - `GameState`;
  - `CookieJar`;
  - `Game`, the page.
- Methods state what they change against the state before the call. Twostate
  predicates describe one step of it: `Shifted` (the window moving on),
  `ButtonCleared`, `Walked` (the player's half of a running frame),
  `FloodedBy`, `AnimatedBy`, `AdvancedBy`, `WindowAdvanced`, `Steered`,
  `OverProcessed`, and `PlayerKept`/`WindowKept` for what a phase leaves alone.
  A composite method restates what its parts promise, phase by phase. What a
  contract leaves unstated is listed under "Left out".
- Cells are values (`datatype Cell`), because the source never shares a cell
  between grids.

Randomness is injected: a `Draws` value holds one number in [0, 1) for each
named draw a builder makes, and a function `cell(i, j, k)` for the k-th draw
of cell (i, j). The noise builder takes three draws per cell, the others at
most one. `Math.sqrt` is a parameter `root`
that must satisfy `IsSquareRoot`.

Behaviour the model keeps as the source has it:

- The clamp in `updateAnimations` writes a misspelled property. So the
  sinking progress is never capped (`AnimationNotCapped`).
- After `swapChunks` the player's column index is not recomputed.
  - The same frame's button check is skipped, because the index is at least
    `CHUNK_WIDTH`.
  - The footing is then read at that stale index, that is, from the freshly
    built next chunk (`MoveAndSwap` returns the pre-swap index, and
    `GroundAfterMove`, used by `Walked`, reads the new chunk's cell).
- A jump started by `process` is immediately overwritten by `walking` or
  `standing` in the same call (`SteeredState`). The airborne timer makes the
  player `jumping` from the next frame on.
- The new next chunk takes the parity of the new previous chunk.
- Menu and game over wrap their clocks back by one period. The running phase
  resets its clocks to 0.
- The running `update` decides the game-over request from the state before the
  frame. The model records that decision, runs the frame, and then sets the
  request. Nothing in the frame reads the request, so the result is the same.

## Model

| member | source | states |
|---|---|---|
| JsMath.Trunc | js/00_consts.js:36-42 | `x \| 0` truncates toward zero: the result is within 1 of x, on x's side of 0 |
| JsMath.Round | js/01_state.js:172-176 | `Math.round` is the integer n with n − ½ ≤ x < n + ½ |
| JsMath.RoundShift | js/01_state.js:91 | rounding commutes with moving the player back a whole chunk |
| Consts.GeometryFromScreen | js/00_consts.js:36-42 | CHUNK_WIDTH 16, CHUNK_HEIGHT 12 and the halves 8 and 6 are the values of the truncating expressions over the 256-pixel screen |
| Consts.GameplayConstantsPositive | js/00_consts.js:28-67 | INTRO_PERIOD, PATH_WIDTH, the score multiplier, the flooding speeds and the button deltas are all positive |
| Structs.NewCell | js/03_structs.js:27-38 | a new cell has the given height and feature, variant 0 and no animation progress |
| Structs.FloodBound | js/03_structs.js:62-63 | the column cap clamp((i − f + 8)/8, 0, 1): 1 ahead of the front, 0 eight columns behind it, linear between |
| Structs.FloodBoundMonotonic | js/03_structs.js:59-69 | a higher flood never raises a column's cap |
| Structs.FloodCell | js/03_structs.js:64-67 | a cell above the cap is pulled down to it, any other cell is unchanged; heights never rise and no other field changes |
| Structs.FloodCellIdempotent | js/03_structs.js:59-69 | flooding twice with the same level gives the same cell as flooding once |
| Structs.AnimateCell | js/03_structs.js:75-80 | cells below 0.2 gain 0.8·time of progress, other cells are unchanged, heights never change |
| Structs.AnimationNotCapped | js/03_structs.js:76-79 | the progress passes 1 (1.6 after two seconds), because the cap writes a misspelled field |
| Structs.OffYFromGeometry | js/03_structs.js:104 | the path strip's offset is (12 − 4)/2 truncated, 4 |
| Structs.Solid | js/03_structs.js:121-122 | a damage roll gives height 0 exactly when the draw is below the probability, else 1 |
| Structs.PathCell | js/03_structs.js:198-208 | a path-strip cell: empty outside rows 5..8; on a border row, empty iff the draw is below the border probability and a column on every fourth solid cell; inside, empty iff below the inner probability |
| Structs.WithBonus | js/03_structs.js:155-157 | only the bonus cell, and only when not empty, takes the bonus feature |
| Structs.PlatformPlanOf | js/03_structs.js:98-111 | platform offsets centre the platform, damage is below 0.08, the bonus is in columns 7..9 on a platform row, and a button only when columns are put |
| Structs.PlatformCell | js/03_structs.js:113-163 | platform cells are 0 or 1 high, the platform itself is solid, and a button only appears on the solid bonus cell |
| Structs.StraightPlanOf | js/03_structs.js:184-190 | damage below 0.16, the bonus cell in columns 7..9 and rows 6..7, slow button iff its draw is above 0.3 |
| Structs.StraightCell | js/03_structs.js:192-218 | rows outside the strip are empty, columns only on solid border cells with i % 4 = 0, the button only on the solid bonus cell |
| Structs.LeapPlanOf | js/03_structs.js:221-226 | the gap is 4, 5 or 6 columns wide and centred |
| Structs.LeapCell | js/03_structs.js:228-254 | rows outside the strip are empty, no buttons, columns only on solid border cells with i % 4 = 0, and the gap's inner columns are empty |
| Structs.NoiseThreshold | js/03_structs.js:268-269 | the row's solid probability is in (0, 1] and is 1 on the middle row |
| Structs.PowSix | js/03_structs.js:269 | the sixth power of a number in (0, 1] is in (0, 1] |
| Structs.NoiseCell | js/03_structs.js:262-273 | a point hole below 0.1, otherwise solid iff the draw is at most the row's probability; a column is on a solid cell iff its draw exceeds 0.8 |
| Structs.RandomStraightBuilder | js/03_structs.js:166-173 | straight, leap or column according to which third of [0, 1) the draw is in |
| Structs.PlatformHeightOf | js/03_structs.js:88 | the platform height is PATH_WIDTH + 2 or PATH_WIDTH + 4 |
| Structs.StartPlan | js/03_structs.js:86-90 | the start chunk is a width-7 platform without the central column pair and without a button |
| Structs.ColumnPlan | js/03_structs.js:176-181 | the column chunk is 7 or 9 wide and has the central column pair iff its draw is above 0.2 |
| Structs.BuilderCell | js/03_structs.js:86-277 | every builder's cell is valid and 0 or 1 high; a button only at the builder's bonus cell, never in start, leap or noise chunks; straight and leap rows outside the strip are empty |
| Structs.AtMostOneButton | js/03_structs.js:108-111 | a chunk holds at most one button |
| Structs.LeapGapEmpty | js/03_structs.js:234-248 | strictly inside the gap every row is empty, because the probability is 1 and every draw is below 1 |
| Structs.FillGrid | js/03_structs.js:113-116 | the nested loops fill a fresh 16×12 grid with the cell rule at every (i, j) |
| Structs.PlatformChunkBuilder | js/03_structs.js:98-163 | `platformChunkBuilder` returns a fresh 16×12 grid of platform cells |
| Structs.StartChunkBuilder | js/03_structs.js:86-90 | `startChunkBuilder` returns the start builder's grid |
| Structs.ColumnChunkBuilder | js/03_structs.js:176-181 | `columnChunkBuilder` returns the column builder's grid |
| Structs.StraightChunkBuilder | js/03_structs.js:184-218 | `straightChunkBuilder` returns the straight builder's grid |
| Structs.LeapChunkBuilder | js/03_structs.js:221-254 | `leapChunkBuilder` returns the leap builder's grid |
| Structs.NoiseChunkBuilder | js/03_structs.js:257-277 | `noiseChunkBuilder` returns the noise builder's grid |
| Structs.Build | js/03_structs.js:49 | calling a chunk's builder function gives that builder's grid |
| Structs.Chunk.constructor | js/03_structs.js:45-54 | a new chunk holds its builder's fresh grid, its parity and flood level 0, and is valid |
| Structs.Chunk.Submerged | js/03_structs.js:59-69 | a valid chunk flooded eight columns past its end is all water |
| Structs.Chunk.UpdateValues | js/03_structs.js:59-69 | every cell is pulled down to its column's flood cap, and the chunk is valid after it |
| Structs.Chunk.UpdateAnimations | js/03_structs.js:72-83 | every cell advances its sinking animation; the chunk stays valid |
| Structs.SquaredLength | js/03_structs.js:303-305 | the squared length is never negative and is 0 for the zero vector |
| Structs.Divided | js/03_structs.js:312-317 | the zero vector (or a zero length) is left unchanged; otherwise the result times len is the vector |
| Structs.Vector2.constructor | js/03_structs.js:284-291 | a new vector holds the given components |
| Structs.Vector2.Append | js/03_structs.js:297-300 | `append` adds amount times the direction, componentwise |
| Structs.Vector2.Zero | js/03_structs.js:307-310 | `zero` sets both components to 0 |
| Structs.Vector2.Normalize | js/03_structs.js:312-317 | `normalize` divides by the length and leaves the zero vector unchanged |
| Structs.Player.constructor | js/03_structs.js:331-375 | the default player stands in cell (8, 6) at height 1, at rest, with fresh distinct vectors and score 0 |
| Cookies.Split | js/04_main.js:158 | `split(';')` gives at least one piece, no piece holds the separator, and joining the pieces gives the string back |
| Cookies.SplitWithoutSeparator | js/04_main.js:158 | a string without the separator splits into itself |
| Cookies.IndexOf | js/04_main.js:162 | `indexOf` is −1 iff the key occurs nowhere, and otherwise the first position where it occurs |
| Cookies.ToNumber | js/04_main.js:164 | `* 1` gives a number iff the text is all digits, and 0 for the empty text |
| Cookies.NumberToString | js/04_main.js:152 | `score + ''` is a non-empty digit string |
| Cookies.NumberRoundTrip | js/04_main.js:152-164 | reading a printed score gives the score back |
| Cookies.NoKeyMeansZero | js/04_main.js:159-166 | without a segment holding the key, the score is 0 |
| Cookies.FirstKeyDecides | js/04_main.js:159-164 | the first segment holding the key decides: its text after the key, as a number |
| Cookies.ReadScore | js/04_main.js:156-167 | the loop with its early return computes the first-key score of the cookie |
| Cookies.SaveThenRead | js/04_main.js:146-167 | reading back a saved score gives that score |
| Cookies.CookieJar.SaveScore | js/04_main.js:146-153 | the cookie holds the key and the score's digits, and it reads back as the score |
| Data.PersistentData.constructor | js/04_main.js:113-126 | the aggregate holds the given player, chunks and high score, with wave speed and water clock 0 |
| Data.GetInitialData | js/04_main.js:106-129 | fresh, valid data: leap (even), start (odd) and straight (even) chunks at flood 0, the default player, wave 0, water clock 0, period 2, high score read from the cookie |
| States.SafelyFetchHeight | js/01_state.js:128-136 | 0 off the top or bottom, 2 behind the window, the current chunk's cell below 16 and the next chunk's cell i − 16 from 16 on, plus 1 on a column; always in [0, 2]; off the top or bottom any column index is allowed |
| States.ZeroSupportIsWater | js/01_state.js:128-136 | the lookup is 0 exactly where the cell has sunk to 0 and has no column |
| States.Decelerated | js/01_state.js:153-166 | a component moves toward 0 by d·time and stops at 0 rather than crossing it |
| States.DecelerationOf | js/01_state.js:148-150 | standing or drowning decelerates at 29, otherwise at 3; always positive |
| States.Decelerate | js/01_state.js:147-167 | both velocity components become their decelerated values |
| States.DecelerateComponent | js/01_state.js:153-166 | one component's subtract-or-add and clamp branches give exactly the decelerated value |
| States.Move | js/01_state.js:147-188 | the player ends as `MoveOutcome` of the old state says: the velocity decelerated unless jumping, then the step taken or refused; the returned index is the rounded position, below 32 |
| States.TryMove | js/01_state.js:169-188 | the player ends as `StepOutcome` says: the step is taken iff the tentative cell is at most MAX_STEP above the player, otherwise the position stays and both velocity components are negated; returns the rounded cell |
| States.MoveOutcome | js/01_state.js:147-188 | the position a running frame's move leads to is less than two chunks ahead |
| States.MoveNeverSpeedsUp | js/01_state.js:147-167 | the velocity the move uses has neither component larger in size than the player's velocity |
| States.SwapChunks | js/01_state.js:85-96 | previous ← current, current ← next, a fresh next chunk holding the straight-builder cells of the draws, with the new previous chunk's parity and flood 0; x − 16, score + 3·round(wave), wave + 0.5 |
| States.SlowedWave | js/01_state.js:199-200 | the slow button takes 1 off the wave speed, but not below 0.5 |
| States.ReducedScore | js/01_state.js:202-203 | the slow button takes 4 off the score, but not below 0 |
| States.ConsumeButton | js/01_state.js:196-211 | the wave speed and score change as `ButtonWave` and `ButtonScore` say for the feature under the player (none outside the chunk); a button there is cleared and no other cell changes |
| States.ButtonWave | js/01_state.js:198-210 | only a button changes the wave speed: the slow one as `SlowedWave`, the fast one by +0.2; a non-negative speed stays non-negative |
| States.ButtonScore | js/01_state.js:198-210 | only a button changes the score: the slow one as `ReducedScore`, the fast one by +10; a non-negative score stays non-negative |
| States.Classify | js/01_state.js:214-226 | the state and height become the `Footing` over the ground at (i, j) |
| States.Footing | js/01_state.js:217-225 | drowning iff the height is at most 0.2 (height kept); otherwise falling iff the ground is 0 (sinking by time), else standing at the ground's height |
| States.FloodStep | js/01_state.js:228-231 | the level rises by rate·time while below 32, and never falls |
| States.FloodChunk | js/01_state.js:228-232 | one chunk floods by a frame and its cells are capped; at the limit nothing changes |
| States.FloodWindow | js/01_state.js:228-245 | previous and current flood at their rates, next only once current is past 16 |
| States.AnimateWindow | js/01_state.js:247-249 | all three chunks advance their animations |
| States.ResetClock | js/01_state.js:251-257 | the clock advances and resets to 0 once past its period; never negative |
| States.WrapClock | js/01_state.js:468-474 | the clock advances and goes back one period once past it |
| States.WrapClockStaysInPeriod | js/01_state.js:468-474 | a wrapping clock started inside its period stays inside it for frames no longer than the period |
| States.AdvanceWindow | js/01_state.js:228-249 | flood, then animate, each chunk; no chunk's level decreases |
| States.KeyDirection | js/01_state.js:272-288 | without an arrow held the direction is zero |
| States.SteeredState | js/01_state.js:264-314 | drowning stays drowning; jumping iff the airborne timer runs; walking iff an arrow is held otherwise; falling only when it was falling |
| States.AddArrow | js/01_state.js:273-276 | a held arrow adds its unit vector and reports walking |
| States.ReadArrows | js/01_state.js:270-288 | the direction is the sum of the held arrows' unit vectors; walking iff an arrow is held |
| States.Run | js/01_state.js:301-311 | walking: the direction is normalised, the player accelerates while slow and is scaled back above the running speed |
| States.ProcessPlayer | js/01_state.js:261-317 | the player after `process` satisfies `Steered` |
| States.Successor | js/01_state.js:143-145 | each phase's only successor: running → game over (here), game over → running (line 413), menu → running (line 486) |
| States.Min | js/01_state.js:477-479 | the smaller of two reals |
| States.IntroAdvanced | js/01_state.js:476-480 | the intro timer climbs to INTRO_PERIOD and stays there; it is at INTRO_PERIOD exactly when it was, or when this frame takes it there |
| States.GameState.constructor | js/01_state.js:47-53 | the record `changeState` builds holds the data and behaviour and requests nothing |
| States.GameState.Init | js/01_state.js:423-425 | the menu's `init` zeroes the intro timer; the others do nothing |
| States.GameState.RunningUpdate | js/01_state.js:139-259 | a drowning player requests game over and nothing else is requested; the player's half is `Walked`; the three flood levels rise as `FloodStep` says, the current and next at 64 when the player now drowns and at the wave speed otherwise, after a swap counting from the shifted chunks; the clocks reset; the airborne count-down and the facing direction stay |
| States.GameState.RunningProcess | js/01_state.js:261-317 | the player is steered as `Steered` states |
| States.GameState.MenuUpdate | js/01_state.js:465-481 | the clocks wrap, the intro timer moves as `IntroAdvanced`, and the player (`PlayerKept`), the window (`WindowKept`) and the wave speed stay |
| States.GameState.MenuProcess | js/01_state.js:483-489 | running is requested iff the intro is over and space is held |
| States.GameState.OverUpdate | js/01_state.js:376-405 | the clocks wrap, the whole window floods at 64, and the player stays (`PlayerKept`) |
| States.GameState.OverProcess | js/01_state.js:407-415 | `OverProcessed`: on space the score is saved iff it beats the high score, fresh initial data is read back from the cookie, running is requested, and a beaten high score becomes the score; without space nothing changes |
| States.GameState.Update | js/01_state.js:73 | per phase: the menu's intro timer moves as `IntroAdvanced`; running requests game over exactly when the player was drowning, and the player's half is `Walked`; game over floods the unchanged window at 64 (`WindowAdvanced`); only running requests anything, and the score and high score change only when running; outside running the player stays (`PlayerKept`), in the menu the window too (`WindowKept`), and running keeps the airborne count-down and the direction |
| States.GameState.Process | js/01_state.js:74 | per phase: the menu requests running iff the intro is over and space is held, leaving the player alone; running steers the player as `Steered` and requests nothing; game over does what `OverProcessed` says and leaves the old player alone; only game over replaces the data or touches the cookie |
| States.GameState.Step | js/01_state.js:64-78 | a skipped frame changes no object; otherwise update, then process on the updated state: the menu requests running iff space is held once the updated intro timer is over, running requests game over iff the player was drowning, game over does what `OverProcessed` says of the state before the frame; a menu frame keeps the player and the window, a game-over frame without space the player |
| States.GameState.UpdateThenProcess | js/01_state.js:73-74 | a frame's update, then the process on the updated state: the per-phase requests, data and kept player and window of `Step` for a ready renderer |
| States.ChangeState | js/01_state.js:46-56 | a fresh valid state over the same data, with the new behaviour, no request and the intro timer at 0 |
| States.MoveAndSwap | js/01_state.js:147-192 | the move of `MoveOutcome`; once its index is 16 or more the window is `Shifted`, x drops by 16, the score and wave rise, and the returned index is the pre-swap one, 16 above the new cell; otherwise the window, score and wave are unchanged |
| States.Settle | js/01_state.js:195-226 | on foot, the button under (i, j) is used as `ButtonWave`/`ButtonScore`/`ButtonCleared` say, otherwise no cell changes; jumping is kept with the height; any other state takes the `Footing` over the ground at (i, j) before the button |
| States.Walk | js/01_state.js:147-226 | `Walked`: the move, the window shift with its score and wave, the button (skipped after a shift) and the footing read at the stale index; plus which cells changed |
| States.RunFrame | js/01_state.js:147-257 | `Walked`, then the flood levels as in `RunningUpdate`, the clocks reset and the high score unchanged; its frame names only the player fields a running frame writes, so the airborne count-down and the direction stay |
| States.Water | js/01_state.js:228-257 | the water's half floods and animates at the current rate and resets the clocks |
| States.ResetClocks | js/01_state.js:251-257 | the animation timer and water clock reset past their periods |
| States.WrapClocks | js/01_state.js:468-474 | the animation timer and water clock wrap once past their periods |
| Page.Game.constructor | js/04_main.js:131 | the first state is the menu over fresh initial data, with no request and the intro timer at 0 |
| Page.Game.Loop | js/04_main.js:133-143 | one step, then the hand-off: the data of the state after the step is kept; without a request the state stays, with one a fresh state of the requested phase, its successor, takes over; a skipped frame changes no object |
| Page.Game.HandOff | js/04_main.js:139-141 | a requested phase replaces the state with a fresh one over the same data and the intro timer at 0; without a request the state stays |

## Left out

- Drawing: `js/02_render.js`, every `draw` function, the canvas, sprites and the `webkitImageSmoothingEnabled` work-around. These are pixel output.
- The DOM: keyboard and touch listeners, `arrange`, `setInterval`. The set of held keys is a parameter of `Step` and `Loop`.
- `Date.now()` in `step`: the frame's duration is a parameter and must not be negative. Renderer readiness is a boolean parameter.
- `Math.random`: the draws are parameters. The order in which the source takes them from one stream is not modelled. No probabilities or distributions are stated.
- `Math.sqrt`: the square root is a parameter `root`, required to be one (`IsSquareRoot`). `Vector2.length` is modelled through `LengthSquared`.
- IEEE-754 floating point: all arithmetic is exact over `real`. The 32-bit range of `|0` is not modelled; every truncated value is small.
- `saveScore`'s expiry date and path: the cookie jar holds only the game's own cookie. Other cookies on the page are not modelled.
- `readScore`'s `* 1` coercion is modelled for digit strings (the empty string is 0). Anything else is NaN. A stored score is always a digit string.
- The source indexes past the next chunk when the player's cell, or the tentative cell, is two chunks ahead on a row of the grid. That throws in JavaScript. `LookupInRange`, a precondition of the running update, asks for both cells to lie less than two chunks ahead whatever their row. So it also excludes a move of more than a chunk in one frame that leaves the grid's top or bottom edge, which the source survives: it swaps once and keeps the player more than a chunk ahead.
- `introTimer` on a running or game-over state: the source leaves it `undefined` and never reads it. The model starts it at 0.
- Structs.SquaredLength: only the direction "zero vector ⇒ 0" is stated. The converse is a fact about sums of products of reals, which the verifier cannot discharge here.
- States.RunVelocity: no lemma that the running speed is capped at `runningVelocity`. The cap is a statement about square roots of products, which the verifier cannot discharge here. `Run` states the velocity exactly.
- States.KeyDirection: the unit length of the normalised walking direction is not proved, for the same reason.
- States.GameState.Update: the clocks of every phase and the running phase's flood levels are stated by `MenuUpdate`, `RunningUpdate` and `OverUpdate`, not repeated in `Update`.
- States.GameState.Step: after the running phase's `process` the player is steered from the mid-frame state, so `Step` states the running frame's request and data only, and nothing about what a running frame keeps; `Walked` and `Steered` state the two halves. The menu's and game over's clocks and flooding are stated by their `update` methods.
- States.GameState.RunningUpdate: the cells of the flooded and animated window are stated by `Water` and `AdvancedBy`, and the cells touched by the button by `Settle` and `Walk`, not by `RunningUpdate` itself.
