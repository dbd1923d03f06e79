/**
 * The three game phases and the state record that carries them (js/01_state.js):
 * the running phase's physics, flooding and buttons, the game-over and menu
 * phases, `changeState` and the update-then-process order of `step`.
 */
module States {
  import opened JsMath
  import opened Consts
  import opened Structs
  import opened Cookies
  import opened Data

  datatype Option<T> = None | Some(value: T)

  /** The three behaviours a state can take: RUNNING_BEHAVIOR, OVER_BEHAVIOR, MENU_BEHAVIOR. */
  datatype Behavior = MenuBehavior | RunningBehavior | OverBehavior

  /** Key codes the phases react to. */
  const KEY_SPACE: int := 32
  const KEY_LEFT: int := 37
  const KEY_UP: int := 38
  const KEY_RIGHT: int := 39
  const KEY_DOWN: int := 40

  /** The flood level past which a chunk is no longer flooded further. */
  const FLOOD_LIMIT: real := 32.0

  /** The player's height at or below which the player drowns. */
  const DROWNING_HEIGHT: real := 0.2

  /** Flooding speed of a chunk while the player drowns and during game over. */
  const FAST_FLOODING_SPEED: real := PASSED_CHUNK_FLOODING_SPEED * 4.0

  /* ----------------------------------------------------------- the terrain */

  /**
   * `safelyFetchHeight`: the height the player meets at world cell (i, j) of the
   * current and next chunk. Off the top or bottom edge is water (0), behind the
   * window is a wall (2), a column adds 1 to its cell's height. Past the next
   * chunk's end the source indexes with no check, so a row on the grid must lie
   * below two chunks; off the grid the edge test answers first.
   */
  function SafelyFetchHeight(i: int, j: int, currentChunk: Chunk, nextChunk: Chunk): (h: real)
    requires 0 <= j < CHUNK_HEIGHT ==> i < 2 * CHUNK_WIDTH
    requires currentChunk.Valid() && nextChunk.Valid()
    reads currentChunk, currentChunk.cells, nextChunk, nextChunk.cells
    ensures 0.0 <= h <= 2.0
    ensures (j < 0 || j >= CHUNK_HEIGHT) ==> h == 0.0
    ensures 0 <= j < CHUNK_HEIGHT && i < 0 ==> h == 2.0
    ensures 0 <= i < CHUNK_WIDTH && 0 <= j < CHUNK_HEIGHT ==>
      h == currentChunk.cells[i, j].height + (if currentChunk.cells[i, j].feature == COLUMN then 1.0 else 0.0)
    ensures CHUNK_WIDTH <= i && 0 <= j < CHUNK_HEIGHT ==>
      var c := nextChunk.cells[i - CHUNK_WIDTH, j];
      h == c.height + (if c.feature == COLUMN then 1.0 else 0.0)
  {
    if j < 0 || j >= CHUNK_HEIGHT then 0.0
    else if i < 0 then 2.0
    else
      var cell := if i >= CHUNK_WIDTH then nextChunk.cells[i - CHUNK_WIDTH, j] else currentChunk.cells[i, j];
      assert ValidCell(cell);
      if cell.feature == COLUMN then cell.height + 1.0 else cell.height
  }

  /** Water is only where a cell has sunk to nothing and holds no column. */
  lemma ZeroSupportIsWater(i: int, j: int, currentChunk: Chunk, nextChunk: Chunk)
    requires 0 <= i < 2 * CHUNK_WIDTH && 0 <= j < CHUNK_HEIGHT
    requires currentChunk.Valid() && nextChunk.Valid()
    ensures
      var c := if i >= CHUNK_WIDTH then nextChunk.cells[i - CHUNK_WIDTH, j] else currentChunk.cells[i, j];
      SafelyFetchHeight(i, j, currentChunk, nextChunk) == 0.0 <==> (c.height == 0.0 && c.feature != COLUMN)
  {
    var c := if i >= CHUNK_WIDTH then nextChunk.cells[i - CHUNK_WIDTH, j] else currentChunk.cells[i, j];
    assert ValidCell(c);
  }

  /* ---------------------------------------------------------- deceleration */

  /**
   * One velocity component slowed by `d * time` toward 0, never past it: the
   * source's pair of branches for a positive and a negative component.
   */
  function Decelerated(v: real, d: real, time: real): (r: real)
    ensures v == 0.0 ==> r == 0.0
    ensures v > 0.0 ==> 0.0 <= r && (r == 0.0 || r == v - d * time)
    ensures v < 0.0 ==> r <= 0.0 && (r == 0.0 || r == v + d * time)
    ensures d * time >= 0.0 ==> (0.0 <= v ==> r <= v) && (v <= 0.0 ==> v <= r)
    ensures d * time >= 0.0 ==> (r == 0.0 <==> -(d * time) <= v <= d * time)
  {
    if v > 0.0 then (if v - d * time < 0.0 then 0.0 else v - d * time)
    else if v < 0.0 then (if v + d * time > 0.0 then 0.0 else v + d * time)
    else v
  }

  /** The deceleration for the player's state: strong when standing or drowning, light otherwise. */
  function DecelerationOf(player: Player): (d: real)
    reads player
    ensures d > 0.0
    ensures (player.state == Standing || player.state == Drowning) <==> d == player.standingDeceleration
  {
    if player.state == Standing || player.state == Drowning then player.standingDeceleration
    else player.runningDeceleration
  }

  /** The velocity the running update moves with: decelerated unless the player is jumping. */
  function MoveVelocity(player: Player, time: real): (v: Vec)
    reads player, player.velocity
    ensures player.state == Jumping ==> v == player.velocity.Value()
    ensures player.state != Jumping ==>
      v == Vec(Decelerated(player.velocity.x, DecelerationOf(player), time),
               Decelerated(player.velocity.y, DecelerationOf(player), time))
  {
    if player.state == Jumping then player.velocity.Value()
    else
      var d := DecelerationOf(player);
      Vec(Decelerated(player.velocity.x, d, time), Decelerated(player.velocity.y, d, time))
  }

  /** Deceleration never makes the player faster along either axis. */
  lemma MoveNeverSpeedsUp(player: Player, time: real)
    requires time >= 0.0
    ensures var v := MoveVelocity(player, time);
      v.x * v.x <= player.velocity.x * player.velocity.x && v.y * v.y <= player.velocity.y * player.velocity.y
  {
    if player.state != Jumping {
      var v := MoveVelocity(player, time);
      var d := DecelerationOf(player);
      assert d * time >= 0.0;
      SquareShrinks(player.velocity.x, v.x);
      SquareShrinks(player.velocity.y, v.y);
    }
  }

  /** Moving toward 0 without crossing it does not grow the square. */
  lemma SquareShrinks(a: real, b: real)
    requires (0.0 <= b <= a) || (a <= b <= 0.0)
    ensures b * b <= a * a
  {
    if 0.0 <= b {
      assert b * b <= a * b <= a * a;
    } else {
      assert b * b <= a * b <= a * a;
    }
  }

  /** The coordinate `a` after moving at speed `s` for `time`. */
  function Travelled(a: real, s: real, time: real): real {
    a + s * time
  }

  /** Both the player's cell and the cell a move with velocity `v` reaches are less than two chunks ahead. */
  ghost predicate InRange(p: PersistentData, v: Vec, time: real)
    reads p, p.player
  {
    Round(p.player.x) < 2 * CHUNK_WIDTH && Round(Travelled(p.player.x, v.x, time)) < 2 * CHUNK_WIDTH
  }

  /**
   * The running update only looks at cells less than two chunks ahead: both the
   * player's cell and the cell the move would reach. The source fails with an
   * error beyond that, which a move of more than a chunk per frame would need.
   */
  ghost predicate LookupInRange(p: PersistentData, time: real)
    reads p, p.player, p.player.velocity
  {
    InRange(p, MoveVelocity(p.player, time), time)
  }

  /* ------------------------------------------------- running update, parts */

  /** Slows both velocity components by the state's deceleration, never past 0. */
  method Decelerate(p: PersistentData, time: real)
    requires p.Valid()
    modifies p.player.velocity
    ensures p.Valid()
    ensures p.player.velocity.Value() ==
      Vec(Decelerated(old(p.player.velocity.x), DecelerationOf(p.player), time),
          Decelerated(old(p.player.velocity.y), DecelerationOf(p.player), time))
  {
    var player := p.player;
    var d := if player.state == Standing || player.state == Drowning then player.standingDeceleration
             else player.runningDeceleration;
    var velocity := player.velocity;
    velocity.x := DecelerateComponent(velocity.x, d, time);
    velocity.y := DecelerateComponent(velocity.y, d, time);
  }

  /** One component's branches: subtract or add `d * time`, and clamp at 0 if the sign flipped. */
  method DecelerateComponent(v: real, d: real, time: real) returns (r: real)
    ensures r == Decelerated(v, d, time)
  {
    r := v;
    if r > 0.0 {
      r := r - d * time;
      if r < 0.0 { r := 0.0; }
    } else if r < 0.0 {
      r := r + d * time;
      if r > 0.0 { r := 0.0; }
    }
  }

  /**
   * The step with velocity `v` for `time`: taken when the cell it leads to is at
   * most MAX_STEP above the player, and otherwise refused, the player staying put
   * with the velocity reversed.
   */
  ghost function StepOutcome(p: PersistentData, v: Vec, time: real): Motion
    requires p.currentChunk.Valid() && p.nextChunk.Valid() && InRange(p, v, time)
    reads p, p.player, p.currentChunk, p.currentChunk.cells, p.nextChunk, p.nextChunk.cells
  {
    StepTo(p, Travelled(p.player.x, v.x, time), Travelled(p.player.y, v.y, time), v)
  }

  /** The step towards (x, y) with velocity `v`, taken or refused as in StepOutcome. */
  ghost function StepTo(p: PersistentData, x: real, y: real, v: Vec): Motion
    requires p.currentChunk.Valid() && p.nextChunk.Valid() && Round(x) < 2 * CHUNK_WIDTH
    reads p, p.player, p.currentChunk, p.currentChunk.cells, p.nextChunk, p.nextChunk.cells
  {
    if SafelyFetchHeight(Round(x), Round(y), p.currentChunk, p.nextChunk) <= p.player.height + MAX_STEP
    then Motion(x, y, v)
    else Motion(p.player.x, p.player.y, Vec(-v.x, -v.y))
  }

  /** Where a move leaves the player: its position and its velocity. */
  datatype Motion = Motion(x: real, y: real, v: Vec)

  /**
   * The move of one running frame, read off the state before it: the velocity
   * is decelerated unless the player is jumping, then the step is tried.
   */
  ghost function MoveOutcome(p: PersistentData, time: real): (m: Motion)
    requires p.Valid() && LookupInRange(p, time)
    reads p, p.Repr()
    ensures Round(m.x) < 2 * CHUNK_WIDTH
  {
    var v := MoveVelocity(p.player, time);
    var m := StepOutcome(p, v, time);
    assert m.x == Travelled(p.player.x, v.x, time) || m.x == p.player.x;
    m
  }

  /**
   * The move: the player takes the step when the cell it leads to is at most
   * MAX_STEP above the player, and otherwise bounces back with the velocity
   * reversed. Returns the player's cell after the move.
   */
  method TryMove(p: PersistentData, time: real) returns (i: int, j: int)
    requires p.Valid() && InRange(p, p.player.velocity.Value(), time)
    modifies p.player`x, p.player`y, p.player.velocity
    ensures p.Valid()
    ensures i == Round(p.player.x) && j == Round(p.player.y) && i < 2 * CHUNK_WIDTH
    ensures var m := old(StepOutcome(p, p.player.velocity.Value(), time));
      p.player.x == m.x && p.player.y == m.y && p.player.velocity.Value() == m.v
  {
    var player := p.player;
    var v := player.velocity.Value();
    var updatedX := Travelled(player.x, v.x, time);
    var updatedY := Travelled(player.y, v.y, time);
    i := Round(player.x);
    j := Round(player.y);
    var ui := Round(updatedX);
    var uj := Round(updatedY);
    var newHeight := SafelyFetchHeight(ui, uj, p.currentChunk, p.nextChunk);
    ghost var m := StepTo(p, updatedX, updatedY, v);
    assert m == if newHeight <= player.height + MAX_STEP then Motion(updatedX, updatedY, v)
                else Motion(player.x, player.y, Vec(-v.x, -v.y));
    if newHeight <= player.height + MAX_STEP {
      player.x := updatedX;
      player.y := updatedY;
      i := Round(player.x);
      j := Round(player.y);
    } else {
      player.velocity.x := player.velocity.x * -1.0;
      player.velocity.y := player.velocity.y * -1.0;
    }
  }

  /**
   * Between the two states the window moved one chunk on: the current chunk is
   * now the previous one, the next chunk the current one, and the new next chunk
   * is freshly built by the random straight builder from `d`, with the parity
   * of the new previous chunk and flood level 0.
   */
  twostate predicate Shifted(p: PersistentData, d: Draws)
    requires d.Valid()
    reads p`previousChunk, p`currentChunk, p`nextChunk, p.nextChunk, p.nextChunk.cells
  {
    && p.previousChunk == old(p.currentChunk) && p.currentChunk == old(p.nextChunk)
    && fresh(p.nextChunk) && fresh(p.nextChunk.cells)
    && p.nextChunk.even == old(p.currentChunk.even) && p.nextChunk.floodedAmount == 0.0
    && p.nextChunk.cells.Length0 == CHUNK_WIDTH && p.nextChunk.cells.Length1 == CHUNK_HEIGHT
    && forall i, j :: 0 <= i < CHUNK_WIDTH && 0 <= j < CHUNK_HEIGHT ==>
         p.nextChunk.cells[i, j] == BuilderCell(RandomStraightBuilder(d.pick), d, i, j)
  }

  /**
   * `swapChunks`: the window moves one chunk on. The next chunk is a fresh random
   * straight chunk with the parity of the new previous chunk; the player moves a
   * chunk back, scores three times the rounded wave speed, and the wave speeds up.
   */
  method SwapChunks(p: PersistentData, d: Draws)
    requires p.Valid() && d.Valid()
    modifies p, p.player`x, p.player`score
    ensures p.Valid() && Shifted(p, d)
    ensures p.player.x == old(p.player.x) - CHUNK_WIDTH as real
    ensures p.player.score == old(p.player.score) + PLAYER_SCORE_STEP_MULTI * Round(old(p.waveVelocity))
    ensures p.waveVelocity == old(p.waveVelocity) + FLOODING_SPEED_STEP
    ensures p.waterTime == old(p.waterTime) && p.highscore == old(p.highscore)
  {
    var builder := RandomStraightBuilder(d.pick);
    p.previousChunk := p.currentChunk;
    p.currentChunk := p.nextChunk;
    p.nextChunk := new Chunk(builder, p.previousChunk.even, d);
    p.player.x := p.player.x - CHUNK_WIDTH as real;
    RoundNonNegative(p.waveVelocity);
    p.player.score := p.player.score + PLAYER_SCORE_STEP_MULTI * Round(p.waveVelocity);
    p.waveVelocity := p.waveVelocity + FLOODING_SPEED_STEP;
  }

  lemma RoundNonNegative(x: real)
    requires x >= 0.0
    ensures Round(x) >= 0
  {
  }

  /** The wave speed after the slow-down button: one less, but not below 0.5. */
  function SlowedWave(w: real): (r: real)
    ensures r >= 0.5 && r <= (if w < 1.5 then 0.5 else w)
    ensures w >= 1.5 ==> r == w - BUTTON_FLOODING_SPEED_DOWN
  {
    if w - BUTTON_FLOODING_SPEED_DOWN < 0.5 then 0.5 else w - BUTTON_FLOODING_SPEED_DOWN
  }

  /** The score after the slow-down button: four less, but not below 0. */
  function ReducedScore(s: int): (r: int)
    ensures r >= 0 && (s >= BUTTON_SCORE_DOWN ==> r == s - BUTTON_SCORE_DOWN)
    ensures s <= BUTTON_SCORE_DOWN ==> r == 0
  {
    if s - BUTTON_SCORE_DOWN < 0 then 0 else s - BUTTON_SCORE_DOWN
  }

  /** The feature of cell (i, j) of `c`; none outside the chunk. */
  ghost function FeatureAt(c: Chunk, i: int, j: int): int
    reads c.cells
  {
    if 0 <= i < c.cells.Length0 && 0 <= j < c.cells.Length1 then c.cells[i, j].feature else NO_FEATURE
  }

  /** The wave speed after stepping on a cell with feature `f`: only a button changes it. */
  function ButtonWave(f: int, w: real): (r: real)
    ensures f == SLOW_BUTTON ==> r == SlowedWave(w)
    ensures f == FAST_BUTTON ==> r == w + BUTTON_FLOODING_SPEED_UP
    ensures !IsButton(f) ==> r == w
    ensures w >= 0.0 ==> r >= 0.0
  {
    if f == SLOW_BUTTON then SlowedWave(w) else if f == FAST_BUTTON then w + BUTTON_FLOODING_SPEED_UP else w
  }

  /** The score after stepping on a cell with feature `f`: only a button changes it. */
  function ButtonScore(f: int, s: int): (r: int)
    ensures f == SLOW_BUTTON ==> r == ReducedScore(s)
    ensures f == FAST_BUTTON ==> r == s + BUTTON_SCORE_UP
    ensures !IsButton(f) ==> r == s
    ensures s >= 0 ==> r >= 0
  {
    if f == SLOW_BUTTON then ReducedScore(s) else if f == FAST_BUTTON then s + BUTTON_SCORE_UP else s
  }

  /** Between the two states only a button at cell (i, j) of `c` changed: it was used up. */
  twostate predicate ButtonCleared(c: Chunk, i: int, j: int)
    reads c.cells
  {
    forall a, b :: 0 <= a < c.cells.Length0 && 0 <= b < c.cells.Length1 ==>
      c.cells[a, b] ==
        if a == i && b == j && IsButton(old(c.cells[a, b].feature)) then old(c.cells[a, b]).(feature := NO_FEATURE)
        else old(c.cells[a, b])
  }

  /**
   * A button under the player is used up: the slow one slows the wave and costs
   * points, the fast one speeds the wave up and earns points. Cells outside the
   * current chunk are not looked at.
   */
  method ConsumeButton(p: PersistentData, i: int, j: int)
    requires p.Valid()
    modifies p`waveVelocity, p.player`score, p.currentChunk.cells
    ensures p.Valid()
    ensures p.waveVelocity == ButtonWave(old(FeatureAt(p.currentChunk, i, j)), old(p.waveVelocity))
    ensures p.player.score == ButtonScore(old(FeatureAt(p.currentChunk, i, j)), old(p.player.score))
    ensures ButtonCleared(p.currentChunk, i, j)
  {
    if i >= 0 && j >= 0 && i < CHUNK_WIDTH && j < CHUNK_HEIGHT {
      var cells := p.currentChunk.cells;
      var cell := cells[i, j];
      if cell.feature == SLOW_BUTTON {
        p.waveVelocity := p.waveVelocity - BUTTON_FLOODING_SPEED_DOWN;
        if p.waveVelocity < 0.5 { p.waveVelocity := 0.5; }
        p.player.score := p.player.score - BUTTON_SCORE_DOWN;
        if p.player.score < 0 { p.player.score := 0; }
        cells[i, j] := cell.(feature := NO_FEATURE);
      } else if cell.feature == FAST_BUTTON {
        p.waveVelocity := p.waveVelocity + BUTTON_FLOODING_SPEED_UP;
        p.player.score := p.player.score + BUTTON_SCORE_UP;
        cells[i, j] := cell.(feature := NO_FEATURE);
      }
    }
  }

  /**
   * The player's state and height over ground of height `h`: drowning once sunk
   * to 0.2 (the height kept), falling over water (sinking by `time`), else
   * standing on the ground's height.
   */
  function Footing(height: real, h: real, time: real): (r: (PlayerState, real))
    ensures r.0 == Drowning <==> height <= DROWNING_HEIGHT
    ensures r.0 == Falling <==> height > DROWNING_HEIGHT && h == 0.0
    ensures r.0 == Standing <==> height > DROWNING_HEIGHT && h != 0.0
    ensures r.0 == Drowning ==> r.1 == height
    ensures r.0 == Falling ==> r.1 == height - time
    ensures r.0 == Standing ==> r.1 == h
  {
    if height <= DROWNING_HEIGHT then (Drowning, height)
    else if h == 0.0 then (Falling, height - time)
    else (Standing, h)
  }

  /** Sets the player's state and height from the ground at (i, j). */
  method Classify(p: PersistentData, i: int, j: int, time: real)
    requires p.Valid() && i < 2 * CHUNK_WIDTH
    modifies p.player`state, p.player`height
    ensures p.Valid()
    ensures (p.player.state, p.player.height) ==
      Footing(old(p.player.height), SafelyFetchHeight(i, j, p.currentChunk, p.nextChunk), time)
  {
    var h := SafelyFetchHeight(i, j, p.currentChunk, p.nextChunk);
    if p.player.height <= DROWNING_HEIGHT {
      p.player.state := Drowning;
    } else if h == 0.0 {
      p.player.height := p.player.height - time;
      p.player.state := Falling;
    } else {
      p.player.height := h;
      p.player.state := Standing;
    }
  }

  /* -------------------------------------------------------------- flooding */

  /** The flood level after one frame: raised by `rate * time` while below the limit. */
  function FloodStep(f: real, rate: real, time: real): (r: real)
    ensures f >= FLOOD_LIMIT ==> r == f
    ensures rate * time >= 0.0 ==> f <= r
    ensures f < FLOOD_LIMIT ==> r - f == rate * time
  {
    if f < FLOOD_LIMIT then f + rate * time else f
  }

  /** Between the two states `c` was flooded by one frame at `rate`: level raised and cells capped, or left alone at the limit. */
  twostate predicate FloodedBy(c: Chunk, rate: real, time: real)
    reads c, c.cells
  {
    && c.floodedAmount == FloodStep(old(c.floodedAmount), rate, time)
    && (old(c.floodedAmount) < FLOOD_LIMIT ==>
          forall i, j :: 0 <= i < c.cells.Length0 && 0 <= j < c.cells.Length1 ==>
            c.cells[i, j] == FloodCell(old(c.cells[i, j]), FloodBound(i, c.floodedAmount)))
    && (old(c.floodedAmount) >= FLOOD_LIMIT ==> unchanged(c.cells))
  }

  /** Between the two states `c` was not touched. */
  twostate predicate Untouched(c: Chunk)
    reads c, c.cells
  {
    c.floodedAmount == old(c.floodedAmount) && unchanged(c.cells)
  }

  /** Floods one chunk by a frame, as each phase does for each chunk of the window. */
  method FloodChunk(c: Chunk, rate: real, time: real)
    requires c.Valid() && rate >= 0.0 && time >= 0.0
    modifies c, c.cells
    ensures c.Valid() && FloodedBy(c, rate, time)
  {
    if c.floodedAmount < FLOOD_LIMIT {
      c.floodedAmount := c.floodedAmount + rate * time;
      c.UpdateValues();
    }
  }

  /**
   * The window's flood: the previous chunk at `previousRate`, the current one at
   * `rate`, and the next one at `rate` too once the current one's level is past a
   * chunk width.
   */
  method FloodWindow(p: PersistentData, previousRate: real, rate: real, time: real)
    requires p.Valid() && previousRate >= 0.0 && rate >= 0.0 && time >= 0.0
    modifies p.previousChunk, p.previousChunk.cells, p.currentChunk, p.currentChunk.cells
    modifies p.nextChunk, p.nextChunk.cells
    ensures p.Valid()
    ensures FloodedBy(p.previousChunk, previousRate, time) && FloodedBy(p.currentChunk, rate, time)
    ensures p.currentChunk.floodedAmount > CHUNK_WIDTH as real ==> FloodedBy(p.nextChunk, rate, time)
    ensures p.currentChunk.floodedAmount <= CHUNK_WIDTH as real ==> Untouched(p.nextChunk)
  {
    FloodChunk(p.previousChunk, previousRate, time);
    FloodChunk(p.currentChunk, rate, time);
    if p.currentChunk.floodedAmount > CHUNK_WIDTH as real {
      FloodChunk(p.nextChunk, rate, time);
    }
  }

  /** Between the two states every cell of `c` moved its sinking animation on by `time`. */
  twostate predicate AnimatedBy(c: Chunk, time: real)
    reads c, c.cells
  {
    && c.floodedAmount == old(c.floodedAmount)
    && forall i, j :: 0 <= i < c.cells.Length0 && 0 <= j < c.cells.Length1 ==>
         c.cells[i, j] == AnimateCell(old(c.cells[i, j]), time)
  }

  /** The three `updateAnimations` calls. */
  method AnimateWindow(p: PersistentData, time: real)
    requires p.Valid() && time >= 0.0
    modifies p.previousChunk.cells, p.currentChunk.cells, p.nextChunk.cells
    ensures p.Valid()
    ensures AnimatedBy(p.previousChunk, time) && AnimatedBy(p.currentChunk, time) && AnimatedBy(p.nextChunk, time)
  {
    p.previousChunk.UpdateAnimations(time);
    p.currentChunk.UpdateAnimations(time);
    p.nextChunk.UpdateAnimations(time);
  }

  /* ---------------------------------------------------------------- clocks */

  /** A running-phase clock: advanced by `time`, back to 0 once past its period. */
  function ResetClock(t: real, time: real, period: real): (r: real)
    ensures r <= period || r == 0.0
    ensures t + time <= period ==> r == t + time
    ensures t >= 0.0 && time >= 0.0 ==> r >= 0.0
  {
    if t + time > period then 0.0 else t + time
  }

  /** A menu or game-over clock: advanced by `time`, one period back once past it. */
  function WrapClock(t: real, time: real, period: real): (r: real)
    ensures t + time <= period ==> r == t + time
    ensures t + time > period ==> r == t + time - period
    ensures t >= 0.0 && time >= 0.0 && period >= 0.0 ==> r >= 0.0
    ensures t + time <= 2.0 * period ==> r <= period
  {
    if t + time > period then t + time - period else t + time
  }

  /** A wrapping clock that starts within its period stays within it for frames no longer than the period. */
  lemma WrapClockStaysInPeriod(t: real, time: real, period: real)
    requires 0.0 <= t <= period && 0.0 <= time <= period
    ensures 0.0 <= WrapClock(t, time, period) <= period
  {
  }

  /* ------------------------------------------------------ window advance */

  /**
   * Between the two states `c` was flooded by one frame (when `flooding`) and
   * then animated by `time`.
   */
  twostate predicate AdvancedBy(c: Chunk, flooding: bool, rate: real, time: real)
    reads c, c.cells
  {
    var f := if flooding then FloodStep(old(c.floodedAmount), rate, time) else old(c.floodedAmount);
    var capped := flooding && old(c.floodedAmount) < FLOOD_LIMIT;
    && c.floodedAmount == f
    && forall i, j :: 0 <= i < c.cells.Length0 && 0 <= j < c.cells.Length1 ==>
         c.cells[i, j] ==
           AnimateCell(if capped then FloodCell(old(c.cells[i, j]), FloodBound(i, f)) else old(c.cells[i, j]), time)
  }

  /**
   * Between the two states the window kept its three chunks, and each was
   * advanced by one frame: the previous and current ones flooded at
   * `previousRate` and `rate`, the next one at `rate` once the current one
   * is full.
   */
  twostate predicate WindowAdvanced(p: PersistentData, previousRate: real, rate: real, time: real)
    reads p`previousChunk, p`currentChunk, p`nextChunk
    reads p.previousChunk, p.previousChunk.cells, p.currentChunk, p.currentChunk.cells
    reads p.nextChunk, p.nextChunk.cells
  {
    && Untouched3(p, old(p.previousChunk), old(p.currentChunk), old(p.nextChunk))
    && AdvancedBy(p.previousChunk, true, previousRate, time)
    && AdvancedBy(p.currentChunk, true, rate, time)
    && AdvancedBy(p.nextChunk, p.currentChunk.floodedAmount > CHUNK_WIDTH as real, rate, time)
  }

  /**
   * Between the two states the player stayed where it was: position, height,
   * state, airborne count-down, score, velocity and facing direction (only its
   * animation clock may have run).
   */
  twostate predicate PlayerKept(pl: Player)
    reads pl, pl.velocity, pl.direction
  {
    && pl.x == old(pl.x) && pl.y == old(pl.y) && pl.height == old(pl.height)
    && pl.state == old(pl.state) && pl.airborneTimer == old(pl.airborneTimer) && pl.score == old(pl.score)
    && unchanged(pl.velocity, pl.direction)
  }

  /** Between the two states the window kept its three chunks and nothing in them changed. */
  twostate predicate WindowKept(p: PersistentData)
    reads p`previousChunk, p`currentChunk, p`nextChunk
    reads p.previousChunk, p.previousChunk.cells, p.currentChunk, p.currentChunk.cells
    reads p.nextChunk, p.nextChunk.cells
  {
    && Untouched3(p, old(p.previousChunk), old(p.currentChunk), old(p.nextChunk))
    && unchanged(p.previousChunk, p.previousChunk.cells, p.currentChunk, p.currentChunk.cells)
    && unchanged(p.nextChunk, p.nextChunk.cells)
  }

  /** One frame of water for the whole window: the flood, then the sinking animations. */
  method AdvanceWindow(p: PersistentData, previousRate: real, rate: real, time: real)
    requires p.Valid() && previousRate >= 0.0 && rate >= 0.0 && time >= 0.0
    modifies p.previousChunk, p.previousChunk.cells, p.currentChunk, p.currentChunk.cells
    modifies p.nextChunk, p.nextChunk.cells
    ensures p.Valid()
    ensures AdvancedBy(p.previousChunk, true, previousRate, time) && AdvancedBy(p.currentChunk, true, rate, time)
    ensures AdvancedBy(p.nextChunk, p.currentChunk.floodedAmount > CHUNK_WIDTH as real, rate, time)
    ensures old(p.previousChunk.floodedAmount) <= p.previousChunk.floodedAmount
    ensures old(p.currentChunk.floodedAmount) <= p.currentChunk.floodedAmount
    ensures old(p.nextChunk.floodedAmount) <= p.nextChunk.floodedAmount
  {
    FloodWindow(p, previousRate, rate, time);
    label flooded:
    AnimateWindow(p, time);
  }

  /* ------------------------------------------------- running process, spec */

  /** `Math.sqrt` on the non-negative reals: the process step is given it as a parameter. */
  ghost predicate IsSquareRoot(root: real -> real) {
    forall v :: 0.0 <= v ==> 0.0 <= root(v) && root(v) * root(v) == v
  }

  /** Some arrow key is held: the player walks. */
  predicate ArrowHeld(keys: set<int>) {
    KEY_UP in keys || KEY_DOWN in keys || KEY_LEFT in keys || KEY_RIGHT in keys
  }

  /** 1 for a held key, 0 otherwise. */
  function Held(keys: set<int>, key: int): real {
    if key in keys then 1.0 else 0.0
  }

  /** The sum of the unit vectors of the arrows held: right and down count positive, left and up negative. */
  function KeyDirection(keys: set<int>): (v: Vec)
    ensures !ArrowHeld(keys) ==> v == Vec(0.0, 0.0)
  {
    Vec(Held(keys, KEY_RIGHT) - Held(keys, KEY_LEFT), Held(keys, KEY_DOWN) - Held(keys, KEY_UP))
  }

  /** Space held on the ground (walking or standing) starts a jump. */
  predicate JumpStarts(keys: set<int>, state: PlayerState) {
    KEY_SPACE in keys && (state == Walking || state == Standing)
  }

  /** The jump impulse: one step along the (not yet normalised) key direction, unless already at top speed. */
  function JumpVelocity(player: Player, v: Vec, direction: Vec, root: real -> real): Vec {
    if root(SquaredLength(v)) < player.maxVelocity then Plus(v, direction, player.jumpAcceleration) else v
  }

  /**
   * Running along the unit `direction`: accelerate while below the running speed
   * (less a margin of 0.05), then scale back to the running speed when above it.
   */
  function RunVelocity(player: Player, v: Vec, direction: Vec, time: real, root: real -> real): Vec {
    var v1 := if root(SquaredLength(v)) < player.runningVelocity - 0.05
              then Plus(v, direction, player.runningAcceleration * time) else v;
    var len := root(SquaredLength(v1));
    if len > player.runningVelocity then Scaled(Divided(v1, len), player.runningVelocity) else v1
  }

  /**
   * What one running `process` call does to the player, stated against the
   * player's state before the call: nothing while drowning; the jump goes on
   * while the airborne timer runs; otherwise the arrows set the direction,
   * space may start a jump, and walking or standing is decided.
   */
  twostate predicate Steered(player: Player, keys: set<int>, time: real, root: real -> real)
    reads player, player.velocity, player.direction
  {
    var s := old(player.state);
    var v0 := old(player.velocity.Value());
    var d0 := old(player.direction.Value());
    if s == Drowning then
      && player.state == Drowning && player.airborneTimer == old(player.airborneTimer)
      && player.velocity.Value() == v0 && player.direction.Value() == d0
    else if old(player.airborneTimer) > 0.0 then
      && player.state == Jumping && player.airborneTimer == old(player.airborneTimer) - time
      && player.velocity.Value() == v0 && player.direction.Value() == d0
    else
      var dir := KeyDirection(keys);
      var jump := JumpStarts(keys, s);
      var v1 := if jump then JumpVelocity(player, v0, dir, root) else v0;
      && player.airborneTimer == (if jump then player.airbornePeriod else old(player.airborneTimer))
      && player.direction.Value() == (if ArrowHeld(keys) then Divided(dir, root(SquaredLength(dir))) else dir)
      && player.velocity.Value() ==
           (if ArrowHeld(keys) then RunVelocity(player, v1, player.direction.Value(), time, root) else v1)
      && player.state == SteeredState(s, old(player.airborneTimer), keys)
  }

  /**
   * The player's state after `process`: a drowning player stays drowning, a
   * running airborne timer means jumping, and otherwise the arrows decide;
   * a jump started this frame is overwritten at once by walking or standing.
   */
  function SteeredState(state: PlayerState, airborneTimer: real, keys: set<int>): (r: PlayerState)
    ensures r == Drowning <==> state == Drowning
    ensures r == Jumping <==> state != Drowning && airborneTimer > 0.0
    ensures r == Walking <==> state != Drowning && airborneTimer <= 0.0 && ArrowHeld(keys)
    ensures r == Falling <==> state == Falling && airborneTimer <= 0.0 && !ArrowHeld(keys)
  {
    if state == Drowning then Drowning
    else if airborneTimer > 0.0 then Jumping
    else if ArrowHeld(keys) then Walking
    else if state == Falling then Falling
    else Standing
  }

  /** `if (key in keys) direction.append(arrow, 1)`: adds the arrow's unit vector when its key is held. */
  method AddArrow(direction: Vector2, keys: set<int>, key: int, arrow: Vector2) returns (held: bool)
    requires arrow != direction
    modifies direction
    ensures held == (key in keys)
    ensures direction.x == old(direction.x) + Held(keys, key) * arrow.x
    ensures direction.y == old(direction.y) + Held(keys, key) * arrow.y
  {
    held := key in keys;
    if held {
      direction.Append(arrow, 1.0);
    }
  }

  /** Zeroes `direction`, then adds the unit vector of each arrow held (up, down, left, right, in that order). */
  method ReadArrows(direction: Vector2, keys: set<int>) returns (walking: bool)
    modifies direction
    ensures direction.Value() == KeyDirection(keys) && walking == ArrowHeld(keys)
  {
    var up := new Vector2(0.0, -1.0);
    var down := new Vector2(0.0, 1.0);
    var left := new Vector2(-1.0, 0.0);
    var right := new Vector2(1.0, 0.0);
    direction.Zero();
    var u := AddArrow(direction, keys, KEY_UP, up);
    var d := AddArrow(direction, keys, KEY_DOWN, down);
    var l := AddArrow(direction, keys, KEY_LEFT, left);
    var r := AddArrow(direction, keys, KEY_RIGHT, right);
    walking := u || d || l || r;
  }

  /** Walking: normalise the direction, speed up while slow, and scale back when above the running speed. */
  method Run(player: Player, time: real, root: real -> real)
    requires player.velocity != player.direction && IsSquareRoot(root)
    modifies player`state, player.velocity, player.direction
    ensures player.state == Walking
    ensures player.direction.Value() ==
      Divided(old(player.direction.Value()), root(SquaredLength(old(player.direction.Value()))))
    ensures player.velocity.Value() ==
      RunVelocity(player, old(player.velocity.Value()), player.direction.Value(), time, root)
  {
    player.direction.Normalize(root(player.direction.LengthSquared()));
    player.state := Walking;
    if root(player.velocity.LengthSquared()) < player.runningVelocity - 0.05 {
      player.velocity.Append(player.direction, player.runningAcceleration * time);
    }
    if root(player.velocity.LengthSquared()) > player.runningVelocity {
      player.velocity.Normalize(root(player.velocity.LengthSquared()));
      player.velocity.x := player.velocity.x * player.runningVelocity;
      player.velocity.y := player.velocity.y * player.runningVelocity;
    }
  }

  /** The running phase's `process` for the player. */
  method ProcessPlayer(player: Player, keys: set<int>, time: real, root: real -> real)
    requires player.velocity != player.direction && IsSquareRoot(root)
    modifies player`state, player`airborneTimer, player.velocity, player.direction
    ensures Steered(player, keys, time, root)
  {
    if player.state == Drowning {
      return;
    }
    if player.airborneTimer > 0.0 {
      player.state := Jumping;
      player.airborneTimer := player.airborneTimer - time;
      return;
    }
    var walking := ReadArrows(player.direction, keys);
    if KEY_SPACE in keys {
      if player.state == Walking || player.state == Standing {
        player.state := Jumping;
        player.airborneTimer := player.airbornePeriod;
        if root(player.velocity.LengthSquared()) < player.maxVelocity {
          player.velocity.Append(player.direction, player.jumpAcceleration);
        }
      }
    }
    if walking {
      Run(player, time, root);
    } else if player.state != Falling {
      player.state := Standing;
    }
  }

  function Min(a: real, b: real): (r: real)
    ensures r <= a && r <= b && (r == a || r == b)
  {
    if a < b then a else b
  }

  /** The menu's intro timer after a frame of `time`: run up to INTRO_PERIOD, then left there. */
  function IntroAdvanced(t: real, time: real): (r: real)
    ensures t < INTRO_PERIOD && time >= 0.0 ==> t <= r <= INTRO_PERIOD
    ensures t >= INTRO_PERIOD ==> r == t
    ensures r == INTRO_PERIOD <==> t == INTRO_PERIOD || (t < INTRO_PERIOD && t + time >= INTRO_PERIOD)
  {
    if t < INTRO_PERIOD then Min(t + time, INTRO_PERIOD) else t
  }

  /** The phase that follows a phase when it asks for a change: menu and game over lead to running, running to game over. */
  function Successor(b: Behavior): (next: Behavior)
    ensures next != b && next != MenuBehavior
  {
    match b
    case MenuBehavior => RunningBehavior
    case RunningBehavior => OverBehavior
    case OverBehavior => RunningBehavior
  }

  /** The game-over screen saves the score when it beats the stored high score (NaN beats nothing). */
  predicate Beats(score: int, highscore: Number) {
    highscore.Num? && highscore.value < score
  }

  /* ------------------------------------------------------------ the state */

  /**
   * A state: the persistent data, the behaviour it runs, the change it asks the
   * loop for, and the menu's intro timer.
   */
  class GameState {
    var persistentData: PersistentData
    const behavior: Behavior
    var requestedChange: Option<Behavior>
    var introTimer: real

    ghost predicate Valid()
      reads this, persistentData, persistentData.Repr()
    {
      persistentData.Valid() && 0.0 <= introTimer <= INTRO_PERIOD
    }

    /** The record `changeState` builds, before `init` runs. */
    constructor (persistentData: PersistentData, behavior: Behavior)
      ensures this.persistentData == persistentData && this.behavior == behavior
      ensures requestedChange == None && introTimer == 0.0
    {
      this.persistentData := persistentData;
      this.behavior := behavior;
      requestedChange := None;
      introTimer := 0.0;
    }

    /** `init`: the menu restarts its intro; the other phases do nothing. */
    method Init()
      modifies this`introTimer
      ensures behavior == MenuBehavior ==> introTimer == 0.0
      ensures behavior != MenuBehavior ==> introTimer == old(introTimer)
    {
      if behavior == MenuBehavior {
        introTimer := 0.0;
      }
    }

    /* ------------------------------------------------------ running phase */

    /**
     * The running phase's `update`: ask for game over when drowning, then move
     * (and move the window on), settle on the ground, flood and animate the
     * window, and advance the clocks.
     */
    method RunningUpdate(time: real, d: Draws)
      requires Valid() && time >= 0.0 && d.Valid() && LookupInRange(persistentData, time)
      modifies this`requestedChange, persistentData
      modifies persistentData.player`x, persistentData.player`y, persistentData.player`score
      modifies persistentData.player`state, persistentData.player`height, persistentData.player`animationTimer
      modifies persistentData.player.velocity, persistentData.previousChunk, persistentData.previousChunk.cells
      modifies persistentData.currentChunk, persistentData.currentChunk.cells
      modifies persistentData.nextChunk, persistentData.nextChunk.cells
      ensures Valid() && persistentData == old(persistentData)
      ensures requestedChange ==
        if old(persistentData.player.state) == Drowning then Some(OverBehavior) else old(requestedChange)
      ensures Round(persistentData.player.x) < CHUNK_WIDTH
      ensures Walked(persistentData, time, d)
      ensures var p := persistentData;
        var swap := Round(old(MoveOutcome(p, time)).x) >= CHUNK_WIDTH;
        var rate := if p.player.state == Drowning then FAST_FLOODING_SPEED else p.waveVelocity;
        var f := if swap then 0.0 else old(p.nextChunk.floodedAmount);
        && p.previousChunk.floodedAmount ==
             FloodStep(if swap then old(p.currentChunk.floodedAmount) else old(p.previousChunk.floodedAmount),
                       PASSED_CHUNK_FLOODING_SPEED, time)
        && p.currentChunk.floodedAmount ==
             FloodStep(if swap then old(p.nextChunk.floodedAmount) else old(p.currentChunk.floodedAmount), rate, time)
        && p.nextChunk.floodedAmount ==
             (if p.currentChunk.floodedAmount > CHUNK_WIDTH as real then FloodStep(f, rate, time) else f)
      ensures persistentData.player.animationTimer ==
        ResetClock(old(persistentData.player.animationTimer), time, persistentData.player.animationPeriod)
      ensures persistentData.waterTime == ResetClock(old(persistentData.waterTime), time, persistentData.WATER_PERIOD)
      ensures persistentData.highscore == old(persistentData.highscore)
      ensures persistentData.player.airborneTimer == old(persistentData.player.airborneTimer)
      ensures unchanged(persistentData.player.direction)
    {
      var drowning := persistentData.player.state == Drowning;
      RunFrame(persistentData, time, d);
      if drowning {
        requestedChange := Some(OverBehavior);
      }
    }

    /** The running phase's `process`: steer the player from the keys held. */
    method RunningProcess(keys: set<int>, time: real, root: real -> real)
      requires Valid() && IsSquareRoot(root)
      modifies persistentData.player`state, persistentData.player`airborneTimer
      modifies persistentData.player.velocity, persistentData.player.direction
      ensures Valid()
      ensures Steered(persistentData.player, keys, time, root)
    {
      ProcessPlayer(persistentData.player, keys, time, root);
    }

    /* ------------------------------------------------------------ menu */

    /** The menu's `update`: wrap the clocks and run the intro timer up to INTRO_PERIOD. */
    method MenuUpdate(time: real)
      requires Valid() && time >= 0.0
      modifies this`introTimer, persistentData.player`animationTimer, persistentData`waterTime
      ensures Valid()
      ensures persistentData.player.animationTimer ==
        WrapClock(old(persistentData.player.animationTimer), time, persistentData.player.animationPeriod)
      ensures persistentData.waterTime == WrapClock(old(persistentData.waterTime), time, persistentData.WATER_PERIOD)
      ensures introTimer == IntroAdvanced(old(introTimer), time)
      ensures PlayerKept(persistentData.player) && WindowKept(persistentData)
      ensures persistentData.waveVelocity == old(persistentData.waveVelocity)
    {
      WrapClocks(persistentData, time);
      if introTimer < INTRO_PERIOD {
        introTimer := introTimer + time;
        if introTimer > INTRO_PERIOD {
          introTimer := INTRO_PERIOD;
        }
      }
    }

    /** The menu's `process`: space starts the game once the intro is over. */
    method MenuProcess(keys: set<int>)
      modifies this`requestedChange
      ensures requestedChange ==
        if introTimer >= INTRO_PERIOD && KEY_SPACE in keys then Some(RunningBehavior) else old(requestedChange)
    {
      if introTimer >= INTRO_PERIOD {
        if KEY_SPACE in keys {
          requestedChange := Some(RunningBehavior);
        }
      }
    }

    /**
     * What the game-over `process` did to `s`: nothing without space; on space
     * the score saved when it beats the high score, fresh data read back from
     * the cookie (so a saved score is the new high score), and the running phase
     * asked for.
     */
    twostate predicate OverProcessed(s: GameState, keys: set<int>, d: InitDraws, jar: CookieJar)
      requires d.Valid()
      reads s, s.persistentData, s.persistentData.Repr(), jar
    {
      var score := old(s.persistentData.player.score);
      var beats := Beats(score, old(s.persistentData.highscore));
      && (KEY_SPACE !in keys ==>
            && s.persistentData == old(s.persistentData) && s.requestedChange == old(s.requestedChange)
            && jar.cookie == old(jar.cookie))
      && (KEY_SPACE in keys ==>
            && s.requestedChange == Some(RunningBehavior)
            && fresh(s.persistentData.Repr()) && s.persistentData.IsInitial(d, jar.cookie)
            && jar.cookie == (if beats then SavedCookie(score) else old(jar.cookie))
            && (beats ==> s.persistentData.highscore == Num(score)))
    }

    /* ------------------------------------------------------- game over */

    /** The game-over `update`: wrap the clocks and drown the whole window at four times the passed-chunk speed. */
    method OverUpdate(time: real)
      requires Valid() && time >= 0.0
      modifies persistentData.player`animationTimer, persistentData`waterTime
      modifies persistentData.previousChunk, persistentData.previousChunk.cells
      modifies persistentData.currentChunk, persistentData.currentChunk.cells
      modifies persistentData.nextChunk, persistentData.nextChunk.cells
      ensures Valid()
      ensures persistentData.player.animationTimer ==
        WrapClock(old(persistentData.player.animationTimer), time, persistentData.player.animationPeriod)
      ensures persistentData.waterTime == WrapClock(old(persistentData.waterTime), time, persistentData.WATER_PERIOD)
      ensures WindowAdvanced(persistentData, FAST_FLOODING_SPEED, FAST_FLOODING_SPEED, time)
      ensures PlayerKept(persistentData.player)
    {
      var p := persistentData;
      WrapClocks(p, time);
      AdvanceWindow(p, FAST_FLOODING_SPEED, FAST_FLOODING_SPEED, time);
    }

    /**
     * The game-over `process`: on space, save the score when it beats the
     * high score, start over with fresh data read back from the cookie, and
     * ask for the running phase.
     */
    method OverProcess(keys: set<int>, d: InitDraws, jar: CookieJar)
      requires Valid() && d.Valid()
      modifies this`persistentData, this`requestedChange, jar
      ensures Valid() && OverProcessed(this, keys, d, jar)
    {
      if KEY_SPACE in keys {
        var score := persistentData.player.score;
        if Beats(score, persistentData.highscore) {
          jar.SaveScore(score);
        }
        persistentData := GetInitialData(d, jar.cookie);
        requestedChange := Some(RunningBehavior);
      }
    }

    /* -------------------------------------------------------- dispatch */

    /** `update` of the phase this state runs; only the phase's own successor can be requested. */
    method Update(time: real, d: Draws)
      requires Valid() && time >= 0.0 && d.Valid()
      requires behavior == RunningBehavior ==> LookupInRange(persistentData, time)
      modifies this`requestedChange, this`introTimer, persistentData, persistentData.player, persistentData.player.velocity
      modifies persistentData.previousChunk, persistentData.previousChunk.cells
      modifies persistentData.currentChunk, persistentData.currentChunk.cells
      modifies persistentData.nextChunk, persistentData.nextChunk.cells
      ensures Valid() && persistentData == old(persistentData)
      ensures requestedChange == old(requestedChange) || requestedChange == Some(Successor(behavior))
      ensures behavior == RunningBehavior ==>
        (requestedChange == Some(OverBehavior) <==>
           old(persistentData.player.state) == Drowning || old(requestedChange) == Some(OverBehavior))
      ensures requestedChange ==
        if behavior == RunningBehavior && old(persistentData.player.state) == Drowning then Some(OverBehavior)
        else old(requestedChange)
      ensures introTimer == if behavior == MenuBehavior then IntroAdvanced(old(introTimer), time) else old(introTimer)
      ensures behavior == RunningBehavior ==> Walked(persistentData, time, d)
      ensures behavior != RunningBehavior ==>
        && persistentData.player.score == old(persistentData.player.score)
        && persistentData.highscore == old(persistentData.highscore)
      ensures behavior == OverBehavior ==> WindowAdvanced(persistentData, FAST_FLOODING_SPEED, FAST_FLOODING_SPEED, time)
      ensures behavior != RunningBehavior ==> PlayerKept(persistentData.player)
      ensures behavior == MenuBehavior ==>
        && WindowKept(persistentData) && persistentData.waveVelocity == old(persistentData.waveVelocity)
      ensures behavior == RunningBehavior ==>
        && persistentData.player.airborneTimer == old(persistentData.player.airborneTimer)
        && unchanged(persistentData.player.direction)
    {
      match behavior
      case MenuBehavior => MenuUpdate(time);
      case RunningBehavior => RunningUpdate(time, d);
      case OverBehavior => OverUpdate(time);
    }

    /** `process` of the phase this state runs. */
    method Process(keys: set<int>, time: real, root: real -> real, d: InitDraws, jar: CookieJar)
      requires Valid() && IsSquareRoot(root) && d.Valid()
      modifies this`persistentData, this`requestedChange, jar
      modifies persistentData.player`state, persistentData.player`airborneTimer
      modifies persistentData.player.velocity, persistentData.player.direction
      ensures Valid()
      ensures requestedChange == old(requestedChange) || requestedChange == Some(Successor(behavior))
      ensures behavior != OverBehavior ==> persistentData == old(persistentData) && jar.cookie == old(jar.cookie)
      ensures behavior == MenuBehavior ==>
        && requestedChange ==
             (if introTimer >= INTRO_PERIOD && KEY_SPACE in keys then Some(RunningBehavior) else old(requestedChange))
        && unchanged(persistentData.player, persistentData.player.velocity, persistentData.player.direction)
      ensures behavior == RunningBehavior ==>
        requestedChange == old(requestedChange) && Steered(persistentData.player, keys, time, root)
      ensures behavior == OverBehavior ==> OverProcessed(this, keys, d, jar)
      ensures behavior == OverBehavior ==>
        unchanged(old(persistentData.player), old(persistentData.player.velocity), old(persistentData.player.direction))
    {
      match behavior
      case MenuBehavior => MenuProcess(keys);
      case RunningBehavior => RunningProcess(keys, time, root);
      case OverBehavior => OverProcess(keys, d, jar);
    }

    /**
     * `step`: skip the frame when the renderer is not ready, otherwise
     * `update` then `process` with the frame's duration `time`.
     */
    method Step(ready: bool, time: real, keys: set<int>, swapDraws: Draws, initDraws: InitDraws,
                jar: CookieJar, root: real -> real)
      requires Valid() && time >= 0.0 && swapDraws.Valid() && initDraws.Valid() && IsSquareRoot(root)
      requires behavior == RunningBehavior ==> LookupInRange(persistentData, time)
      modifies this, persistentData, persistentData.Repr(), jar
      ensures Valid()
      ensures !ready ==> requestedChange == old(requestedChange) && persistentData == old(persistentData)
      ensures !ready ==> unchanged(this) && unchanged(old(persistentData.Repr())) && unchanged(jar)
      ensures requestedChange == old(requestedChange) || requestedChange == Some(Successor(behavior))
      ensures ready && behavior == MenuBehavior ==>
        && persistentData == old(persistentData) && introTimer == IntroAdvanced(old(introTimer), time)
        && requestedChange ==
             (if introTimer >= INTRO_PERIOD && KEY_SPACE in keys then Some(RunningBehavior) else old(requestedChange))
      ensures ready && behavior == RunningBehavior ==>
        && persistentData == old(persistentData)
        && requestedChange ==
             (if old(persistentData.player.state) == Drowning then Some(OverBehavior) else old(requestedChange))
      ensures ready && behavior == OverBehavior ==> OverProcessed(this, keys, initDraws, jar)
      ensures ready && behavior == MenuBehavior ==> PlayerKept(persistentData.player) && WindowKept(persistentData)
      ensures ready && behavior == OverBehavior && KEY_SPACE !in keys ==> PlayerKept(persistentData.player)
    {
      if ready {
        UpdateThenProcess(time, keys, swapDraws, initDraws, jar, root);
      }
    }

    /** The body of a frame the renderer is ready for: `update`, then `process` on the updated state. */
    method UpdateThenProcess(time: real, keys: set<int>, swapDraws: Draws, initDraws: InitDraws,
                             jar: CookieJar, root: real -> real)
      requires Valid() && time >= 0.0 && swapDraws.Valid() && initDraws.Valid() && IsSquareRoot(root)
      requires behavior == RunningBehavior ==> LookupInRange(persistentData, time)
      modifies this, persistentData, persistentData.Repr(), jar
      ensures Valid()
      ensures requestedChange == old(requestedChange) || requestedChange == Some(Successor(behavior))
      ensures behavior == MenuBehavior ==>
        && persistentData == old(persistentData) && introTimer == IntroAdvanced(old(introTimer), time)
        && requestedChange ==
             (if introTimer >= INTRO_PERIOD && KEY_SPACE in keys then Some(RunningBehavior) else old(requestedChange))
      ensures behavior == RunningBehavior ==>
        && persistentData == old(persistentData)
        && requestedChange ==
             (if old(persistentData.player.state) == Drowning then Some(OverBehavior) else old(requestedChange))
      ensures behavior == OverBehavior ==> OverProcessed(this, keys, initDraws, jar)
      ensures behavior == MenuBehavior ==> PlayerKept(persistentData.player) && WindowKept(persistentData)
      ensures behavior == OverBehavior && KEY_SPACE !in keys ==> PlayerKept(persistentData.player)
    {
      Update(time, swapDraws);
      assert behavior != RunningBehavior ==> requestedChange == old(requestedChange);
      assert behavior == OverBehavior ==>
        && persistentData.player.score == old(persistentData.player.score)
        && persistentData.highscore == old(persistentData.highscore);
      Process(keys, time, root, initDraws, jar);
    }
  }

  /**
   * `changeState`: a new state over the persistent data of the previous one
   * (the only part of it the source reads), running `behavior`, with no change
   * requested, after the behaviour's `init`.
   */
  method ChangeState(previousData: PersistentData, behavior: Behavior) returns (state: GameState)
    requires previousData.Valid()
    ensures fresh(state) && state.Valid()
    ensures state.persistentData == previousData && state.behavior == behavior
    ensures state.requestedChange == None && state.introTimer == 0.0
  {
    state := new GameState(previousData, behavior);
    state.Init();
  }

  /**
   * The first half of the running update: decelerate unless jumping, move or
   * bounce, and move the window on once the player's cell is in the next chunk.
   * Returns the player's cell index from before any swap, as the source keeps it.
   */
  method MoveAndSwap(p: PersistentData, time: real, d: Draws) returns (i: int, j: int)
    requires p.Valid() && d.Valid() && LookupInRange(p, time)
    modifies p, p.player`x, p.player`y, p.player`score, p.player.velocity
    ensures p.Valid() && i < 2 * CHUNK_WIDTH && Round(p.player.x) < CHUNK_WIDTH
    ensures var m := old(MoveOutcome(p, time));
      && i == Round(m.x) && j == Round(m.y) && p.player.y == m.y && p.player.velocity.Value() == m.v
      && p.player.x == (if i >= CHUNK_WIDTH then m.x - CHUNK_WIDTH as real else m.x)
    ensures i < CHUNK_WIDTH ==>
      && Untouched3(p, old(p.previousChunk), old(p.currentChunk), old(p.nextChunk))
      && p.player.score == old(p.player.score) && p.waveVelocity == old(p.waveVelocity)
    ensures i >= CHUNK_WIDTH ==>
      && i == Round(p.player.x) + CHUNK_WIDTH && Shifted(p, d)
      && p.player.score == old(p.player.score) + PLAYER_SCORE_STEP_MULTI * Round(old(p.waveVelocity))
      && p.waveVelocity == old(p.waveVelocity) + FLOODING_SPEED_STEP
    ensures p.highscore == old(p.highscore) && p.waterTime == old(p.waterTime)
    ensures p.player.animationTimer == old(p.player.animationTimer)
  {
    i, j := Move(p, time);
    if i >= CHUNK_WIDTH {
      ghost var x := p.player.x;
      SwapChunks(p, d);
      RoundShift(x, CHUNK_WIDTH);
    }
  }

  /** Neither jumping nor falling: only then does the player use a button. */
  predicate OnFoot(s: PlayerState) {
    s != Jumping && s != Falling
  }

  /**
   * The height of the ground the running update settles the player on, read off
   * the state before the frame: the cell the move leads to, in the current or
   * next chunk. When the move reaches the next chunk the window moves on but the
   * source keeps the old index, so the ground is then read from the freshly built
   * next chunk.
   */
  ghost function GroundAfterMove(p: PersistentData, time: real, d: Draws): real
    requires p.Valid() && LookupInRange(p, time) && d.Valid()
    reads p, p.Repr()
  {
    var m := MoveOutcome(p, time);
    var i := Round(m.x);
    var j := Round(m.y);
    if i < CHUNK_WIDTH then SafelyFetchHeight(i, j, p.currentChunk, p.nextChunk)
    else if 0 <= j < CHUNK_HEIGHT then
      var c := BuilderCell(RandomStraightBuilder(d.pick), d, i - CHUNK_WIDTH, j);
      c.height + (if c.feature == COLUMN then 1.0 else 0.0)
    else 0.0
  }

  /**
   * What the player's half of one running frame did, against the state before
   * it: the move, the window moved on once the move reached the next chunk (the
   * wave speeding up and the score rising), a button under a player on foot used
   * up (skipped after a swap, whose stale index lies outside the current chunk),
   * and the footing found unless jumping.
   */
  twostate predicate Walked(p: PersistentData, time: real, d: Draws)
    requires old(p.Valid()) && old(LookupInRange(p, time)) && d.Valid()
    reads p`previousChunk, p`currentChunk, p`nextChunk, p`waveVelocity
    reads p.player`x, p.player`y, p.player`score, p.player`state, p.player`height, p.player.velocity
  {
    var m := old(MoveOutcome(p, time));
    var i := Round(m.x);
    var j := Round(m.y);
    var swap := i >= CHUNK_WIDTH;
    var f := if OnFoot(old(p.player.state)) && !swap then old(FeatureAt(p.currentChunk, i, j)) else NO_FEATURE;
    && p.player.y == m.y && p.player.velocity.Value() == m.v
    && p.player.x == (if swap then m.x - CHUNK_WIDTH as real else m.x)
    && (swap ==> p.previousChunk == old(p.currentChunk) && p.currentChunk == old(p.nextChunk) && fresh(p.nextChunk))
    && (!swap ==> Untouched3(p, old(p.previousChunk), old(p.currentChunk), old(p.nextChunk)))
    && p.waveVelocity == ButtonWave(f, old(p.waveVelocity) + (if swap then FLOODING_SPEED_STEP else 0.0))
    && p.player.score ==
         ButtonScore(f, old(p.player.score) + (if swap then PLAYER_SCORE_STEP_MULTI * Round(old(p.waveVelocity)) else 0))
    && (old(p.player.state) == Jumping ==> p.player.state == Jumping && p.player.height == old(p.player.height))
    && (old(p.player.state) != Jumping ==>
          (p.player.state, p.player.height) == Footing(old(p.player.height), old(GroundAfterMove(p, time, d)), time))
  }

  /** The player's half of the running update: move, move the window on, settle. */
  method Walk(p: PersistentData, time: real, d: Draws)
    requires p.Valid() && d.Valid() && LookupInRange(p, time)
    modifies p, p.player`x, p.player`y, p.player`score, p.player.velocity, p.player`state, p.player`height
    modifies p.currentChunk.cells, p.nextChunk.cells
    ensures p.Valid() && Round(p.player.x) < CHUNK_WIDTH
    ensures Walked(p, time, d)
    ensures var m := old(MoveOutcome(p, time));
      var swap := Round(m.x) >= CHUNK_WIDTH;
      && (swap ==> Shifted(p, d))
      && (OnFoot(old(p.player.state)) ==> ButtonCleared(p.currentChunk, Round(m.x), Round(m.y)))
      && (!OnFoot(old(p.player.state)) ==> unchanged(p.currentChunk.cells))
      && (!swap ==> unchanged(p.nextChunk.cells))
    ensures p.highscore == old(p.highscore) && p.waterTime == old(p.waterTime)
    ensures p.player.animationTimer == old(p.player.animationTimer)
  {
    var i, j := MoveAndSwap(p, time, d);
    Settle(p, i, j, time);
  }

  /**
   * One running frame of the window and the player: walk, then flood at the
   * fast rate while drowning and at the wave's speed otherwise, and advance
   * the clocks.
   */
  method RunFrame(p: PersistentData, time: real, d: Draws)
    requires p.Valid() && time >= 0.0 && d.Valid() && LookupInRange(p, time)
    modifies p, p.player`x, p.player`y, p.player`score, p.player`state, p.player`height, p.player`animationTimer
    modifies p.player.velocity, p.previousChunk, p.previousChunk.cells
    modifies p.currentChunk, p.currentChunk.cells, p.nextChunk, p.nextChunk.cells
    ensures p.Valid()
    ensures Round(p.player.x) < CHUNK_WIDTH
    ensures Walked(p, time, d)
    ensures
      var swap := Round(old(MoveOutcome(p, time)).x) >= CHUNK_WIDTH;
      var rate := if p.player.state == Drowning then FAST_FLOODING_SPEED else p.waveVelocity;
      var f := if swap then 0.0 else old(p.nextChunk.floodedAmount);
      && p.previousChunk.floodedAmount ==
           FloodStep(if swap then old(p.currentChunk.floodedAmount) else old(p.previousChunk.floodedAmount),
                     PASSED_CHUNK_FLOODING_SPEED, time)
      && p.currentChunk.floodedAmount ==
           FloodStep(if swap then old(p.nextChunk.floodedAmount) else old(p.currentChunk.floodedAmount), rate, time)
      && p.nextChunk.floodedAmount ==
           (if p.currentChunk.floodedAmount > CHUNK_WIDTH as real then FloodStep(f, rate, time) else f)
    ensures p.player.animationTimer ==
      ResetClock(old(p.player.animationTimer), time, p.player.animationPeriod)
    ensures p.waterTime == ResetClock(old(p.waterTime), time, p.WATER_PERIOD)
    ensures p.highscore == old(p.highscore)
  {
    ghost var swap := Round(MoveOutcome(p, time).x) >= CHUNK_WIDTH;
    ghost var levels := (p.previousChunk.floodedAmount, p.currentChunk.floodedAmount, p.nextChunk.floodedAmount);
    Walk(p, time, d);
    assert (p.previousChunk.floodedAmount, p.currentChunk.floodedAmount, p.nextChunk.floodedAmount) ==
      if swap then (levels.1, levels.2, 0.0) else levels;
    var rate := if p.player.state == Drowning then FAST_FLOODING_SPEED else p.waveVelocity;
    Water(p, rate, time);
  }

  /** The water's half of the running update: flood and animate the window at `rate`, then advance the clocks. */
  method Water(p: PersistentData, rate: real, time: real)
    requires p.Valid() && rate >= 0.0 && time >= 0.0
    modifies p.previousChunk, p.previousChunk.cells, p.currentChunk, p.currentChunk.cells
    modifies p.nextChunk, p.nextChunk.cells, p.player`animationTimer, p`waterTime
    ensures p.Valid()
    ensures AdvancedBy(p.previousChunk, true, PASSED_CHUNK_FLOODING_SPEED, time)
    ensures AdvancedBy(p.currentChunk, true, rate, time)
    ensures AdvancedBy(p.nextChunk, p.currentChunk.floodedAmount > CHUNK_WIDTH as real, rate, time)
    ensures old(p.previousChunk.floodedAmount) <= p.previousChunk.floodedAmount
    ensures old(p.currentChunk.floodedAmount) <= p.currentChunk.floodedAmount
    ensures old(p.nextChunk.floodedAmount) <= p.nextChunk.floodedAmount
    ensures p.player.animationTimer == ResetClock(old(p.player.animationTimer), time, p.player.animationPeriod)
    ensures p.waterTime == ResetClock(old(p.waterTime), time, p.WATER_PERIOD)
  {
    AdvanceWindow(p, PASSED_CHUNK_FLOODING_SPEED, rate, time);
    ResetClocks(p, time);
  }

  /** Decelerate unless jumping, then move or bounce; returns the player's cell. */
  method Move(p: PersistentData, time: real) returns (i: int, j: int)
    requires p.Valid() && LookupInRange(p, time)
    modifies p.player`x, p.player`y, p.player.velocity
    ensures p.Valid() && i < 2 * CHUNK_WIDTH && i == Round(p.player.x) && j == Round(p.player.y)
    ensures var m := old(MoveOutcome(p, time));
      p.player.x == m.x && p.player.y == m.y && p.player.velocity.Value() == m.v
  {
    ghost var v := MoveVelocity(p.player, time);
    ghost var m := MoveOutcome(p, time);
    assert InRange(p, v, time) && m == StepOutcome(p, v, time);
    if p.player.state != Jumping {
      Decelerate(p, time);
    }
    assert p.player.velocity.Value() == v;
    i, j := TryMove(p, time);
  }

  /** The window still holds these three chunks. */
  predicate Untouched3(p: PersistentData, previous: Chunk, current: Chunk, next: Chunk)
    reads p`previousChunk, p`currentChunk, p`nextChunk
  {
    p.previousChunk == previous && p.currentChunk == current && p.nextChunk == next
  }

  /**
   * The second half of the player's update: use a button underfoot unless in the
   * air, then find the footing at (i, j) unless jumping. Using a button never
   * changes the ground's height, a button being no column.
   */
  method Settle(p: PersistentData, i: int, j: int, time: real)
    requires p.Valid() && i < 2 * CHUNK_WIDTH
    modifies p`waveVelocity, p.player`score, p.currentChunk.cells, p.player`state, p.player`height
    ensures p.Valid()
    ensures var f := if OnFoot(old(p.player.state)) then old(FeatureAt(p.currentChunk, i, j)) else NO_FEATURE;
      p.waveVelocity == ButtonWave(f, old(p.waveVelocity)) && p.player.score == ButtonScore(f, old(p.player.score))
    ensures OnFoot(old(p.player.state)) ==> ButtonCleared(p.currentChunk, i, j)
    ensures !OnFoot(old(p.player.state)) ==> unchanged(p.currentChunk.cells)
    ensures old(p.player.state) == Jumping ==> p.player.state == Jumping && p.player.height == old(p.player.height)
    ensures old(p.player.state) != Jumping ==>
      (p.player.state, p.player.height) ==
        Footing(old(p.player.height), old(SafelyFetchHeight(i, j, p.currentChunk, p.nextChunk)), time)
  {
    ghost var h := SafelyFetchHeight(i, j, p.currentChunk, p.nextChunk);
    if p.player.state != Jumping && p.player.state != Falling {
      ConsumeButton(p, i, j);
      assert SafelyFetchHeight(i, j, p.currentChunk, p.nextChunk) == h by {
        if 0 <= i < CHUNK_WIDTH && 0 <= j < CHUNK_HEIGHT {
          assert p.currentChunk.cells[i, j].height == old(p.currentChunk.cells[i, j].height);
        }
      }
    }
    if p.player.state != Jumping {
      Classify(p, i, j, time);
    }
  }

  /** The running phase's clocks: the player's animation and the water restart at 0 once past their periods. */
  method ResetClocks(p: PersistentData, time: real)
    requires p.Valid() && time >= 0.0
    modifies p.player`animationTimer, p`waterTime
    ensures p.Valid()
    ensures p.player.animationTimer == ResetClock(old(p.player.animationTimer), time, p.player.animationPeriod)
    ensures p.waterTime == ResetClock(old(p.waterTime), time, p.WATER_PERIOD)
  {
    p.player.animationTimer := p.player.animationTimer + time;
    if p.player.animationTimer > p.player.animationPeriod {
      p.player.animationTimer := 0.0;
    }
    p.waterTime := p.waterTime + time;
    if p.waterTime > p.WATER_PERIOD {
      p.waterTime := 0.0;
    }
  }

  /** The menu and game-over clocks: the player's animation and the water go back one period once past it. */
  method WrapClocks(p: PersistentData, time: real)
    requires p.Valid() && time >= 0.0
    modifies p.player`animationTimer, p`waterTime
    ensures p.Valid()
    ensures p.player.animationTimer == WrapClock(old(p.player.animationTimer), time, p.player.animationPeriod)
    ensures p.waterTime == WrapClock(old(p.waterTime), time, p.WATER_PERIOD)
  {
    p.player.animationTimer := p.player.animationTimer + time;
    if p.player.animationTimer > p.player.animationPeriod {
      p.player.animationTimer := p.player.animationTimer - p.player.animationPeriod;
    }
    p.waterTime := p.waterTime + time;
    if p.waterTime > p.WATER_PERIOD {
      p.waterTime := p.waterTime - p.WATER_PERIOD;
    }
  }
}
