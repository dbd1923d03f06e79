/** Terrain cells, chunk builders, chunks, vectors and the player record (js/03_structs.js). */
module Structs {
  import opened JsMath
  import opened Consts

  /* ---------------------------------------------------------------- cells */

  /** Feature codes carried by a cell. */
  const NO_FEATURE: int := 0
  const COLUMN: int := 1
  const SLOW_BUTTON: int := 2
  const FAST_BUTTON: int := 3

  /** One heightmap cell; `variant` only selects a sprite. */
  datatype Cell = Cell(height: real, variant: int, feature: int, animationTime: real)

  /** `new Cell(height, feature)`: variant 0, no animation progress. */
  function NewCell(height: real, feature: int): (c: Cell)
    ensures c.height == height && c.feature == feature
    ensures c.variant == 0 && c.animationTime == 0.0
  {
    Cell(height, 0, feature, 0.0)
  }

  /** What every cell of a live chunk satisfies. */
  predicate ValidCell(c: Cell) {
    0.0 <= c.height <= 1.0 && NO_FEATURE <= c.feature <= FAST_BUTTON && c.animationTime >= 0.0
  }

  predicate IsButton(feature: int) {
    feature == SLOW_BUTTON || feature == FAST_BUTTON
  }

  /** Cells lower than this play the sinking animation. */
  const START_ANIM_HEIGHT: real := 0.2

  /* ------------------------------------------------------------- flooding */

  /** The height cap `clamp((i - f + 8) / 8, 0, 1)` the flood front puts on column `i`. */
  function FloodBound(i: int, floodedAmount: real): (k: real)
    ensures 0.0 <= k <= 1.0
    ensures floodedAmount <= i as real ==> k == 1.0
    ensures i as real <= floodedAmount - 8.0 ==> k == 0.0
    ensures floodedAmount - 8.0 < i as real < floodedAmount ==> 8.0 * k == i as real - floodedAmount + 8.0
  {
    var k := (i as real - floodedAmount + 8.0) / 8.0;
    if k < 0.0 then 0.0 else if k > 1.0 then 1.0 else k
  }

  /** The cap never rises as the flood advances. */
  lemma FloodBoundMonotonic(i: int, f: real, g: real)
    requires f <= g
    ensures FloodBound(i, g) <= FloodBound(i, f)
  {
  }

  /** One cell under the flood cap `k`: pulled down to `k` when higher, otherwise untouched. */
  function FloodCell(c: Cell, k: real): (r: Cell)
    ensures r.height <= c.height
    ensures r.height <= k || r == c
    ensures c.height <= k ==> r == c
    ensures c.height > k ==> r.height == k
    ensures r.variant == c.variant && r.feature == c.feature && r.animationTime == c.animationTime
    ensures ValidCell(c) && 0.0 <= k ==> ValidCell(r)
  {
    if c.height > k then c.(height := k) else c
  }

  /** Flooding with an unchanged cap a second time changes nothing. */
  lemma FloodCellIdempotent(c: Cell, k: real)
    ensures FloodCell(FloodCell(c, k), k) == FloodCell(c, k)
  {
  }

  /**
   * One cell's sinking animation over `time`. The source's clamp to 1 writes a
   * misspelled field, so the progress is never capped.
   */
  function AnimateCell(c: Cell, time: real): (r: Cell)
    ensures r.height == c.height && r.variant == c.variant && r.feature == c.feature
    ensures c.height < START_ANIM_HEIGHT ==> r.animationTime == c.animationTime + 0.8 * time
    ensures c.height >= START_ANIM_HEIGHT ==> r == c
    ensures ValidCell(c) && time >= 0.0 ==> ValidCell(r)
  {
    if c.height < START_ANIM_HEIGHT then c.(animationTime := c.animationTime + 0.8 * time) else c
  }

  /** The progress of a sinking cell exceeds 1 after enough time: the cap has no effect. */
  lemma AnimationNotCapped()
    ensures AnimateCell(AnimateCell(NewCell(0.0, NO_FEATURE), 1.0), 1.0).animationTime == 1.6
  {
  }

  /* --------------------------------------------------------------- draws */

  predicate InUnit(r: real) {
    0.0 <= r < 1.0
  }

  /**
   * The values `Math.random()` returns to one chunk builder, one per named draw, and
   * the draws of cell (i, j), `cell(i, j, k)` for its k-th draw.
   */
  datatype Draws = Draws(
    pick: real, width: real, height: real, column: real, damage: real, chess: real,
    bonusCol: real, bonusRow: real, bonusKind: real, leap: real,
    cell: (int, int, int) -> real)
  {
    ghost predicate Valid() {
      && InUnit(pick) && InUnit(width) && InUnit(height) && InUnit(column) && InUnit(damage)
      && InUnit(chess) && InUnit(bonusCol) && InUnit(bonusRow) && InUnit(bonusKind) && InUnit(leap)
      && forall i, j, k :: InUnit(cell(i, j, k))
    }
  }

  /** First row of the centred path strip, less one: `(CHUNK_HEIGHT - PATH_WIDTH) / 2 | 0`. */
  const OFF_Y: int := 4

  lemma OffYFromGeometry()
    ensures OFF_Y == Trunc((CHUNK_HEIGHT - PATH_WIDTH) as real / 2.0)
  {
  }

  /** `cond ? 0 : 1` on a draw: the cell is damaged when its draw falls below `p`. */
  function Solid(roll: real, p: real): (h: real)
    ensures h == 0.0 <==> roll < p
    ensures h == 0.0 || h == 1.0
  {
    if roll < p then 0.0 else 1.0
  }

  /**
   * A cell of the horizontal path strip shared by the straight, leap and platform
   * builders: rows OFF_Y+1 and OFF_Y+PATH_WIDTH are borders damaged with probability
   * `borderP` and carry a column on every fourth solid cell; the rows between are
   * damaged with probability `innerP`; every other row is empty.
   */
  function PathCell(roll: real, borderP: real, innerP: real, i: int, j: int): (c: Cell)
    ensures c.height == 0.0 || c.height == 1.0
    ensures c.animationTime == 0.0
    ensures j <= OFF_Y || j > OFF_Y + PATH_WIDTH ==> c == NewCell(0.0, NO_FEATURE)
    ensures j == OFF_Y + 1 || j == OFF_Y + PATH_WIDTH ==> (c.height == 0.0 <==> roll < borderP)
    ensures OFF_Y + 1 < j < OFF_Y + PATH_WIDTH ==> (c.height == 0.0 <==> roll < innerP)
    ensures c.feature == NO_FEATURE || c.feature == COLUMN
    ensures c.feature == COLUMN <==>
      (j == OFF_Y + 1 || j == OFF_Y + PATH_WIDTH) && c.height == 1.0 && i % 4 == 0
  {
    if j == OFF_Y + 1 || j == OFF_Y + PATH_WIDTH then
      var h := Solid(roll, borderP);
      Cell(h, 1, if h == 1.0 && i % 4 == 0 then COLUMN else NO_FEATURE, 0.0)
    else if OFF_Y < j < OFF_Y + PATH_WIDTH then
      Cell(Solid(roll, innerP), if i % 4 == 0 then 2 else 0, NO_FEATURE, 0.0)
    else
      NewCell(0.0, NO_FEATURE)
  }

  /** The bonus placement step: the bonus cell gets `bonusType` unless it is empty. */
  function WithBonus(c: Cell, i: int, j: int, bonusI: int, bonusJ: int, bonusType: int): (r: Cell)
    ensures r.height == c.height && r.variant == c.variant && r.animationTime == c.animationTime
    ensures (i, j) == (bonusI, bonusJ) && c.height != 0.0 ==> r.feature == bonusType
    ensures (i, j) != (bonusI, bonusJ) || c.height == 0.0 ==> r == c
  {
    if i == bonusI && j == bonusJ && c.height != 0.0 then c.(feature := bonusType) else c
  }

  /* ------------------------------------------------------ platform builder */

  /** The per-chunk choices of `platformChunkBuilder`. */
  datatype PlatformPlan = PlatformPlan(
    platformWidth: int, platformHeight: int, putColumn: bool,
    damagedAmount: real, chessPattern: bool,
    poffX: int, poffY: int, bonusI: int, bonusJ: int, bonusType: int)

  function PlatformPlanOf(platfWidth: int, platfHeight: int, putColumn: bool, d: Draws): (p: PlatformPlan)
    requires d.Valid()
    ensures p.platformWidth == platfWidth && p.platformHeight == platfHeight && p.putColumn == putColumn
    ensures 0.0 <= p.damagedAmount < 0.08
    ensures 0 <= platfWidth <= CHUNK_WIDTH ==> p.poffX == (CHUNK_WIDTH - platfWidth) / 2
    ensures 0 <= platfHeight <= CHUNK_HEIGHT ==> p.poffY == (CHUNK_HEIGHT - platfHeight) / 2
    ensures CHUNK_HALF_WIDTH - 1 <= p.bonusI <= CHUNK_HALF_WIDTH + 1
    ensures p.bonusJ == p.poffY + 2 || p.bonusJ == p.poffY + platfHeight - 1
    ensures putColumn ==> IsButton(p.bonusType)
    ensures !putColumn ==> p.bonusType == NO_FEATURE
  {
    var bonusType := if d.bonusKind > 0.3 then SLOW_BUTTON else FAST_BUTTON;
    var poffY := Trunc((CHUNK_HEIGHT - platfHeight) as real / 2.0);
    PlatformPlan(
      platfWidth, platfHeight, putColumn,
      d.damage * 0.08, d.chess > 0.5,
      Trunc((CHUNK_WIDTH - platfWidth) as real / 2.0), poffY,
      CHUNK_HALF_WIDTH + Trunc(d.bonusCol * 3.0) - 1,
      if d.bonusRow > 0.5 then poffY + 2 else poffY + platfHeight - 1,
      if putColumn then bonusType else NO_FEATURE)
  }

  /**
   * Cell (i, j) of a platform chunk: the path strip left and right of a raised
   * platform of the plan's size, the platform's border rows outlined and columned at
   * its corners, an optional central column pair, then the bonus.
   */
  function PlatformCell(p: PlatformPlan, roll: real, i: int, j: int): (c: Cell)
    ensures c.height == 0.0 || c.height == 1.0
    ensures c.animationTime == 0.0
    ensures c.feature == NO_FEATURE || c.feature == COLUMN || c.feature == p.bonusType
    ensures c.feature == p.bonusType && !(p.bonusType == NO_FEATURE || p.bonusType == COLUMN) ==>
      i == p.bonusI && j == p.bonusJ && c.height == 1.0
    ensures i == p.bonusI && j == p.bonusJ && c.height != 0.0 ==> c.feature == p.bonusType
    ensures p.poffX < i <= p.poffX + p.platformWidth && p.poffY < j <= p.poffY + p.platformHeight ==>
      c.height == 1.0
  {
    var base :=
      if i <= p.poffX || i > p.poffX + p.platformWidth then
        PathCell(roll, p.damagedAmount + 0.08, p.damagedAmount, i, j)
      else if j == p.poffY + 1 || j == p.poffY + p.platformHeight then
        Cell(1.0, 1, if i == p.poffX + 1 || i == p.poffX + p.platformWidth then COLUMN else NO_FEATURE, 0.0)
      else if p.poffY < j < p.poffY + p.platformHeight then
        Cell(
          1.0,
          if i == p.poffX + 1 || i == p.poffX + p.platformWidth then 2
          else if p.chessPattern then (if (i + j) % 2 == 0 then 3 else 0)
          else 0,
          if p.putColumn && i == CHUNK_HALF_WIDTH && (j == CHUNK_HALF_HEIGHT || j == CHUNK_HALF_HEIGHT + 1)
          then COLUMN else NO_FEATURE,
          0.0)
      else
        NewCell(0.0, NO_FEATURE);
    WithBonus(base, i, j, p.bonusI, p.bonusJ, p.bonusType)
  }

  /* ------------------------------------------------------ straight builder */

  /** The per-chunk choices of `straightChunkBuilder`. */
  datatype StraightPlan = StraightPlan(damagedAmount: real, bonusI: int, bonusJ: int, bonusType: int)

  function StraightPlanOf(d: Draws): (p: StraightPlan)
    requires d.Valid()
    ensures 0.0 <= p.damagedAmount < 0.16
    ensures CHUNK_HALF_WIDTH - 1 <= p.bonusI <= CHUNK_HALF_WIDTH + 1
    ensures p.bonusJ == CHUNK_HALF_HEIGHT || p.bonusJ == CHUNK_HALF_HEIGHT + 1
    ensures IsButton(p.bonusType)
    ensures p.bonusType == SLOW_BUTTON <==> d.bonusKind > 0.3
  {
    StraightPlan(
      d.damage * 0.16,
      CHUNK_HALF_WIDTH + Trunc(d.bonusCol * 3.0) - 1,
      CHUNK_HALF_HEIGHT + Trunc(d.bonusRow * 2.0),
      if d.bonusKind > 0.3 then SLOW_BUTTON else FAST_BUTTON)
  }

  /** Cell (i, j) of a straight chunk: the path strip plus the bonus. */
  function StraightCell(p: StraightPlan, roll: real, i: int, j: int): (c: Cell)
    ensures c.height == 0.0 || c.height == 1.0
    ensures c.animationTime == 0.0
    ensures j <= OFF_Y || j > OFF_Y + PATH_WIDTH ==> c.height == 0.0
    ensures c.feature == COLUMN && p.bonusType != COLUMN ==>
      c.height == 1.0 && (j == OFF_Y + 1 || j == OFF_Y + PATH_WIDTH) && i % 4 == 0
    ensures c.feature != NO_FEATURE && c.feature != COLUMN ==>
      c.feature == p.bonusType && i == p.bonusI && j == p.bonusJ && c.height == 1.0
    ensures i == p.bonusI && j == p.bonusJ && c.height != 0.0 ==> c.feature == p.bonusType
  {
    WithBonus(PathCell(roll, p.damagedAmount + 0.1, p.damagedAmount, i, j), i, j, p.bonusI, p.bonusJ, p.bonusType)
  }

  /* ---------------------------------------------------------- leap builder */

  /** The per-chunk choices of `leapChunkBuilder`: the gap's width and first column. */
  datatype LeapPlan = LeapPlan(damagedAmount: real, leapWidth: int, offX: int)

  function LeapPlanOf(d: Draws): (p: LeapPlan)
    requires d.Valid()
    ensures 0.0 <= p.damagedAmount < 0.16
    ensures 4 <= p.leapWidth <= 6
    ensures p.offX == (CHUNK_WIDTH - p.leapWidth) / 2
  {
    var leapWidth := Trunc(4.0 + d.leap * 3.0);
    LeapPlan(d.damage * 0.16, leapWidth, Trunc((CHUNK_WIDTH - leapWidth) as real / 2.0))
  }

  /** The damage probability of column i: softened at the gap's edges, certain inside it. */
  function LeapProbability(p: LeapPlan, i: int): real {
    if i == p.offX || i == p.offX + p.leapWidth - 1 then p.damagedAmount + 0.33
    else if p.offX < i < p.offX + p.leapWidth then 1.0
    else p.damagedAmount
  }

  /** Cell (i, j) of a leap chunk: the path strip with a gap of `leapWidth` columns. */
  function LeapCell(p: LeapPlan, roll: real, i: int, j: int): (c: Cell)
    ensures c.height == 0.0 || c.height == 1.0
    ensures c.animationTime == 0.0
    ensures j <= OFF_Y || j > OFF_Y + PATH_WIDTH ==> c.height == 0.0
    ensures c.feature == NO_FEATURE || c.feature == COLUMN
    ensures c.feature == COLUMN ==> c.height == 1.0 && (j == OFF_Y + 1 || j == OFF_Y + PATH_WIDTH) && i % 4 == 0
    ensures roll < 1.0 && p.offX < i < p.offX + p.leapWidth - 1 ==> c.height == 0.0
  {
    var q := LeapProbability(p, i);
    PathCell(roll, q + 0.1, q, i, j)
  }

  /* --------------------------------------------------------- noise builder */

  /** `(1 - |j - CHUNK_HALF_HEIGHT| / CHUNK_WIDTH)^6`: the chance of a solid cell in row j. */
  function NoiseThreshold(j: int): (p: real)
    ensures j == CHUNK_HALF_HEIGHT ==> p == 1.0
    ensures 0 <= j < CHUNK_HEIGHT ==> 0.0 < p <= 1.0
  {
    var dj := if j >= CHUNK_HALF_HEIGHT then j - CHUNK_HALF_HEIGHT else CHUNK_HALF_HEIGHT - j;
    var q := 1.0 - dj as real / CHUNK_WIDTH as real;
    assert 0 <= j < CHUNK_HEIGHT ==> 0.0 < q <= 1.0;
    PowSix(q)
  }

  function PowSix(q: real): (r: real)
    ensures 0.0 < q <= 1.0 ==> 0.0 < r <= 1.0
    ensures q == 1.0 ==> r == 1.0
  {
    ProductBounds(q, q);
    ProductBounds(q * q, q);
    ProductBounds(q * q * q, q);
    ProductBounds(q * q * q * q, q);
    ProductBounds(q * q * q * q * q, q);
    q * q * q * q * q * q
  }

  lemma ProductBounds(a: real, b: real)
    ensures 0.0 < a <= 1.0 && 0.0 < b <= 1.0 ==> 0.0 < a * b <= 1.0
  {
    if 0.0 < a <= 1.0 && 0.0 < b <= 1.0 {
      assert a * b <= 1.0 * b;
    }
  }

  /** Cell (i, j) of a noise chunk from its three draws: point holes, then a row-biased solid, then a column. */
  function NoiseCell(r0: real, r1: real, r2: real, j: int): (c: Cell)
    ensures c.height == 0.0 || c.height == 1.0
    ensures r0 < 0.1 ==> c.height == 0.0
    ensures r0 >= 0.1 ==> (c.height == 1.0 <==> r1 <= NoiseThreshold(j))
    ensures c.feature == NO_FEATURE || c.feature == COLUMN
    ensures c.feature == COLUMN <==> c.height == 1.0 && r2 > 0.8
    ensures c.variant == 0 && c.animationTime == 0.0
  {
    var h := if r0 < 0.1 then 0.0 else if r1 <= NoiseThreshold(j) then 1.0 else 0.0;
    NewCell(h, if h == 1.0 && r2 > 0.8 then COLUMN else NO_FEATURE)
  }

  /* ------------------------------------------------- builders and dispatch */

  /** The builder functions a chunk can be made with. */
  datatype Builder = StartBuilder | StraightBuilder | LeapBuilder | ColumnBuilder | NoiseBuilder

  /** `getRandomStraightChunkBuilder`: a third of the draws each for straight, leap and column. */
  function RandomStraightBuilder(r: real): (b: Builder)
    requires InUnit(r)
    ensures b == StraightBuilder <==> r * 3.0 < 1.0
    ensures b == LeapBuilder <==> 1.0 <= r * 3.0 < 2.0
    ensures b == ColumnBuilder <==> 2.0 <= r * 3.0
  {
    var k := Trunc(r * 3.0);
    if k == 0 then StraightBuilder else if k == 1 then LeapBuilder else ColumnBuilder
  }

  /** `PATH_WIDTH + (draw > 0.5 ? 2 : 4)`: the platform height of the start and column chunks. */
  function PlatformHeightOf(r: real): (h: int)
    ensures h == PATH_WIDTH + 2 || h == PATH_WIDTH + 4
  {
    PATH_WIDTH + (if r > 0.5 then 2 else 4)
  }

  /** The plan `startChunkBuilder` hands to the platform builder: width 7, no column, no button. */
  function StartPlan(d: Draws): (p: PlatformPlan)
    requires d.Valid()
    ensures p.platformWidth == 7 && !p.putColumn && p.bonusType == NO_FEATURE
  {
    PlatformPlanOf(7, PlatformHeightOf(d.height), false, d)
  }

  /** The plan `columnChunkBuilder` hands to the platform builder: width 7 or 9, columned 80% of the time. */
  function ColumnPlan(d: Draws): (p: PlatformPlan)
    requires d.Valid()
    ensures p.platformWidth == 7 || p.platformWidth == 9
    ensures p.putColumn <==> d.column > 0.2
  {
    PlatformPlanOf(7 + (if d.width > 0.5 then 0 else 2), PlatformHeightOf(d.height), d.column > 0.2, d)
  }

  /** The single cell a builder may put a button on (a noise chunk has none). */
  function BonusCell(b: Builder, d: Draws): (int, int)
    requires d.Valid()
  {
    match b
    case StartBuilder => (StartPlan(d).bonusI, StartPlan(d).bonusJ)
    case ColumnBuilder => (ColumnPlan(d).bonusI, ColumnPlan(d).bonusJ)
    case StraightBuilder => (StraightPlanOf(d).bonusI, StraightPlanOf(d).bonusJ)
    case LeapBuilder | NoiseBuilder => (-1, -1)
  }

  /** Cell (i, j) of the grid builder `b` makes from the draws `d`. */
  function BuilderCell(b: Builder, d: Draws, i: int, j: int): (c: Cell)
    requires d.Valid()
    ensures ValidCell(c)
    ensures c.height == 0.0 || c.height == 1.0
    ensures IsButton(c.feature) ==> (i, j) == BonusCell(b, d)
    ensures b == StartBuilder || b == LeapBuilder || b == NoiseBuilder ==> !IsButton(c.feature)
    ensures b == StraightBuilder || b == LeapBuilder ==> (j <= OFF_Y || j > OFF_Y + PATH_WIDTH ==> c.height == 0.0)
  {
    var roll := d.cell(i, j, 0);
    match b
    case StartBuilder => PlatformCell(StartPlan(d), roll, i, j)
    case ColumnBuilder => PlatformCell(ColumnPlan(d), roll, i, j)
    case StraightBuilder => StraightCell(StraightPlanOf(d), roll, i, j)
    case LeapBuilder => LeapCell(LeapPlanOf(d), roll, i, j)
    case NoiseBuilder => NoiseCell(roll, d.cell(i, j, 1), d.cell(i, j, 2), j)
  }

  /** A grid holds at most one button, for every builder. */
  lemma AtMostOneButton(b: Builder, d: Draws, i1: int, j1: int, i2: int, j2: int)
    requires d.Valid()
    requires IsButton(BuilderCell(b, d, i1, j1).feature) && IsButton(BuilderCell(b, d, i2, j2).feature)
    ensures i1 == i2 && j1 == j2
  {
  }

  /** Inside a leap chunk's gap every row is empty. */
  lemma LeapGapEmpty(d: Draws, i: int, j: int)
    requires d.Valid()
    requires LeapPlanOf(d).offX < i < LeapPlanOf(d).offX + LeapPlanOf(d).leapWidth - 1
    ensures BuilderCell(LeapBuilder, d, i, j).height == 0.0
  {
    assert InUnit(d.cell(i, j, 0));
  }

  /** The nested loops that fill a fresh CHUNK_WIDTH x CHUNK_HEIGHT grid column by column. */
  method FillGrid(cellAt: (int, int) -> Cell) returns (data: array2<Cell>)
    ensures fresh(data) && data.Length0 == CHUNK_WIDTH && data.Length1 == CHUNK_HEIGHT
    ensures forall i, j :: 0 <= i < CHUNK_WIDTH && 0 <= j < CHUNK_HEIGHT ==> data[i, j] == cellAt(i, j)
  {
    data := new Cell[CHUNK_WIDTH, CHUNK_HEIGHT];
    var i := 0;
    while i < CHUNK_WIDTH
      invariant 0 <= i <= CHUNK_WIDTH
      invariant forall a, b :: 0 <= a < i && 0 <= b < CHUNK_HEIGHT ==> data[a, b] == cellAt(a, b)
    {
      var j := 0;
      while j < CHUNK_HEIGHT
        invariant 0 <= j <= CHUNK_HEIGHT
        invariant forall a, b :: 0 <= a < i && 0 <= b < CHUNK_HEIGHT ==> data[a, b] == cellAt(a, b)
        invariant forall b :: 0 <= b < j ==> data[i, b] == cellAt(i, b)
      {
        data[i, j] := cellAt(i, j);
        j := j + 1;
      }
      i := i + 1;
    }
  }

  method PlatformChunkBuilder(platfWidth: int, platfHeight: int, putColumn: bool, d: Draws)
    returns (data: array2<Cell>)
    requires d.Valid()
    ensures fresh(data) && data.Length0 == CHUNK_WIDTH && data.Length1 == CHUNK_HEIGHT
    ensures forall i, j :: 0 <= i < CHUNK_WIDTH && 0 <= j < CHUNK_HEIGHT ==>
      data[i, j] == PlatformCell(PlatformPlanOf(platfWidth, platfHeight, putColumn, d), d.cell(i, j, 0), i, j)
  {
    var plan := PlatformPlanOf(platfWidth, platfHeight, putColumn, d);
    data := FillGrid((i, j) => PlatformCell(plan, d.cell(i, j, 0), i, j));
  }

  method StartChunkBuilder(d: Draws) returns (data: array2<Cell>)
    requires d.Valid()
    ensures fresh(data) && data.Length0 == CHUNK_WIDTH && data.Length1 == CHUNK_HEIGHT
    ensures forall i, j :: 0 <= i < CHUNK_WIDTH && 0 <= j < CHUNK_HEIGHT ==> data[i, j] == BuilderCell(StartBuilder, d, i, j)
  {
    data := PlatformChunkBuilder(7, PlatformHeightOf(d.height), false, d);
  }

  method ColumnChunkBuilder(d: Draws) returns (data: array2<Cell>)
    requires d.Valid()
    ensures fresh(data) && data.Length0 == CHUNK_WIDTH && data.Length1 == CHUNK_HEIGHT
    ensures forall i, j :: 0 <= i < CHUNK_WIDTH && 0 <= j < CHUNK_HEIGHT ==> data[i, j] == BuilderCell(ColumnBuilder, d, i, j)
  {
    var width := 7 + (if d.width > 0.5 then 0 else 2);
    data := PlatformChunkBuilder(width, PlatformHeightOf(d.height), d.column > 0.2, d);
  }

  method StraightChunkBuilder(d: Draws) returns (data: array2<Cell>)
    requires d.Valid()
    ensures fresh(data) && data.Length0 == CHUNK_WIDTH && data.Length1 == CHUNK_HEIGHT
    ensures forall i, j :: 0 <= i < CHUNK_WIDTH && 0 <= j < CHUNK_HEIGHT ==> data[i, j] == BuilderCell(StraightBuilder, d, i, j)
  {
    var plan := StraightPlanOf(d);
    data := FillGrid((i, j) => StraightCell(plan, d.cell(i, j, 0), i, j));
  }

  method LeapChunkBuilder(d: Draws) returns (data: array2<Cell>)
    requires d.Valid()
    ensures fresh(data) && data.Length0 == CHUNK_WIDTH && data.Length1 == CHUNK_HEIGHT
    ensures forall i, j :: 0 <= i < CHUNK_WIDTH && 0 <= j < CHUNK_HEIGHT ==> data[i, j] == BuilderCell(LeapBuilder, d, i, j)
  {
    var plan := LeapPlanOf(d);
    data := FillGrid((i, j) => LeapCell(plan, d.cell(i, j, 0), i, j));
  }

  method NoiseChunkBuilder(d: Draws) returns (data: array2<Cell>)
    requires d.Valid()
    ensures fresh(data) && data.Length0 == CHUNK_WIDTH && data.Length1 == CHUNK_HEIGHT
    ensures forall i, j :: 0 <= i < CHUNK_WIDTH && 0 <= j < CHUNK_HEIGHT ==> data[i, j] == BuilderCell(NoiseBuilder, d, i, j)
  {
    data := FillGrid((i, j) => NoiseCell(d.cell(i, j, 0), d.cell(i, j, 1), d.cell(i, j, 2), j));
  }

  /** Calls the builder function `b` stands for. */
  method Build(b: Builder, d: Draws) returns (data: array2<Cell>)
    requires d.Valid()
    ensures fresh(data) && data.Length0 == CHUNK_WIDTH && data.Length1 == CHUNK_HEIGHT
    ensures forall i, j :: 0 <= i < CHUNK_WIDTH && 0 <= j < CHUNK_HEIGHT ==> data[i, j] == BuilderCell(b, d, i, j)
  {
    match b
    case StartBuilder => data := StartChunkBuilder(d);
    case StraightBuilder => data := StraightChunkBuilder(d);
    case LeapBuilder => data := LeapChunkBuilder(d);
    case ColumnBuilder => data := ColumnChunkBuilder(d);
    case NoiseBuilder => data := NoiseChunkBuilder(d);
  }

  /* ---------------------------------------------------------------- chunk */

  /** One terrain segment: a grid made once by a builder, its flood level and its parity. */
  class Chunk {
    const cells: array2<Cell>
    const even: bool
    var floodedAmount: real

    /** The grid has the chunk's dimensions, every cell is well formed, the flood level is not negative. */
    ghost predicate WellFormed()
      reads this, cells
    {
      && cells.Length0 == CHUNK_WIDTH && cells.Length1 == CHUNK_HEIGHT
      && floodedAmount >= 0.0
      && forall i, j :: 0 <= i < CHUNK_WIDTH && 0 <= j < CHUNK_HEIGHT ==> ValidCell(cells[i, j])
    }

    /** Well formed, and no cell stands above the flood cap of its column. */
    ghost predicate Valid()
      reads this, cells
    {
      && WellFormed()
      && forall i, j :: 0 <= i < CHUNK_WIDTH && 0 <= j < CHUNK_HEIGHT ==>
           cells[i, j].height <= FloodBound(i, floodedAmount)
    }

    constructor (builder: Builder, even: bool, d: Draws)
      requires d.Valid()
      ensures Valid() && fresh(cells)
      ensures this.even == even && floodedAmount == 0.0
      ensures forall i, j :: 0 <= i < CHUNK_WIDTH && 0 <= j < CHUNK_HEIGHT ==> cells[i, j] == BuilderCell(builder, d, i, j)
    {
      var data := Build(builder, d);
      cells := data;
      this.even := even;
      floodedAmount := 0.0;
      new;
      forall i, j | 0 <= i < CHUNK_WIDTH && 0 <= j < CHUNK_HEIGHT
        ensures cells[i, j].height <= FloodBound(i, floodedAmount)
      {
        assert FloodBound(i, 0.0) == 1.0;
      }
    }

    /** A chunk flooded 8 columns past its last one is all water. */
    lemma Submerged()
      requires Valid() && floodedAmount >= (CHUNK_WIDTH + 7) as real
      ensures forall i, j :: 0 <= i < CHUNK_WIDTH && 0 <= j < CHUNK_HEIGHT ==> cells[i, j].height == 0.0
    {
      forall i, j | 0 <= i < CHUNK_WIDTH && 0 <= j < CHUNK_HEIGHT
        ensures cells[i, j].height == 0.0
      {
        assert FloodBound(i, floodedAmount) == 0.0;
        assert ValidCell(cells[i, j]);
      }
    }

    /** Pulls every cell down to its column's flood cap. */
    method UpdateValues()
      requires WellFormed()
      modifies cells
      ensures Valid()
      ensures forall i, j :: 0 <= i < CHUNK_WIDTH && 0 <= j < CHUNK_HEIGHT ==>
        cells[i, j] == FloodCell(old(cells[i, j]), FloodBound(i, floodedAmount))
    {
      var f := floodedAmount;
      var i := 0;
      while i < CHUNK_WIDTH
        invariant 0 <= i <= CHUNK_WIDTH
        invariant forall a, b :: 0 <= a < CHUNK_WIDTH && 0 <= b < CHUNK_HEIGHT ==>
          cells[a, b] == if a < i then FloodCell(old(cells[a, b]), FloodBound(a, f)) else old(cells[a, b])
      {
        var k := FloodBound(i, f);
        var j := 0;
        while j < CHUNK_HEIGHT
          invariant 0 <= j <= CHUNK_HEIGHT
          invariant forall a, b :: 0 <= a < CHUNK_WIDTH && 0 <= b < CHUNK_HEIGHT ==>
            cells[a, b] ==
              if a < i || (a == i && b < j) then FloodCell(old(cells[a, b]), FloodBound(a, f)) else old(cells[a, b])
        {
          if cells[i, j].height > k {
            cells[i, j] := cells[i, j].(height := k);
          }
          j := j + 1;
        }
        i := i + 1;
      }
    }

    /** Advances the sinking animation of every low cell by `time`. */
    method UpdateAnimations(time: real)
      requires Valid() && time >= 0.0
      modifies cells
      ensures Valid()
      ensures forall i, j :: 0 <= i < CHUNK_WIDTH && 0 <= j < CHUNK_HEIGHT ==>
        cells[i, j] == AnimateCell(old(cells[i, j]), time)
    {
      var i := 0;
      while i < CHUNK_WIDTH
        invariant 0 <= i <= CHUNK_WIDTH
        invariant forall a, b :: 0 <= a < CHUNK_WIDTH && 0 <= b < CHUNK_HEIGHT ==>
          cells[a, b] == if a < i then AnimateCell(old(cells[a, b]), time) else old(cells[a, b])
      {
        var j := 0;
        while j < CHUNK_HEIGHT
          invariant 0 <= j <= CHUNK_HEIGHT
          invariant forall a, b :: 0 <= a < CHUNK_WIDTH && 0 <= b < CHUNK_HEIGHT ==>
            cells[a, b] ==
              if a < i || (a == i && b < j) then AnimateCell(old(cells[a, b]), time) else old(cells[a, b])
        {
          if cells[i, j].height < START_ANIM_HEIGHT {
            cells[i, j] := cells[i, j].(animationTime := cells[i, j].animationTime + 0.8 * time);
            // the source's cap here assigns a misspelled property and so has no effect
          }
          j := j + 1;
        }
        i := i + 1;
      }
    }
  }

  /* ---------------------------------------------------- vectors and player */

  /** The value of a Vector2. */
  datatype Vec = Vec(x: real, y: real)

  /** The squared length of `v`: never negative, and 0 for the zero vector. */
  function SquaredLength(v: Vec): (s: real)
    ensures s >= 0.0
    ensures v == Vec(0.0, 0.0) ==> s == 0.0
  {
    SquareNonNegative(v.x);
    SquareNonNegative(v.y);
    v.x * v.x + v.y * v.y
  }

  /** `v + k * w`, componentwise. */
  function Plus(v: Vec, w: Vec, k: real): (r: Vec)
    ensures w == Vec(0.0, 0.0) || k == 0.0 ==> r == v
  {
    Vec(v.x + w.x * k, v.y + w.y * k)
  }

  /** `v` divided by its length `len`, or `v` itself when `len` is 0. */
  function Divided(v: Vec, len: real): (r: Vec)
    ensures len == 0.0 || v == Vec(0.0, 0.0) ==> r == v
    ensures len != 0.0 ==> r.x * len == v.x && r.y * len == v.y
  {
    if len == 0.0 then v else Vec(v.x / len, v.y / len)
  }

  /** `v` with both components multiplied by `k`. */
  function Scaled(v: Vec, k: real): (r: Vec)
    ensures k == 1.0 ==> r == v
    ensures k == 0.0 || v == Vec(0.0, 0.0) ==> r == Vec(0.0, 0.0)
  {
    Vec(v.x * k, v.y * k)
  }

  /** A mutable 2-D vector, used for the player's velocity and facing direction. */
  class Vector2 {
    var x: real
    var y: real

    function Value(): Vec
      reads this
    {
      Vec(x, y)
    }

    constructor (x: real, y: real)
      ensures Value() == Vec(x, y)
    {
      this.x := x;
      this.y := y;
    }

    /** The squared length; `length()` is its square root. */
    function LengthSquared(): (s: real)
      reads this
      ensures s == SquaredLength(Value())
    {
      SquaredLength(Value())
    }

    /** Adds `amount` times `direction`, componentwise (also when `direction` is this vector). */
    method Append(direction: Vector2, amount: real)
      modifies this
      ensures Value() == Plus(old(Value()), old(direction.Value()), amount)
    {
      x := x + direction.x * amount;
      y := y + direction.y * amount;
    }

    method Zero()
      modifies this
      ensures Value() == Vec(0.0, 0.0)
    {
      x := 0.0;
      y := 0.0;
    }

    /** Divides by the length `len` (the square root of LengthSquared()); the zero vector stays put. */
    method Normalize(len: real)
      requires len >= 0.0 && len * len == LengthSquared()
      modifies this
      ensures Value() == Divided(old(Value()), len)
    {
      if len == 0.0 {
        return;
      }
      x, y := x / len, y / len;
    }
  }

  lemma SquareNonNegative(a: real)
    ensures a * a >= 0.0
  {
    if a < 0.0 {
      assert a * a == (-a) * (-a);
    }
  }



  datatype PlayerState = Standing | Walking | Jumping | Falling | Drowning

  /** Largest rise between two cells the player can walk up. */
  const MAX_STEP: real := 0.15

  /** The player's kinematic state, tuning constants, timers and score. */
  class Player {
    var x: real
    var y: real
    var height: real

    const velocity: Vector2
    const runningVelocity: real := 6.7
    const maxVelocity: real := 8.0
    const runningAcceleration: real := 18.0
    const runningDeceleration: real := 3.0
    const standingDeceleration: real := 29.0
    const jumpAcceleration: real := 1.0

    var animationTimer: real
    const animationPeriod: real := 0.5

    var airborneTimer: real
    const airbornePeriod: real := 1.0

    const direction: Vector2
    var state: PlayerState

    var score: int

    /** The default player: centred in the chunk, on full height, at rest, standing. */
    constructor ()
      ensures x == Trunc(CHUNK_WIDTH as real / 2.0) as real && y == Trunc(CHUNK_HEIGHT as real / 2.0) as real
      ensures x == CHUNK_HALF_WIDTH as real && y == CHUNK_HALF_HEIGHT as real
      ensures height == 1.0
      ensures fresh(velocity) && fresh(direction) && velocity != direction
      ensures velocity.Value() == Vec(0.0, 0.0) && direction.Value() == Vec(0.0, 0.0)
      ensures animationTimer == 0.0 && airborneTimer == 0.0
      ensures state == Standing && score == 0
    {
      x := Trunc(CHUNK_WIDTH as real / 2.0) as real;
      y := Trunc(CHUNK_HEIGHT as real / 2.0) as real;
      height := 1.0;
      velocity := new Vector2(0.0, 0.0);
      animationTimer := 0.0;
      airborneTimer := 0.0;
      direction := new Vector2(0.0, 0.0);
      state := Standing;
      score := 0;
    }
  }
}
