/** The persistent aggregate every phase works on, and `getInitialData` (js/04_main.js). */
module Data {
  import opened Consts
  import opened Structs
  import opened Cookies

  /** The draws of the three chunks of a new game. */
  datatype InitDraws = InitDraws(previous: Draws, current: Draws, next: Draws) {
    ghost predicate Valid() {
      previous.Valid() && current.Valid() && next.Valid()
    }
  }

  /** `persistentData`: the player, the three-chunk window, the wave and water clocks, the high score. */
  class PersistentData {
    const player: Player
    var previousChunk: Chunk
    var currentChunk: Chunk
    var nextChunk: Chunk
    var waveVelocity: real
    var waterTime: real
    const WATER_PERIOD: real := 2.0
    var highscore: Number

    /** Every object the aggregate owns. */
    ghost function Repr(): set<object>
      reads this
    {
      {this, player, player.velocity, player.direction,
       previousChunk, previousChunk.cells, currentChunk, currentChunk.cells, nextChunk, nextChunk.cells}
    }

    /** No two parts are shared, each chunk is well formed, wave speed and score are never negative. */
    ghost predicate Valid()
      reads this, Repr()
    {
      && player.velocity != player.direction
      && previousChunk != currentChunk && currentChunk != nextChunk && previousChunk != nextChunk
      && previousChunk.cells != currentChunk.cells && currentChunk.cells != nextChunk.cells
      && previousChunk.cells != nextChunk.cells
      && previousChunk.Valid() && currentChunk.Valid() && nextChunk.Valid()
      && waveVelocity >= 0.0 && waterTime >= 0.0
      && player.score >= 0 && player.animationTimer >= 0.0
    }

    constructor (player: Player, previousChunk: Chunk, currentChunk: Chunk, nextChunk: Chunk, highscore: Number)
      ensures this.player == player && this.highscore == highscore
      ensures this.previousChunk == previousChunk && this.currentChunk == currentChunk && this.nextChunk == nextChunk
      ensures waveVelocity == 0.0 && waterTime == 0.0
    {
      this.player := player;
      this.previousChunk := previousChunk;
      this.currentChunk := currentChunk;
      this.nextChunk := nextChunk;
      waveVelocity := 0.0;
      waterTime := 0.0;
      this.highscore := highscore;
    }

    /** The state of a new game made from draws `d` with the cookie `cookie`. */
    ghost predicate IsInitial(d: InitDraws, cookie: string)
      requires d.Valid()
      reads this, Repr()
    {
      && previousChunk.even && !currentChunk.even && nextChunk.even
      && previousChunk.floodedAmount == 0.0 && currentChunk.floodedAmount == 0.0 && nextChunk.floodedAmount == 0.0
      && previousChunk.cells.Length0 == CHUNK_WIDTH && previousChunk.cells.Length1 == CHUNK_HEIGHT
      && currentChunk.cells.Length0 == CHUNK_WIDTH && currentChunk.cells.Length1 == CHUNK_HEIGHT
      && nextChunk.cells.Length0 == CHUNK_WIDTH && nextChunk.cells.Length1 == CHUNK_HEIGHT
      && (forall i, j :: 0 <= i < CHUNK_WIDTH && 0 <= j < CHUNK_HEIGHT ==>
            && previousChunk.cells[i, j] == BuilderCell(LeapBuilder, d.previous, i, j)
            && currentChunk.cells[i, j] == BuilderCell(StartBuilder, d.current, i, j)
            && nextChunk.cells[i, j] == BuilderCell(StraightBuilder, d.next, i, j))
      && player.x == CHUNK_HALF_WIDTH as real && player.y == CHUNK_HALF_HEIGHT as real
      && player.height == 1.0 && player.state == Standing && player.score == 0
      && player.velocity.Value() == Vec(0.0, 0.0) && player.direction.Value() == Vec(0.0, 0.0)
      && player.animationTimer == 0.0 && player.airborneTimer == 0.0
      && waveVelocity == 0.0 && waterTime == 0.0 && WATER_PERIOD == 2.0
      && highscore == CookieScore(cookie)
    }
  }

  /** `getInitialData`: previous = leap (even), current = start (odd), next = straight (even), a default player. */
  method GetInitialData(d: InitDraws, cookie: string) returns (data: PersistentData)
    requires d.Valid()
    ensures fresh(data.Repr())
    ensures data.Valid() && data.IsInitial(d, cookie)
  {
    var previousChunk := new Chunk(LeapBuilder, true, d.previous);
    var currentChunk := new Chunk(StartBuilder, false, d.current);
    var nextChunk := new Chunk(StraightBuilder, true, d.next);
    var player := new Player();
    var highscore := ReadScore(cookie);
    data := new PersistentData(player, previousChunk, currentChunk, nextChunk, highscore);
  }
}
