/** Screen, grid and gameplay constants (js/00_consts.js). */
module Consts {
  import opened JsMath

  const SCREEN_WIDTH: int := 256
  const SCREEN_HEIGHT: int := 256
  const INTRO_PERIOD: real := 4.0
  const TOP_OFFSET: int := 24
  const GRID_SIZE: int := 16

  /** Cells per chunk along the direction of travel. */
  const CHUNK_WIDTH: int := 16
  /** Cells per chunk across the direction of travel. */
  const CHUNK_HEIGHT: int := 12
  const CHUNK_HALF_WIDTH: int := 8
  const CHUNK_HALF_HEIGHT: int := 6

  const PATH_WIDTH: int := 4

  const PLAYER_SCORE_STEP_MULTI: int := 3
  const PASSED_CHUNK_FLOODING_SPEED: real := 16.0
  const FLOODING_SPEED_STEP: real := 0.5
  const BUTTON_FLOODING_SPEED_DOWN: real := 1.0
  const BUTTON_SCORE_DOWN: int := 4
  const BUTTON_FLOODING_SPEED_UP: real := 0.2
  const BUTTON_SCORE_UP: int := 10

  /** The geometry constants are the values of the source's truncating expressions. */
  lemma GeometryFromScreen()
    ensures CHUNK_WIDTH == Trunc(SCREEN_WIDTH as real / GRID_SIZE as real)
    ensures CHUNK_HEIGHT == Trunc(SCREEN_HEIGHT as real / GRID_SIZE as real) - 4
    ensures CHUNK_HALF_WIDTH == Trunc(CHUNK_WIDTH as real / 2.0)
    ensures CHUNK_HALF_HEIGHT == Trunc(CHUNK_HEIGHT as real / 2.0)
  {
  }

  /** Every gameplay step constant is positive, so the clamps below are the only way down. */
  lemma GameplayConstantsPositive()
    ensures INTRO_PERIOD > 0.0 && PATH_WIDTH > 0 && PLAYER_SCORE_STEP_MULTI > 0
    ensures PASSED_CHUNK_FLOODING_SPEED > 0.0 && FLOODING_SPEED_STEP > 0.0
    ensures BUTTON_FLOODING_SPEED_DOWN > 0.0 && BUTTON_SCORE_DOWN > 0
    ensures BUTTON_FLOODING_SPEED_UP > 0.0 && BUTTON_SCORE_UP > 0
  {
  }
}
