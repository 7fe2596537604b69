/** Game constants of the tank game (src/games/constants.ts). */
module Constants {
  /** Side of one grid tile, in pixels. */
  const TILE_SIZE: int := 32
  /** Number of tile columns. */
  const GRID_WIDTH: int := 20
  /** Number of tile rows. */
  const GRID_HEIGHT: int := 15
  /** Milliseconds between two explosion animation frames. */
  const EXPLOSION_FRAME_TIME: real := 80.0
  /** Chance that a destroyed enemy drops a powerup. */
  const POWERUP_CHANCE: real := 0.4
  /** Lifetime of a dropped powerup, in milliseconds. */
  const POWERUP_DURATION: real := 10000.0

  /** Width and height of the play field in pixels (`World.width`, `World.height`). */
  const WORLD_WIDTH: real := (GRID_WIDTH * TILE_SIZE) as real
  const WORLD_HEIGHT: real := (GRID_HEIGHT * TILE_SIZE) as real
}
