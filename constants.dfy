/**
 * Game configuration shared by the server (server/config/constants.ts).
 * Positions are exact reals; the integer-valued constants used in
 * position arithmetic are given as reals.
 */
module Constants {
  const GAMEWIDTH: real := 2048.0    // 32 tiles of 64 pixels
  const GAMEHEIGHT: real := 2048.0
  const SPEED: real := 3.0
  const RADIUS: real := 15.0
  const PROJECTILE_RADIUS: real := 4.0
  const OBSTACLE_WIDTH: int := 64
  const OBSTACLE_HEIGHT: int := 64
  const ENEMY_TARGET_RETARGET_INTERVAL: int := 20
}
