/**
 * The client's viewport (public/Camera.ts): the top-left corner of the
 * visible window in world coordinates, centred on the local player and
 * clamped to the world.
 */
module Camera {

  /**
   * One axis of Camera.update: centre the window on `center`, raise a
   * negative offset to 0, then lower an offset past the far edge to
   * `world - window` (in that order, so a window wider than the world ends
   * at the negative offset `world - window`).
   */
  function ClampOffset(center: real, window: real, world: real): (r: real)
    ensures world >= window ==> 0.0 <= r <= world - window
    ensures 0.0 <= center - window / 2.0 <= world - window ==> r == center - window / 2.0
    ensures center - window / 2.0 < 0.0 && world >= window ==> r == 0.0
    ensures center - window / 2.0 > world - window ==> r == world - window
  {
    var offset := center - window / 2.0;
    var offset := if offset < 0.0 then 0.0 else offset;
    if offset > world - window then world - window else offset
  }

  /** The camera offset never decreases as the player moves right (or down). */
  lemma ClampMonotone(a: real, b: real, window: real, world: real)
    requires a <= b
    ensures ClampOffset(a, window, world) <= ClampOffset(b, window, world)
  {
  }

  class Camera {
    var x: real
    var y: real
    const gameWindowWidth: real
    const gameWindowHeight: real
    const gameWidth: real
    const gameHeight: real

    constructor (gameWindowWidth: real, gameWindowHeight: real, gameWidth: real, gameHeight: real)
      ensures x == 0.0 && y == 0.0
      ensures this.gameWindowWidth == gameWindowWidth && this.gameWindowHeight == gameWindowHeight
      ensures this.gameWidth == gameWidth && this.gameHeight == gameHeight
    {
      x := 0.0;
      y := 0.0;
      this.gameWindowWidth := gameWindowWidth;
      this.gameWindowHeight := gameWindowHeight;
      this.gameWidth := gameWidth;
      this.gameHeight := gameHeight;
    }

    /**
     * update: x depends only on the player's x and y only on its y; the
     * previous offsets are overwritten, so repeating the call is idempotent.
     */
    method Update(playerX: real, playerY: real)
      modifies this
      ensures x == ClampOffset(playerX, gameWindowWidth, gameWidth)
      ensures y == ClampOffset(playerY, gameWindowHeight, gameHeight)
    {
      x := playerX - gameWindowWidth / 2.0;
      if x < 0.0 {
        x := 0.0;
      }
      if x > gameWidth - gameWindowWidth {
        x := gameWidth - gameWindowWidth;
      }
      y := playerY - gameWindowHeight / 2.0;
      if y < 0.0 {
        y := 0.0;
      }
      if y > gameHeight - gameWindowHeight {
        y := gameHeight - gameWindowHeight;
      }
    }
  }
}
