/** The game's tuning values (Constants.cs). */
module Constants {
  /** Side of one texture tile, in texture pixels. */
  const TileSize: int := 16
  /** Texture scale; a `float` 5.0 in the source, exact as an integer. */
  const ScaleFactor: int := 5
  /** Side of one tile on screen, in screen pixels: the source's `(int)(TileSize * ScaleFactor)`. */
  const ScaledTileSize: int := TileSize * ScaleFactor
  /** Seconds that must accumulate before keyboard input is read again. */
  const MovementCooldown: real := 0.075
  /** Tiles moved per held direction key per accepted step. */
  const MovementSpeed: int := 1
}
