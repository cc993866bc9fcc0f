/**
 * `Game1` of `WorldExplorationGame/`: a map exactly the size of the screen, drawn
 * without a camera, with the player walking across it.
 */
module ScreenGame {
  import opened Constants
  import opened Movement
  import opened Viewport
  import opened TileMap
  import opened Render

  /** Screen tile counts for a viewport of the given pixel size, as computed on every use. */
  function TilesAcross(pixels: int): int {
    CeilDiv(pixels, ScaledTileSize)
  }

  /** The fixed starting tile. */
  const StartX: int := 4
  const StartY: int := 5

  /**
   * The starting tile (4, 5) lies on the screen exactly when the viewport is wider
   * than 4 tiles and taller than 5 tiles (320 and 400 pixels at 80 pixels a tile).
   */
  lemma StartOnScreen(viewportWidth: int, viewportHeight: int)
    ensures InBounds(Player(StartX, StartY, 0.0), TilesAcross(viewportWidth) - 1, TilesAcross(viewportHeight) - 1)
            <==> viewportWidth > StartX * ScaledTileSize && viewportHeight > StartY * ScaledTileSize
  {
  }

  class Game1 {
    /** The fixed viewport size in pixels. */
    const viewportWidth: int
    const viewportHeight: int

    var tileMap: array2<int>
    var playerX: int
    var playerY: int
    var timeSinceLastMove: real

    /** Established by `Initialize`: the map covers the screen, one cell per screen tile. */
    ghost predicate Valid()
      reads this
    {
      tileMap.Length0 == TilesAcross(viewportHeight) && tileMap.Length1 == TilesAcross(viewportWidth)
    }

    /** The player stands on a screen tile. */
    predicate OnScreen()
      reads this
    {
      InBounds(State(), TilesAcross(viewportWidth) - 1, TilesAcross(viewportHeight) - 1)
    }

    function State(): Player
      reads this
    {
      Player(playerX, playerY, timeSinceLastMove)
    }

    ghost function Cells(): seq<seq<int>>
      reads this, tileMap
    {
      Rows(tileMap)
    }

    /** Where the player sprite is drawn: its own tile, unshifted. */
    function PlayerRect(): Rect
      reads this
    {
      TileRect(Tile(playerX, playerY), ScaledTileSize, 0, 0)
    }

    /** The constructor and field initialisers; the map is not allocated until `Initialize`. */
    constructor (viewportWidth: int, viewportHeight: int)
      requires viewportWidth >= 0 && viewportHeight >= 0
      ensures this.viewportWidth == viewportWidth && this.viewportHeight == viewportHeight
      ensures timeSinceLastMove == 0.0
    {
      this.viewportWidth := viewportWidth;
      this.viewportHeight := viewportHeight;
      tileMap := new int[0, 0];
      playerX, playerY := 0, 0;
      timeSinceLastMove := 0.0;
    }

    /** Puts the player on tile (4, 5) and fills a screen-sized map with grass. */
    method Initialize()
      requires viewportWidth >= 0 && viewportHeight >= 0
      modifies this
      ensures Valid() && fresh(tileMap)
      ensures playerX == StartX && playerY == StartY
      ensures Cells() == Filled(TilesAcross(viewportHeight), TilesAcross(viewportWidth), Grass)
      ensures timeSinceLastMove == old(timeSinceLastMove)
    {
      playerX, playerY := StartX, StartY;
      var screenHeightInTiles := TilesAcross(viewportHeight);
      var screenWidthInTiles := TilesAcross(viewportWidth);
      tileMap := NewGrassMap(screenHeightInTiles, screenWidthInTiles);
    }

    /**
     * One frame: accumulate the elapsed time and, once the cooldown has passed,
     * measure the screen and apply Up, Down, Left and Right in that order, each
     * clamped to the screen, resetting the accumulator whenever one is held.
     */
    method Update(elapsed: real, keys: Keys)
      requires Valid()
      modifies this`playerX, this`playerY, this`timeSinceLastMove
      ensures Valid()
      ensures State() == Step(old(State()), elapsed, keys,
                              TilesAcross(viewportWidth) - 1, TilesAcross(viewportHeight) - 1)
      ensures old(OnScreen()) ==> OnScreen()
    {
      timeSinceLastMove := timeSinceLastMove + elapsed;
      if timeSinceLastMove >= MovementCooldown {
        var screenHeightInTiles := TilesAcross(viewportHeight);
        var screenWidthInTiles := TilesAcross(viewportWidth);
        if keys.up {
          playerY := Max(0, playerY - MovementSpeed);
          timeSinceLastMove := 0.0;
        }
        if keys.down {
          playerY := Min(screenHeightInTiles - 1, playerY + MovementSpeed);
          timeSinceLastMove := 0.0;
        }
        if keys.left {
          playerX := Max(0, playerX - MovementSpeed);
          timeSinceLastMove := 0.0;
        }
        if keys.right {
          playerX := Min(screenWidthInTiles - 1, playerX + MovementSpeed);
          timeSinceLastMove := 0.0;
        }
      }
    }

    /**
     * The frame's draw list: every grass cell at its own screen square, row by
     * row, then the player at its tile's square.
     */
    method Draw() returns (calls: seq<DrawCall>)
      requires Valid()
      ensures calls == DrawTiles(GrassTiles(Cells()), ScaledTileSize, 0, 0) + [DrawCall(PlayerTexture, PlayerRect())]
      ensures |calls| == GrassCount(Cells()) + 1
      ensures forall i :: 0 <= i < |GrassTiles(Cells())| ==>
                i < |calls| - 1
                && calls[i] == DrawCall(GrassTexture, Rect(GrassTiles(Cells())[i].x * ScaledTileSize,
                                                           GrassTiles(Cells())[i].y * ScaledTileSize,
                                                           ScaledTileSize, ScaledTileSize))
      ensures IsGrassTile(Cells(), Tile(playerX, playerY)) ==>
                DrawCall(GrassTexture, PlayerRect()) in calls[..|calls| - 1]
    {
      var size := ScaledTileSize;
      var grass := DrawGrass(tileMap, size, 0, 0);
      calls := grass + [DrawCall(PlayerTexture, Rect(playerX * size, playerY * size, size, size))];
      ghost var tiles := GrassTiles(Cells());
      assert |grass| == GrassCount(Cells()) by {
        DrawnGrassCount(Cells(), size, 0, 0);
      }
      assert forall i :: 0 <= i < |tiles| ==>
               i < |grass| && grass[i] == DrawCall(GrassTexture, Rect(tiles[i].x * size, tiles[i].y * size, size, size)) by {
        DrawTilesAt(tiles, size, 0, 0);
      }
      assert calls[..|calls| - 1] == grass;
      if IsGrassTile(Cells(), Tile(playerX, playerY)) {
        assert DrawCall(GrassTexture, PlayerRect()) in grass by {
          GrassCellDrawn(Cells(), Tile(playerX, playerY), size, 0, 0);
        }
      }
    }
  }
}
