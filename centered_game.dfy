/**
 * `Game1` of the repository root: a `MapSize x MapSize` grass map explored by a
 * player whom the camera keeps at the middle of the screen.
 */
module CenteredGame {
  import opened Constants
  import opened Movement
  import opened Viewport
  import opened TileMap
  import opened Render

  /**
   * The camera offset along one axis: the amount every map sprite is shifted so
   * that the player's tile lands on the middle screen tile.
   */
  function CameraOffset(screenTiles: int, player: int, size: int): (offset: int)
    ensures player * size + offset == (screenTiles / 2) * size
  {
    (screenTiles / 2) * size - player * size
  }

  /** Where tile `t` appears on a screen centred on the player: `t - player` tiles from the middle tile. */
  function CentredRect(t: Tile, playerX: int, playerY: int, widthInTiles: int, heightInTiles: int): Rect {
    Rect((widthInTiles / 2 + t.x - playerX) * ScaledTileSize, (heightInTiles / 2 + t.y - playerY) * ScaledTileSize,
         ScaledTileSize, ScaledTileSize)
  }

  /**
   * Shifting a tile's square by the camera offset puts it at its centred place;
   * in particular the player's own tile lands on the middle screen tile.
   */
  lemma CameraCentres(t: Tile, playerX: int, playerY: int, widthInTiles: int, heightInTiles: int)
    ensures TileRect(t, ScaledTileSize, CameraOffset(widthInTiles, playerX, ScaledTileSize),
                     CameraOffset(heightInTiles, playerY, ScaledTileSize))
            == CentredRect(t, playerX, playerY, widthInTiles, heightInTiles)
    ensures CentredRect(Tile(playerX, playerY), playerX, playerY, widthInTiles, heightInTiles)
            == Rect((widthInTiles / 2) * ScaledTileSize, (heightInTiles / 2) * ScaledTileSize, ScaledTileSize, ScaledTileSize)
  {
  }

  /** The map part of the draw list, tile by tile, at the tiles' centred places. */
  lemma CentredGrass(tiles: seq<Tile>, playerX: int, playerY: int, widthInTiles: int, heightInTiles: int)
    ensures forall i :: 0 <= i < |tiles| ==>
              i < |DrawTiles(tiles, ScaledTileSize, CameraOffset(widthInTiles, playerX, ScaledTileSize),
                             CameraOffset(heightInTiles, playerY, ScaledTileSize))|
              && DrawTiles(tiles, ScaledTileSize, CameraOffset(widthInTiles, playerX, ScaledTileSize),
                           CameraOffset(heightInTiles, playerY, ScaledTileSize))[i]
                 == DrawCall(GrassTexture, CentredRect(tiles[i], playerX, playerY, widthInTiles, heightInTiles))
  {
    var offsetX := CameraOffset(widthInTiles, playerX, ScaledTileSize);
    var offsetY := CameraOffset(heightInTiles, playerY, ScaledTileSize);
    DrawTilesAt(tiles, ScaledTileSize, offsetX, offsetY);
    forall i | 0 <= i < |tiles|
      ensures DrawTiles(tiles, ScaledTileSize, offsetX, offsetY)[i]
              == DrawCall(GrassTexture, CentredRect(tiles[i], playerX, playerY, widthInTiles, heightInTiles))
    {
      CameraCentres(tiles[i], playerX, playerY, widthInTiles, heightInTiles);
    }
  }

  class Game1 {
    /** `Constants.MapSize`, which the shipped constants leave undefined: a parameter here. */
    const mapSize: int
    /** The fixed viewport size in pixels. */
    const viewportWidth: int
    const viewportHeight: int

    var tileMap: array2<int>
    var playerX: int
    var playerY: int
    var timeSinceLastMove: real
    var screenHeightInTiles: int
    var screenWidthInTiles: int

    /** Established by `Initialize`: a square map, the player on it, the screen measured. */
    ghost predicate Valid()
      reads this
    {
      mapSize >= 1
      && tileMap.Length0 == mapSize && tileMap.Length1 == mapSize
      && 0 <= playerX < mapSize && 0 <= playerY < mapSize
      && screenHeightInTiles == CeilDiv(viewportHeight, ScaledTileSize)
      && screenWidthInTiles == CeilDiv(viewportWidth, ScaledTileSize)
    }

    function State(): Player
      reads this
    {
      Player(playerX, playerY, timeSinceLastMove)
    }

    ghost function Cells(): seq<seq<int>>
      reads this, tileMap
    {
      Rows(tileMap)
    }

    /** Where the player sprite is drawn: the middle screen tile. */
    function PlayerRect(): Rect
      reads this
    {
      Rect((screenWidthInTiles / 2) * ScaledTileSize, (screenHeightInTiles / 2) * ScaledTileSize,
           ScaledTileSize, ScaledTileSize)
    }

    /** The constructor and field initialisers; the map is not allocated until `Initialize`. */
    constructor (mapSize: int, viewportWidth: int, viewportHeight: int)
      requires mapSize >= 1 && viewportWidth >= 0 && viewportHeight >= 0
      ensures this.mapSize == mapSize
      ensures this.viewportWidth == viewportWidth && this.viewportHeight == viewportHeight
      ensures timeSinceLastMove == 0.0
    {
      this.mapSize := mapSize;
      this.viewportWidth := viewportWidth;
      this.viewportHeight := viewportHeight;
      tileMap := new int[0, 0];
      playerX, playerY := 0, 0;
      timeSinceLastMove := 0.0;
      screenHeightInTiles, screenWidthInTiles := 0, 0;
    }

    /**
     * Measures the screen in tiles, puts the player in the middle of the map and
     * fills a `mapSize x mapSize` map with grass.
     */
    method Initialize()
      requires mapSize >= 1
      modifies this
      ensures Valid() && fresh(tileMap)
      ensures playerX == mapSize / 2 && playerY == mapSize / 2
      ensures Cells() == Filled(mapSize, mapSize, Grass)
      ensures timeSinceLastMove == old(timeSinceLastMove)
    {
      screenHeightInTiles := CeilDiv(viewportHeight, ScaledTileSize);
      screenWidthInTiles := CeilDiv(viewportWidth, ScaledTileSize);
      playerX, playerY := mapSize / 2, mapSize / 2;
      tileMap := NewGrassMap(mapSize, mapSize);
    }

    /**
     * One frame: accumulate the elapsed time and, once the cooldown has passed,
     * apply Up, Down, Left and Right in that order, each clamped to the map, and
     * reset the accumulator whenever one of them is held.
     */
    method Update(elapsed: real, keys: Keys)
      requires Valid()
      modifies this`playerX, this`playerY, this`timeSinceLastMove
      ensures Valid()
      ensures State() == Step(old(State()), elapsed, keys, mapSize - 1, mapSize - 1)
    {
      timeSinceLastMove := timeSinceLastMove + elapsed;
      if timeSinceLastMove >= MovementCooldown {
        if keys.up {
          playerY := Max(0, playerY - MovementSpeed);
          timeSinceLastMove := 0.0;
        }
        if keys.down {
          playerY := Min(mapSize - 1, playerY + MovementSpeed);
          timeSinceLastMove := 0.0;
        }
        if keys.left {
          playerX := Max(0, playerX - MovementSpeed);
          timeSinceLastMove := 0.0;
        }
        if keys.right {
          playerX := Min(mapSize - 1, playerX + MovementSpeed);
          timeSinceLastMove := 0.0;
        }
      }
    }

    /**
     * The frame's draw list: every grass cell shifted by the camera offset, row
     * by row, then the player at the middle of the screen.
     */
    method Draw() returns (calls: seq<DrawCall>)
      requires Valid()
      ensures calls == DrawTiles(GrassTiles(Cells()), ScaledTileSize,
                                 CameraOffset(screenWidthInTiles, playerX, ScaledTileSize),
                                 CameraOffset(screenHeightInTiles, playerY, ScaledTileSize))
                       + [DrawCall(PlayerTexture, PlayerRect())]
      ensures |calls| == GrassCount(Cells()) + 1
      ensures forall i :: 0 <= i < |GrassTiles(Cells())| ==>
                i < |calls| - 1
                && calls[i] == DrawCall(GrassTexture, CentredRect(GrassTiles(Cells())[i], playerX, playerY,
                                                                  screenWidthInTiles, screenHeightInTiles))
      ensures IsGrassTile(Cells(), Tile(playerX, playerY)) ==>
                DrawCall(GrassTexture, PlayerRect()) in calls[..|calls| - 1]
    {
      var size := ScaledTileSize;
      var offsetX := CameraOffset(screenWidthInTiles, playerX, size);
      var offsetY := CameraOffset(screenHeightInTiles, playerY, size);
      var grass := DrawGrass(tileMap, size, offsetX, offsetY);
      calls := grass + [DrawCall(PlayerTexture, Rect((screenWidthInTiles / 2) * size, (screenHeightInTiles / 2) * size, size, size))];
      ghost var tiles := GrassTiles(Cells());
      assert |grass| == GrassCount(Cells()) by {
        DrawnGrassCount(Cells(), size, offsetX, offsetY);
      }
      assert forall i :: 0 <= i < |tiles| ==>
               i < |grass|
               && grass[i] == DrawCall(GrassTexture, CentredRect(tiles[i], playerX, playerY,
                                                                 screenWidthInTiles, screenHeightInTiles)) by {
        CentredGrass(tiles, playerX, playerY, screenWidthInTiles, screenHeightInTiles);
      }
      assert calls[..|calls| - 1] == grass;
      if IsGrassTile(Cells(), Tile(playerX, playerY)) {
        assert DrawCall(GrassTexture, PlayerRect()) in grass by {
          GrassCellDrawn(Cells(), Tile(playerX, playerY), size, offsetX, offsetY);
          CameraCentres(Tile(playerX, playerY), playerX, playerY, screenWidthInTiles, screenHeightInTiles);
        }
      }
    }
  }
}
