# Grid-walking core of the world exploration game

This project models the engine-independent core of the two MonoGame `Game1` classes of the
world exploration game, and proves properties of it in Dafny.

Each class keeps a tile map `_map`, a player tile position and a time accumulator
`_timeSinceLastMove`. Each class does three things:

- `Initialize` fills a two-dimensional `int` map with grass (`1`) using nested loops and
  places the player.
- `Update` adds the frame's elapsed time to the accumulator. Once the accumulator reaches
  `MovementCooldown` (0.075 s), it applies Up, Down, Left and Right in that fixed order. Each
  key is a one-tile step clamped to the map edge. The accumulator goes back to 0 whenever one
  of these keys is held, even when the clamp leaves the player where it was.
- `Draw` emits one grass sprite per grass cell, row by row, and then one player sprite.

The two variants differ as follows:

- `Game1.cs` (module `CenteredGame`) has a `MapSize x MapSize` map that starts with the
  player in the middle. The camera shifts every map sprite by an integer offset, so the
  player's tile lands on the middle screen tile, which is where the player sprite is drawn.
- `WorldExplorationGame/Game1.cs` (module `ScreenGame`) has a map exactly as large as the
  screen, measured in 80-pixel tiles. The player starts on tile (4, 5), movement is clamped to
  the screen, and nothing is offset.

Layout:

- `constants.dfy` (`Constants`): the tuning values of `Constants.cs`.
- `movement.dfy` (`Movement`): the step shared by both `Update` methods, as the pure function
  `Step`. It also has the game loop `Run` over a sequence of frames, with lemmas about many
  frames.
- `viewport.dfy` (`Viewport`): integer ceiling division. It gives the screen size in tiles.
- `tile_map.dfy` (`TileMap`): the map seen as rows, the nested-loop grass fill, and the count
  of grass cells.
- `render.dfy` (`Render`): the draw list. `GrassTiles` lists the grass cells in the order the
  draw loops visit them. The lemmas prove that this list is sound, strictly row-major,
  complete, and as long as the number of grass cells. `DrawRow` and `DrawGrass` are the loops
  themselves.
- `centered_game.dfy` and `screen_game.dfy`: the two `Game1` classes. Each has the fields of
  its source class, `Initialize`, `Update` and `Draw`. `Update` is proved equal to `Step` on
  the player state. `Draw` is proved equal to the draw-list specification.

Scope of the modelled code: the two classes have no obstacles, no collision checks and no
layered drawing; every map cell is grass, and the only things drawn are grass tiles and the
player. The accumulator resets only when a direction key is held; elapsing the cooldown alone
does not reset it.

## Model

| member | source | states |
|---|---|---|
| `Movement.Step` | Game1.cs:67-92 | The accumulator becomes 0 exactly when the accumulated time has reached the cooldown and a direction key is held, even if the clamp leaves the position unchanged; otherwise it is old value + elapsed. Below the cooldown or with no key held the position is unchanged. x changes only through Left/Right and y only through Up/Down. A position in `[0,maxX] x [0,maxY]` stays in it, and each coordinate moves by at most `MovementSpeed`. A single key moves only in its direction, and by exactly `MovementSpeed` away from the edge. With opposing keys held (and the cooldown elapsed), the keys cancel except on the top or left edge: there the clamped Up or Left lets Down or Right move the player to `Min(max, MovementSpeed)`, one tile unless the map is a single tile wide or tall. |
| `Movement.RunStaysInBounds` | Game1.cs:73-92 | Over any sequence of frames and keys, a player who starts on the map never leaves it. |
| `Movement.RunBelowCooldown` | Game1.cs:67-69 | Frames whose non-negative elapsed times together stay below the cooldown never move the player, and the accumulator ends at its start value + their total. Key presses in those frames are dropped. |
| `Movement.RunIdle` | Game1.cs:67-92 | Over frames with no direction key held, the position never changes and the accumulator only grows, by the total elapsed time. |
| `Movement.BlockedPressConsumesCooldown` | Game1.cs:73-87 | On tile (0,0) with the cooldown elapsed, holding Up and Left leaves the position unchanged but still resets the accumulator to 0. |
| `Viewport.CeilDiv` | Game1.cs:36-37 | The screen tile count is the least `q` with `pixels <= q * tileSize`, i.e. `(q-1)*tileSize < pixels <= q*tileSize`, and is non-negative for a non-negative size. |
| `TileMap.NewGrassMap` | Game1.cs:43-50 | The map is freshly allocated with `height` rows and `width` columns, and every cell holds grass (1). |
| `TileMap.FilledGrassCount` | Game1.cs:43-50 | A map filled with grass has `height * width` grass cells. |
| `Render.GrassTilesSound` | Game1.cs:111-118 | Every tile in the grass draw order lies inside the map and holds grass. |
| `Render.GrassTilesRowMajor` | Game1.cs:111-114 | Grass tiles come in strictly increasing row-major order (earlier row, or same row and earlier column), so no cell is drawn twice. |
| `Render.GrassTilesComplete` | Game1.cs:111-118 | Every grass cell of the map appears in the grass draw order. |
| `Render.GrassTilesCount` | Game1.cs:111-118 | The grass draw order has exactly as many tiles as the map has grass cells (the count of 1s among all cells). |
| `Render.DrawTilesAt` | Game1.cs:117 | The i-th grass draw call is the grass texture over the i-th tile's `size x size` square, shifted by the offset. There is one call per tile. |
| `Render.DrawnGrassCount` | Game1.cs:111-120 | The map part of the draw list has one call per grass cell. |
| `Render.GrassCellDrawn` | Game1.cs:111-120 | Every grass cell gets a grass draw call over its own square. |
| `Render.DrawRow` | Game1.cs:113-119 | The inner loop emits the grass calls of one row, left to right, exactly as the specification lists them. |
| `Render.DrawGrass` | Game1.cs:111-120 | The nested loops emit the grass calls of the whole map, in row-major order, exactly as the specification lists them. |
| `CenteredGame.CameraOffset` | Game1.cs:107-108 | The offset puts the player's tile at the middle screen tile: `player * s + offset == (screenTiles / 2) * s` on each axis. |
| `CenteredGame.CameraCentres` | Game1.cs:107-123 | A tile square shifted by the camera offsets lies `t - player` tiles from the middle screen tile. The player's own tile lands exactly on the player sprite's rectangle `((w/2)*s, (h/2)*s, s, s)`. |
| `CenteredGame.CentredGrass` | Game1.cs:107-117 | Each grass call of the offset draw list is at its tile's centred place. |
| `CenteredGame.Game1.constructor` | Game1.cs:15-25 | The new game holds the given map size and viewport, and its accumulator is 0. |
| `CenteredGame.Game1.Initialize` | Game1.cs:35-50 | Afterwards the screen tile counts are the ceilings of the viewport sizes over 80. The player is at `(MapSize/2, MapSize/2)`, which is on the map (`Valid`). The map is `MapSize x MapSize`, all grass. |
| `CenteredGame.Game1.Update` | Game1.cs:67-92 | The new position and accumulator are `Step` of the old ones with bounds `MapSize - 1`. The player stays on the map (`Valid` is kept), and the map and screen counts are untouched. |
| `CenteredGame.Game1.Draw` | Game1.cs:104-123 | Once initialised (`Valid`), emits the grass calls of all grass cells in row-major order, at their centred places, and then exactly one player call at the middle screen tile. The total is the grass-cell count + 1. The grass call for the player's tile, when it is grass, has exactly the player sprite's rectangle. |
| `ScreenGame.StartOnScreen` | WorldExplorationGame/Game1.cs:33-37 | The start tile (4,5) is on the screen exactly when the viewport is wider than 320 and taller than 400 pixels. |
| `ScreenGame.Game1.constructor` | WorldExplorationGame/Game1.cs:15-23 | The new game holds the given viewport, and its accumulator is 0. |
| `ScreenGame.Game1.Initialize` | WorldExplorationGame/Game1.cs:33-47 | The player is on tile (4,5). The map is `screenHeightInTiles x screenWidthInTiles` (ceilings of the viewport sizes over 80), all grass. |
| `ScreenGame.Game1.Update` | WorldExplorationGame/Game1.cs:64-93 | The new position and accumulator are `Step` of the old ones, with bounds one less than the screen tile counts. A player on the screen stays on it, and the map keeps the screen's dimensions (`Valid`). |
| `ScreenGame.Game1.Draw` | WorldExplorationGame/Game1.cs:105-120 | Once initialised (`Valid`: the map has the screen's dimensions), emits the grass calls of all grass cells in row-major order, with no offset: cell (x,y) at `(x*80, y*80)`, size 80x80. Then exactly one player call at `(X*80, Y*80)`. The total is the grass-cell count + 1. |

## Left out

- Window and display-mode setup, full screen and `ApplyChanges`: device configuration.
- Content loading, `SpriteBatch` creation, `Begin`/`End`, the clear colour, the tint colour and the sampler state, and the `base.Initialize/Update/Draw` calls: engine calls. Textures are the opaque tags `GrassTexture` and `PlayerTexture`.
- The GamePad Back / Escape check and `Exit()`: process plumbing.
- Keyboard polling: `Update` takes four resolved booleans (W or Up, S or Down, A or Left, D or Right).
- The `double` accumulator and elapsed time are `real`, so floating-point rounding of the sum is not modelled. `MovementCooldown` is the exact rational 0.075.
- `ScaleFactor` is a `float` in the source; the model uses the exact integer 5, so a tile is 80 pixels. `Math.Ceiling` on doubles is integer ceiling division.
- `Constants.MapSize` is not defined in `Constants.cs`. The root variant takes it as a constructor parameter, at least 1.
- The viewport is fixed. The `WorldExplorationGame/` variant measures it again on every accepted `Update`; the model reads the same fixed size each time, so it does not model a viewport that changes between frames.
- Pixel arithmetic uses unbounded integers. 32-bit overflow of `x * 80 + offset` cannot happen for realistic map sizes and is not modelled.
- `Constants.ScreenHeightInTiles` is not used by either class and is not modelled.
- Both `Game1` classes allocate the map in `Initialize`. Before that, their constructors hold an empty 0x0 array in place of the source's null `_map`. In the source, a `Draw` before `Initialize` would dereference that null map (Game1.cs:111, WorldExplorationGame/Game1.cs:108). The model does not describe that failure: both `Draw` methods, and both `Update` methods, require `Valid()`, which only `Initialize` establishes.
