/**
 * The cooldown-gated, clamped grid step that both `Game1.Update` variants perform,
 * as a pure function of the player state, the frame's elapsed time and the held keys.
 */
module Movement {
  import opened Constants

  /** Direction keys as resolved booleans: up is W or Up, down is S or Down, and so on. */
  datatype Keys = Keys(up: bool, down: bool, left: bool, right: bool)
  {
    predicate AnyHeld() { up || down || left || right }
  }

  /** The mutable game fields `_playerPosition` and `_timeSinceLastMove`. */
  datatype Player = Player(x: int, y: int, timeSinceLastMove: real)

  /** One frame of input: the elapsed game time in seconds and the held keys. */
  datatype Frame = Frame(elapsed: real, keys: Keys)

  function Max(a: int, b: int): int { if a >= b then a else b }
  function Min(a: int, b: int): int { if a <= b then a else b }

  /** The position lies in the grid `[0, maxX] x [0, maxY]`. */
  predicate InBounds(p: Player, maxX: int, maxY: int) {
    0 <= p.x <= maxX && 0 <= p.y <= maxY
  }

  /**
   * One `Update` call. `maxX` and `maxY` are the largest legal column and row
   * (`MapSize - 1` in one variant, the screen tile counts minus one in the other).
   * The four keys are applied one after another, Up, Down, Left, Right, each
   * clamping against the grid edge it moves towards.
   */
  function Step(p: Player, elapsed: real, keys: Keys, maxX: int, maxY: int): (r: Player)
    // the accumulator keeps growing until the cooldown has elapsed AND a key is held; then it resets
    ensures r.timeSinceLastMove ==
              if p.timeSinceLastMove + elapsed >= MovementCooldown && keys.AnyHeld() then 0.0
              else p.timeSinceLastMove + elapsed
    // before the cooldown has elapsed, only the accumulator changes
    ensures p.timeSinceLastMove + elapsed < MovementCooldown ==> r.x == p.x && r.y == p.y
    // with no key held, the position stays put
    ensures !keys.AnyHeld() ==> r.x == p.x && r.y == p.y
    // x moves only through Left/Right, y only through Up/Down
    ensures !keys.left && !keys.right ==> r.x == p.x
    ensures !keys.up && !keys.down ==> r.y == p.y
    // the grid is never left
    ensures InBounds(p, maxX, maxY) ==> InBounds(r, maxX, maxY)
    // each coordinate moves at most MovementSpeed, even with opposing keys held
    ensures InBounds(p, maxX, maxY) ==>
              -MovementSpeed <= r.x - p.x <= MovementSpeed && -MovementSpeed <= r.y - p.y <= MovementSpeed
    // a single key moves in its direction only
    ensures keys.up && !keys.down && p.y >= 0 ==> r.y <= p.y
    ensures keys.down && !keys.up && p.y <= maxY ==> r.y >= p.y
    ensures keys.left && !keys.right && p.x >= 0 ==> r.x <= p.x
    ensures keys.right && !keys.left && p.x <= maxX ==> r.x >= p.x
    // away from the edge, a held key moves exactly MovementSpeed
    ensures (p.timeSinceLastMove + elapsed >= MovementCooldown && keys.up && !keys.down && p.y >= MovementSpeed)
              ==> r.y == p.y - MovementSpeed
    ensures (p.timeSinceLastMove + elapsed >= MovementCooldown && keys.down && !keys.up && p.y + MovementSpeed <= maxY)
              ==> r.y == p.y + MovementSpeed
    ensures (p.timeSinceLastMove + elapsed >= MovementCooldown && keys.left && !keys.right && p.x >= MovementSpeed)
              ==> r.x == p.x - MovementSpeed
    ensures (p.timeSinceLastMove + elapsed >= MovementCooldown && keys.right && !keys.left && p.x + MovementSpeed <= maxX)
              ==> r.x == p.x + MovementSpeed
    // opposing keys: since Up is applied before Down (and Left before Right), they cancel
    // except on the top (left) edge, where the clamped Up (Left) lets Down (Right) win
    ensures InBounds(p, maxX, maxY) && keys.up && keys.down ==> r.y >= p.y
    ensures InBounds(p, maxX, maxY) && keys.up && keys.down && p.y >= MovementSpeed ==> r.y == p.y
    ensures InBounds(p, maxX, maxY) && keys.left && keys.right ==> r.x >= p.x
    ensures InBounds(p, maxX, maxY) && keys.left && keys.right && p.x >= MovementSpeed ==> r.x == p.x
    ensures (InBounds(p, maxX, maxY) && p.timeSinceLastMove + elapsed >= MovementCooldown
             && keys.up && keys.down && p.y == 0) ==> r.y == Min(maxY, MovementSpeed)
    ensures (InBounds(p, maxX, maxY) && p.timeSinceLastMove + elapsed >= MovementCooldown
             && keys.left && keys.right && p.x == 0) ==> r.x == Min(maxX, MovementSpeed)
  {
    var t := p.timeSinceLastMove + elapsed;
    if t < MovementCooldown then
      p.(timeSinceLastMove := t)
    else
      var y1 := if keys.up then Max(0, p.y - MovementSpeed) else p.y;
      var y2 := if keys.down then Min(maxY, y1 + MovementSpeed) else y1;
      var x1 := if keys.left then Max(0, p.x - MovementSpeed) else p.x;
      var x2 := if keys.right then Min(maxX, x1 + MovementSpeed) else x1;
      Player(x2, y2, if keys.AnyHeld() then 0.0 else t)
  }

  /** The game loop calling `Update` once per frame. */
  function Run(p: Player, frames: seq<Frame>, maxX: int, maxY: int): Player
    decreases |frames|
  {
    if frames == [] then p
    else Run(Step(p, frames[0].elapsed, frames[0].keys, maxX, maxY), frames[1..], maxX, maxY)
  }

  /** Total game time of a sequence of frames. */
  function TotalElapsed(frames: seq<Frame>): real
    decreases |frames|
  {
    if frames == [] then 0.0 else frames[0].elapsed + TotalElapsed(frames[1..])
  }

  predicate NonNegativeElapsed(frames: seq<Frame>) {
    forall i :: 0 <= i < |frames| ==> frames[i].elapsed >= 0.0
  }

  lemma {:induction false} TotalElapsedNonNegative(frames: seq<Frame>)
    requires NonNegativeElapsed(frames)
    ensures TotalElapsed(frames) >= 0.0
    decreases |frames|
  {
    if frames != [] {
      assert NonNegativeElapsed(frames[1..]) by {
        forall i | 0 <= i < |frames[1..]| ensures frames[1..][i].elapsed >= 0.0 {
          assert frames[1..][i] == frames[i + 1];
        }
      }
      TotalElapsedNonNegative(frames[1..]);
    }
  }

  /** Over any number of frames, whatever keys are held, the player never leaves the grid. */
  lemma {:induction false} RunStaysInBounds(p: Player, frames: seq<Frame>, maxX: int, maxY: int)
    requires InBounds(p, maxX, maxY)
    ensures InBounds(Run(p, frames, maxX, maxY), maxX, maxY)
    decreases |frames|
  {
    if frames != [] {
      RunStaysInBounds(Step(p, frames[0].elapsed, frames[0].keys, maxX, maxY), frames[1..], maxX, maxY);
    }
  }

  /**
   * Frames whose elapsed times together stay below the cooldown never move the
   * player, and the accumulator just sums them; key presses in them are dropped.
   */
  lemma {:induction false} RunBelowCooldown(p: Player, frames: seq<Frame>, maxX: int, maxY: int)
    requires NonNegativeElapsed(frames)
    requires p.timeSinceLastMove + TotalElapsed(frames) < MovementCooldown
    ensures Run(p, frames, maxX, maxY) == p.(timeSinceLastMove := p.timeSinceLastMove + TotalElapsed(frames))
    decreases |frames|
  {
    if frames != [] {
      var rest := frames[1..];
      assert NonNegativeElapsed(rest) by {
        forall i | 0 <= i < |rest| ensures rest[i].elapsed >= 0.0 {
          assert rest[i] == frames[i + 1];
        }
      }
      TotalElapsedNonNegative(rest);
      var q := Step(p, frames[0].elapsed, frames[0].keys, maxX, maxY);
      assert q == p.(timeSinceLastMove := p.timeSinceLastMove + frames[0].elapsed);
      RunBelowCooldown(q, rest, maxX, maxY);
    }
  }

  /**
   * Over frames with no key held, the accumulator only grows and the position never
   * changes, however much time passes.
   */
  lemma {:induction false} RunIdle(p: Player, frames: seq<Frame>, maxX: int, maxY: int)
    requires forall i :: 0 <= i < |frames| ==> !frames[i].keys.AnyHeld()
    ensures Run(p, frames, maxX, maxY) == p.(timeSinceLastMove := p.timeSinceLastMove + TotalElapsed(frames))
    decreases |frames|
  {
    if frames != [] {
      var rest := frames[1..];
      assert forall i :: 0 <= i < |rest| ==> !rest[i].keys.AnyHeld() by {
        forall i | 0 <= i < |rest| ensures !rest[i].keys.AnyHeld() {
          assert rest[i] == frames[i + 1];
        }
      }
      RunIdle(Step(p, frames[0].elapsed, frames[0].keys, maxX, maxY), rest, maxX, maxY);
    }
  }

  /**
   * A press that the edge clamps away still spends the cooldown: holding Up on the
   * top row or Left on the left column leaves the position and resets the accumulator.
   */
  lemma BlockedPressConsumesCooldown(p: Player, elapsed: real, maxX: int, maxY: int)
    requires p.timeSinceLastMove + elapsed >= MovementCooldown
    requires p.x == 0 && p.y == 0
    ensures Step(p, elapsed, Keys(true, false, true, false), maxX, maxY) == Player(0, 0, 0.0)
  {
  }
}
