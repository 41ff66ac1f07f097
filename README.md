# Falldown ball game: movement and input model

A Dafny model of the simulation core of "The RC Ball Game!" (`main.py`): the
`MovementSystem` that, once per tick, translates every entity's sprite by its
velocity and clamps it into the playfield, the `Velocity` component, and the
event dispatch of the main loop that steers the player with the arrow keys and
stops the game on a quit request.

- `clamping.dfy` (module `Clamping`): the per-axis clamp as a pure function,
  with the bound guarantees in its contract and lemmas for idempotence,
  monotonicity and "nearest in-field position".
- `input.dfy` (module `Input`): events, the per-event reaction, one batch
  (`Dispatch`) and the loop over batches (`Replay`) as pure functions, with
  lemmas on what a batch does to the velocity and the running flag.
- `game.dfy` (module `Game`): classes `Velocity`, `Entity` and
  `MovementSystem` whose methods update fields in place (`Process` loops over
  an array of entities), the event handler `HandleEvents` that mutates the
  player's velocity with an early exit on quit, and the main loop `Run`. Each
  method is proved against the pure functions above.

Integers are unbounded, as Python's are, so no wrap-around is modelled.

Releasing UP or DOWN zeroes the vertical speed and releasing LEFT or RIGHT
does nothing (main.py:130-137); `-hardware` selects the accelerated renderer
(main.py:96).

## Model

| member | source | states |
|---|---|---|
| Clamping.ClampAxis | main.py:29-37 | the far edge never overshoots (`r + size <= hi`); the near edge holds when the sprite fits; a sprite wider than the field ends at `hi - size`, left of `lo` (the high clamp overrides the low one); a sprite already inside stays put; the result is `p`, `lo` or `hi - size` |
| Clamping.ClampIdempotent | main.py:29-37 | clamping an already clamped position changes nothing |
| Clamping.ClampMonotone | main.py:29-37 | the clamp preserves the order of positions on an axis |
| Clamping.ClampNearest | main.py:29-37 | when the sprite fits, the clamped position is the in-field position nearest to the translated one |
| Game.MovementSystem.constructor | main.py:15-21 | the four field bounds are stored as given |
| Game.MovementSystem.Process | main.py:23-37 | every entity is first displaced by exactly its own `(vx, vy)` and then clamped per axis; only `x`/`y` change; entities and axes are independent; afterwards every entity satisfies the bounds of `Confines` |
| Game.Velocity.constructor | main.py:62-66 | a new velocity is `(0, 0)` |
| Game.Entity.constructor | main.py:75-87 | the sprite is placed at `(posx, posy)` and the entity owns a fresh velocity at rest |
| Input.React | main.py:130-137 | a LEFT/RIGHT key-down sets `vx` to `∓BALL_SPEED` and keeps `vy`; an UP/DOWN key-up sets `vy = 0` and keeps `vx`; every other non-quit event changes nothing; no event changes both components |
| Input.Dispatch | main.py:126-137 | after a batch, `vx` is the old value or `±BALL_SPEED` and `vy` is the old value or 0 |
| Input.DispatchRunning | main.py:127-129 | a batch clears the running flag exactly when it contains a quit |
| Input.DispatchAppend | main.py:126 | events are handled in order: a quit-free prefix passes its velocity on to the rest of the batch |
| Input.DispatchStopsAtQuit | main.py:127-129 | events after a quit in the same batch are not processed |
| Input.DispatchKeepsVx | main.py:130-134 | without a LEFT/RIGHT key-down, `vx` is unchanged |
| Input.LastPressWins | main.py:130-134 | in a quit-free batch the last LEFT/RIGHT key-down decides `vx` (`-BALL_SPEED` for left, `BALL_SPEED` for right) |
| Input.DispatchVy | main.py:135-137 | in a quit-free batch `vy` becomes 0 if and only if some UP/DOWN key-up occurs, and is kept otherwise |
| Input.DispatchInert | main.py:130-137 | a batch of LEFT/RIGHT key-ups and other events leaves the velocity unchanged and the game running |
| Input.Replay | main.py:124-129 | the loop never consumes more batches than were delivered |
| Input.ReplayIsDispatchOfConcat | main.py:124-137 | batch boundaries do not matter: the control state a session ends with is that of one batch holding all delivered events in order, so the per-batch lemmas describe a whole session |
| Input.DispatchQuitAppend | main.py:127-129 | once a quit has been seen, events appended after it make no difference |
| Input.ReplayStopsAtFirstQuit | main.py:124-129 | the loop keeps running exactly when no batch contains a quit, then consumes all batches; otherwise it stops right after the first batch containing a quit |
| Game.HandleEvents | main.py:126-137 | the velocity and running flag left by handling a batch in place, with the early exit on quit, are those of `Dispatch` |
| Game.Run | main.py:124-139 | the number of ticks and the player's final velocity are those of `Replay`, and that velocity is the one a single batch of all delivered events gives; after at least one tick every entity satisfies the movement bounds |

## Left out

- Window creation, sprite factory, colours and both render systems (main.py:6-8, 40-59, 92-119): graphics and calls into SDL.
- The `sdl2.ext.World`/`Entity` component registration and how `world.process()` selects the entities that have both a velocity and a sprite (main.py:14-17, 110, 118-122): library machinery. `Process` receives those entities as an array and requires them to be distinct, as the world yields one component set per entity; `Run` calls `Process` directly for `world.process()`.
- `sdl2.ext.get_events()` and `SDL_Delay` (main.py:126, 138): input polling and frame pacing. The event source is a parameter: `Run` takes a finite sequence of batches and also stops when it is exhausted, where the program would keep polling.
- `sys.argv` renderer selection and `print` (main.py:91, 96-102): command line and output.
- `PlayerData.points` (main.py:69-72): set to 0 and never used.
- The source's `Ball` and `Player` classes are both modelled by `Game.Entity`; the difference is only the unused `PlayerData`.
- Default positions: the `posx=0, posy=0` defaults of the `Player` and `Ball` constructors (main.py:76, 84) are not modelled; `Game.Entity`'s constructor always takes a position, as both callers (main.py:121-122) pass one.
- Game.Run: states bounds for the entity positions after the loop, not their exact values over several ticks.
