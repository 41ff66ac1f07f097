/**
 * The mutable side of the game: velocity and sprite state, the movement
 * system that advances and clamps every moving entity once per tick, the
 * event handler that steers the player, and the loop that runs them.
 */
module Game {
  import opened Clamping
  import opened Input

  /** Per-tick displacement of one entity; a new one is at rest. */
  class Velocity {
    var vx: int
    var vy: int

    constructor ()
      ensures vx == 0 && vy == 0
    {
      vx, vy := 0, 0;
    }
  }

  /**
   * An entity that owns a sprite and a velocity (the player or the ball).
   * The sprite's position changes every tick; its size is fixed by the
   * surface it was made from.
   */
  class Entity {
    var x: int
    var y: int
    const width: int
    const height: int
    const velocity: Velocity

    constructor (posx: int, posy: int, width: int, height: int)
      ensures x == posx && y == posy
      ensures this.width == width && this.height == height
      ensures fresh(velocity) && velocity.vx == 0 && velocity.vy == 0
    {
      x, y := posx, posy;
      this.width, this.height := width, height;
      velocity := new Velocity();
    }
  }

  /** No entity is listed twice. */
  predicate Distinct(entities: array<Entity>)
    reads entities
  {
    forall i, j :: 0 <= i < j < entities.Length ==> entities[i] != entities[j]
  }

  class MovementSystem {
    const minx: int
    const miny: int
    const maxx: int
    const maxy: int

    constructor (minx: int, miny: int, maxx: int, maxy: int)
      ensures this.minx == minx && this.miny == miny
      ensures this.maxx == maxx && this.maxy == maxy
    {
      this.minx, this.miny, this.maxx, this.maxy := minx, miny, maxx, maxy;
    }

    /**
     * What `Process` guarantees of an entity it has moved: the far edges are
     * inside the field, and so are the near edges on every axis the sprite
     * fits into.
     */
    predicate Confines(e: Entity)
      reads e
    {
      e.x + e.width <= maxx && e.y + e.height <= maxy &&
      (e.width <= maxx - minx ==> minx <= e.x) &&
      (e.height <= maxy - miny ==> miny <= e.y)
    }

    /**
     * One tick: every entity is translated by its own velocity and then
     * clamped into the field, each axis on its own. Only the positions
     * change; the array, sizes and velocities stay as they were.
     */
    method Process(entities: array<Entity>)
      requires Distinct(entities)
      modifies set i | 0 <= i < entities.Length :: entities[i]
      ensures forall i :: 0 <= i < entities.Length ==>
        entities[i].x == ClampAxis(minx, maxx, entities[i].width,
                                   old(entities[i].x) + entities[i].velocity.vx) &&
        entities[i].y == ClampAxis(miny, maxy, entities[i].height,
                                   old(entities[i].y) + entities[i].velocity.vy)
      ensures forall i :: 0 <= i < entities.Length ==> Confines(entities[i])
    {
      for i := 0 to entities.Length
        invariant forall k :: 0 <= k < i ==>
          entities[k].x == ClampAxis(minx, maxx, entities[k].width,
                                     old(entities[k].x) + entities[k].velocity.vx) &&
          entities[k].y == ClampAxis(miny, maxy, entities[k].height,
                                     old(entities[k].y) + entities[k].velocity.vy)
        invariant forall k :: i <= k < entities.Length ==>
          entities[k].x == old(entities[k].x) && entities[k].y == old(entities[k].y)
      {
        var sprite := entities[i];
        var swidth, sheight := sprite.width, sprite.height;
        sprite.x := sprite.x + sprite.velocity.vx;
        sprite.y := sprite.y + sprite.velocity.vy;

        sprite.x := Max(minx, sprite.x);
        sprite.y := Max(miny, sprite.y);

        var pmaxx := sprite.x + swidth;
        var pmaxy := sprite.y + sheight;
        if pmaxx > maxx {
          sprite.x := maxx - swidth;
        }
        if pmaxy > maxy {
          sprite.y := maxy - sheight;
        }
      }
    }
  }

  /**
   * Handles one batch of events against the player's velocity and returns
   * whether the game keeps running; the batch is abandoned at a quit.
   */
  method HandleEvents(events: seq<Event>, velocity: Velocity) returns (running: bool)
    modifies velocity
    ensures Control(velocity.vx, velocity.vy, running)
         == Dispatch(events, old(velocity.vx), old(velocity.vy))
  {
    running := true;
    var i := 0;
    while i < |events|
      invariant 0 <= i <= |events|
      invariant Dispatch(events[i..], velocity.vx, velocity.vy)
             == Dispatch(events, old(velocity.vx), old(velocity.vy))
    {
      var event := events[i];
      assert events[i..][0] == event && events[i..][1..] == events[i + 1..];
      if event.Quit? {
        running := false;
        break;
      }
      if event.KeyDown? {
        if event.key == Left {
          velocity.vx := -BALL_SPEED;
        } else if event.key == Right {
          velocity.vx := BALL_SPEED;
        }
      } else if event.KeyUp? {
        if event.key == Up || event.key == Down {
          velocity.vy := 0;
        }
      }
      i := i + 1;
    }
  }

  /**
   * The main loop over the batches the event source delivers: while the game
   * runs, handle a batch, then let the movement system advance the world.
   * The world still advances on the tick whose batch quits.
   */
  method Run(movement: MovementSystem, player: Entity, world: array<Entity>,
             batches: seq<seq<Event>>) returns (ticks: nat)
    requires Distinct(world)
    modifies player.velocity, set i | 0 <= i < world.Length :: world[i]
    ensures var s := Replay(batches, old(player.velocity.vx), old(player.velocity.vy));
      ticks == s.ticks && player.velocity.vx == s.control.vx && player.velocity.vy == s.control.vy
    ensures var c := Dispatch(Concat(batches), old(player.velocity.vx), old(player.velocity.vy));
      player.velocity.vx == c.vx && player.velocity.vy == c.vy
    ensures ticks > 0 ==> forall i :: 0 <= i < world.Length ==> movement.Confines(world[i])
  {
    ghost var start := Replay(batches, player.velocity.vx, player.velocity.vy);
    var running := true;
    ticks := 0;
    while running && ticks < |batches|
      invariant 0 <= ticks <= |batches|
      invariant running ==>
        var rest := Replay(batches[ticks..], player.velocity.vx, player.velocity.vy);
        start == Session(ticks + rest.ticks, rest.control)
      invariant !running ==>
        start == Session(ticks, Control(player.velocity.vx, player.velocity.vy, false))
      invariant ticks > 0 ==> forall i :: 0 <= i < world.Length ==> movement.Confines(world[i])
      decreases |batches| - ticks
    {
      ghost var remaining := batches[ticks..];
      assert remaining[0] == batches[ticks] && remaining[1..] == batches[ticks + 1..];
      running := HandleEvents(batches[ticks], player.velocity);
      movement.Process(world);
      ticks := ticks + 1;
    }
    ReplayIsDispatchOfConcat(batches, old(player.velocity.vx), old(player.velocity.vy));
  }
}
