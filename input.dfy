/**
 * The key-event handling of the game loop, as a pure state machine: one
 * batch of events updates the player's velocity and the running flag, and
 * the loop consumes batches until one of them carries a quit request.
 */
module Input {

  /** Horizontal speed a LEFT/RIGHT key press gives the player. */
  const BALL_SPEED := 3

  /** The keys the game distinguishes; `OtherKey` is every other key. */
  datatype Key = Left | Right | Up | Down | OtherKey

  /** The event types the game distinguishes; `OtherEvent` is every other type. */
  datatype Event = Quit | KeyDown(key: Key) | KeyUp(key: Key) | OtherEvent

  /** Velocity after a batch, and whether the game keeps running. */
  datatype Control = Control(vx: int, vy: int, running: bool)

  /** How many batches the loop consumed, and the control state it ended with. */
  datatype Session = Session(ticks: nat, control: Control)

  predicate IsHorizontalPress(e: Event) {
    e.KeyDown? && (e.key == Left || e.key == Right)
  }

  predicate IsVerticalRelease(e: Event) {
    e.KeyUp? && (e.key == Up || e.key == Down)
  }

  function PressSpeed(k: Key): (r: int)
    requires k == Left || k == Right
  {
    if k == Left then -BALL_SPEED else BALL_SPEED
  }

  /** The effect of one non-quit event on the velocity `(vx, vy)`. */
  function React(e: Event, vx: int, vy: int): (r: (int, int))
    requires !e.Quit?
    // no event changes both components
    ensures r.0 == vx || r.1 == vy
    ensures IsHorizontalPress(e) ==> r.0 == PressSpeed(e.key) && r.1 == vy
    ensures IsVerticalRelease(e) ==> r.0 == vx && r.1 == 0
    // key-up LEFT/RIGHT, other keys and other event types are ignored
    ensures !IsHorizontalPress(e) && !IsVerticalRelease(e) ==> r == (vx, vy)
  {
    match e
    case KeyDown(k) =>
      if k == Left then (-BALL_SPEED, vy)
      else if k == Right then (BALL_SPEED, vy)
      else (vx, vy)
    case KeyUp(k) =>
      if k == Up || k == Down then (vx, 0) else (vx, vy)
    case OtherEvent => (vx, vy)
  }

  /**
   * One batch of events, processed in order from the velocity `(vx, vy)`;
   * a quit event clears the running flag and ends the batch.
   */
  function Dispatch(events: seq<Event>, vx: int, vy: int): (r: Control)
    ensures r.vx == vx || r.vx == -BALL_SPEED || r.vx == BALL_SPEED
    ensures r.vy == vy || r.vy == 0
    decreases |events|
  {
    if |events| == 0 then Control(vx, vy, true)
    else if events[0].Quit? then Control(vx, vy, false)
    else
      var v := React(events[0], vx, vy);
      Dispatch(events[1..], v.0, v.1)
  }

  /** A batch ends with the game stopped exactly when it contains a quit. */
  lemma {:induction false} DispatchRunning(events: seq<Event>, vx: int, vy: int)
    ensures Dispatch(events, vx, vy).running <==> Quit !in events
    decreases |events|
  {
    if |events| > 0 && !events[0].Quit? {
      var v := React(events[0], vx, vy);
      DispatchRunning(events[1..], v.0, v.1);
      assert events == [events[0]] + events[1..];
    }
  }

  /** A quit-free prefix hands its velocity on to the rest of the batch. */
  lemma {:induction false} DispatchAppend(a: seq<Event>, b: seq<Event>, vx: int, vy: int)
    requires Quit !in a
    ensures Dispatch(a + b, vx, vy)
         == Dispatch(b, Dispatch(a, vx, vy).vx, Dispatch(a, vx, vy).vy)
    decreases |a|
  {
    if |a| > 0 {
      assert (a + b)[0] == a[0];
      assert (a + b)[1..] == a[1..] + b;
      var v := React(a[0], vx, vy);
      DispatchAppend(a[1..], b, v.0, v.1);
    } else {
      assert a + b == b;
    }
  }

  /** Events after a quit in the same batch are not processed. */
  lemma DispatchStopsAtQuit(pre: seq<Event>, post: seq<Event>, vx: int, vy: int)
    requires Quit !in pre
    ensures Dispatch(pre + [Quit] + post, vx, vy)
         == Dispatch(pre, vx, vy).(running := false)
  {
    assert pre + [Quit] + post == pre + ([Quit] + post);
    DispatchAppend(pre, [Quit] + post, vx, vy);
    DispatchRunning(pre, vx, vy);
  }

  /** Without a LEFT/RIGHT key press the horizontal speed is kept. */
  lemma {:induction false} DispatchKeepsVx(events: seq<Event>, vx: int, vy: int)
    requires forall e :: e in events ==> !IsHorizontalPress(e)
    ensures Dispatch(events, vx, vy).vx == vx
    decreases |events|
  {
    if |events| > 0 && !events[0].Quit? {
      assert events[0] in events;
      var v := React(events[0], vx, vy);
      forall e | e in events[1..] ensures !IsHorizontalPress(e) {
        assert e in events;
      }
      DispatchKeepsVx(events[1..], v.0, v.1);
    }
  }

  /**
   * The last LEFT/RIGHT key press of a quit-free batch decides the horizontal
   * speed: left gives `-BALL_SPEED`, right gives `BALL_SPEED`.
   */
  lemma LastPressWins(pre: seq<Event>, k: Key, post: seq<Event>, vx: int, vy: int)
    requires k == Left || k == Right
    requires Quit !in pre && Quit !in post
    requires forall e :: e in post ==> !IsHorizontalPress(e)
    ensures Dispatch(pre + [KeyDown(k)] + post, vx, vy).vx == PressSpeed(k)
  {
    assert pre + [KeyDown(k)] + post == (pre + [KeyDown(k)]) + post;
    assert Quit !in pre + [KeyDown(k)];
    DispatchAppend(pre + [KeyDown(k)], post, vx, vy);
    DispatchAppend(pre, [KeyDown(k)], vx, vy);
    var c := Dispatch(pre + [KeyDown(k)], vx, vy);
    assert c.vx == PressSpeed(k) by {
      var d := Dispatch(pre, vx, vy);
      assert [KeyDown(k)][1..] == [];
      assert c == Dispatch([KeyDown(k)], d.vx, d.vy);
    }
    DispatchKeepsVx(post, c.vx, c.vy);
  }

  /**
   * In a quit-free batch the vertical speed is zeroed exactly when an UP or
   * DOWN key is released, and kept otherwise.
   */
  lemma {:induction false} DispatchVy(events: seq<Event>, vx: int, vy: int)
    requires Quit !in events
    ensures Dispatch(events, vx, vy).vy
         == if exists e :: e in events && IsVerticalRelease(e) then 0 else vy
    decreases |events|
  {
    if |events| > 0 {
      var v := React(events[0], vx, vy);
      assert Quit !in events[1..] by {
        assert events == [events[0]] + events[1..];
      }
      DispatchVy(events[1..], v.0, v.1);
      assert events == [events[0]] + events[1..];
      if IsVerticalRelease(events[0]) {
        assert events[0] in events;
        assert Dispatch(events[1..], v.0, v.1).vy == 0;
      } else {
        assert (exists e :: e in events && IsVerticalRelease(e))
           <==> (exists e :: e in events[1..] && IsVerticalRelease(e));
      }
    }
  }

  /**
   * A batch of events that are neither quit, a LEFT/RIGHT press nor an
   * UP/DOWN release (a LEFT/RIGHT release, say) changes nothing.
   */
  lemma DispatchInert(events: seq<Event>, vx: int, vy: int)
    requires forall e :: e in events ==>
      !e.Quit? && !IsHorizontalPress(e) && !IsVerticalRelease(e)
    ensures Dispatch(events, vx, vy) == Control(vx, vy, true)
  {
    assert Quit !in events;
    DispatchRunning(events, vx, vy);
    DispatchKeepsVx(events, vx, vy);
    DispatchVy(events, vx, vy);
  }

  /**
   * The game loop over a sequence of event batches: each batch starts with
   * the running flag set, and the loop stops after the batch that quits.
   */
  function Replay(batches: seq<seq<Event>>, vx: int, vy: int): (r: Session)
    ensures r.ticks <= |batches|
    decreases |batches|
  {
    if |batches| == 0 then Session(0, Control(vx, vy, true))
    else
      var c := Dispatch(batches[0], vx, vy);
      if !c.running then Session(1, c)
      else
        var s := Replay(batches[1..], c.vx, c.vy);
        Session(s.ticks + 1, s.control)
  }

  /** All events of a sequence of batches, in delivery order. */
  function Concat(batches: seq<seq<Event>>): (r: seq<Event>)
    decreases |batches|
  {
    if |batches| == 0 then [] else batches[0] + Concat(batches[1..])
  }

  /** Once a batch has seen a quit, events appended after it make no difference. */
  lemma {:induction false} DispatchQuitAppend(a: seq<Event>, b: seq<Event>, vx: int, vy: int)
    requires Quit in a
    ensures Dispatch(a + b, vx, vy) == Dispatch(a, vx, vy)
    decreases |a|
  {
    assert (a + b)[0] == a[0];
    if !a[0].Quit? {
      assert (a + b)[1..] == a[1..] + b;
      assert a == [a[0]] + a[1..];
      var v := React(a[0], vx, vy);
      DispatchQuitAppend(a[1..], b, v.0, v.1);
    }
  }

  /**
   * Batch boundaries do not matter: a session ends with the control state of
   * one batch holding every delivered event in order, so the lemmas about a
   * single batch describe a whole session.
   */
  lemma {:induction false} ReplayIsDispatchOfConcat(batches: seq<seq<Event>>, vx: int, vy: int)
    ensures Replay(batches, vx, vy).control == Dispatch(Concat(batches), vx, vy)
    decreases |batches|
  {
    if |batches| > 0 {
      var c := Dispatch(batches[0], vx, vy);
      DispatchRunning(batches[0], vx, vy);
      if c.running {
        DispatchAppend(batches[0], Concat(batches[1..]), vx, vy);
        ReplayIsDispatchOfConcat(batches[1..], c.vx, c.vy);
      } else {
        DispatchQuitAppend(batches[0], Concat(batches[1..]), vx, vy);
      }
    }
  }

  /**
   * The loop runs through every batch while no quit arrives, and otherwise
   * stops right after the first batch that contains one.
   */
  lemma {:induction false} ReplayStopsAtFirstQuit(batches: seq<seq<Event>>, vx: int, vy: int)
    ensures Replay(batches, vx, vy).control.running
        <==> forall k :: 0 <= k < |batches| ==> Quit !in batches[k]
    ensures Replay(batches, vx, vy).control.running
        ==> Replay(batches, vx, vy).ticks == |batches|
    ensures !Replay(batches, vx, vy).control.running ==>
      var t := Replay(batches, vx, vy).ticks;
      0 < t && Quit in batches[t - 1] && forall k :: 0 <= k < t - 1 ==> Quit !in batches[k]
    decreases |batches|
  {
    if |batches| > 0 {
      DispatchRunning(batches[0], vx, vy);
      var c := Dispatch(batches[0], vx, vy);
      if c.running {
        ReplayStopsAtFirstQuit(batches[1..], c.vx, c.vy);
        assert forall k :: 1 <= k < |batches| ==> batches[k] == batches[1..][k - 1];
      }
    }
  }
}
