/**
 * The event handling at the top of each iteration of the main loop: closing
 * the window quits, P toggles pause, and Escape quits when pressed a second
 * time within half a second.
 */
module Events {
  /** The keys whose KEYDOWN the loop reacts to; every other key is `OtherKey`. */
  datatype Key = KeyP | KeyEscape | OtherKey

  /** The events the loop polls: a window-close request, a key press, anything else. */
  datatype Event = Quit | KeyDown(key: Key) | OtherEvent

  /** Seconds within which a second Escape press confirms quitting. */
  const ESCAPE_CONFIRM_WINDOW: real := 0.5

  /** The loop's control variables `paused`, `running` and `esc_last_pressed` (seconds). */
  datatype Control = Control(paused: bool, running: bool, escLastPressed: real)

  /** The loop's initial control variables. */
  const INITIAL_CONTROL: Control := Control(false, true, 0.0)

  /** The effect of one polled event, the clock reading `now`. */
  function HandleEvent(c: Control, e: Event, now: real): (r: Control)
    // only P flips the pause flag
    ensures r.paused == (c.paused != (e == KeyDown(KeyP)))
    // only Escape records the clock
    ensures r.escLastPressed == if e == KeyDown(KeyEscape) then now else c.escLastPressed
    // the loop stops on a close request or on an Escape within the window of the previous one
    ensures r.running <==> c.running && e != Quit &&
                           !(e == KeyDown(KeyEscape) && now - c.escLastPressed < ESCAPE_CONFIRM_WINDOW)
  {
    match e
    case Quit => c.(running := false)
    case KeyDown(KeyP) => c.(paused := !c.paused)
    case KeyDown(KeyEscape) =>
      c.(running := if now - c.escLastPressed < ESCAPE_CONFIRM_WINDOW then false else c.running,
         escLastPressed := now)
    case _ => c
  }

  /**
   * The effect of all events polled in one frame, handled in order. Once the loop
   * is told to stop, no later event restarts it.
   */
  function HandleEvents(c: Control, events: seq<Event>, now: real): (r: Control)
    ensures !c.running ==> !r.running
    decreases |events|
  {
    if |events| == 0 then c
    else HandleEvent(HandleEvents(c, events[..|events| - 1], now), events[|events| - 1], now)
  }

  /** How many times `e` occurs in `events`. */
  function Count(events: seq<Event>, e: Event): nat
    decreases |events|
  {
    if |events| == 0 then 0
    else Count(events[..|events| - 1], e) + (if events[|events| - 1] == e then 1 else 0)
  }

  /**
   * What a frame's events do, in closed form: pause flips once per P press;
   * `esc_last_pressed` becomes `now` if Escape was pressed; the loop goes on
   * running exactly when it was, no close request came, and Escape was neither
   * pressed twice in the frame nor pressed once within half a second of the
   * previous press.
   */
  lemma {:induction false} HandleEventsClosedForm(c: Control, events: seq<Event>, now: real)
    ensures HandleEvents(c, events, now).paused == (c.paused != (Count(events, KeyDown(KeyP)) % 2 == 1))
    ensures HandleEvents(c, events, now).escLastPressed
         == if Count(events, KeyDown(KeyEscape)) > 0 then now else c.escLastPressed
    ensures HandleEvents(c, events, now).running <==>
              c.running && Count(events, Quit) == 0 &&
              !(Count(events, KeyDown(KeyEscape)) >= 2 ||
                (Count(events, KeyDown(KeyEscape)) == 1 && now - c.escLastPressed < ESCAPE_CONFIRM_WINDOW))
    decreases |events|
  {
    if |events| > 0 {
      HandleEventsClosedForm(c, events[..|events| - 1], now);
    }
  }

  /**
   * Two Escape presses in successive frames 0.1 s apart stop the loop; 0.6 s
   * apart they do not (the first press itself comes long after any earlier one).
   */
  lemma DoublePressExamples(c: Control, t: real)
    requires t - c.escLastPressed >= ESCAPE_CONFIRM_WINDOW
    ensures HandleEvents(c, [KeyDown(KeyEscape)], t).running == c.running
    ensures !HandleEvents(HandleEvents(c, [KeyDown(KeyEscape)], t), [KeyDown(KeyEscape)], t + 0.1).running
    ensures HandleEvents(HandleEvents(c, [KeyDown(KeyEscape)], t), [KeyDown(KeyEscape)], t + 0.6).running
         == c.running
  {
  }

  /** The `for event in pygame.event.get()` loop over the control variables. */
  method DispatchEvents(c: Control, events: seq<Event>, now: real) returns (r: Control)
    ensures r == HandleEvents(c, events, now)
  {
    var paused, running, escLastPressed := c.paused, c.running, c.escLastPressed;
    var i := 0;
    while i < |events|
      invariant 0 <= i <= |events|
      invariant Control(paused, running, escLastPressed) == HandleEvents(c, events[..i], now)
    {
      var event := events[i];
      if event.Quit? {
        running := false;
      } else if event.KeyDown? {
        if event.key == KeyP {
          paused := !paused;
        } else if event.key == KeyEscape {
          if now - escLastPressed < ESCAPE_CONFIRM_WINDOW {
            running := false;
          }
          escLastPressed := now;
        }
      }
      assert events[..i + 1][..i] == events[..i];
      i := i + 1;
    }
    assert events[..|events|] == events;
    r := Control(paused, running, escLastPressed);
  }
}
