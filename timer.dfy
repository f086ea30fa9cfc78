/**
 * The per-entity cooldown clock of Timer.hpp: a previous and a current time,
 * the time each event key was last marked, and a cooldown length per key.
 */
module Timing {

  /** The distinguished key (INT_MAX in the source) under which `Elapsed`
      reports the length of the last tick instead of the age of an event. */
  const CurrentTime: int := 0x7FFF_FFFF

  class Timer {
    var prevTime: real
    var currentTime: real
    var events: map<int, real>
    var timeouts: map<int, real>

    /** The frame-delta key is never marked, and every key with a cooldown has
        been marked (setting a cooldown marks an unmarked key first). */
    ghost predicate Valid()
      reads this
    {
      && CurrentTime !in events
      && timeouts.Keys <= events.Keys
    }

    constructor ()
      ensures Valid()
      ensures prevTime == 0.0 && currentTime == 0.0
      ensures events == map[] && timeouts == map[]
    {
      prevTime := 0.0;
      currentTime := 0.0;
      events := map[];
      timeouts := map[];
    }

    /** `Elapsed(key)` is defined: the key is the frame-delta key or has been
        marked (otherwise `events.at` throws in the source). */
    predicate Marked(key: int)
      reads this
    {
      key == CurrentTime || key in events
    }

    function Elapsed(key: int): real
      reads this
      requires Marked(key)
    {
      if key == CurrentTime then currentTime - prevTime else currentTime - events[key]
    }

    /** The cooldown of a key, zero when none was set. */
    function Timeout(key: int): real
      reads this
    {
      if key in timeouts then timeouts[key] else 0.0
    }

    /** Strictly more than the cooldown has elapsed since the key was marked. */
    predicate TimedOut(key: int)
      reads this
      requires Marked(key)
    {
      Elapsed(key) > Timeout(key)
    }

    method SetTime(t: real)
      requires Valid()
      modifies this
      ensures Valid()
      ensures prevTime == old(currentTime) && currentTime == t
      ensures events == old(events) && timeouts == old(timeouts)
      ensures Elapsed(CurrentTime) == t - old(currentTime)
      ensures forall key :: key in events ==> Elapsed(key) == old(Elapsed(key)) + (t - old(currentTime))
    {
      prevTime := currentTime;
      currentTime := t;
    }

    method SetEvent(key: int)
      requires Valid()
      requires key != CurrentTime
      modifies this
      ensures Valid()
      ensures events == old(events)[key := currentTime]
      ensures prevTime == old(prevTime) && currentTime == old(currentTime)
      ensures timeouts == old(timeouts)
      ensures Elapsed(key) == 0.0
      ensures Timeout(key) >= 0.0 ==> !TimedOut(key)
    {
      events := events[key := currentTime];
    }

    method SetTimeout(key: int, timeout: real)
      requires Valid()
      requires key != CurrentTime
      modifies this
      ensures Valid()
      ensures events == if key in old(events) then old(events) else old(events)[key := currentTime]
      ensures timeouts == old(timeouts)[key := timeout]
      ensures prevTime == old(prevTime) && currentTime == old(currentTime)
      ensures Timeout(key) == timeout
    {
      if key !in events {
        SetEvent(key);
      }
      timeouts := timeouts[key := timeout];
    }
  }

  /** The cooldown test is strict: at exactly the cooldown a key has not timed
      out, and a key without a cooldown times out as soon as any time passes. */
  lemma TimedOutBoundary(t: Timer, key: int)
    requires t.Marked(key)
    ensures t.Elapsed(key) == t.Timeout(key) ==> !t.TimedOut(key)
    ensures key !in t.timeouts ==> (t.TimedOut(key) <==> t.Elapsed(key) > 0.0)
    ensures key in t.timeouts ==> (t.TimedOut(key) <==> t.Elapsed(key) > t.timeouts[key])
  {
  }
}
