/**
 * The gameplay part of Ball.hpp: who owns the ball, the loose-ball window
 * after a change of owner, the interaction lock after a shot, and the
 * per-tick flight, bounce and rolling-friction update of a free ball.
 */
module Balls {
  import opened Timing
  import opened Units

  /** Timer keys of the ball. */
  const TimeLooseBallBegins: int := 0
  const TimeAbleToInteract: int := 1

  /** Interaction locks after a shot and after a slide tackle. */
  const CantInteractShot: real := 0.7
  const CantInteractSlide: real := 0.45

  /** Speed lost per unit of time while rolling, and per ground hit. */
  const GroundFriction: real := 0.05
  const GroundHitSlowdown: real := 0.02

  /** Owner id of a ball nobody holds. */
  const NoOwner: int := -1

  function Abs(x: real): (r: real)
  {
    if x < 0.0 then -x else x
  }

  /** The part of the ball's state the per-tick physics changes. */
  datatype Flight = Flight(movingSpeed: real, height: real, verticalSpeed: real, inAir: bool)

  /** 0.7 to the power n: what is left of an impact speed after n rebounds. */
  function Damping(n: nat): (r: real)
  {
    if n == 0 then 1.0 else 0.7 * Damping(n - 1)
  }

  /** After n rebounds at most 7/(7 + 3n) of the impact speed is left. */
  lemma {:induction false} DampingBound(n: nat)
    ensures 0.0 <= Damping(n)
    ensures Damping(n) * (7.0 + 3.0 * n as real) <= 7.0
  {
    if n > 0 {
      DampingBound(n - 1);
      var p, m := Damping(n - 1), (n - 1) as real;
      assert Damping(n) * (7.0 + 3.0 * n as real) == p * (7.0 + 2.1 * m);
      assert p * (7.0 + 2.1 * m) <= p * (7.0 + 3.0 * m) by {
        assert p * (0.9 * m) >= 0.0;
      }
    }
  }

  /** If w(w − a) >= v(v + a) for non-negative v and a, then w >= v + a:
      the landing speed a flight energy allows. */
  lemma LandingOrder(v: real, a: real, w: real)
    requires v >= 0.0 && a >= 0.0 && w * w - a * w >= v * (v + a)
    ensures w >= v + a || w <= -v
  {
  }

  class Ball {
    var unit: Unit
    const timer: Timer
    const looseBallCooldown: real := 0.1
    const defaultHeight: real := GAUGE * 10.0
    const G: real := GAUGE * 2.3
    const minSpeed: real := GAUGE
    var verticalSpeed: real
    var isInAir: bool
    var currentOwner: int
    var lastTouched: int

    /** Whenever someone holds the ball, the loose-ball window has been opened
        and that holder was the last to touch it; the loose-ball cooldown, once
        set, is the ball's own. */
    ghost predicate Valid()
      reads this, timer
    {
      && timer.Valid()
      && (currentOwner != NoOwner ==> TimeLooseBallBegins in timer.events && lastTouched == currentOwner)
      && (TimeLooseBallBegins in timer.timeouts ==> timer.timeouts[TimeLooseBallBegins] == looseBallCooldown)
    }

    /** The ball starts unowned, on the ground, at its resting height. */
    constructor (u: Unit)
      ensures Valid() && fresh(timer)
      ensures unit == u.(height := defaultHeight)
      ensures currentOwner == NoOwner && lastTouched == NoOwner
      ensures verticalSpeed == 0.0 && !isInAir
      ensures timer.events == map[] && timer.timeouts == map[]
    {
      timer := new Timer();
      verticalSpeed := 0.0;
      isInAir := false;
      currentOwner := NoOwner;
      lastTouched := NoOwner;
      unit := u.(height := GAUGE * 10.0);
    }

    function State(): Flight
      reads this
    {
      Flight(unit.movingSpeed, unit.height, verticalSpeed, isInAir)
    }

    method ResetHeight()
      modifies this
      ensures unit == old(unit).(height := defaultHeight)
      ensures verticalSpeed == old(verticalSpeed) && isInAir == old(isInAir)
      ensures currentOwner == old(currentOwner) && lastTouched == old(lastTouched)
    {
      unit := unit.(height := defaultHeight);
    }

    method SetTimer()
      requires Valid()
      modifies this, timer
      ensures Valid()
      ensures unit == old(unit).(height := defaultHeight)
      ensures verticalSpeed == old(verticalSpeed) && isInAir == old(isInAir)
      ensures currentOwner == old(currentOwner) && lastTouched == old(lastTouched)
      ensures TimeLooseBallBegins in timer.events
      ensures timer.events == if TimeLooseBallBegins in old(timer.events) then old(timer.events)
                              else old(timer.events)[TimeLooseBallBegins := timer.currentTime]
      ensures timer.timeouts == old(timer.timeouts)[TimeLooseBallBegins := looseBallCooldown]
      ensures timer.currentTime == old(timer.currentTime) && timer.prevTime == old(timer.prevTime)
    {
      ResetHeight();
      timer.SetTimeout(TimeLooseBallBegins, looseBallCooldown);
    }

    function Owner(): int
      reads this
    {
      currentOwner
    }

    /** Held, but the holder got it less than the loose-ball cooldown ago:
        anyone may still take it. */
    predicate IsLoose()
      reads this, timer
      requires Valid()
      ensures IsLoose() ==> currentOwner != NoOwner && TimeLooseBallBegins in timer.events
      ensures IsLoose() ==> timer.Elapsed(TimeLooseBallBegins) <= looseBallCooldown
    {
      currentOwner != NoOwner && !timer.TimedOut(TimeLooseBallBegins)
    }

    /** The ball moves under its own physics this tick. */
    predicate Free()
      reads this, timer
      requires Valid()
    {
      Owner() == NoOwner || IsLoose()
    }

    /** No interaction lock is in force. The lock key is read with `events.at`,
        so it must have been marked by DisableInteraction. */
    predicate CanInteract()
      reads this, timer
      requires timer.Marked(TimeAbleToInteract)
    {
      timer.TimedOut(TimeAbleToInteract)
    }

    method DisableInteraction(lockFor: real)
      requires Valid()
      modifies timer
      ensures Valid()
      ensures timer.events == old(timer.events)[TimeAbleToInteract := timer.currentTime]
      ensures timer.timeouts == old(timer.timeouts)[TimeAbleToInteract := lockFor]
      ensures timer.currentTime == old(timer.currentTime) && timer.prevTime == old(timer.prevTime)
      ensures lockFor >= 0.0 ==> !CanInteract()
    {
      timer.SetEvent(TimeAbleToInteract);
      timer.SetTimeout(TimeAbleToInteract, lockFor);
    }

    method Face(angle: real)
      modifies this
      ensures unit == old(unit).(facingDest := angle)
      ensures verticalSpeed == old(verticalSpeed) && isInAir == old(isInAir)
      ensures currentOwner == old(currentOwner) && lastTouched == old(lastTouched)
    {
      unit := unit.(facingDest := angle);
    }

    method TimestampSetOwner(newOwner: int)
      requires Valid()
      modifies this, timer
      ensures Valid()
      ensures currentOwner == newOwner
      ensures unit == old(unit) && verticalSpeed == old(verticalSpeed) && isInAir == old(isInAir)
      ensures timer.currentTime == old(timer.currentTime) && timer.prevTime == old(timer.prevTime)
      ensures timer.timeouts == old(timer.timeouts)
      ensures newOwner == old(currentOwner) || newOwner == NoOwner ==>
                lastTouched == old(lastTouched) && timer.events == old(timer.events)
      ensures newOwner != old(currentOwner) && newOwner != NoOwner ==>
                && lastTouched == newOwner
                && timer.events == old(timer.events)[TimeLooseBallBegins := timer.currentTime]
                && IsLoose()
    {
      if currentOwner == newOwner {
        return;
      }
      currentOwner := newOwner;
      if currentOwner != NoOwner {
        timer.SetEvent(TimeLooseBallBegins);
        lastTouched := currentOwner;
      }
    }

    /** The ground-hit branch of `idle`: the ball loses GroundHitSlowdown of its
        speed and returns to resting height; it settles when its vertical speed
        is below the minimum, and otherwise rebounds upwards at 70% of it. */
    function GroundHit(f: Flight): (r: Flight)
      ensures r.movingSpeed == f.movingSpeed - GroundHitSlowdown
      ensures r.height == defaultHeight
      ensures r.inAir <==> f.inAir && Abs(f.verticalSpeed) >= minSpeed
      ensures !r.inAir ==> r.verticalSpeed == 0.0 || !f.inAir
      ensures r.inAir ==> r.verticalSpeed == 0.7 * Abs(f.verticalSpeed) && r.verticalSpeed > 0.0
    {
      var landed := f.(movingSpeed := f.movingSpeed - GroundHitSlowdown, height := defaultHeight);
      if Abs(f.verticalSpeed) < minSpeed then
        landed.(inAir := false, verticalSpeed := 0.0)
      else
        var damped := f.verticalSpeed - 0.3 * f.verticalSpeed;
        landed.(verticalSpeed := Abs(damped))
    }

    /** A free ball slower than the minimum speed is pinned to it. */
    function Pinned(speed: real): real
    {
      if speed < minSpeed then minSpeed else speed
    }

    /** What `idle` does to a free ball whose last tick lasted `dt`: a ball slower
        than the minimum speed is first pinned to it; then an airborne ball
        falling at or below resting height hits the ground, any other airborne
        ball climbs or falls under gravity, and a grounded ball rolls with friction. */
    function FreeStep(f: Flight, dt: real): (r: Flight)
      ensures r.inAir ==> f.inAir
      ensures !f.inAir ==>
                && r.height == defaultHeight && r.verticalSpeed == f.verticalSpeed
                && r.movingSpeed == Pinned(f.movingSpeed) - GroundFriction * dt
      ensures f.inAir && f.verticalSpeed < 0.0 && f.height <= defaultHeight ==>
                && r.height == defaultHeight
                && r.movingSpeed == Pinned(f.movingSpeed) - GroundHitSlowdown
                && (r.inAir <==> -f.verticalSpeed >= minSpeed)
                && (r.inAir ==> r.verticalSpeed == -0.7 * f.verticalSpeed)
                && (!r.inAir ==> r.verticalSpeed == 0.0)
      ensures f.inAir && !(f.verticalSpeed < 0.0 && f.height <= defaultHeight) ==>
                && r.inAir
                && r.movingSpeed == Pinned(f.movingSpeed) >= minSpeed
                && r.height - f.height == 10.0 * f.verticalSpeed * dt
                && f.verticalSpeed - r.verticalSpeed == 10.0 * G * dt
    {
      var pinned := f.(movingSpeed := Pinned(f.movingSpeed));
      if pinned.inAir then
        if pinned.verticalSpeed < 0.0 && pinned.height <= defaultHeight then
          GroundHit(pinned)
        else
          pinned.(height := pinned.height + 10.0 * pinned.verticalSpeed * dt,
                  verticalSpeed := pinned.verticalSpeed - 10.0 * G * dt)
      else
        pinned.(movingSpeed := pinned.movingSpeed - GroundFriction * dt, height := defaultHeight)
    }

    /** Where `idle` steers a free ball before Unit's own tick: a ball below the
        minimum speed is stopped, any other is sent on along its heading. */
    function Steer(u: Unit, k: Kinematics): Track
    {
      if u.movingSpeed < minSpeed then k.stop(u.track)
      else k.move(u.track, k.pointOffset(u.track, 1.0, u.facingDest))
    }

    method Idle(curtime: real, k: Kinematics)
      requires Valid()
      modifies this, timer
      ensures Valid()
      ensures timer.prevTime == old(timer.currentTime) && timer.currentTime == curtime
      ensures timer.events == old(timer.events) && timer.timeouts == old(timer.timeouts)
      ensures currentOwner == old(currentOwner) && lastTouched == old(lastTouched)
      ensures unit.facingDest == old(unit.facingDest)
      ensures Free() ==>
                && State() == FreeStep(old(State()), curtime - old(timer.currentTime))
                && unit.track == k.step(Steer(old(unit), k), unit.facingDest, unit.movingSpeed, curtime - old(timer.currentTime))
      ensures !Free() ==>
                && State() == old(State())
                && unit.track == k.step(old(unit.track), unit.facingDest, unit.movingSpeed, curtime - old(timer.currentTime))
    {
      timer.SetTime(curtime);
      var timediff := timer.Elapsed(CurrentTime);
      if Owner() == NoOwner || IsLoose() {
        if unit.movingSpeed < minSpeed {
          unit := unit.(track := k.stop(unit.track), movingSpeed := minSpeed);
        } else {
          unit := unit.(track := k.move(unit.track, k.pointOffset(unit.track, 1.0, unit.facingDest)));
        }
        if isInAir {
          if verticalSpeed < 0.0 && unit.height <= defaultHeight {
            unit := unit.(movingSpeed := unit.movingSpeed - GroundHitSlowdown);
            ResetHeight();
            if Abs(verticalSpeed) < minSpeed {
              isInAir := false;
              verticalSpeed := 0.0;
            } else {
              verticalSpeed := verticalSpeed - 0.3 * verticalSpeed;
              verticalSpeed := Abs(verticalSpeed);
            }
          } else {
            unit := unit.(height := unit.height + 10.0 * verticalSpeed * timediff);
            verticalSpeed := verticalSpeed - 10.0 * G * timediff;
          }
        } else {
          unit := unit.(movingSpeed := unit.movingSpeed - GroundFriction * timediff);
          ResetHeight();
        }
      }
      unit := unit.(track := k.step(unit.track, unit.facingDest, unit.movingSpeed, timediff));
    }

    /** The state of a falling ball after n ground hits, when every flight in
        between brings it back to the ground as fast as it rebounded. */
    function Hits(f: Flight, n: nat): Flight
      decreases n
    {
      if n == 0 || !f.inAir then f
      else
        var g := GroundHit(f);
        Hits(g.(verticalSpeed := -g.verticalSpeed), n - 1)
    }

    /** A ball hitting the ground at speed u settles by the hit after the n-th
        rebound once 0.7^n * u is below the minimum speed. */
    lemma {:induction false} SettlesOnceDamped(f: Flight, n: nat)
      requires f.inAir && f.verticalSpeed <= 0.0
      requires -f.verticalSpeed * Damping(n) < minSpeed
      ensures !Hits(f, n + 1).inAir
      ensures Hits(f, n + 1).verticalSpeed == 0.0 && Hits(f, n + 1).height == defaultHeight
      decreases n
    {
      var g := GroundHit(f);
      var back := g.(verticalSpeed := -g.verticalSpeed);
      if !g.inAir {
        assert Hits(f, n + 1) == Hits(back, n) == back;
      } else {
        assert n > 0;
        assert -back.verticalSpeed * Damping(n - 1) == -f.verticalSpeed * Damping(n);
        SettlesOnceDamped(back, n - 1);
      }
    }

    /** Bounces end: a ball first hitting the ground at speed u is at rest after
        at most n + 1 hits whenever 3n * minSpeed > 7u. */
    lemma SettlesWithinBounces(f: Flight, n: nat)
      requires f.inAir && f.verticalSpeed <= 0.0
      requires 3.0 * n as real * minSpeed > 7.0 * -f.verticalSpeed
      ensures !Hits(f, n + 1).inAir && Hits(f, n + 1).verticalSpeed == 0.0
    {
      var u, p, w := -f.verticalSpeed, Damping(n), 7.0 + 3.0 * n as real;
      DampingBound(n);
      assert u * p * w <= 7.0 * u by {
        assert u * (7.0 - p * w) >= 0.0;
      }
      assert minSpeed * w > 7.0 * u;
      assert u * p < minSpeed by {
        assert (u * p) * w < minSpeed * w;
      }
      SettlesOnceDamped(f, n);
    }

    /** The condition under which `idle` takes the ground-hit branch of an
        airborne ball: it is falling and at or below resting height. */
    predicate Lands(f: Flight)
    {
      f.verticalSpeed < 0.0 && f.height <= defaultHeight
    }

    /** The free ball after n ticks that all last dt. */
    function Fly(f: Flight, dt: real, n: nat): Flight
      decreases n
    {
      if n == 0 then f else FreeStep(Fly(f, dt, n - 1), dt)
    }

    /** v² + a·v + 2G·(height − resting height), with a = 10·G·dt the vertical
        speed one tick takes off: what the height-then-speed update keeps. */
    function FlightEnergy(f: Flight, dt: real): real
    {
      f.verticalSpeed * f.verticalSpeed + 10.0 * G * dt * f.verticalSpeed + 2.0 * G * (f.height - defaultHeight)
    }

    /** One airborne tick that is not a ground hit keeps the flight energy. */
    lemma FlightStepKeepsEnergy(f: Flight, dt: real)
      requires f.inAir && !Lands(f)
      ensures FreeStep(f, dt).inAir && FlightEnergy(FreeStep(f, dt), dt) == FlightEnergy(f, dt)
    {
    }

    /** As long as the ball has not hit the ground, it stays airborne and its
        flight energy is what it was at the start of the flight. */
    lemma {:induction false} FlightKeepsEnergy(f: Flight, dt: real, n: nat)
      requires f.inAir
      requires forall j :: 0 <= j < n ==> !Lands(Fly(f, dt, j))
      ensures Fly(f, dt, n).inAir && FlightEnergy(Fly(f, dt, n), dt) == FlightEnergy(f, dt)
      decreases n
    {
      if n > 0 {
        FlightKeepsEnergy(f, dt, n - 1);
        FlightStepKeepsEnergy(Fly(f, dt, n - 1), dt);
      }
    }

    /** A ball that leaves resting height upwards at v and first comes back to
        the ground after n ticks of length dt lands at least 10·G·dt faster
        than it left: the ticked flight never returns at its rebound speed. */
    lemma LandsFaster(f: Flight, dt: real, n: nat)
      requires f.inAir && f.height == defaultHeight && f.verticalSpeed >= 0.0 && dt >= 0.0
      requires forall j :: 0 <= j < n ==> !Lands(Fly(f, dt, j))
      requires Lands(Fly(f, dt, n))
      ensures -Fly(f, dt, n).verticalSpeed >= f.verticalSpeed + 10.0 * G * dt
    {
      var l := Fly(f, dt, n);
      FlightKeepsEnergy(f, dt, n);
      LandingEnergy(l, dt);
      LandingOrder(f.verticalSpeed, 10.0 * G * dt, -l.verticalSpeed);
    }

    /** On the ground or below it, the height term of the flight energy is not positive. */
    lemma LandingEnergy(l: Flight, dt: real)
      requires Lands(l)
      ensures FlightEnergy(l, dt) <= l.verticalSpeed * l.verticalSpeed + 10.0 * G * dt * l.verticalSpeed
    {
    }

    /** A ball landing at speed m or faster, where minSpeed <= m <= 100·G·dt/3,
        rebounds, and if it lands again after ticks of the same length dt, it
        lands at speed m or faster once more: at such tick lengths a bounce
        never settles. */
    lemma BounceNeverSettles(f: Flight, dt: real, m: real, n: nat)
      requires f.inAir && Lands(f) && dt >= 0.0
      requires minSpeed <= m <= -f.verticalSpeed && 3.0 * m <= 100.0 * G * dt
      requires forall j :: 0 <= j < n ==> !Lands(Fly(FreeStep(f, dt), dt, j))
      requires Lands(Fly(FreeStep(f, dt), dt, n))
      ensures FreeStep(f, dt).inAir && FreeStep(f, dt).verticalSpeed >= 0.7 * m
      ensures -Fly(FreeStep(f, dt), dt, n).verticalSpeed >= m
    {
      var g := FreeStep(f, dt);
      LandsFaster(g, dt, n);
    }
  }
}
