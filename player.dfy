/**
 * Player.hpp: movement speed by mode, the jump arc, cooldown-gated actions
 * (jump, slide, pass, slowdown), and taking and losing the ball, which
 * writes through to the Ball.
 */
module Players {
  import opened Wrappers
  import opened Timing
  import opened Units
  import opened Balls

  /** Timer keys of a player. */
  const TimeDispossessed: int := 0
  const TimeGotBall: int := 1
  const TimeOfLastJump: int := 2
  const TimeOfLastSlide: int := 3
  const TimeLastSlownDown: int := 4
  const TimeOfLastPass: int := 5

  /** How long a player may not take the ball back after losing it or shooting. */
  const CantHoldBallDispossess: real := 1.45
  const CantHoldBallShot: real := 0.9

  /** Slowdowns after being slid into and after a shot. */
  const SlowdownSlid: real := 0.95
  const SlowdownShot: real := 1.0

  /** The vertical part of a player's state, which the jump arc changes. */
  datatype Vertical = Vertical(height: real, verticalSpeed: real, inAir: bool)

  class Player {
    const initialPosition: Loc
    var unit: Unit
    const timer: Timer
    const team: bool
    const playerId: int
    const tallness: real := GAUGE * 100.0
    const runningSpeed: real := GAUGE * 290.0
    const G: real := GAUGE * 2.3
    var isInAir: bool
    const defaultHeight: real := GAUGE * 0.01
    var verticalSpeed: real
    const jumpCooldown: real := 3.0
    var hasBall: bool
    const possessionRange: real := GAUGE * 100.0
    const possessionOffset: real := GAUGE * 60.0
    const possessionRunningSpeed: real := GAUGE * 200.0
    const passCooldown: real := 2.0
    const slideDuration: real := 0.7
    const slideSlowdownDuration: real := 1.8
    const slideSpeed: real := GAUGE * 400.0
    const slideSlowdownSpeed: real := 0.5 * runningSpeed
    const slideCooldown: real := slideDuration + slideSlowdownDuration

    /** Every key of the player has been marked, and the jump, slide and pass
        cooldowns are the ones SetTimer gave them. */
    ghost predicate Valid()
      reads this, timer
    {
      && timer.Valid()
      && {TimeDispossessed, TimeGotBall, TimeOfLastJump, TimeOfLastSlide, TimeLastSlownDown, TimeOfLastPass} <= timer.events.Keys
      && timer.Timeout(TimeOfLastJump) == jumpCooldown
      && timer.Timeout(TimeOfLastSlide) == slideCooldown
      && timer.Timeout(TimeOfLastPass) == passCooldown
    }

    /** A player stands at its initial position with no ball and a blank clock;
        SetTimer arms the clock. */
    constructor (id: int, onTeam: bool, pos: Loc, u: Unit)
      requires u.track.pos == pos
      ensures timer.Valid() && fresh(timer)
      ensures timer.events == map[] && timer.timeouts == map[]
      ensures playerId == id && team == onTeam
      ensures initialPosition == pos && unit == u
      ensures !hasBall && !isInAir && verticalSpeed == 0.0
    {
      playerId := id;
      team := onTeam;
      initialPosition := pos;
      unit := u;
      timer := new Timer();
      isInAir := false;
      verticalSpeed := 0.0;
      hasBall := false;
    }

    method SetTimer()
      requires timer.Valid()
      modifies timer
      ensures Valid()
      ensures timer.currentTime == old(timer.currentTime) && timer.prevTime == old(timer.prevTime)
      ensures timer.events[TimeGotBall] == timer.currentTime && timer.events[TimeDispossessed] == timer.currentTime
      ensures forall key :: key in old(timer.events) && key != TimeGotBall && key != TimeDispossessed ==>
                key in timer.events && timer.events[key] == old(timer.events)[key]
      ensures TimeOfLastJump !in old(timer.events) ==> timer.events[TimeOfLastJump] == timer.currentTime
      ensures TimeOfLastSlide !in old(timer.events) ==> timer.events[TimeOfLastSlide] == timer.currentTime
      ensures TimeLastSlownDown !in old(timer.events) ==> timer.events[TimeLastSlownDown] == timer.currentTime
      ensures TimeOfLastPass !in old(timer.events) ==> timer.events[TimeOfLastPass] == timer.currentTime
      ensures forall key :: key in timer.events && key !in old(timer.events) ==>
                key in {TimeOfLastJump, TimeOfLastSlide, TimeLastSlownDown, TimeOfLastPass, TimeGotBall, TimeDispossessed}
      ensures timer.timeouts == old(timer.timeouts)[TimeOfLastJump := jumpCooldown][TimeOfLastSlide := slideCooldown]
                                [TimeLastSlownDown := SlowdownShot][TimeOfLastPass := passCooldown]
      ensures timer.Timeout(TimeLastSlownDown) == SlowdownShot
      ensures TimeOfLastSlide !in old(timer.events) ==> IsSlidingFast()
      ensures TimeLastSlownDown !in old(timer.events) ==> IsSlownDown()
      ensures TimeOfLastJump !in old(timer.events) ==> !CanJump()
      ensures TimeOfLastPass !in old(timer.events) ==> !CanPass()
    {
      timer.SetEvent(TimeGotBall);
      timer.SetEvent(TimeDispossessed);
      timer.SetTimeout(TimeOfLastJump, jumpCooldown);
      timer.SetTimeout(TimeOfLastSlide, slideCooldown);
      timer.SetTimeout(TimeLastSlownDown, SlowdownShot);
      timer.SetTimeout(TimeOfLastPass, passCooldown);
    }

    function Id(): int
      reads this
    {
      playerId
    }

    predicate CanJump()
      reads this, timer
      requires Valid()
    {
      timer.TimedOut(TimeOfLastJump)
    }

    predicate IsJumping()
      reads this
    {
      isInAir
    }

    predicate IsGoingUp()
      reads this
    {
      IsJumping() && verticalSpeed > 0.0
    }

    predicate IsLanding()
      reads this
    {
      IsJumping() && verticalSpeed < 0.0
    }

    predicate CanPossess()
      reads this, timer
      requires Valid()
    {
      timer.TimedOut(TimeDispossessed)
    }

    predicate CanPass()
      reads this, timer
      requires Valid()
    {
      timer.TimedOut(TimeOfLastPass)
    }

    predicate CanSlide()
      reads this, timer
      requires Valid()
    {
      !IsJumping() && timer.TimedOut(TimeOfLastSlide)
    }

    predicate IsSliding()
      reads this, timer
      requires Valid()
    {
      !timer.TimedOut(TimeOfLastSlide)
    }

    predicate IsSlidingFast()
      reads this, timer
      requires Valid()
    {
      timer.Elapsed(TimeOfLastSlide) < slideDuration
    }

    /** The second phase of a slide: still sliding, no longer fast. */
    predicate IsSlidingSlowdown()
      reads this, timer
      requires Valid()
    {
      IsSliding() && !IsSlidingFast()
    }

    predicate IsSlownDown()
      reads this, timer
      requires Valid()
    {
      !timer.TimedOut(TimeLastSlownDown)
    }

    /** The speed `idle_speed` picks. Because a fast slide is always a slide,
        the four modes split the states: fast slide, then slide slowdown or a
        slowdown, then holding the ball, then plain running. */
    function ModeSpeed(): (r: real)
      reads this, timer
      requires Valid()
      ensures IsSlidingFast() ==> IsSliding() && r == slideSpeed
      ensures IsSliding() && !IsSlidingFast() ==> r == slideSlowdownSpeed
      ensures !IsSliding() && IsSlownDown() ==> r == slideSlowdownSpeed
      ensures !IsSliding() && !IsSlownDown() ==> r == if hasBall then possessionRunningSpeed else runningSpeed
      ensures slideSlowdownSpeed <= r <= slideSpeed
    {
      if IsSlidingFast() then slideSpeed
      else if IsSlidingSlowdown() || IsSlownDown() then slideSlowdownSpeed
      else if hasBall then possessionRunningSpeed
      else runningSpeed
    }

    method IdleSpeed()
      requires Valid()
      modifies this
      ensures unit == old(unit).(movingSpeed := ModeSpeed())
      ensures hasBall == old(hasBall) && isInAir == old(isInAir) && verticalSpeed == old(verticalSpeed)
    {
      if IsSlidingFast() {
        unit := unit.(movingSpeed := slideSpeed);
      } else if IsSlidingSlowdown() || IsSlownDown() {
        unit := unit.(movingSpeed := slideSlowdownSpeed);
      } else if hasBall {
        unit := unit.(movingSpeed := possessionRunningSpeed);
      } else {
        unit := unit.(movingSpeed := runningSpeed);
      }
    }

    function VerticalState(): Vertical
      reads this
    {
      Vertical(unit.height, verticalSpeed, isInAir)
    }

    /** The jump arc over a tick of length dt: an airborne player still rising
        or above its standing height climbs or falls under gravity; otherwise
        it lands. A player on the ground stands at its standing height. */
    function JumpStep(v: Vertical, dt: real): (r: Vertical)
      ensures r.inAir ==> v.inAir
      ensures !r.inAir ==> r.height == defaultHeight
      ensures v.inAir && !r.inAir ==> r.verticalSpeed == 0.0
      ensures !v.inAir ==> r.verticalSpeed == v.verticalSpeed
      ensures v.inAir && (v.verticalSpeed > 0.0 || v.height > defaultHeight) ==>
                && r.inAir
                && r.height - v.height == 10.0 * v.verticalSpeed * dt
                && v.verticalSpeed - r.verticalSpeed == 10.0 * G * dt
      ensures v.inAir && !(v.verticalSpeed > 0.0 || v.height > defaultHeight) ==>
                r == Vertical(defaultHeight, 0.0, false)
      ensures !v.inAir ==> r == v.(height := defaultHeight)
    {
      if v.inAir then
        if v.verticalSpeed > 0.0 || v.height > defaultHeight then
          v.(height := v.height + 10.0 * v.verticalSpeed * dt, verticalSpeed := v.verticalSpeed - 10.0 * G * dt)
        else
          Vertical(defaultHeight, 0.0, false)
      else
        v.(height := defaultHeight)
    }

    method IdleJump()
      requires Valid()
      modifies this
      ensures VerticalState() == JumpStep(old(VerticalState()), timer.Elapsed(CurrentTime))
      ensures unit == old(unit).(height := unit.height) && hasBall == old(hasBall)
    {
      var timediff := timer.Elapsed(CurrentTime);
      if IsJumping() {
        if verticalSpeed > 0.0 || unit.height > defaultHeight {
          unit := unit.(height := unit.height + 10.0 * verticalSpeed * timediff);
          verticalSpeed := verticalSpeed - 10.0 * G * timediff;
        } else {
          unit := unit.(height := defaultHeight);
          verticalSpeed := 0.0;
          isInAir := false;
        }
      } else {
        unit := unit.(height := defaultHeight);
      }
    }

    method Idle(curtime: real, k: Kinematics)
      requires Valid()
      modifies this, timer
      ensures Valid()
      ensures timer.prevTime == old(timer.currentTime) && timer.currentTime == curtime
      ensures timer.events == old(timer.events) && timer.timeouts == old(timer.timeouts)
      ensures hasBall == old(hasBall) && unit.facingDest == old(unit.facingDest)
      ensures unit.movingSpeed == ModeSpeed()
      ensures VerticalState() == JumpStep(old(VerticalState()), curtime - old(timer.currentTime))
      ensures unit.track == k.step(old(unit.track), unit.facingDest, unit.movingSpeed, curtime - old(timer.currentTime))
    {
      timer.SetTime(curtime);
      IdleSpeed();
      IdleJump();
      unit := unit.(track := k.step(unit.track, unit.facingDest, unit.movingSpeed, timer.Elapsed(CurrentTime)));
    }

    /** A jump starts the jump cooldown whenever it is over, but lifts the
        player off only when it is neither sliding nor slowed down. */
    method Jump(vspeed: real)
      requires Valid()
      requires CanJump() && !IsSliding() && !IsSlownDown() ==> !isInAir
      modifies this, timer
      ensures Valid()
      ensures timer.currentTime == old(timer.currentTime) && timer.prevTime == old(timer.prevTime)
      ensures timer.timeouts == old(timer.timeouts) && unit == old(unit) && hasBall == old(hasBall)
      ensures !old(CanJump()) ==>
                timer.events == old(timer.events) && isInAir == old(isInAir) && verticalSpeed == old(verticalSpeed)
      ensures old(CanJump()) ==> timer.events == old(timer.events)[TimeOfLastJump := timer.currentTime] && !CanJump()
      ensures old(CanJump()) && !old(IsSliding()) && !old(IsSlownDown()) ==> isInAir && verticalSpeed == vspeed
      ensures old(IsSliding()) || old(IsSlownDown()) ==> isInAir == old(isInAir) && verticalSpeed == old(verticalSpeed)
    {
      if !CanJump() {
        return;
      }
      timer.SetEvent(TimeOfLastJump);
      if IsSliding() || IsSlownDown() {
        return;
      }
      isInAir := true;
      verticalSpeed := vspeed;
    }

    /** Holding the ball, as the ball sees it; the player's own flag must agree. */
    function IsOwner(ball: Ball): (r: bool)
      reads this, ball
      requires (ball.currentOwner == Id()) == hasBall
      ensures r == hasBall
    {
      ball.currentOwner == Id()
    }

    method TimestampGotBall(ball: Ball)
      requires Valid() && ball.Valid() && timer != ball.timer
      modifies this, timer, ball, ball.timer
      ensures Valid() && ball.Valid()
      ensures hasBall && ball.Owner() == playerId && IsOwner(ball)
      ensures timer.events == old(timer.events)[TimeGotBall := timer.currentTime]
      ensures timer.timeouts == old(timer.timeouts)
      ensures timer.currentTime == old(timer.currentTime) && timer.prevTime == old(timer.prevTime)
      ensures unit == old(unit) && isInAir == old(isInAir) && verticalSpeed == old(verticalSpeed)
      ensures ball.unit == old(ball.unit) && ball.verticalSpeed == old(ball.verticalSpeed) && ball.isInAir == old(ball.isInAir)
      ensures ball.timer.timeouts == old(ball.timer.timeouts)
      ensures ball.timer.currentTime == old(ball.timer.currentTime) && ball.timer.prevTime == old(ball.timer.prevTime)
      ensures old(ball.currentOwner) != playerId && playerId != NoOwner ==>
                && ball.lastTouched == playerId
                && ball.timer.events == old(ball.timer.events)[TimeLooseBallBegins := ball.timer.currentTime]
                && ball.IsLoose()
      ensures old(ball.currentOwner) == playerId || playerId == NoOwner ==>
                ball.lastTouched == old(ball.lastTouched) && ball.timer.events == old(ball.timer.events)
    {
      hasBall := true;
      timer.SetEvent(TimeGotBall);
      ball.TimestampSetOwner(playerId);
    }

    /** Taking the ball away from its holder: the player may not take it back
        for `lockFor`, and the ball is left without an owner. */
    method TimestampDispossess(ball: Ball, lockFor: real)
      requires Valid() && ball.Valid() && timer != ball.timer
      requires hasBall && ball.currentOwner == playerId
      modifies this, timer, ball, ball.timer
      ensures Valid() && ball.Valid()
      ensures !hasBall && ball.Owner() == NoOwner
      ensures playerId != NoOwner ==> IsOwner(ball) == hasBall
      ensures lockFor >= 0.0 ==> !CanPossess()
      ensures timer.events == old(timer.events)[TimeDispossessed := timer.currentTime]
      ensures timer.timeouts == old(timer.timeouts)[TimeDispossessed := lockFor]
      ensures timer.currentTime == old(timer.currentTime) && timer.prevTime == old(timer.prevTime)
      ensures unit == old(unit) && isInAir == old(isInAir) && verticalSpeed == old(verticalSpeed)
      ensures ball.unit == old(ball.unit) && ball.verticalSpeed == old(ball.verticalSpeed) && ball.isInAir == old(ball.isInAir)
      ensures ball.lastTouched == old(ball.lastTouched)
      ensures ball.timer.events == old(ball.timer.events) && ball.timer.timeouts == old(ball.timer.timeouts)
      ensures ball.timer.currentTime == old(ball.timer.currentTime) && ball.timer.prevTime == old(ball.timer.prevTime)
    {
      assert IsOwner(ball);
      hasBall := false;
      timer.SetEvent(TimeDispossessed);
      timer.SetTimeout(TimeDispossessed, lockFor);
      ball.TimestampSetOwner(NoOwner);
    }

    /** Where the ball is held: the player's own position while rising in a
        jump, otherwise the point possession_offset away from it, towards its
        heading. */
    function PossessionPoint(k: Kinematics): (r: Loc)
      reads this
      ensures IsGoingUp() ==> r == unit.track.pos
      ensures !IsGoingUp() && OffsetsByDistance(k) ==>
                DistanceSquared(unit.track.pos, r) == possessionOffset * possessionOffset
    {
      if IsGoingUp() then unit.track.pos
      else k.pointOffset(unit.track, possessionOffset, unit.facingDest)
    }

    /** The eligibility test of `get_control_potential`: the ball is not
        locked, the player may possess, the ball is above the player's height
        and below the top of its reach, and the player is not slowed. */
    predicate Eligible(ball: Ball)
      reads this, timer, ball, ball.timer
      requires Valid() && ball.timer.Marked(TimeAbleToInteract)
    {
      && ball.CanInteract()
      && CanPossess()
      && unit.height < ball.unit.height < unit.height + tallness
      && !IsSlidingSlowdown()
      && !IsSlownDown()
    }

    /** The player's claim on the ball: none when it is not eligible or the ball
        is out of possession range, otherwise the planar distance from the
        possession point to the ball, which lies in [0, possessionRange]. */
    function GetControlPotential(ball: Ball, k: Kinematics): (r: Option<real>)
      reads this, timer, ball, ball.timer
      requires Valid() && ball.timer.Marked(TimeAbleToInteract) && Euclidean(k)
      ensures !Eligible(ball) ==> r == None
      ensures r.Some? <==>
                Eligible(ball) && DistanceSquared(PossessionPoint(k), ball.unit.track.pos) <= possessionRange * possessionRange
      ensures r.Some? ==>
                && 0.0 <= r.value <= possessionRange
                && r.value * r.value == DistanceSquared(PossessionPoint(k), ball.unit.track.pos)
    {
      if !Eligible(ball) then
        None
      else
        var pp := PossessionPoint(k);
        var range := Distance(k, pp, ball.unit.track.pos);
        DistanceOrder(k, pp, ball.unit.track.pos, pp, ball.unit.track.pos);
        SquareOrder(possessionRange, range);
        if range > possessionRange then None else Some(range)
    }

    method KickTheBall(ball: Ball, speed: real, vspeed: real, angle: real)
      requires Valid() && ball.Valid() && timer != ball.timer
      requires hasBall && ball.currentOwner == playerId
      modifies this, timer, ball, ball.timer
      ensures Valid() && ball.Valid()
      ensures ball.unit == old(ball.unit).(facingDest := angle, movingSpeed := speed)
      ensures ball.verticalSpeed == vspeed && ball.isInAir == old(ball.isInAir)
      ensures ball.Owner() == NoOwner && !hasBall && ball.lastTouched == old(ball.lastTouched)
      ensures ball.timer.events == old(ball.timer.events)[TimeAbleToInteract := ball.timer.currentTime]
      ensures !ball.CanInteract() && !CanPossess()
      ensures ball.timer.timeouts == old(ball.timer.timeouts)[TimeAbleToInteract := CantInteractShot]
      ensures timer.events == old(timer.events)[TimeDispossessed := timer.currentTime]
      ensures timer.timeouts == old(timer.timeouts)[TimeDispossessed := CantHoldBallShot]
      ensures timer.currentTime == old(timer.currentTime) && timer.prevTime == old(timer.prevTime)
      ensures ball.timer.currentTime == old(ball.timer.currentTime) && ball.timer.prevTime == old(ball.timer.prevTime)
      ensures unit == old(unit) && isInAir == old(isInAir) && verticalSpeed == old(verticalSpeed)
    {
      ball.Face(angle);
      ball.unit := ball.unit.(movingSpeed := speed);
      ball.verticalSpeed := vspeed;
      TimestampDispossess(ball, CantHoldBallShot);
      ball.DisableInteraction(CantInteractShot);
    }

    method TimestampPassed()
      requires Valid()
      modifies timer
      ensures Valid()
      ensures timer.currentTime == old(timer.currentTime) && timer.prevTime == old(timer.prevTime)
      ensures timer.timeouts == old(timer.timeouts)
      ensures !old(CanPass()) ==> timer.events == old(timer.events)
      ensures old(CanPass()) ==> timer.events == old(timer.events)[TimeOfLastPass := timer.currentTime] && !CanPass()
    {
      if !CanPass() {
        return;
      }
      timer.SetEvent(TimeOfLastPass);
    }

    method TimestampSlide()
      requires Valid()
      requires !hasBall
      modifies timer
      ensures Valid()
      ensures timer.currentTime == old(timer.currentTime) && timer.prevTime == old(timer.prevTime)
      ensures timer.timeouts == old(timer.timeouts)
      ensures !old(CanSlide()) ==> timer.events == old(timer.events)
      ensures old(CanSlide()) ==>
                timer.events == old(timer.events)[TimeOfLastSlide := timer.currentTime] && IsSlidingFast() && !CanSlide()
    {
      if !CanSlide() {
        return;
      }
      timer.SetEvent(TimeOfLastSlide);
    }

    method TimestampSlowdown(dur: real)
      requires Valid()
      modifies timer
      ensures Valid()
      ensures timer.currentTime == old(timer.currentTime) && timer.prevTime == old(timer.prevTime)
      ensures timer.events == old(timer.events)[TimeLastSlownDown := timer.currentTime]
      ensures timer.timeouts == old(timer.timeouts)[TimeLastSlownDown := dur]
      ensures dur >= 0.0 ==> IsSlownDown()
    {
      timer.SetEvent(TimeLastSlownDown);
      timer.SetTimeout(TimeLastSlownDown, dur);
    }
  }

  /** Of a player's claims on two balls, the smaller potential belongs to the
      ball nearer the possession point: potentials rank by distance. */
  lemma ControlPotentialRanksByDistance(p: Player, b1: Ball, b2: Ball, k: Kinematics)
    requires p.Valid() && b1.timer.Marked(TimeAbleToInteract) && b2.timer.Marked(TimeAbleToInteract) && Euclidean(k)
    requires p.GetControlPotential(b1, k).Some? && p.GetControlPotential(b2, k).Some?
    ensures p.GetControlPotential(b1, k).value < p.GetControlPotential(b2, k).value <==>
              DistanceSquared(p.PossessionPoint(k), b1.unit.track.pos) < DistanceSquared(p.PossessionPoint(k), b2.unit.track.pos)
  {
    var r1, r2 := p.GetControlPotential(b1, k).value, p.GetControlPotential(b2, k).value;
    SquareOrder(r1, r2);
  }

  /** Every player's flag agrees with the ball: the player holds the ball
      exactly when the ball's owner is that player's id. */
  ghost predicate FlagsAgree(players: seq<Player>, ball: Ball)
    reads players, ball
  {
    forall i :: 0 <= i < |players| ==> (ball.currentOwner == players[i].playerId) == players[i].hasBall
  }

  /** No two players share an id, and no player has the id of nobody. */
  ghost predicate DistinctIds(players: seq<Player>)
  {
    && (forall i, j :: 0 <= i < j < |players| ==> players[i].playerId != players[j].playerId)
    && (forall i :: 0 <= i < |players| ==> players[i].playerId != NoOwner)
  }

  /** When every player's flag agrees with the ball and ids are distinct, at
      most one player holds the ball. */
  lemma AtMostOneHolder(players: seq<Player>, ball: Ball)
    requires forall i :: 0 <= i < |players| ==> (ball.currentOwner == players[i].playerId) == players[i].hasBall
    requires forall i, j :: 0 <= i < j < |players| ==> players[i].playerId != players[j].playerId
    ensures forall i, j :: 0 <= i < j < |players| ==> !(players[i].hasBall && players[j].hasBall)
  {
  }

  /** Taking a ball that is free or already one's own keeps every player's
      flag in agreement with the ball. */
  method GotBallKeepsAgreement(players: seq<Player>, i: nat, ball: Ball)
    requires i < |players| && DistinctIds(players) && FlagsAgree(players, ball)
    requires players[i].Valid() && ball.Valid() && players[i].timer != ball.timer
    requires ball.currentOwner == NoOwner || ball.currentOwner == players[i].playerId
    modifies players[i], players[i].timer, ball, ball.timer
    ensures FlagsAgree(players, ball) && players[i].hasBall
  {
    players[i].TimestampGotBall(ball);
  }

  /** Taking a ball another player holds leaves that player's flag set: both
      players then believe they hold the ball, and the first one's next
      `IsOwner` fails its precondition. The game driver must dispossess the
      holder first. */
  method TakingHeldBallBreaksAgreement(holder: Player, taker: Player, ball: Ball)
    requires holder.hasBall && ball.currentOwner == holder.playerId
    requires taker.playerId != holder.playerId && taker.playerId != NoOwner
    requires taker.Valid() && ball.Valid() && taker.timer != ball.timer
    modifies taker, taker.timer, ball, ball.timer
    ensures holder.hasBall && taker.hasBall
    ensures (ball.currentOwner == holder.playerId) != holder.hasBall
  {
    taker.TimestampGotBall(ball);
  }

  /** Dispossessing the holder keeps every player's flag in agreement with
      the ball: nobody holds it afterwards. */
  method DispossessKeepsAgreement(players: seq<Player>, i: nat, ball: Ball, lockFor: real)
    requires i < |players| && DistinctIds(players) && FlagsAgree(players, ball)
    requires players[i].Valid() && ball.Valid() && players[i].timer != ball.timer
    requires players[i].hasBall && ball.currentOwner == players[i].playerId
    modifies players[i], players[i].timer, ball, ball.timer
    ensures FlagsAgree(players, ball)
    ensures forall j :: 0 <= j < |players| ==> !players[j].hasBall
  {
    players[i].TimestampDispossess(ball, lockFor);
  }

  /** A kick by the holder keeps every player's flag in agreement with the
      ball: nobody holds it afterwards. */
  method KickKeepsAgreement(players: seq<Player>, i: nat, ball: Ball, speed: real, vspeed: real, angle: real)
    requires i < |players| && DistinctIds(players) && FlagsAgree(players, ball)
    requires players[i].Valid() && ball.Valid() && players[i].timer != ball.timer
    requires players[i].hasBall && ball.currentOwner == players[i].playerId
    modifies players[i], players[i].timer, ball, ball.timer
    ensures FlagsAgree(players, ball)
    ensures forall j :: 0 <= j < |players| ==> !players[j].hasBall
  {
    players[i].KickTheBall(ball, speed, vspeed, angle);
  }
}
