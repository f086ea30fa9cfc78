# mini-fifa gameplay state machine in Dafny

This project models the authoritative gameplay core of the mini-fifa soccer
simulation: the per-entity cooldown clock (`Timer`), the gameplay half of the
`Ball` (ownership, the loose-ball window, the interaction lock, and the
per-tick flight, bounce and friction update) and the `Player` (speed by
movement mode, the jump arc, cooldown-gated jump/slide/pass/slowdown, taking
and losing the ball, and the control-potential metric used to decide who may
take the ball).

Layout, one module per source file plus two small helpers:

- `timer.dfy`, module `Timing`: class `Timer` with the `prevTime`/`currentTime`
  fields and the `events`/`timeouts` maps, updated in place.
- `units.dfy`, module `Units`: the motion helper `Unit` as a value (planar track,
  `facingDest`, `movingSpeed`, `height`) and `Kinematics`, the caller-supplied
  record of Unit's own operations and of `glm::length`.
- `ball.dfy`, module `Balls`: class `Ball` holding a `Unit` and its own `Timer`;
  the free-ball physics is specified by the pure functions `GroundHit` and
  `FreeStep`, which the imperative `Idle` is proved against.
- `player.dfy`, module `Players`: class `Player` holding a `Unit` and its own
  `Timer`; `ModeSpeed` and `JumpStep` specify `IdleSpeed` and `IdleJump`.
- `wrappers.dfy`, module `Wrappers`: `Option`, used for the NaN "not eligible"
  result of the control potential.

Invariants kept by every operation:

- `Timer.Valid`: the frame-delta key is never marked, and every key with a
  cooldown has been marked.
- `Ball.Valid`: a held ball has an opened loose-ball window and its holder is
  the last player who touched it; the loose-ball cooldown, once set, is 0.1.
- `Player.Valid` (established by `SetTimer`): all six player keys are marked,
  and the jump, slide and pass cooldowns are 3, 2.5 and 2.

The cross-entity rule that a ball's owner id equals a player's id exactly when
that player's `hasBall` is set is the precondition of `IsOwner`
(`FlagsAgree`, over a sequence of players with distinct ids).
- `TimestampDispossess` and `KickTheBall` keep it for every player.
- `TimestampGotBall` keeps it only when the ball was unowned or already the
  taker's. Taking a ball someone else holds leaves two players whose flags
  say they hold it.

The source's read-only queries are definitions, and the contracts below are
stated in their terms:
- `Timing.Timer.Elapsed` (Timer.hpp:35-39), `Timing.Timer.TimedOut` (Timer.hpp:48-55).
- `Balls.Ball.Owner` (Ball.hpp:288-290), `Balls.Ball.CanInteract` (Ball.hpp:301-303).
- From Player.hpp:
  - `Players.Player.Id` (58);
  - `CanJump` (106-108), `IsJumping` (110-112), `IsGoingUp` (114-116), `IsLanding` (118-120);
  - `CanPossess` (137-139), `CanPass` (205-207), `CanSlide` (214-216);
  - `IsSliding` (218-220), `IsSlidingFast` (222-224), `IsSlidingSlowdown` (226-228), `IsSlownDown` (239-241).

## Model

| member | source | states |
|---|---|---|
| `Timing.Timer.constructor` | Timer.hpp:13-19 | a new clock reads time 0 at both ends and has no marks and no cooldowns |
| `Timing.Timer.SetTime` | Timer.hpp:25-28 | the old current time becomes the previous time; the frame delta is `t - old current time`; every mark ages by exactly that delta; marks and cooldowns are untouched |
| `Timing.Timer.SetEvent` | Timer.hpp:30-33 | only key `k`, which must not be the frame-delta key, is re-marked at the current time; right after, `k` has elapsed 0 and has not timed out when its cooldown is non-negative |
| `Timing.Timer.SetTimeout` | Timer.hpp:41-46 | an unmarked key is marked now and a marked key keeps its mark; the cooldown is always overwritten |
| `Timing.TimedOutBoundary` | Timer.hpp:48-55 | timing out is strictly greater-than: false at exactly the cooldown; with no cooldown set it means that some time has passed |
| `Units.DistanceOrder` | Player.hpp:187-189 | planar distances compare exactly as their squares do, in both directions, and a distance squared is the squared planar offset |
| `Balls.Ball.constructor` | Ball.hpp:39-53 | a new ball is unowned, untouched, on the ground, with no vertical speed, at its resting height |
| `Balls.Ball.SetTimer` | Ball.hpp:217-220 | resets the height; starts the loose-ball key if it was never marked and sets its cooldown to 0.1 |
| `Balls.Ball.ResetHeight` | Ball.hpp:224-226 | only the height changes, to the resting height |
| `Balls.Ball.IsLoose` | Ball.hpp:292-294 | a loose ball is held by someone, and its holder got it no more than the loose-ball cooldown ago |
| `Balls.Ball.DisableInteraction` | Ball.hpp:296-302 | the lock key is re-marked now with cooldown `lockFor`; for a non-negative lock the ball cannot interact right after |
| `Balls.Ball.Face` | Ball.hpp:271-273 | only the heading the ball moves along changes |
| `Balls.Ball.TimestampSetOwner` | Ball.hpp:279-286 | re-setting the current owner changes nothing; a new real owner is also the last toucher, opens the loose-ball window and leaves the ball loose; setting no owner changes only the owner |
| `Balls.Ball.GroundHit` | Ball.hpp:242-252 | a ground hit costs 0.02 of speed and resets the height; the ball settles with zero vertical speed exactly when that speed was below the minimum, otherwise it rebounds upwards at 70% of it |
| `Balls.Ball.FreeStep` | Ball.hpp:233-261 | a free ball below the minimum speed is pinned to it before anything else; a falling ball at or below resting height bounces as in GroundHit; any other airborne ball moves `10·vs·dt` up and loses `10·G·dt` of vertical speed; a grounded ball stays at resting height and loses `0.05·dt` of speed; no ball takes off by itself |
| `Balls.Ball.Idle` | Ball.hpp:228-263 | the clock advances to `curtime`; a free ball (unowned or loose, judged at the new time) follows FreeStep and is stopped or steered before Unit's tick; a held ball keeps its speed, height, vertical speed and airborne flag; ownership, marks and cooldowns are untouched |
| `Balls.Ball.SettlesOnceDamped` | Ball.hpp:242-252 | about the ground-hit rule alone, in the idealised sequence `Hits` where each flight returns at exactly its rebound speed (never the case under the per-tick update, see `LandsFaster`): a ball hitting at speed `u` is at rest after hit `n + 1` once `0.7^n · u` is below the minimum speed |
| `Balls.Ball.SettlesWithinBounces` | Ball.hpp:242-252 | in the idealised `Hits` only, the 0.7 rebound ends bouncing: a ball hitting the ground at speed `u` is grounded with zero vertical speed after at most `n + 1` hits whenever `3n · minSpeed > 7u` |
| `Balls.Ball.FlightStepKeepsEnergy` | Ball.hpp:253-257 | a tick of flight that is not a ground hit keeps the ball airborne and keeps `v² + 10·G·dt·v + 2G·(height − resting height)` |
| `Balls.Ball.FlightKeepsEnergy` | Ball.hpp:241-257 | over any number of ticks of length `dt` with no ground hit, the ball stays airborne and keeps that flight energy |
| `Balls.Ball.LandsFaster` | Ball.hpp:241-257 | a ball leaving resting height upwards at `v` that first meets the ground-hit condition after `n` ticks of length `dt` falls at least `v + 10·G·dt` fast: a ticked flight always returns faster than it left |
| `Balls.Ball.BounceNeverSettles` | Ball.hpp:241-257 | with ticks of a fixed length `dt`, a ball landing at speed `m` or more, where `minSpeed ≤ m ≤ 100·G·dt/3`, rebounds, and its next landing is again at speed `m` or more; so at ticks longer than `3/230` (with `G = 2.3·minSpeed`) such a bounce never settles |
| `Players.Player.constructor` | Player.hpp:9-13 | a new player at its initial position, without the ball, grounded, with a blank clock |
| `Players.Player.SetTimer` | Player.hpp:48-56 | got-ball and dispossessed are re-marked now; each of the jump, slide, slowdown and pass keys is marked now if it was unmarked and keeps its mark otherwise; no other mark changes and no other key is marked; the four cooldowns become 3, 2.5, 1 and 2 and every other cooldown is kept; a player armed for the first time is in a fast slide, slowed down, and can neither jump nor pass yet |
| `Players.Player.ModeSpeed` | Player.hpp:70-80 | strict priority: a fast slide, which is always a slide, gives slide speed; otherwise a slide slowdown or a slowdown gives half running speed; otherwise holding the ball gives possession speed, else running speed |
| `Players.Player.IdleSpeed` | Player.hpp:70-80 | only the moving speed changes, to the mode speed |
| `Players.Player.JumpStep` | Player.hpp:89-103 | an airborne player rising or above standing height integrates height and vertical speed and stays airborne; otherwise it lands at standing height with zero vertical speed; a grounded player is pinned to standing height; the arc never lifts a player off |
| `Players.Player.IdleJump` | Player.hpp:82-104 | the vertical state follows JumpStep over the last frame delta; nothing else changes but the height |
| `Players.Player.Idle` | Player.hpp:61-68 | the clock advances to `curtime`, then speed by mode, then the jump arc over the new delta, then Unit's tick |
| `Players.Player.Jump` | Player.hpp:122-129 | no-op before the jump cooldown is over; otherwise the jump key is re-marked, which closes the cooldown again, even while sliding or slowed; only when neither is the player airborne at speed `vspeed`, and it must have been grounded |
| `Players.Player.IsOwner` | Player.hpp:131-135 | demands that the ball's owner and the player's flag agree, and then answers the flag |
| `Players.Player.TimestampGotBall` | Player.hpp:141-145 | the player holds the ball, the got-ball key is re-marked, and the ball's owner is the player; a change of owner makes the ball loose and the player its last toucher |
| `Players.Player.TimestampDispossess` | Player.hpp:147-153 | demands that the player holds the ball; afterwards neither the player nor anyone owns it, the flags agree again, and for a non-negative lock the player cannot possess; the ball's last toucher and clock are untouched |
| `Players.Player.PossessionPoint` | Player.hpp:155-160 | the possession point is the player's own position while rising in a jump; otherwise, when `point_offset` places points at the distance asked for, it lies exactly `possessionOffset` from the player's position |
| `Players.Player.GetControlPotential` | Player.hpp:162-195 | none if the ball is locked, the player cannot possess, the ball is at or below the player's height or at or above the top of its reach, or the player is in slide slowdown or slowed; otherwise the planar distance from the possession point to the ball if it is within `possessionRange`, none beyond it; a result lies in `[0, possessionRange]` |
| `Players.ControlPotentialRanksByDistance` | Player.hpp:187-194 | two control potentials compare exactly as the distances from the possession point to the balls do |
| `Players.Player.KickTheBall` | Player.hpp:197-203 | the ball takes heading `angle`, speed `speed` and vertical speed `vspeed`, and keeps its airborne flag; afterwards it has no owner, the kicker does not hold it, nobody can interact with it for 0.7 and the kicker cannot possess for 0.9; neither clock's times change |
| `Players.Player.TimestampPassed` | Player.hpp:205-212 | no-op while the pass cooldown runs; otherwise re-marks the pass key, which starts the cooldown again |
| `Players.Player.TimestampSlide` | Player.hpp:214-234 | demands that the player does not hold the ball; no-op while airborne or while the slide cooldown runs; otherwise re-marks the slide key and the player is in a fast slide |
| `Players.Player.TimestampSlowdown` | Player.hpp:239-246 | re-marks the slowdown key and sets its cooldown to `dur`; for a non-negative `dur` the player is slowed right after |
| `Players.GotBallKeepsAgreement` | Player.hpp:141-145 | when the ball is free or already the taker's, taking it keeps every player's flag in agreement with the ball, and the taker holds it |
| `Players.TakingHeldBallBreaksAgreement` | Player.hpp:141-145 | taking a ball another player holds leaves the holder's flag set: both players then hold it by their flags, and the holder's flag disagrees with the ball |
| `Players.DispossessKeepsAgreement` | Player.hpp:147-153 | dispossessing the holder keeps every player's flag in agreement with the ball, and afterwards no player holds it |
| `Players.KickKeepsAgreement` | Player.hpp:197-203 | a kick by the holder keeps every player's flag in agreement with the ball, and afterwards no player holds it |
| `Players.AtMostOneHolder` | Player.hpp:131-135 | when every player's flag agrees with the ball and ids are distinct, at most one player holds the ball |

## Left out

- Rendering: the GL members of `Ball`, the transform set-up in its constructor, sphere tessellation (`set_vertices`, `set_texcoords`, `point_on_sphere`), `init`, `display`, `clear`, the transform-rotation tail of `idle`, and the commented-out `keyboard`. These only draw the state.
- `Unit` (Unit.hpp) is not part of this model. Its position, current facing and steering target are the `Track` value. Its `stop`, `move`, `point_offset` and per-tick `idle` are caller-supplied functions in `Kinematics`. The model assumes they change only the `Track`, never the speed, heading or height. `Unit::GAUGE` is the module constant `Units.GAUGE`, shared by every ball and player, of which the model knows only that it is positive. The Unit's vertical coordinate is its `height`.
- `glm::length` is the caller-supplied `Kinematics.length`. `Euclidean` requires it to be the planar norm. Reals have no square root to compute it with.
- `Ball::face(loc_t)`: its `atan2` heading maths is Unit-level geometry.
- Floating point: times, speeds and heights are `real`, so `float`/`double` rounding is not modelled. The NaN sentinel of `get_control_potential` is `None`.
- Balls.Ball.SettlesOnceDamped, Balls.Ball.SettlesWithinBounces: these hold only for the idealised `Hits`, where each flight returns at exactly its rebound speed. Under the source's per-tick update (height first, then speed), each flight lands at least `10·G·dt` faster than it rebounded (`LandsFaster`). So a free ball need not settle: with ticks of a fixed length above about 0.013, a landing speed between `minSpeed` and `100·G·dt/3` recurs at every later landing (`BounceNeverSettles`). Settling is proved only for the idealised sequence, and at shorter ticks it is not proved for the program.
- Fatal errors are preconditions: `elapsed` of a key that was never marked (`events.at` throws); `set_event` on the frame-delta key; the ASSERTs of `jump`, `is_owner`, `timestamp_dispossess` and `timestamp_slide`. In particular, `can_interact` and `get_control_potential` need the ball's lock key to have been marked by a first `DisableInteraction`.
- The clock does not check that `set_time` moves forward. The source does not check it either.
- `Player::slowdown(float)`: its body is empty.
- The `id() == 0` debug-print branches, and `velocity()`, which forwards to Unit.
- Choosing one player among several eligible ones is done by the game driver (`Soccer`), which is not part of this model.
- Players.Player.TimestampGotBall: taking a held ball does not clear the previous holder's flag (Player.hpp:141-145 sets only the taker's), so the flag-agreement rule is kept only if the driver, which is not part of this model, dispossesses the holder first (`TakingHeldBallBreaksAgreement`).
- Default arguments are explicit parameters:
  - `elapsed(key = CURRENT_TIME)` (Timer.hpp:35): callers pass `CurrentTime`.
  - `disable_interaction(lock_for = CANT_INTERACT_SHOT)` (Ball.hpp:296).
  - `timestamp_slowdown(dur = SLOWDOWN_SLID)` (Player.hpp:243).
  - The initial position of `Player(id, team, pos = {0, 0})` (Player.hpp:9).
- `Players.Player.PossessionPoint`: `unit.point_offset(possession_offset)` (Player.hpp:159) uses Unit's default angle. Unit.hpp is not part of this model, so the model takes that default to be `facing_dest`, the angle Ball.hpp:238 passes explicitly. Its contract says only that the point is `possessionOffset` away, and that only when `point_offset` places points at the distance asked for (`Units.OffsetsByDistance`).
- The gameplay code never sets a ball's `is_in_air` to true. It is written only at Ball.hpp:212 (false) and Ball.hpp:247 (false, on settling). So the flight and bounce branches of `Idle` are reached only when the game driver, which is not part of this model, lifts the ball. The model keeps those branches.
