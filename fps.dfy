/** `FPSCamera`: a first-person camera with jump, flight and a vertical
    physics step that integrates gravity and stops at the stand height. */
module Fps {
  import opened Geometry

  const Gravity: real := -9.81
  const JumpForce: real := 5.0
  const StandHeight: real := 1.0

  /** The part of the camera that `jump`, `toggleFly` and `updatePhysics`
      act on: height is `position.y`, climb is `velocity.y`. The implicit
      states are Grounded (`grounded`), Airborne (neither flag) and Flying. */
  datatype Vertical = Vertical(height: real, climb: real, grounded: bool, flying: bool)

  /** Standing on the floor at rest. */
  const Resting: Vertical := Vertical(StandHeight, 0.0, true, false)

  /** No state is both flying and grounded. */
  predicate Consistent(v: Vertical) {
    v.flying ==> !v.grounded
  }

  /** `jump()`: only a grounded camera that is not flying takes off. */
  function JumpStep(v: Vertical): (r: Vertical)
    ensures v.grounded && !v.flying ==> r == v.(climb := JumpForce, grounded := false)
    ensures !(v.grounded && !v.flying) ==> r == v
    ensures Consistent(v) ==> Consistent(r)
  {
    if v.grounded && !v.flying then v.(climb := JumpForce, grounded := false) else v
  }

  /** `toggleFly()`: the flag flips; entering flight cancels any fall and
      leaves the ground. */
  function ToggleFlyStep(v: Vertical): (r: Vertical)
    ensures r.flying == !v.flying && r.height == v.height
    ensures r.flying ==> r.climb == 0.0 && !r.grounded
    ensures !r.flying ==> r.climb == v.climb && r.grounded == v.grounded
    ensures Consistent(r)
  {
    var flying := !v.flying;
    if flying then v.(flying := flying, climb := 0.0, grounded := false) else v.(flying := flying)
  }

  /** One call of `updatePhysics(dt)`. */
  function PhysicsStep(v: Vertical, dt: real): (r: Vertical)
    ensures r.flying == v.flying
    ensures v.flying ==> r == v
    ensures !v.flying ==> r.height >= StandHeight
    ensures !v.flying && v.height + (v.climb + Gravity * dt) * dt <= StandHeight ==> r == Resting
    ensures !v.flying && v.height + (v.climb + Gravity * dt) * dt > StandHeight ==> r.grounded == v.grounded
    ensures !v.flying && r.grounded && !v.grounded ==> r == Resting
    ensures Consistent(v) ==> Consistent(r)
  {
    if v.flying then v
    else
      var climb := v.climb + Gravity * dt;
      var height := v.height + climb * dt;
      if height <= StandHeight then Resting else Vertical(height, climb, v.grounded, false)
  }

  /** `n` consecutive physics steps, all with the same time step `dt`. */
  function Steps(v: Vertical, dt: real, n: nat): (r: Vertical)
    ensures r.flying == v.flying
    ensures v.flying ==> r == v
    ensures !v.flying && n > 0 ==> r.height >= StandHeight
    ensures Consistent(v) ==> Consistent(r)
    decreases n
  {
    if n == 0 then v else Steps(PhysicsStep(v, dt), dt, n - 1)
  }

  /** Physics steps with the frame times `dts` in turn, as the frame loop
      calls `updatePhysics` once per frame with that frame's duration. */
  function Frames(v: Vertical, dts: seq<real>): (r: Vertical)
    ensures r.flying == v.flying
    ensures v.flying ==> r == v
    ensures !v.flying && |dts| > 0 ==> r.height >= StandHeight
    ensures Consistent(v) ==> Consistent(r)
    decreases |dts|
  {
    if dts == [] then v else Frames(PhysicsStep(v, dts[0]), dts[1..])
  }

  /** Jumping again right after a jump does nothing. */
  lemma JumpTwiceIsJumpOnce(v: Vertical)
    ensures JumpStep(JumpStep(v)) == JumpStep(v)
  {
  }

  /** Flying up and back down again cancels any fall and leaves the camera airborne. */
  lemma ToggleFlyTwice(v: Vertical)
    requires !v.flying
    ensures ToggleFlyStep(ToggleFlyStep(v)) == v.(climb := 0.0, grounded := false)
  {
  }

  /** A camera at rest on the floor stays there, whatever the time step. */
  lemma RestingIsStable(dt: real)
    ensures PhysicsStep(Resting, dt) == Resting
  {
    if dt != 0.0 {
      if dt > 0.0 { MulPositive(dt, dt); } else { MulPositive(-dt, -dt); }
    }
    assert (0.0 + Gravity * dt) * dt == Gravity * (dt * dt);
  }

  lemma {:induction false} RestingForever(dt: real, n: nat)
    ensures Steps(Resting, dt, n) == Resting
  {
    if n > 0 {
      RestingIsStable(dt);
      RestingForever(dt, n - 1);
    }
  }

  /** Whatever the frame times, a camera at rest stays at rest. */
  lemma {:induction false} RestingFramesForever(dts: seq<real>)
    ensures Frames(Resting, dts) == Resting
    decreases |dts|
  {
    if dts != [] {
      RestingIsStable(dts[0]);
      RestingFramesForever(dts[1..]);
    }
  }

  /** A camera off the ground only becomes grounded by landing exactly at
      rest, whatever the frame times. */
  lemma {:induction false} GroundedOnlyAtRest(v: Vertical, dts: seq<real>)
    requires !v.grounded
    ensures Frames(v, dts).grounded ==> Frames(v, dts) == Resting
    decreases |dts|
  {
    if dts != [] {
      var w := PhysicsStep(v, dts[0]);
      if w.grounded {
        RestingFramesForever(dts[1..]);
      } else {
        GroundedOnlyAtRest(w, dts[1..]);
      }
    }
  }

  /** After a jump from the ground, any frames later the camera has either
      landed exactly at rest or is still in the air, where a further jump
      changes nothing. */
  lemma JumpBeforeLanding(v: Vertical, dts: seq<real>)
    requires v.grounded && !v.flying
    ensures var w := Frames(JumpStep(v), dts);
      && (w.grounded ==> w == Resting)
      && (!w.grounded ==> JumpStep(w) == w)
  {
    GroundedOnlyAtRest(JumpStep(v), dts);
  }

  /** For every `x` some multiple of a positive `g` reaches it. */
  lemma Archimedean(x: real, g: real) returns (n: nat)
    requires g > 0.0
    ensures x <= n as real * g
  {
    if x <= 0.0 {
      n := 0;
    } else {
      var q := x / g;
      assert q * g == x;
      n := q.Floor + 1;
      assert n as real > q;
      MulPositive(n as real - q, g);
    }
  }


  /** Speed lost in one step. */
  function Kick(dt: real): real {
    -Gravity * dt
  }

  /** Height lost at least in one step by a camera that is not rising. */
  function Drop(dt: real): real {
    Kick(dt) * dt
  }

  /** A camera that is not rising and is at most `n` drops above the floor
      comes to rest on the floor within `n + 1` steps. */
  lemma {:induction false} DescentLands(v: Vertical, dt: real, n: nat)
    requires !v.flying && dt > 0.0 && v.climb <= 0.0
    requires v.height - StandHeight <= n as real * Drop(dt)
    ensures exists k: nat :: Steps(v, dt, k) == Resting
    decreases n
  {
    var w := PhysicsStep(v, dt);
    assert Steps(v, dt, 1) == w;
    if w != Resting {
      var climb := v.climb + Gravity * dt;
      assert w == Vertical(v.height + climb * dt, climb, v.grounded, false);
      assert climb <= -Kick(dt);
      MulMonotone(climb, -Kick(dt), dt);
      assert w.height <= v.height - Drop(dt);
      assert n > 0;
      assert (n - 1) as real * Drop(dt) == n as real * Drop(dt) - Drop(dt);
      DescentLands(w, dt, n - 1);
      var k: nat :| Steps(w, dt, k) == Resting;
      assert Steps(v, dt, k + 1) == Resting;
    }
  }


  /** A camera whose climb is at most `n` times the speed lost per step
      reaches its peak and then lands. */
  lemma {:induction false} AscentLands(v: Vertical, dt: real, n: nat)
    requires !v.flying && dt > 0.0
    requires v.climb <= n as real * Kick(dt)
    ensures exists k: nat :: Steps(v, dt, k) == Resting
    decreases n
  {
    if v.climb <= 0.0 {
      MulPositive(Kick(dt), dt);
      var m := Archimedean(v.height - StandHeight, Drop(dt));
      DescentLands(v, dt, m);
    } else {
      var w := PhysicsStep(v, dt);
      assert Steps(v, dt, 1) == w;
      if w != Resting {
        assert n > 0;
        assert w.climb == v.climb - Kick(dt);
        assert (n - 1) as real * Kick(dt) == n as real * Kick(dt) - Kick(dt);
        AscentLands(w, dt, n - 1);
        var k: nat :| Steps(w, dt, k) == Resting;
        assert Steps(v, dt, k + 1) == Resting;
      }
    }
  }

  /** With a positive time step, a camera that is not flying always comes to
      rest at exactly the stand height, from any height and any climb. */
  lemma EventuallyRests(v: Vertical, dt: real)
    requires !v.flying && dt > 0.0
    ensures exists k: nat :: Steps(v, dt, k) == Resting
  {
    var n := Archimedean(v.climb, Kick(dt));
    AscentLands(v, dt, n);
  }

  class FPSCamera {
    var position: Vec3
    var worldUp: Vec3
    var velocity: Vec3
    var yaw: real
    var pitch: real
    var speed: real
    var sensitivity: real
    var isGrounded: bool
    var isFlying: bool

    function VerticalState(): Vertical
      reads this
    {
      Vertical(position.y, velocity.y, isGrounded, isFlying)
    }

    ghost predicate Valid()
      reads this
    {
      Consistent(VerticalState())
    }

    /** Everything outside the vertical state is as it was. */
    twostate predicate OnlyVerticalChanged()
      reads this
    {
      position.x == old(position.x) && position.z == old(position.z)
      && velocity.x == old(velocity.x) && velocity.z == old(velocity.z)
      && worldUp == old(worldUp) && yaw == old(yaw) && pitch == old(pitch)
      && speed == old(speed) && sensitivity == old(sensitivity)
    }

    /** The source's `velocity = velocity;` assigns the parameter to itself, so
        the member velocity keeps whatever value it had: nothing is promised
        about it. The start pitch is stored unclamped. */
    constructor (startPosition: Vec3, upDirection: Vec3, velocity: Vec3, startYaw: real, startPitch: real)
      ensures Valid()
      ensures position == startPosition && worldUp == upDirection
      ensures yaw == startYaw && pitch == startPitch
      ensures speed == 10.0 && sensitivity == 0.1
      ensures isGrounded && !isFlying
    {
      position := startPosition;
      worldUp := upDirection;
      yaw := startYaw;
      pitch := startPitch;

      speed := 10.0;
      sensitivity := 0.1;

      isGrounded := true;
      isFlying := false;
    }

    method Jump()
      requires Valid()
      modifies this
      ensures Valid()
      ensures VerticalState() == JumpStep(old(VerticalState()))
      ensures position == old(position) && OnlyVerticalChanged()
    {
      if isGrounded && !isFlying {
        velocity := velocity.(y := JumpForce);
        isGrounded := false;
      }
    }

    method ToggleFly()
      requires Valid()
      modifies this
      ensures Valid()
      ensures VerticalState() == ToggleFlyStep(old(VerticalState()))
      ensures position == old(position) && OnlyVerticalChanged()
    {
      isFlying := !isFlying;
      if isFlying {
        velocity := velocity.(y := 0.0);
        isGrounded := false;
      }
    }

    method UpdatePhysics(deltaTime: real)
      requires Valid()
      modifies this
      ensures Valid()
      ensures VerticalState() == PhysicsStep(old(VerticalState()), deltaTime)
      ensures OnlyVerticalChanged() && isFlying == old(isFlying)
    {
      if !isFlying {
        velocity := velocity.(y := velocity.y + Gravity * deltaTime);
        position := position.(y := position.y + velocity.y * deltaTime);

        if position.y <= StandHeight {
          position := position.(y := StandHeight);
          velocity := velocity.(y := 0.0);
          isGrounded := true;
        }
      }
    }

    method ProcessMouseMovement(xoffset: real, yoffset: real)
      modifies this
      ensures yaw == old(yaw + xoffset * sensitivity)
      ensures pitch == Clamp(old(pitch + yoffset * sensitivity), -PitchLimit, PitchLimit)
      ensures -PitchLimit <= pitch <= PitchLimit
      ensures position == old(position) && velocity == old(velocity) && worldUp == old(worldUp)
      ensures speed == old(speed) && sensitivity == old(sensitivity)
      ensures isGrounded == old(isGrounded) && isFlying == old(isFlying)
    {
      var dx := xoffset * sensitivity;
      var dy := yoffset * sensitivity;

      yaw := yaw + dx;
      pitch := pitch + dy;

      if pitch > PitchLimit {
        pitch := PitchLimit;
      }
      if pitch < -PitchLimit {
        pitch := -PitchLimit;
      }
    }
  }
}
