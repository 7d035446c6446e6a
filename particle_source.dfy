/**
  The out-of-line variant of the particle class: the step divides by the
  stored mass, `Reset` seeds the trajectory with ten copies of the new
  position, and `SetSpeed` rescales the velocity to a given length.
 */
module ParticleSource {
  import opened Vectors
  import opened Motion

  /** The number of copies of the position with which `Reset` seeds the trajectory. */
  const ResetPoints := 10

  /** The vector `v` divided by `len`. */
  function Direction(v: Vec2, len: real): (u: Vec2)
    requires len > 0.0
    ensures u.Scale(len) == v
  {
    Vec2(v.x / len, v.y / len)
  }

  /** Scaling by k multiplies the squared length by k². */
  lemma ScaledNorm(u: Vec2, k: real)
    ensures u.Scale(k).NormSq() == k * (k * u.NormSq())
  {
  }

  /** A positive factor cancels from both sides of an equation. */
  lemma CancelPositive(l: real, x: real, y: real)
    requires l > 0.0 && l * x == l * y
    ensures x == y
  {
  }

  /** The square of a positive number is positive. */
  lemma SquarePositive(l: real)
    requires l > 0.0
    ensures l * l > 0.0
  {
  }

  /** A vector divided by its length has unit length. */
  lemma UnitDirection(v: Vec2, len: real)
    requires len > 0.0 && len * len == v.NormSq()
    ensures Direction(v, len).NormSq() == 1.0
  {
    var u := Direction(v, len);
    var n := u.NormSq();
    ScaledNorm(u, len);
    CancelPositive(len, len * n, len);
    CancelPositive(len, n, 1.0);
  }

  /**
    The velocity that `SetSpeed` gives: `v` with its length `len` changed
    to `s`, or (s, 0) when `v` is at rest. The result has squared length
    s²; for a moving `v` it lies on the line of `v`, on the same side as
    `v` when s > 0, and for `v` at rest it is (s, 0).
   */
  function Rescaled(v: Vec2, s: real, len: real): (r: Vec2)
    requires len >= 0.0 && len * len == v.NormSq()
    ensures r.NormSq() == s * s
    ensures len > 0.0 ==> r.Cross(v) == 0.0 && r.Dot(v) == s * len
    ensures v == Vec2(0.0, 0.0) ==> r == Vec2(s, 0.0)
  {
    if len > 0.0 then
      RescaledAlong(v, s, len);
      Direction(v, len).Scale(s)
    else
      Vec2(s, 0.0)
  }

  /** Scaling the unit direction of a moving `v` by `s`. */
  lemma RescaledAlong(v: Vec2, s: real, len: real)
    requires len > 0.0 && len * len == v.NormSq()
    ensures Direction(v, len).Scale(s).NormSq() == s * s
    ensures Direction(v, len).Scale(s).Cross(v) == 0.0
    ensures Direction(v, len).Scale(s).Dot(v) == s * len
    ensures v != Vec2(0.0, 0.0)
  {
    SquarePositive(len);
    var u := Direction(v, len);
    UnitDirection(v, len);
    ScaledNorm(u, s);
    CrossDotScaled(u, s, len);
  }

  /** The cross and dot products of two multiples of one vector. */
  lemma CrossDotScaled(u: Vec2, s: real, t: real)
    ensures u.Scale(s).Cross(u.Scale(t)) == 0.0
    ensures u.Scale(s).Dot(u.Scale(t)) == (s * t) * u.NormSq()
  {
  }

  /**
    A charged particle moving in the plane through a magnetic field
    perpendicular to it, with the list of positions it has visited.
   */
  class Particle {
    var position: Vec2
    var velocity: Vec2
    var charge: real
    var mass: real
    var trajectory: seq<Vec2>

    /** The trajectory is never empty and ends at the current position. */
    ghost predicate Valid()
      reads this
    {
      |trajectory| > 0 && trajectory[|trajectory| - 1] == position
    }

    /** The state (x, y, vx, vy) that the step integrates. */
    function State(): Vec4
      reads this
    {
      Vec4(position.x, position.y, velocity.x, velocity.y)
    }

    /** A particle at `pos` with velocity `vel`, charge `q` and mass `m`, whose trajectory holds `pos` only. */
    constructor(pos: Vec2, vel: Vec2, q: real, m: real)
      ensures position == pos && velocity == vel && charge == q && mass == m
      ensures trajectory == [pos]
      ensures Valid()
    {
      position := pos;
      velocity := vel;
      charge := q;
      mass := m;
      trajectory := [];
      trajectory := trajectory + [position];
    }

    /**
      The Lorentz force on the particle in the field (0, 0, Bz): it is
      q·Bz times the velocity turned a quarter turn, so it is perpendicular
      to the velocity and its size is |charge·Bz|·|velocity|.
     */
    function LorentzForce(Bz: real): (F: Vec2)
      reads this
      ensures F.Dot(velocity) == 0.0
      ensures F.NormSq() == (charge * Bz) * (charge * Bz) * velocity.NormSq()
      ensures F == velocity.Turn().Scale(charge * Bz)
    {
      ForcePerpendicular(charge, velocity, Bz);
      ForceIsTurn(charge, velocity, Bz);
      Force(charge, velocity, Bz)
    }

    /** Without charge or without field there is no force. */
    lemma LorentzForceVanishes(Bz: real)
      requires charge == 0.0 || Bz == 0.0
      ensures LorentzForce(Bz) == Vec2(0.0, 0.0)
    {
      var k := charge * Bz;
      assert k == 0.0;
      var J := velocity.Turn();
      assert J.Scale(k) == Vec2(0.0, 0.0);
    }

    /**
      The time derivative of the state: the position changes with the
      velocity, and the velocity with the force divided by the stored
      mass. It is the step's derivative function at the current state.
     */
    function Derivatives(Bz: real): (d: Vec4)
      requires mass != 0.0
      reads this
      ensures d.Position() == velocity
      ensures d.Velocity().Scale(mass) == LorentzForce(Bz)
      ensures d == Derivative(charge, Bz, mass)(State())
    {
      var F := LorentzForce(Bz);
      Vec4(velocity.x, velocity.y, F.x / mass, F.y / mass)
    }

    /**
      Advances the particle by one classical Runge–Kutta step of length
      `dt` in the field (0, 0, Bz), dividing by the stored mass, and
      appends the new position to the trajectory. Without charge or
      without field the particle moves by exactly dt·velocity and keeps
      its velocity.
     */
    method UpdateRK4(dt: real, Bz: real)
      requires mass != 0.0
      modifies this
      ensures charge == old(charge) && mass == old(mass)
      ensures State() == Rk4Step(charge, Bz, mass, dt, old(State()))
      ensures trajectory == old(trajectory) + [position]
      ensures Valid()
      ensures charge == 0.0 || Bz == 0.0 ==>
        velocity == old(velocity) && position == old(position).Add(old(velocity).Scale(dt))
    {
      var f := Derivative(charge, Bz, mass);
      var y := Vec4(position.x, position.y, velocity.x, velocity.y);
      var k1 := f(y);
      var k2 := f(y.Add(Vec4(0.5 * dt * k1.x, 0.5 * dt * k1.y, 0.5 * dt * k1.z, 0.5 * dt * k1.w)));
      var k3 := f(y.Add(Vec4(0.5 * dt * k2.x, 0.5 * dt * k2.y, 0.5 * dt * k2.z, 0.5 * dt * k2.w)));
      var k4 := f(y.Add(Vec4(dt * k3.x, dt * k3.y, dt * k3.z, dt * k3.w)));
      var increment := Vec4(k1.x + 2.0 * k2.x + 2.0 * k3.x + k4.x,
                            k1.y + 2.0 * k2.y + 2.0 * k3.y + k4.y,
                            k1.z + 2.0 * k2.z + 2.0 * k3.z + k4.z,
                            k1.w + 2.0 * k2.w + 2.0 * k3.w + k4.w).Scale(dt / 6.0);
      Rk4Components(f, dt, y, k1, k2, k3, k4);
      y := y.Add(increment);
      if charge == 0.0 || Bz == 0.0 {
        FieldFreeStep(charge, Bz, mass, dt, old(State()));
        DriftParts(dt, old(State()));
      }

      position := position.(x := y.x);
      position := position.(y := y.y);
      velocity := velocity.(x := y.z);
      velocity := velocity.(y := y.w);
      trajectory := trajectory + [position];
    }

    /**
      Puts the particle at `pos` with velocity `vel` and restarts the
      trajectory with ten copies of `pos`.
     */
    method Reset(pos: Vec2, vel: Vec2)
      modifies this
      ensures position == pos && velocity == vel
      ensures |trajectory| == ResetPoints
      ensures forall i :: 0 <= i < |trajectory| ==> trajectory[i] == pos
      ensures charge == old(charge) && mass == old(mass)
      ensures Valid()
    {
      position := pos;
      velocity := vel;
      trajectory := [];
      for i := 0 to ResetPoints
        invariant position == pos && velocity == vel
        invariant charge == old(charge) && mass == old(mass)
        invariant |trajectory| == i
        invariant forall j :: 0 <= j < i ==> trajectory[j] == pos
      {
        trajectory := trajectory + [position];
      }
    }

    /**
      Changes the length of the velocity to `newSpeed`, keeping its
      direction; a particle at rest is sent along the x axis. `currentSpeed`
      is the present length of the velocity.
     */
    method SetSpeed(newSpeed: real, currentSpeed: real)
      requires currentSpeed >= 0.0 && currentSpeed * currentSpeed == velocity.NormSq()
      modifies this
      ensures velocity == Rescaled(old(velocity), newSpeed, currentSpeed)
      ensures velocity.NormSq() == newSpeed * newSpeed
      ensures position == old(position) && trajectory == old(trajectory)
      ensures charge == old(charge) && mass == old(mass)
      ensures old(Valid()) ==> Valid()
    {
      if currentSpeed > 0.0 {
        velocity := Direction(velocity, currentSpeed).Scale(newSpeed);
      } else {
        velocity := Vec2(newSpeed, 0.0);
      }
    }
  }
}
