/**
  The inline variant of the particle class: all members are defined in the
  class body, the mass used by the step is passed in as an argument, and
  `Reset` seeds the trajectory with a single point.
 */
module ParticleHeader {
  import opened Vectors
  import opened Motion

  /**
    A charged particle moving in the plane through a magnetic field
    perpendicular to it, with the list of positions it has visited.
   */
  class Particle {
    var position: Vec2
    var velocity: Vec2
    var charge: real
    var mass: real
    var trajectory: seq<Vec2>

    /** The trajectory is never empty and ends at the current position. */
    ghost predicate Valid()
      reads this
    {
      |trajectory| > 0 && trajectory[|trajectory| - 1] == position
    }

    /** The state (x, y, vx, vy) that the step integrates. */
    function State(): Vec4
      reads this
    {
      Vec4(position.x, position.y, velocity.x, velocity.y)
    }

    /**
      A particle at `pos` with velocity `vel`, charge `q` and mass `m`;
      by default at rest at the origin with unit charge and unit mass.
      Its trajectory holds the starting position only.
     */
    constructor(pos: Vec2 := Vec2(0.0, 0.0), vel: Vec2 := Vec2(0.0, 0.0), q: real := 1.0, m: real := 1.0)
      ensures position == pos && velocity == vel && charge == q && mass == m
      ensures trajectory == [pos]
      ensures Valid()
    {
      position := pos;
      velocity := vel;
      charge := q;
      mass := m;
      trajectory := [pos];
    }

    /**
      The Lorentz force on the particle in the field (0, 0, Bz): it is
      q·Bz times the velocity turned a quarter turn, so it is perpendicular
      to the velocity and its size is |charge·Bz|·|velocity|.
     */
    function LorentzForce(Bz: real): (F: Vec2)
      reads this
      ensures F.Dot(velocity) == 0.0
      ensures F.NormSq() == (charge * Bz) * (charge * Bz) * velocity.NormSq()
      ensures F == velocity.Turn().Scale(charge * Bz)
    {
      ForcePerpendicular(charge, velocity, Bz);
      ForceIsTurn(charge, velocity, Bz);
      Force(charge, velocity, Bz)
    }

    /** Without charge or without field there is no force. */
    lemma LorentzForceVanishes(Bz: real)
      requires charge == 0.0 || Bz == 0.0
      ensures LorentzForce(Bz) == Vec2(0.0, 0.0)
    {
      var k := charge * Bz;
      assert k == 0.0;
      var J := velocity.Turn();
      assert J.Scale(k) == Vec2(0.0, 0.0);
    }

    /**
      The time derivative of the state for mass `masa`: the position
      changes with the velocity, and the velocity with the force divided
      by `masa`. It is the step's derivative function at the current state.
     */
    function Derivatives(Bz: real, masa: real): (d: Vec4)
      requires masa != 0.0
      reads this
      ensures d.Position() == velocity
      ensures d.Velocity().Scale(masa) == LorentzForce(Bz)
      ensures d == Derivative(charge, Bz, masa)(State())
    {
      var F := LorentzForce(Bz);
      Vec4(velocity.x, velocity.y, F.x / masa, F.y / masa)
    }

    /**
      Advances the particle by one classical Runge–Kutta step of length
      `dt` in the field (0, 0, Bz), with mass `masa` (the stored mass is
      not used), and appends the new position to the trajectory. Without
      charge or without field the particle moves by exactly dt·velocity
      and keeps its velocity.
     */
    method UpdateRK4(dt: real, Bz: real, masa: real)
      requires masa != 0.0
      modifies this
      ensures State() == Rk4Step(charge, Bz, masa, dt, old(State()))
      ensures trajectory == old(trajectory) + [position]
      ensures charge == old(charge) && mass == old(mass)
      ensures Valid()
      ensures charge == 0.0 || Bz == 0.0 ==>
        velocity == old(velocity) && position == old(position).Add(old(velocity).Scale(dt))
    {
      var f := Derivative(charge, Bz, masa);
      var y := Vec4(position.x, position.y, velocity.x, velocity.y);
      var k1 := f(y);
      var k2 := f(y.Add(Vec4(0.5 * dt * k1.x, 0.5 * dt * k1.y, 0.5 * dt * k1.z, 0.5 * dt * k1.w)));
      var k3 := f(y.Add(Vec4(0.5 * dt * k2.x, 0.5 * dt * k2.y, 0.5 * dt * k2.z, 0.5 * dt * k2.w)));
      var k4 := f(y.Add(Vec4(dt * k3.x, dt * k3.y, dt * k3.z, dt * k3.w)));
      var increment := Vec4(k1.x + 2.0 * k2.x + 2.0 * k3.x + k4.x,
                            k1.y + 2.0 * k2.y + 2.0 * k3.y + k4.y,
                            k1.z + 2.0 * k2.z + 2.0 * k3.z + k4.z,
                            k1.w + 2.0 * k2.w + 2.0 * k3.w + k4.w).Scale(dt / 6.0);
      Rk4Components(f, dt, y, k1, k2, k3, k4);
      y := y.Add(increment);
      if charge == 0.0 || Bz == 0.0 {
        FieldFreeStep(charge, Bz, masa, dt, old(State()));
        DriftParts(dt, old(State()));
      }

      position := position.(x := y.x);
      position := position.(y := y.y);
      velocity := velocity.(x := y.z);
      velocity := velocity.(y := y.w);
      trajectory := trajectory + [position];
    }

    /** Puts the particle at `pos` with velocity `vel` and restarts the trajectory there. */
    method Reset(pos: Vec2, vel: Vec2)
      modifies this
      ensures position == pos && velocity == vel
      ensures trajectory == [pos]
      ensures charge == old(charge) && mass == old(mass)
      ensures Valid()
    {
      position := pos;
      velocity := vel;
      trajectory := [];
      trajectory := trajectory + [position];
    }
  }
}
