/**
  The physics shared by both variants of the particle class: the planar
  Lorentz force, the derivative function `f` that the Runge–Kutta step
  evaluates, the classical fourth-order Runge–Kutta step itself, and exact
  algebraic facts about that step.

  Every quantity is a real number, so the facts below are identities of
  the scheme itself, not statements about floating-point rounding.
 */
module Motion {
  import opened Vectors

  /**
    The Lorentz force on charge `q` moving with velocity `v` through the
    field B = (0, 0, Bz): F = q (v × B), restricted to the plane. It
    vanishes without charge or without field.
   */
  function Force(q: real, v: Vec2, Bz: real): (F: Vec2)
    ensures q == 0.0 || Bz == 0.0 ==> F == Vec2(0.0, 0.0)
  {
    Vec2(q * v.y * Bz, -q * v.x * Bz)
  }

  /** The force is the velocity turned a quarter turn clockwise and scaled by q·Bz. */
  lemma ForceIsTurn(q: real, v: Vec2, Bz: real)
    ensures Force(q, v, Bz) == v.Turn().Scale(q * Bz)
  {
  }

  /**
    The force never does work: it is perpendicular to the velocity, and
    its size is |q Bz| |v|.
   */
  lemma ForcePerpendicular(q: real, v: Vec2, Bz: real)
    ensures Force(q, v, Bz).Dot(v) == 0.0
    ensures Force(q, v, Bz).NormSq() == (q * Bz) * (q * Bz) * v.NormSq()
  {
    ForceIsTurn(q, v, Bz);
    var J := v.Turn();
    assert J.Scale(q * Bz).Dot(v) == (q * Bz) * J.Dot(v);
    assert J.Scale(q * Bz).NormSq() == (q * Bz) * (q * Bz) * J.NormSq();
  }

  /**
    The derivative function `f` of the step: for the state s = (x, y, vx, vy)
    it returns (vx, vy, Fx/m, Fy/m), where F is the force at velocity
    (vx, vy). Its position part is the velocity, and its velocity part
    times the mass is the force (Newton's second law).
   */
  function Field(q: real, Bz: real, m: real, s: Vec4): (d: Vec4)
    requires m != 0.0
    ensures d.Position() == s.Velocity()
    ensures d.Velocity().Scale(m) == Force(q, s.Velocity(), Bz)
  {
    var v := Vec2(s.z, s.w);
    var F := Force(q, v, Bz);
    Vec4(v.x, v.y, F.x / m, F.y / m)
  }

  /** The derivative function `f` of the step as the closure over q, Bz and m that the step builds. */
  function Derivative(q: real, Bz: real, m: real): Vec4 -> Vec4
    requires m != 0.0
  {
    s => Field(q, Bz, m, s)
  }

  /**
    One classical Runge–Kutta step of length dt from state y for the
    derivative function f:
      k1 = f(y), k2 = f(y + dt/2 k1), k3 = f(y + dt/2 k2), k4 = f(y + dt k3),
      y' = y + dt/6 (k1 + 2 k2 + 2 k3 + k4).
   */
  function Rk4(f: Vec4 -> Vec4, dt: real, y: Vec4): Vec4 {
    var k1 := f(y);
    var k2 := f(y.Add(k1.Scale(0.5 * dt)));
    var k3 := f(y.Add(k2.Scale(0.5 * dt)));
    var k4 := f(y.Add(k3.Scale(dt)));
    y.Add(Slope(k1, k2, k3, k4).Scale(dt / 6.0))
  }

  /** The weighted sum k1 + 2 k2 + 2 k3 + k4 of the four slopes. */
  function Slope(k1: Vec4, k2: Vec4, k3: Vec4, k4: Vec4): Vec4 {
    k1.Add(k2.Scale(2.0)).Add(k3.Scale(2.0)).Add(k4)
  }

  /**
    The step written out component by component, as the particle computes
    it: each stage offset and the weighted slope sum are built one
    coordinate at a time.
   */
  lemma {:induction false} Rk4Components(f: Vec4 -> Vec4, dt: real, y: Vec4, k1: Vec4, k2: Vec4, k3: Vec4, k4: Vec4)
    requires k1 == f(y)
    requires k2 == f(y.Add(Vec4(0.5 * dt * k1.x, 0.5 * dt * k1.y, 0.5 * dt * k1.z, 0.5 * dt * k1.w)))
    requires k3 == f(y.Add(Vec4(0.5 * dt * k2.x, 0.5 * dt * k2.y, 0.5 * dt * k2.z, 0.5 * dt * k2.w)))
    requires k4 == f(y.Add(Vec4(dt * k3.x, dt * k3.y, dt * k3.z, dt * k3.w)))
    ensures y.Add(Vec4(k1.x + 2.0 * k2.x + 2.0 * k3.x + k4.x,
                       k1.y + 2.0 * k2.y + 2.0 * k3.y + k4.y,
                       k1.z + 2.0 * k2.z + 2.0 * k3.z + k4.z,
                       k1.w + 2.0 * k2.w + 2.0 * k3.w + k4.w).Scale(dt / 6.0))
         == Rk4(f, dt, y)
  {
    assert k1.Scale(0.5 * dt) == Vec4(0.5 * dt * k1.x, 0.5 * dt * k1.y, 0.5 * dt * k1.z, 0.5 * dt * k1.w);
    assert k2.Scale(0.5 * dt) == Vec4(0.5 * dt * k2.x, 0.5 * dt * k2.y, 0.5 * dt * k2.z, 0.5 * dt * k2.w);
    assert k3.Scale(dt) == Vec4(dt * k3.x, dt * k3.y, dt * k3.z, dt * k3.w);
  }

  /** The particle's step: charge, field and mass are held fixed for the whole step. */
  function Rk4Step(q: real, Bz: real, m: real, dt: real, y: Vec4): Vec4
    requires m != 0.0
  {
    Rk4(Derivative(q, Bz, m), dt, y)
  }

  /** A derivative function that looks only at the velocity part of the state. */
  ghost predicate VelocityOnly(f: Vec4 -> Vec4) {
    forall s: Vec4, t: Vec4 {:trigger f(s), f(t)} :: s.z == t.z && s.w == t.w ==> f(s) == f(t)
  }

  /** The particle's derivative function reads only the velocity of the state. */
  lemma DerivativeVelocityOnly(q: real, Bz: real, m: real)
    requires m != 0.0
    ensures VelocityOnly(Derivative(q, Bz, m))
  {
    forall s: Vec4, t: Vec4 | s.z == t.z && s.w == t.w
      ensures Derivative(q, Bz, m)(s) == Derivative(q, Bz, m)(t)
    {
      assert s.Velocity() == t.Velocity();
    }
  }

  /** A shift of the position only: d has no velocity part. */
  predicate PositionShift(d: Vec4) {
    d.z == 0.0 && d.w == 0.0
  }

  /**
    For a derivative function that ignores the position, shifting the
    starting position by d shifts every stage, and so the result, by d,
    and leaves the slopes as they were.
   */
  lemma {:induction false} Rk4Shift(f: Vec4 -> Vec4, dt: real, y: Vec4, d: Vec4)
    requires VelocityOnly(f) && PositionShift(d)
    ensures Rk4(f, dt, y.Add(d)) == Rk4(f, dt, y).Add(d)
  {
    var y' := y.Add(d);
    var k1 := f(y);
    assert f(y') == k1;
    var k2 := f(y.Add(k1.Scale(0.5 * dt)));
    assert f(y'.Add(k1.Scale(0.5 * dt))) == k2;
    var k3 := f(y.Add(k2.Scale(0.5 * dt)));
    assert f(y'.Add(k2.Scale(0.5 * dt))) == k3;
    var k4 := f(y.Add(k3.Scale(dt)));
    assert f(y'.Add(k3.Scale(dt))) == k4;
  }

  /**
    The step moves position and velocity apart: starting from two states
    with the same velocity, both end with the same velocity, and the
    difference of their positions is carried over unchanged.
   */
  lemma {:induction false} StepIgnoresPosition(q: real, Bz: real, m: real, dt: real, y: Vec4, y': Vec4)
    requires m != 0.0
    requires y'.Velocity() == y.Velocity()
    ensures Rk4Step(q, Bz, m, dt, y').Velocity() == Rk4Step(q, Bz, m, dt, y).Velocity()
    ensures Rk4Step(q, Bz, m, dt, y').Position()
         == Rk4Step(q, Bz, m, dt, y).Position().Add(y'.Position().Sub(y.Position()))
  {
    var d := Vec4(y'.x - y.x, y'.y - y.y, 0.0, 0.0);
    assert y.Add(d) == y';
    DerivativeVelocityOnly(q, Bz, m);
    Rk4Shift(Derivative(q, Bz, m), dt, y, d);
  }

  /** Straight-line motion: position advances by dt times the velocity, which stays as it was. */
  function Drift(dt: real, y: Vec4): Vec4 {
    Vec4(y.x + dt * y.z, y.y + dt * y.w, y.z, y.w)
  }

  /** Drift in terms of position and velocity. */
  lemma DriftParts(dt: real, y: Vec4)
    ensures Drift(dt, y).Velocity() == y.Velocity()
    ensures Drift(dt, y).Position() == y.Position().Add(y.Velocity().Scale(dt))
  {
    assert Drift(dt, y).Position() == Vec2(y.x + dt * y.z, y.y + dt * y.w);
    assert y.Velocity().Scale(dt) == Vec2(dt * y.z, dt * y.w);
  }

  /** The weighted slope sum of equal slopes is six of them, and dt/6 of that is dt of one. */
  lemma SixSlopes(dt: real, u: real)
    ensures dt / 6.0 * (u + 2.0 * u + 2.0 * u + u) == dt * u
  {
  }

  /** A derivative function that moves the position with the velocity and never changes the velocity. */
  ghost predicate NoAcceleration(f: Vec4 -> Vec4) {
    forall s: Vec4 :: f(s) == Vec4(s.z, s.w, 0.0, 0.0)
  }

  /** Without charge or without field the derivative function only moves the position. */
  lemma FieldFreeDerivative(q: real, Bz: real, m: real)
    requires m != 0.0
    requires q == 0.0 || Bz == 0.0
    ensures NoAcceleration(Derivative(q, Bz, m))
  {
    forall s: Vec4 ensures Derivative(q, Bz, m)(s) == Vec4(s.z, s.w, 0.0, 0.0) {
      assert Force(q, s.Velocity(), Bz) == Vec2(0.0, 0.0);
    }
  }

  /** Runge–Kutta for a derivative function that never changes the velocity is exact uniform motion. */
  lemma {:induction false} DriftRk4(f: Vec4 -> Vec4, dt: real, y: Vec4)
    requires NoAcceleration(f)
    ensures Rk4(f, dt, y) == Drift(dt, y)
  {
    var k := Vec4(y.z, y.w, 0.0, 0.0);
    assert f(y) == k;
    assert f(y.Add(k.Scale(0.5 * dt))) == k;
    assert f(y.Add(k.Scale(dt))) == k;
    SixSlopes(dt, y.z);
    SixSlopes(dt, y.w);
  }

  /**
    Without charge or without field the step is exact uniform motion:
    the velocity is unchanged and the position advances by exactly
    dt times the velocity.
   */
  lemma {:induction false} FieldFreeStep(q: real, Bz: real, m: real, dt: real, y: Vec4)
    requires m != 0.0
    requires q == 0.0 || Bz == 0.0
    ensures Rk4Step(q, Bz, m, dt, y) == Drift(dt, y)
  {
    FieldFreeDerivative(q, Bz, m);
    DriftRk4(Derivative(q, Bz, m), dt, y);
  }

  /** The particle's step of length dt as a function of the state. */
  function StepOf(q: real, Bz: real, m: real, dt: real): Vec4 -> Vec4
    requires m != 0.0
  {
    y => Rk4Step(q, Bz, m, dt, y)
  }

  /** The state after n consecutive applications of the step function g. */
  function Iterate(g: Vec4 -> Vec4, y: Vec4, n: nat): Vec4
    decreases n
  {
    if n == 0 then y else g(Iterate(g, y, n - 1))
  }

  /** Drifting for t and then for dt is drifting for t + dt. */
  lemma DriftTwice(t: real, dt: real, y: Vec4)
    ensures Drift(dt, Drift(t, y)) == Drift(t + dt, y)
  {
    var u := Drift(t, y);
    assert u.z == y.z && u.w == y.w;
    SplitTime(t, dt, y.z);
    SplitTime(t, dt, y.w);
    assert Drift(dt, u) == Vec4(y.x + t * y.z + dt * y.z, y.y + t * y.w + dt * y.w, y.z, y.w);
    assert Drift(t + dt, y) == Vec4(y.x + (t + dt) * y.z, y.y + (t + dt) * y.w, y.z, y.w);
  }

  /** (t + dt)·v = t·v + dt·v. */
  lemma SplitTime(t: real, dt: real, v: real)
    ensures (t + dt) * v == t * v + dt * v
  {
  }

  /** k·dt + dt = (k + 1)·dt. */
  lemma OneMoreStep(k: real, k': real, dt: real)
    requires k' == k + 1.0
    ensures k * dt + dt == k' * dt
  {
  }

  /**
    Repeating a uniform-motion step of length dt n times is one uniform
    motion over the time n·dt.
   */
  lemma {:induction false} IterateDrift(g: Vec4 -> Vec4, dt: real, y: Vec4, n: nat)
    requires forall s: Vec4 :: g(s) == Drift(dt, s)
    ensures Iterate(g, y, n) == Drift((n as real) * dt, y)
  {
    if n > 0 {
      var t := ((n - 1) as real) * dt;
      IterateDrift(g, dt, y, n - 1);
      assert Iterate(g, y, n) == Drift(dt, Drift(t, y));
      DriftTwice(t, dt, y);
      OneMoreStep((n - 1) as real, n as real, dt);
    } else {
      assert (n as real) * dt == 0.0;
    }
  }

  /**
    Without charge or without field, n steps move the particle along a
    straight line at constant velocity: it ends n·dt·v away from where it
    started.
   */
  lemma {:induction false} FieldFreeSteps(q: real, Bz: real, m: real, dt: real, y: Vec4, n: nat)
    requires m != 0.0
    requires q == 0.0 || Bz == 0.0
    ensures Iterate(StepOf(q, Bz, m, dt), y, n) == Drift((n as real) * dt, y)
  {
    forall s: Vec4 ensures StepOf(q, Bz, m, dt)(s) == Drift(dt, s) {
      FieldFreeStep(q, Bz, m, dt, s);
    }
    IterateDrift(StepOf(q, Bz, m, dt), dt, y, n);
  }

  /** A step function that carries a shift d of its argument over to its result. */
  ghost predicate CommutesWithShift(g: Vec4 -> Vec4, d: Vec4) {
    forall s: Vec4, t: Vec4 {:trigger g(s), g(t)} :: t == s.Add(d) ==> g(t) == g(s).Add(d)
  }

  /** The particle's step carries every shift of the position over to its result. */
  lemma StepCommutesWithShift(q: real, Bz: real, m: real, dt: real, d: Vec4)
    requires m != 0.0
    requires PositionShift(d)
    ensures CommutesWithShift(StepOf(q, Bz, m, dt), d)
  {
    DerivativeVelocityOnly(q, Bz, m);
    forall s: Vec4, t: Vec4 | t == s.Add(d)
      ensures StepOf(q, Bz, m, dt)(t) == StepOf(q, Bz, m, dt)(s).Add(d)
    {
      Rk4Shift(Derivative(q, Bz, m), dt, s, d);
    }
  }

  /** Repeating a step that commutes with a shift d: the shift carries over to every later state. */
  lemma {:induction false} IterateShift(g: Vec4 -> Vec4, y: Vec4, d: Vec4, n: nat)
    requires CommutesWithShift(g, d)
    ensures Iterate(g, y.Add(d), n) == Iterate(g, y, n).Add(d)
  {
    if n > 0 {
      IterateShift(g, y, d, n - 1);
      assert Iterate(g, y.Add(d), n - 1) == Iterate(g, y, n - 1).Add(d);
    }
  }

  /**
    Over any number of the particle's steps the velocity does not depend
    on where the particle started, and a shift of the starting position
    shifts every later position by the same amount.
   */
  lemma {:induction false} StepsIgnorePosition(q: real, Bz: real, m: real, dt: real, y: Vec4, y': Vec4, n: nat)
    requires m != 0.0
    requires y'.Velocity() == y.Velocity()
    ensures Iterate(StepOf(q, Bz, m, dt), y', n).Velocity() == Iterate(StepOf(q, Bz, m, dt), y, n).Velocity()
    ensures Iterate(StepOf(q, Bz, m, dt), y', n).Position()
         == Iterate(StepOf(q, Bz, m, dt), y, n).Position().Add(y'.Position().Sub(y.Position()))
  {
    var d := Vec4(y'.x - y.x, y'.y - y.y, 0.0, 0.0);
    assert y.Add(d) == y';
    StepCommutesWithShift(q, Bz, m, dt, d);
    IterateShift(StepOf(q, Bz, m, dt), y, d, n);
  }
}
