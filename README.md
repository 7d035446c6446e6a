# Charged particle in a magnetic field — a Dafny model

This project models the `Particle` class of a small simulator. The simulator
moves a charged particle in the plane through a uniform magnetic field
B = (0, 0, Bz) that is perpendicular to the plane. The particle keeps:

- a position and a velocity;
- a charge and a mass;
- the trajectory, the list of positions it has visited.

One call to `UpdateRK4` advances the particle by one classical fourth-order
Runge–Kutta (RK4) step under the Lorentz force F = q (v × B). It writes the
new position and velocity back into the object and appends the new position
to the trajectory.

The repository holds two versions of the class that no longer agree, and
both are modelled:

- `src/Particle.h` is the inline class. Its step divides by a mass passed as
  an argument (`masa`), not by the stored mass. Its `Reset` seeds the
  trajectory with one point. Its constructor has default arguments.
- `src/Particle.cpp` is the out-of-line version. Its step divides by the
  stored mass. Its `Reset` seeds the trajectory with ten copies of the new
  position. It also has `SetSpeed`.

Layout:

- `vectors.dfy` (module `Vectors`): the 2- and 4-component vectors (glm's
  `dvec2` and `dvec4`) that the class uses.
- `motion.dfy` (module `Motion`): the physics both versions share. It holds
  the force, the step's derivative function `f` (the lambda inside
  `UpdateRK4`) and the RK4 step as pure functions, with lemmas about them:
  - the force is perpendicular to the velocity;
  - with zero charge or zero field the step is exact straight-line motion,
    for one step and for n steps;
  - the step moves position and velocity independently: shifting the start
    position shifts the result by the same amount, after one step and
    after n steps.
- `particle_header.dfy` (module `ParticleHeader`): the class of
  `src/Particle.h`.
- `particle_source.dfy` (module `ParticleSource`): the class of
  `src/Particle.cpp`.

Every floating-point quantity is a Dafny `real`. The facts proved are
therefore exact identities of the scheme, not statements about rounding.

Each class keeps the invariant `Valid()`: the trajectory is never empty and
its last point is the current position. The constructor establishes it, and
`UpdateRK4`, `Reset` and (in `Particle.cpp`) `SetSpeed` preserve it.

The code has no limit on the trajectory and no check of its parameters,
and the model follows it:

- The trajectory is an unbounded sequence. Each step appends exactly one
  point, and nothing is ever evicted.
- A step with a non-positive mass or time step is not rejected. The only
  demand is mass ≠ 0, a precondition that keeps the division defined, and
  there is no error result.

## Model

| member | source | states |
|---|---|---|
| Vectors.Vec2.Turn | src/Particle.h:25-27 | the velocity turned a quarter turn (vy, −vx), which is v × ẑ, is perpendicular to v and has the same length |
| Motion.Force | src/Particle.h:40 | the planar Lorentz force (q·vy·Bz, −q·vx·Bz) is the zero vector whenever the charge or the field is zero |
| Motion.ForceIsTurn | src/Particle.h:24-28 | the force equals the velocity turned a quarter turn and scaled by q·Bz, i.e. F = q (v × B) with B = (0, 0, Bz) |
| Motion.ForcePerpendicular | src/Particle.h:24-28 | the force is exactly perpendicular to the velocity (F·v = 0), and \|F\|² = (q·Bz)²·\|v\|² |
| Motion.Field | src/Particle.h:38-42 | the step's derivative function: its position part is the velocity part of the state, and its velocity part times the mass is the force at that velocity (Newton's second law) |
| Motion.Rk4Components | src/Particle.h:44-57 | the stage offsets (½dt·k1, ½dt·k2, dt·k3) and the sum dt/6·(k1 + 2k2 + 2k3 + k4), written component by component, equal the classical RK4 step `Rk4` |
| Motion.DerivativeVelocityOnly | src/Particle.h:38-42 | the derivative function reads only the velocity (s.z, s.w) of the state: two states with the same velocity get the same derivative |
| Motion.Rk4Shift | src/Particle.h:44-57 | for any derivative function that reads only the velocity, shifting the start position by d shifts the RK4 result by d and leaves its velocity unchanged |
| Motion.StepIgnoresPosition | src/Particle.h:37-62 | two particles with the same velocity end one step with the same velocity, and the difference of their positions is unchanged |
| Motion.StepCommutesWithShift | src/Particle.h:37-62 | the particle's step commutes with every shift of the position |
| Motion.IterateShift | src/Particle.h:37-65 | a step that commutes with a shift still commutes with it after n repetitions |
| Motion.StepsIgnorePosition | src/Particle.h:37-65 | the position independence holds after any number n of steps |
| Motion.FieldFreeDerivative | src/Particle.h:38-42 | with zero charge or zero field the derivative function is (vx, vy, 0, 0): no acceleration |
| Motion.DriftRk4 | src/Particle.h:44-57 | for a derivative function without acceleration, the RK4 step is exactly uniform motion over dt |
| Motion.FieldFreeStep | src/Particle.h:37-62 | with zero charge or zero field one step is exactly uniform motion over dt |
| Motion.DriftTwice | src/Particle.h:37-65 | uniform motion over t and then over dt is uniform motion over t + dt |
| Motion.IterateDrift | src/Particle.h:37-65 | n repetitions of a uniform-motion step of length dt are one uniform motion over n·dt |
| Motion.FieldFreeSteps | src/Particle.h:37-65 | with zero charge or zero field, n steps move the particle by exactly n·dt·velocity, and the velocity is unchanged |
| ParticleHeader.Particle.constructor | src/Particle.h:13-21 | sets position, velocity, charge and mass from the arguments, which default to (0,0), (0,0), 1 and 1; the trajectory is [pos], so the invariant holds |
| ParticleHeader.Particle.LorentzForce | src/Particle.h:24-28 | the force is q·Bz times the velocity turned a quarter turn; it is perpendicular to the velocity, has squared size (q·Bz)²·\|v\|² |
| ParticleHeader.Particle.LorentzForceVanishes | src/Particle.h:25-26 | without charge or without field the particle feels no force |
| ParticleHeader.Particle.Derivatives | src/Particle.h:31-34 | for masa ≠ 0: (vx, vy, Fx/masa, Fy/masa); the velocity part times masa is the Lorentz force, and the whole is the step's derivative function at the current state |
| ParticleHeader.Particle.UpdateRK4 | src/Particle.h:37-65 | the new (position, velocity) is the RK4 step, with mass masa, from the old state; exactly the new position is appended to the trajectory; charge and mass do not change; the invariant holds; with zero charge or zero field the velocity is unchanged and the position moves by dt·velocity |
| ParticleHeader.Particle.Reset | src/Particle.h:67-72 | sets position and velocity; the trajectory is exactly [pos]; charge and mass do not change; the invariant holds |
| ParticleSource.Particle.constructor | src/Particle.cpp:3-12 | sets position, velocity, charge and mass from the arguments; the trajectory is [pos], so the invariant holds |
| ParticleSource.Particle.LorentzForce | src/Particle.cpp:14-18 | the same force as the inline class: q·Bz times the velocity turned a quarter turn, perpendicular to the velocity, squared size (q·Bz)²·\|v\|² |
| ParticleSource.Particle.LorentzForceVanishes | src/Particle.cpp:15-16 | without charge or without field the particle feels no force |
| ParticleSource.Particle.Derivatives | src/Particle.cpp:20-23 | for a stored mass ≠ 0: (vx, vy, Fx/mass, Fy/mass); the velocity part times the stored mass is the Lorentz force, and the whole is the step's derivative function at the current state |
| ParticleSource.Particle.UpdateRK4 | src/Particle.cpp:25-53 | the new (position, velocity) is the RK4 step, with the stored mass, from the old state; exactly the new position is appended; charge and mass do not change; the invariant holds; with zero charge or zero field the motion is uniform over dt |
| ParticleSource.Particle.Reset | src/Particle.cpp:55-63 | sets position and velocity; the trajectory holds exactly ten points, each equal to pos; charge and mass do not change; the invariant holds |
| ParticleSource.Particle.SetSpeed | src/Particle.cpp:64-70 | the new velocity is the old one rescaled to length newSpeed (see `Rescaled`), so its squared length is newSpeed²; position, trajectory, charge and mass do not change, so the invariant is kept |
| ParticleSource.Rescaled | src/Particle.cpp:65-69 | the result has squared length s²; for a moving velocity it lies on the line of the old one (cross product 0), and its dot product with the old one is s·\|v\|, so it points the same way when s > 0; for a velocity at rest it is (s, 0) |
| ParticleSource.Direction | src/Particle.cpp:67 | the normalised velocity: scaled back by the length it gives the original vector |
| ParticleSource.UnitDirection | src/Particle.cpp:67 | a nonzero velocity divided by its length has unit length |
| ParticleSource.RescaledAlong | src/Particle.cpp:66-67 | for a moving velocity, the unit direction scaled by s has squared length s², is parallel to v, has dot product s·\|v\| with v, and v is not the zero vector |

## Left out

- `src/main.cpp` is not part of this model. It creates the window, loads OpenGL and draws the user interface. It never constructs or calls `Particle`.
- Floating point is not modelled. All quantities are exact reals. `src/Particle.cpp` takes charge, mass, dt and Bz as `float` and stores the force components as `float`; this truncation is not modelled, and nothing is claimed about rounding, NaN or infinity. In particular, `Particle::Derivatives` goes through `LorentzForce`, which rounds Fx and Fy to `float` (src/Particle.cpp:15-16), while the step's lambda keeps the force in double precision (src/Particle.cpp:28); over the reals the two agree, which is what ParticleSource.Particle.Derivatives states.
- ParticleSource.Particle.SetSpeed: does not compute the square root inside `glm::length` / `glm::normalize`. The current speed is passed in as `currentSpeed`, with the precondition that it is non-negative and that its square is vx² + vy².
- ParticleHeader.Particle.UpdateRK4: as in the source, the step uses the `masa` argument and ignores the stored mass. The model keeps this and requires masa ≠ 0.
- Both `UpdateRK4` methods, and `Derivatives`, require a non-zero mass. That keeps the division defined. The source has no guard and no error result, so the model has none either.
- The trajectory has no size limit and no eviction, because the code only appends.
- `trajectory.reserve(1024)` in the `src/Particle.cpp` constructor only changes capacity. It does not change the contents, so it is not modelled.
- Accuracy of the step is not modelled: the order-4 error, energy drift, the orbit period and the cyclotron radius all need estimates or transcendental functions.
- ParticleHeader.Particle.Reset and ParticleSource.Particle.Reset: the source takes `pos` and `vel` by `const` reference and assigns `position` before `velocity`, so a call that passes the particle's own fields (for example `p.Reset(p.velocity, p.position)`) sees `position` change under `vel` and ends with both fields equal to the old velocity. The model takes the arguments as values, so such aliased calls are not modelled; for them it promises the value semantics instead.
- All fields are public in the source, so other code may write them between calls. The invariant `Valid()` holds only as long as the fields change through the class's own operations.
