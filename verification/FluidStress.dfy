/** What the stress pass does to the nodes around a particle: pressure drives them apart,
  * viscosity resists the flow's stretching and shearing, and a rigid rotation is free. */
module FluidStress {
  import opened Stencil
  import opened Transfers
  import opened Fluid

  function AtLeast(low: real, x: real): real { if x < low then low else x }

  /** A particle's share of space where the grid holds this much mass per cell. */
  function VolumeAt(density: real): real { 1.0 / AtLeast(0.0001, density) }

  /** The equation of state: stiff against compression, all but limp under tension. */
  function PressureAt(density: real, rest: real, stiffness: real): real
    requires rest > 0.0
  {
    var ratio := density / rest;
    AtLeast(-0.2, stiffness * (ratio * ratio * ratio * ratio - 1.0))
  }

  /** The matrix the kernel applies to each arm. */
  function KernelStress(c: M3, pressure: real, vis: real, volume: real, dt: real): M3 {
    ScaleM(Stress(c, pressure, vis), volume * -4.0 * dt)
  }

  /** Over the stencil: the arm along `a` times the impulse along `d`, each node by weight. */
  function Moment(p: Particle, e: M3, a: Dir, d: Dir): real { Cube(Fx(p.pos), TorqueField(p, e, a, d)) }

  /** The impulses' push away from the particle. */
  function OutwardPush(p: Particle, e: M3): real { Moment(p, e, X, X) + Moment(p, e, Y, Y) + Moment(p, e, Z, Z) }

  lemma MomentIs(p: Particle, e: M3, a: Dir, d: Dir)
    ensures Moment(p, e, a, d) == 0.25 * Part(RowOf(e, d), a)
  {
    hide Cube, Fx, TorqueField;
    ParticleTorque(p, e, a, d);
  }

  lemma Quarter(s: real, k: real)
    ensures 0.25 * (s * (k * -4.0)) == -(s * k)
  {
  }

  lemma ScaledPart(m: M3, k: real, d: Dir, a: Dir)
    ensures Part(RowOf(ScaleM(m, k), d), a) == Part(RowOf(m, d), a) * k
  {
  }

  lemma StressPart(c: M3, pressure: real, vis: real, d: Dir, a: Dir)
    ensures a == d ==> Part(RowOf(Stress(c, pressure, vis), d), a) == -pressure + Part(RowOf(c, d), d) * 2.0 * vis
    ensures a != d ==> Part(RowOf(Stress(c, pressure, vis), d), a) == (Part(RowOf(c, d), a) + Part(RowOf(c, a), d)) * vis
  {
  }

  lemma DiagonalPart(c: M3, pressure: real, vis: real, volume: real, dt: real, d: Dir)
    ensures var t := Part(RowOf(c, d), d);
            0.25 * Part(RowOf(KernelStress(c, pressure, vis, volume, dt), d), d) == volume * dt * (pressure - 2.0 * vis * t)
  {
    hide Stress, ScaleM;
    var t := Part(RowOf(c, d), d);
    ScaledPart(Stress(c, pressure, vis), volume * -4.0 * dt, d, d);
    StressPart(c, pressure, vis, d, d);
    FlipSign(pressure, vis, t, volume, dt);
  }

  lemma FlipSign(pressure: real, vis: real, t: real, volume: real, dt: real)
    ensures 0.25 * ((-pressure + t * 2.0 * vis) * (volume * -4.0 * dt)) == volume * dt * (pressure - 2.0 * vis * t)
  {
    var s := -pressure + t * 2.0 * vis;
    assert volume * -4.0 * dt == volume * dt * -4.0;
    Quarter(s, volume * dt);
    assert pressure - 2.0 * vis * t == -s;
    Swap(s, volume * dt);
  }

  lemma Swap(s: real, k: real)
    ensures -(s * k) == k * -s
  {
  }

  lemma SideParts(c: M3, pressure: real, vis: real, volume: real, dt: real, a: Dir, d: Dir)
    requires a != d
    ensures 0.25 * Part(RowOf(KernelStress(c, pressure, vis, volume, dt), d), a)
         == -(volume * dt * vis * (Part(RowOf(c, d), a) + Part(RowOf(c, a), d)))
  {
    hide Stress, ScaleM;
    var g := Part(RowOf(c, d), a) + Part(RowOf(c, a), d);
    ScaledPart(Stress(c, pressure, vis), volume * -4.0 * dt, d, a);
    StressPart(c, pressure, vis, d, a);
    SideSign(g, vis, volume, dt);
  }

  lemma SideSign(g: real, vis: real, volume: real, dt: real)
    ensures 0.25 * (g * vis * (volume * -4.0 * dt)) == -(volume * dt * vis * g)
  {
    assert volume * -4.0 * dt == volume * dt * -4.0;
    Quarter(g * vis, volume * dt);
    Turn(g, vis, volume * dt);
  }

  lemma Turn(g: real, vis: real, k: real)
    ensures -(g * vis * k) == -(k * vis * g)
  {
  }

  /** The impulses of the stress pass push the nodes outward by exactly the pressure, less
    * what viscosity takes for the rate at which the flow spreads. */
  lemma StressPushesOutward(p: Particle, pressure: real, vis: real, volume: real, dt: real)
    ensures OutwardPush(p, KernelStress(p.C, pressure, vis, volume, dt))
         == volume * dt * (3.0 * pressure - 2.0 * vis * (p.C.c0.x + p.C.c1.y + p.C.c2.z))
  {
    hide Moment, KernelStress;
    var e, k := KernelStress(p.C, pressure, vis, volume, dt), volume * dt;
    MomentIs(p, e, X, X);
    MomentIs(p, e, Y, Y);
    MomentIs(p, e, Z, Z);
    DiagonalPart(p.C, pressure, vis, volume, dt, X);
    DiagonalPart(p.C, pressure, vis, volume, dt, Y);
    DiagonalPart(p.C, pressure, vis, volume, dt, Z);
    Gathers(k, pressure, 2.0 * vis, p.C.c0.x, p.C.c1.y, p.C.c2.z);
  }

  lemma Gathers(k: real, pressure: real, v: real, x: real, y: real, z: real)
    ensures k * (pressure - v * x) + k * (pressure - v * y) + k * (pressure - v * z) == k * (3.0 * pressure - v * (x + y + z))
  {
    assert pressure - v * x + (pressure - v * y) + (pressure - v * z) == 3.0 * pressure - v * (x + y + z);
    Sum3(k, pressure - v * x, pressure - v * y, pressure - v * z);
  }

  lemma Sum3(k: real, a: real, b: real, c: real)
    ensures k * a + k * b + k * c == k * (a + b + c)
  {
  }

  /** Along one axis alone: the same law, one component at a time. */
  lemma AxisPush(p: Particle, pressure: real, vis: real, volume: real, dt: real, d: Dir)
    ensures Moment(p, KernelStress(p.C, pressure, vis, volume, dt), d, d) == volume * dt * (pressure - 2.0 * vis * Part(RowOf(p.C, d), d))
  {
    hide Moment, KernelStress;
    MomentIs(p, KernelStress(p.C, pressure, vis, volume, dt), d, d);
    DiagonalPart(p.C, pressure, vis, volume, dt, d);
  }

  /** Shear is opposed: arm along one axis, impulse along another, and as much either way. */
  lemma ShearIsOpposed(p: Particle, pressure: real, vis: real, volume: real, dt: real, a: Dir, d: Dir)
    requires a != d
    ensures var e, g := KernelStress(p.C, pressure, vis, volume, dt), Part(RowOf(p.C, d), a) + Part(RowOf(p.C, a), d);
            Moment(p, e, a, d) == Moment(p, e, d, a) == -(volume * dt * vis * g)
  {
    hide Moment, KernelStress;
    var e := KernelStress(p.C, pressure, vis, volume, dt);
    MomentIs(p, e, a, d);
    MomentIs(p, e, d, a);
    SideParts(p.C, pressure, vis, volume, dt, a, d);
    SideParts(p.C, pressure, vis, volume, dt, d, a);
  }

  /** A rigid rotation: the velocity gradient is antisymmetric. */
  predicate Rotates(c: M3) { forall a: Dir, d: Dir :: Part(RowOf(c, d), a) == -Part(RowOf(c, a), d) }

  /** Fluid that only rotates feels its pressure and no viscosity, whatever that is. */
  lemma RotationIsFree(p: Particle, pressure: real, vis: real, volume: real, dt: real, a: Dir, d: Dir)
    requires Rotates(p.C)
    ensures Moment(p, KernelStress(p.C, pressure, vis, volume, dt), a, d) == if a == d then volume * dt * pressure else 0.0
  {
    hide Moment, KernelStress;
    assert Part(RowOf(p.C, d), a) == -Part(RowOf(p.C, a), d);
    if a == d {
      AxisPush(p, pressure, vis, volume, dt, d);
    } else {
      ShearIsOpposed(p, pressure, vis, volume, dt, a, d);
    }
  }

  // ---- compression ------------------------------------------------------------------------------

  lemma Fourth(r: real)
    requires r >= 0.0
    ensures r > 1.0 ==> r * r * r * r > 1.0
    ensures r == 1.0 ==> r * r * r * r == 1.0
    ensures r < 1.0 ==> 0.0 <= r * r * r * r < 1.0
  {
    var q := r * r;
    Square(r);
    Square(q);
    assert r * r * r * r == q * q;
  }

  lemma Square(r: real)
    requires r >= 0.0
    ensures r > 1.0 ==> r * r > 1.0
    ensures r < 1.0 ==> 0.0 <= r * r < 1.0
    ensures r * r >= 0.0
  {
    if r > 1.0 { assert r * r > r * 1.0; } else { assert r * r <= r * 1.0; }
  }

  /** Pressure is positive exactly when the fluid is denser than at rest, and never pulls
    * harder than a fifth. */
  lemma PressureSign(density: real, rest: real, stiffness: real)
    requires rest > 0.0 && stiffness > 0.0 && density >= 0.0
    ensures var q := PressureAt(density, rest, stiffness);
            (q > 0.0 <==> density > rest) && (q < 0.0 <==> density < rest) && q >= -0.2
  {
    var r := density / rest;
    assert r * rest == density;
    Ratio(r, rest, density);
    Fourth(r);
    Scaled(stiffness, r * r * r * r - 1.0);
  }

  lemma Ratio(r: real, rest: real, density: real)
    requires rest > 0.0 && density >= 0.0 && r * rest == density
    ensures r >= 0.0 && (r > 1.0 <==> density > rest) && (r < 1.0 <==> density < rest)
  {
    if r < 0.0 { Negative(r, rest); }
    if r > 1.0 { assert r * rest > 1.0 * rest; }
    if r < 1.0 { assert r * rest < 1.0 * rest; }
  }

  lemma Negative(r: real, k: real)
    requires r < 0.0 && k > 0.0
    ensures r * k < 0.0
  {
  }

  lemma Scaled(k: real, x: real)
    requires k > 0.0
    ensures (k * x > 0.0 <==> x > 0.0) && (k * x < 0.0 <==> x < 0.0)
  {
  }

  lemma Positive(a: real, b: real)
    requires a > 0.0 && b > 0.0
    ensures a * b > 0.0
  {
  }

  /** Still fluid denser than at rest is driven apart, and thinner fluid is drawn together. */
  lemma CompressedFluidSpreads(p: Particle, density: real, rest: real, stiffness: real, vis: real, dt: real)
    requires rest > 0.0 && stiffness > 0.0 && density >= 0.0 && dt > 0.0
    requires p.C == M3(V3(0.0, 0.0, 0.0), V3(0.0, 0.0, 0.0), V3(0.0, 0.0, 0.0))
    ensures var push := OutwardPush(p, KernelStress(p.C, PressureAt(density, rest, stiffness), vis, VolumeAt(density), dt));
            (push > 0.0 <==> density > rest) && (push < 0.0 <==> density < rest)
  {
    hide OutwardPush, KernelStress, PressureAt, VolumeAt;
    var q, v := PressureAt(density, rest, stiffness), VolumeAt(density);
    PressureSign(density, rest, stiffness);
    assert v > 0.0 by { SomeVolume(density); }
    StressPushesOutward(p, q, vis, v, dt);
    Positive(v, dt);
    assert 2.0 * vis * (0.0 + 0.0 + 0.0) == 0.0;
    Scaled(v * dt, 3.0 * q);
  }

  lemma SomeVolume(density: real)
    ensures VolumeAt(density) > 0.0
  {
  }
}
