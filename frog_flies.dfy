/**
 * Frogala's alien flies and particles: building a wave, the per-frame fly
 * pass, a beam's capture scan, and the particle buffer.
 *
 * Flies and particles are plain records held in arrays the game replaces or
 * updates element by element, so they are values here; every random draw is
 * a parameter.
 */
module FrogFlies {
  import opened Maybe
  import opened FrogBeam

  const FlyStartSize: real := 5.0
  const FlyTargetSize: real := 20.0
  const FlyGrowth: real := 0.5
  /** The fraction of the way to the ship a captured fly covers each frame (`lerp(…, 0.05)`). */
  const Pull: real := 0.05
  /** A captured fly docks once it is closer than this to the ship. */
  const DockRadius: real := 10.0
  const SparkLife: int := 30
  const SparkCount: nat := 10
  const BloodLife: int := 50
  const BloodCount: nat := 20

  datatype Fly = Fly(x: real, y: real, size: real, speed: real, delay: int, active: bool, captured: bool)

  /**
   * The three draws `makeWave` makes for one fly: its height
   * (`random(50, height / 2)`), its speed factor (`random(0.8, 1.2)`) and its
   * spawn delay (`int(random(30, 120))`).
   */
  datatype FlyDraw = FlyDraw(y: real, factor: real, delay: int)

  predicate InRange(d: FlyDraw) {
    50.0 <= d.y < CanvasHeight / 2.0 && 0.8 <= d.factor < 1.2 && 30 <= d.delay < 120
  }

  /** The `i`-th fly of wave `wave`: even ones enter from the left, odd ones from the right. */
  function NewFly(i: nat, wave: int, d: FlyDraw): (f: Fly)
    ensures f.x == (if i % 2 == 0 then 0.0 else CanvasWidth) && f.y == d.y
    ensures !f.active && !f.captured && f.size == FlyStartSize && f.delay == d.delay
    ensures wave >= 1 && InRange(d) ==> (i % 2 == 0 <==> f.speed > 0.0) && (i % 2 == 1 <==> f.speed < 0.0)
  {
    var direction := if i % 2 == 0 then 1.0 else -1.0;
    var base := (2 + wave) as real;
    var speed := base * direction * d.factor;
    assert wave >= 1 && InRange(d) ==> base * d.factor > 0.0 by {
      if wave >= 1 && InRange(d) {
        Positive(base, d.factor);
      }
    }
    Fly(if i % 2 == 0 then 0.0 else CanvasWidth, d.y, FlyStartSize, speed, d.delay, false, false)
  }

  lemma Positive(a: real, b: real)
    requires a > 0.0 && b > 0.0
    ensures a * b > 0.0
  {
  }

  /** `fs` is the wave `makeWave` builds: `count` new flies, the `i`-th from draw `i`. */
  ghost predicate IsWave(fs: seq<Fly>, count: nat, wave: int, draws: nat -> FlyDraw) {
    |fs| == count && forall i :: 0 <= i < count ==> fs[i] == NewFly(i, wave, draws(i))
  }

  /** `makeWave`: the flies of wave `wave`, `count` of them, every one waiting to spawn, small and uncaptured. */
  method MakeWave(count: nat, wave: int, draws: nat -> FlyDraw) returns (fs: seq<Fly>)
    ensures IsWave(fs, count, wave, draws)
    ensures forall i :: 0 <= i < |fs| ==> !fs[i].active && !fs[i].captured && fs[i].size == FlyStartSize
  {
    fs := [];
    for i := 0 to count
      invariant IsWave(fs, i, wave, draws)
    {
      fs := fs + [NewFly(i, wave, draws(i))];
    }
  }

  datatype Particle = Particle(x: real, y: real, size: real, xSpeed: real, ySpeed: real, lifespan: int)

  /** The draws for one particle: its size and its two speeds. */
  datatype Spark = Spark(size: real, xSpeed: real, ySpeed: real)

  /** `count` particles pushed at (`x`, `y`), the `k`-th from draw `start + k`. */
  function Burst(x: real, y: real, count: nat, life: int, start: nat, sparks: nat -> Spark): (r: seq<Particle>)
    ensures |r| == count
    ensures forall k :: 0 <= k < count ==> r[k].x == x && r[k].y == y && r[k].lifespan == life
  {
    seq(count, k requires 0 <= k < count => Particle(x, y, sparks(start + k).size, sparks(start + k).xSpeed, sparks(start + k).ySpeed, life))
  }

  /** Every particle in the buffer still has a frame to live. */
  predicate Alive(ps: seq<Particle>) {
    forall i :: 0 <= i < |ps| ==> ps[i].lifespan >= 1
  }

  /** A fly after one frame of `moveFlies`, and what that frame did with it. */
  datatype Moved = Moved(fly: Fly, spawned: bool, docked: bool)

  function Lerp(a: real, b: real): real {
    a + (b - a) * Pull
  }

  /** Whether an active fly that flies freely has left the canvas and turns round. */
  predicate Outside(x: real) {
    x > CanvasWidth || x < 0.0
  }

  /**
   * One frame of `moveFlies` for one fly: a waiting fly counts its delay down
   * and spawns at zero; a captured fly is pulled towards the ship and docks
   * once close; a free fly grows to full size and flies, turning at the edges.
   */
  function StepFly(f: Fly, shipX: real): (m: Moved)
    ensures m.fly.captured == f.captured && (f.active ==> m.fly.active)
    ensures m.spawned ==> !f.active && m.fly.active && m.fly.x == f.x && m.fly.y == f.y
    ensures m.docked ==> f.active && f.captured
    ensures !f.active ==> m.fly.delay == f.delay - 1 && (m.fly.active <==> f.delay - 1 <= 0) && (m.spawned <==> m.fly.active)
    ensures !f.active ==> m.fly.(delay := f.delay, active := false) == f
    ensures f.active && f.captured ==> && shipX - m.fly.x == (1.0 - Pull) * (shipX - f.x)
                                       && ShipY - m.fly.y == (1.0 - Pull) * (ShipY - f.y)
                                       && (m.docked <==> Within(m.fly.x, m.fly.y, shipX, ShipY, DockRadius))
    ensures f.active && !f.captured ==> && !m.docked && m.fly.x == f.x + f.speed
                                        && f.size <= m.fly.size <= f.size + FlyGrowth
                                        && (m.fly.speed == if Outside(m.fly.x) then -f.speed else f.speed)
  {
    if !f.active then
      var delay := f.delay - 1;
      Moved(f.(delay := delay, active := delay <= 0), delay <= 0, false)
    else if f.captured then
      var x := Lerp(f.x, shipX);
      var y := Lerp(f.y, ShipY);
      Moved(f.(x := x, y := y), false, Within(x, y, shipX, ShipY, DockRadius))
    else
      var size := if f.size < FlyTargetSize then f.size + FlyGrowth else f.size;
      var x := f.x + f.speed;
      Moved(f.(size := size, x := x, speed := if Outside(x) then -f.speed else f.speed), false, false)
  }

  /** What the fly pass leaves: the flies still in the wave, the particle buffer, and how many flies docked. */
  datatype Pass = Pass(flies: seq<Fly>, particles: seq<Particle>, docked: nat)

  /**
   * The fly pass over `fs` in array order, starting from the buffer `ps`:
   * each fly takes its step, a fly that spawns pushes a burst of particles
   * where it stands, and a fly that docks leaves the wave.
   */
  ghost function FlyPass(fs: seq<Fly>, shipX: real, ps: seq<Particle>, sparks: nat -> Spark): Pass
    decreases |fs|
  {
    if fs == [] then Pass([], ps, 0)
    else
      var r := FlyPass(fs[..|fs| - 1], shipX, ps, sparks);
      var m := StepFly(fs[|fs| - 1], shipX);
      Pass(if m.docked then r.flies else r.flies + [m.fly],
           if m.spawned then r.particles + Burst(m.fly.x, m.fly.y, SparkCount, SparkLife, |r.particles|, sparks) else r.particles,
           if m.docked then r.docked + 1 else r.docked)
  }

  /** `moveFlies`, with removal of docked flies as a filter. */
  method MoveFlies(fs: seq<Fly>, shipX: real, ps: seq<Particle>, sparks: nat -> Spark) returns (r: Pass)
    ensures r == FlyPass(fs, shipX, ps, sparks)
  {
    r := Pass([], ps, 0);
    for i := 0 to |fs|
      invariant r == FlyPass(fs[..i], shipX, ps, sparks)
    {
      assert fs[..i + 1][..i] == fs[..i];
      var m := StepFly(fs[i], shipX);
      var particles := r.particles;
      if m.spawned {
        particles := particles + Burst(m.fly.x, m.fly.y, SparkCount, SparkLife, |particles|, sparks);
      }
      if m.docked {
        r := Pass(r.flies, particles, r.docked + 1);
      } else {
        r := Pass(r.flies + [m.fly], particles, r.docked);
      }
    }
    assert fs[..|fs|] == fs;
  }

  /** Every fly either stays in the wave or docks, and only captured flies dock. */
  lemma {:induction false} FlyPassConserves(fs: seq<Fly>, shipX: real, ps: seq<Particle>, sparks: nat -> Spark)
    ensures |FlyPass(fs, shipX, ps, sparks).flies| + FlyPass(fs, shipX, ps, sparks).docked == |fs|
    ensures FlyPass(fs, shipX, ps, sparks).docked <= |Captured(fs)|
    decreases |fs|
  {
    if fs != [] {
      var init := fs[..|fs| - 1];
      FlyPassConserves(init, shipX, ps, sparks);
      assert Captured(fs) == Captured(init) + (if fs[|fs| - 1].captured then [fs[|fs| - 1]] else []);
    }
  }

  /** The captured flies of `fs`, in order. */
  ghost function Captured(fs: seq<Fly>): seq<Fly>
    decreases |fs|
  {
    if fs == [] then []
    else Captured(fs[..|fs| - 1]) + (if fs[|fs| - 1].captured then [fs[|fs| - 1]] else [])
  }

  /** The pass only pushes onto the particle buffer, and what it pushes is alive. */
  lemma {:induction false} FlyPassParticles(fs: seq<Fly>, shipX: real, ps: seq<Particle>, sparks: nat -> Spark)
    ensures |FlyPass(fs, shipX, ps, sparks).particles| >= |ps|
    ensures FlyPass(fs, shipX, ps, sparks).particles[..|ps|] == ps
    ensures Alive(ps) ==> Alive(FlyPass(fs, shipX, ps, sparks).particles)
    decreases |fs|
  {
    if fs != [] {
      var init := fs[..|fs| - 1];
      FlyPassParticles(init, shipX, ps, sparks);
      var r := FlyPass(init, shipX, ps, sparks);
      var m := StepFly(fs[|fs| - 1], shipX);
      if m.spawned {
        var b := Burst(m.fly.x, m.fly.y, SparkCount, SparkLife, |r.particles|, sparks);
        assert (r.particles + b)[..|ps|] == r.particles[..|ps|];
      }
    }
  }

  /** Whether beam tip (`tipX`, `tipY`) catches `f`: an active, uncaptured fly the tip overlaps. */
  predicate Catchable(f: Fly, tipX: real, tipY: real) {
    f.active && !f.captured && Within(tipX, tipY, f.x, f.y, BeamSize / 2.0 + f.size / 2.0)
  }

  /** The fly a beam tip catches: the catchable fly with the highest index, if any. */
  function LastCatchable(fs: seq<Fly>, tipX: real, tipY: real): (r: Option<nat>)
    ensures r.None? <==> forall i :: 0 <= i < |fs| ==> !Catchable(fs[i], tipX, tipY)
    ensures r.Some? ==> r.value < |fs| && Catchable(fs[r.value], tipX, tipY)
    ensures r.Some? ==> forall j :: r.value < j < |fs| ==> !Catchable(fs[j], tipX, tipY)
    decreases |fs|
  {
    if fs == [] then None
    else if Catchable(fs[|fs| - 1], tipX, tipY) then Some(|fs| - 1)
    else LastCatchable(fs[..|fs| - 1], tipX, tipY)
  }

  /** The search loop of `checkBeamOverlap`: from the last fly down to the first, stopping at a catch. */
  method FindCatch(fs: seq<Fly>, tipX: real, tipY: real) returns (r: Option<nat>)
    ensures r == LastCatchable(fs, tipX, tipY)
  {
    var i := |fs|;
    while i > 0
      invariant 0 <= i <= |fs|
      invariant LastCatchable(fs, tipX, tipY) == LastCatchable(fs[..i], tipX, tipY)
    {
      i := i - 1;
      assert fs[..i + 1][..i] == fs[..i];
      if Catchable(fs[i], tipX, tipY) {
        return Some(i);
      }
    }
    return None;
  }

  /** The flies after a beam at (`tipX`, `tipY`) has checked for a catch: the caught fly is captured and pulled to the tip. */
  function Caught(fs: seq<Fly>, tipX: real, tipY: real): (r: seq<Fly>)
    ensures |r| == |fs|
  {
    match LastCatchable(fs, tipX, tipY)
    case None => fs
    case Some(i) => fs[i := fs[i].(captured := true, x := tipX, y := tipY)]
  }

  /** A check catches at most one fly: every other fly is untouched, and the one caught was catchable. */
  lemma CaughtAtMostOne(fs: seq<Fly>, tipX: real, tipY: real)
    ensures forall j :: 0 <= j < |fs| && Caught(fs, tipX, tipY)[j] != fs[j] ==> LastCatchable(fs, tipX, tipY) == Some(j)
    ensures LastCatchable(fs, tipX, tipY).Some? ==> |Captured(Caught(fs, tipX, tipY))| == |Captured(fs)| + 1
    ensures LastCatchable(fs, tipX, tipY).None? ==> Caught(fs, tipX, tipY) == fs
  {
    var c := LastCatchable(fs, tipX, tipY);
    if c.Some? {
      CapturedCount(fs, c.value, fs[c.value].(captured := true, x := tipX, y := tipY));
    }
  }

  /** Capturing one uncaptured fly adds one to the captured count. */
  lemma {:induction false} CapturedCount(fs: seq<Fly>, i: nat, f: Fly)
    requires i < |fs| && !fs[i].captured && f.captured
    ensures |Captured(fs[i := f])| == |Captured(fs)| + 1
    decreases |fs|
  {
    var init := fs[..|fs| - 1];
    var g := fs[i := f];
    if i < |fs| - 1 {
      assert g[..|g| - 1] == init[i := f];
      CapturedCount(init, i, f);
    } else {
      assert g[..|g| - 1] == init;
    }
  }

  /** A particle one frame older: it drifts by its speed and loses a frame of life. */
  function Aged(p: Particle): Particle {
    p.(x := p.x + p.xSpeed, y := p.y + p.ySpeed, lifespan := p.lifespan - 1)
  }

  /** The particle pass's result on `ps`: every particle aged, those whose life ran out dropped, order kept. */
  function Survivors(ps: seq<Particle>): (r: seq<Particle>)
    ensures |r| <= |ps|
    ensures Alive(r)
    decreases |ps|
  {
    if ps == [] then []
    else
      var q := Aged(ps[0]);
      (if q.lifespan > 0 then [q] else []) + Survivors(ps[1..])
  }

  /** A particle survives the pass exactly when it is the aged copy of one that had more than a frame left. */
  lemma {:induction false} SurvivorsMembers(ps: seq<Particle>, q: Particle)
    ensures q in Survivors(ps) <==> exists p :: p in ps && p.lifespan > 1 && q == Aged(p)
    decreases |ps|
  {
    if ps != [] {
      SurvivorsMembers(ps[1..], q);
      assert ps == [ps[0]] + ps[1..];
      if q in Survivors(ps[1..]) {
        var p :| p in ps[1..] && p.lifespan > 1 && q == Aged(p);
        assert p in ps;
      }
      if exists p :: p in ps && p.lifespan > 1 && q == Aged(p) {
        var p :| p in ps && p.lifespan > 1 && q == Aged(p);
        if p != ps[0] {
          assert p in ps[1..];
        }
      }
    }
  }

  /** The particle pass when no particle is about to die: nothing is dropped. */
  lemma {:induction false} SurvivorsAll(ps: seq<Particle>)
    requires forall i :: 0 <= i < |ps| ==> ps[i].lifespan > 1
    ensures |Survivors(ps)| == |ps|
    ensures forall i :: 0 <= i < |ps| ==> Survivors(ps)[i] == Aged(ps[i])
    decreases |ps|
  {
    if ps != [] {
      SurvivorsAll(ps[1..]);
    }
  }

  /** The update half of `drawParticles`: from the last particle down, age it and splice it out once its life is spent. */
  method AgeParticles(ps: seq<Particle>) returns (r: seq<Particle>)
    ensures r == Survivors(ps)
  {
    r := ps;
    var i := |ps|;
    while i > 0
      invariant 0 <= i <= |ps|
      invariant r == ps[..i] + Survivors(ps[i..])
    {
      i := i - 1;
      var rest := Survivors(ps[i + 1..]);
      var q := Aged(ps[i]);
      assert ps[i..][1..] == ps[i + 1..];
      assert r == ps[..i] + [ps[i]] + rest by {
        assert ps[..i + 1] == ps[..i] + [ps[i]];
      }
      if q.lifespan <= 0 {
        r := ps[..i] + rest;
      } else {
        r := ps[..i] + [q] + rest;
      }
    }
    assert ps[..0] == [];
  }
}
