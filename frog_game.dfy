/**
 * Frogala's game state and its frame and click handlers: the title, game,
 * victory and game-over screens, the wave counters and beam power-ups, and
 * the order in which a game frame moves the flies, the ship, the beams, the
 * captures and the particles.
 */
module FrogGame {
  import opened Maybe
  import opened FrogBeam
  import opened FrogFlies

  const WinScore: int := 500
  const FlyPoints: int := 5
  const FirstWaveSize: int := 5
  const WaveGrowth: int := 3
  const WaveCooldown: int := 60
  /** The waves on whose start the second and the third beam unlock. */
  const DoubleWave: int := 3
  const TripleWave: int := 5

  /** Which of the sketch's screen functions `draw` runs. */
  datatype Screen = Title | Playing | Victory | GameOver

  /** The wave and score counters and the power-up flags. */
  datatype Counters = Counters(score: int, wave: int, perWave: int, caught: int, cooldown: int, doubleUnlocked: bool, tripleUnlocked: bool)

  const Fresh: Counters := Counters(0, 1, FirstWaveSize, 0, 0, false, false)

  /** Everything a handler can change. */
  datatype View = View(screen: Screen, shipX: real, beam: BeamView, second: BeamView, third: BeamView,
                       flies: seq<Fly>, particles: seq<Particle>, counters: Counters)

  /** The restart button of the game-over and victory screens. */
  predicate OnRestartButton(mouseX: real, mouseY: real) {
    CanvasWidth / 2.0 - 70.0 < mouseX < CanvasWidth / 2.0 + 70.0 && CanvasHeight - 80.0 < mouseY < CanvasHeight - 40.0
  }

  /** The start button of the title screen (its area is live on every screen). */
  predicate OnStartButton(mouseX: real, mouseY: real) {
    CanvasWidth / 2.0 - 70.0 < mouseX < CanvasWidth / 2.0 + 70.0 && CanvasHeight / 2.0 + 60.0 < mouseY < CanvasHeight / 2.0 + 100.0
  }

  /** Whether a click restarts: only on the restart button of the game-over or victory screen. */
  predicate Restarts(screen: Screen, mouseX: real, mouseY: real) {
    (screen == GameOver || screen == Victory) && OnRestartButton(mouseX, mouseY)
  }

  /** Whether a click lands on the ship's body. */
  predicate Squashes(shipX: real, mouseX: real, mouseY: real) {
    Within(mouseX, mouseY, shipX, ShipY, ShipSize / 2.0)
  }

  class Game {
    var screen: Screen
    var shipX: real
    const beam: Beam
    const second: Beam
    const third: Beam
    var flies: seq<Fly>
    var particles: seq<Particle>
    var score: int
    var wave: int
    var perWave: int
    var caught: int
    var cooldown: int
    var doubleUnlocked: bool
    var tripleUnlocked: bool

    ghost function Counts(): Counters
      reads this
    {
      Counters(score, wave, perWave, caught, cooldown, doubleUnlocked, tripleUnlocked)
    }

    ghost function Snapshot(): View
      reads this, beam, second, third
    {
      View(screen, shipX, beam.State(), second.State(), third.State(), flies, particles, Counts())
    }

    /** Wave `wave` has `5 + 3 (wave - 1)` flies, and a power-up is unlocked exactly from its wave on. */
    ghost predicate Progressed()
      reads this
    {
      && wave >= 1 && perWave == FirstWaveSize + WaveGrowth * (wave - 1)
      && (doubleUnlocked <==> wave >= DoubleWave) && (tripleUnlocked <==> wave >= TripleWave)
    }

    /** Every fly of the wave is caught and docked or still in `flies`, and some are left. */
    ghost predicate Tallied()
      reads this
    {
      0 <= caught < perWave && caught + |flies| == perWave
    }

    ghost predicate Valid()
      reads this
    {
      && beam != second && beam != third && second != third
      && Progressed() && Tallied()
      && 0 <= cooldown <= WaveCooldown
      && score >= 0 && score % FlyPoints == 0
      && Alive(particles)
    }

    /** `setup`: the title screen, the first wave, an idle ship at its start. */
    constructor (draws: nat -> FlyDraw)
      ensures Valid()
      ensures screen == Title && shipX == ShipStartX && particles == [] && Counts() == Fresh
      ensures IsWave(flies, FirstWaveSize, 1, draws)
      ensures beam.State() == second.State() == third.State() == BeamView(0.0, ShipY - LaunchDepth, Idle)
      ensures fresh(beam) && fresh(second) && fresh(third)
    {
      beam := new Beam();
      second := new Beam();
      third := new Beam();
      screen := Title;
      shipX := ShipStartX;
      particles := [];
      score := 0;
      wave := 1;
      perWave := FirstWaveSize;
      caught := 0;
      cooldown := 0;
      doubleUnlocked := false;
      tripleUnlocked := false;
      new;
      flies := MakeWave(FirstWaveSize, 1, draws);
    }

    /** `resetWave`: the next wave, three flies larger, after a cooldown; waves 3 and 5 unlock a beam. */
    method ResetWave(draws: nat -> FlyDraw)
      requires Progressed()
      modifies this
      ensures Progressed() && Tallied()
      ensures caught == 0 && wave == old(wave) + 1 && perWave == old(perWave) + WaveGrowth && cooldown == WaveCooldown
      ensures doubleUnlocked == (old(doubleUnlocked) || wave == DoubleWave)
      ensures tripleUnlocked == (old(tripleUnlocked) || wave == TripleWave)
      ensures IsWave(flies, perWave, wave, draws)
      ensures screen == old(screen) && shipX == old(shipX) && particles == old(particles) && score == old(score)
    {
      caught := 0;
      wave := wave + 1;
      perWave := perWave + WaveGrowth;
      cooldown := WaveCooldown;
      flies := MakeWave(perWave, wave, draws);
      if wave == DoubleWave {
        doubleUnlocked := true;
      }
      if wave == TripleWave {
        tripleUnlocked := true;
      }
    }

    /**
     * `moveFlies`: the fly pass, five points and one caught fly per docked
     * fly, and the next wave once every fly of this one has docked.
     */
    method MoveFlies(sparks: nat -> Spark, draws: nat -> FlyDraw)
      requires Valid()
      modifies this
      ensures Valid()
      ensures var r := FlyPass(old(flies), old(shipX), old(particles), sparks);
        && particles == r.particles
        && score == old(score) + FlyPoints * r.docked
        && (r.flies == [] ==> IsWave(flies, perWave, wave, draws) && wave == old(wave) + 1 && caught == 0 && cooldown == WaveCooldown)
        && (r.flies != [] ==> flies == r.flies && caught == old(caught) + r.docked && wave == old(wave) && cooldown == old(cooldown))
      ensures screen == old(screen) && shipX == old(shipX)
    {
      var r := FrogFlies.MoveFlies(flies, shipX, particles, sparks);
      FlyPassConserves(flies, shipX, particles, sparks);
      FlyPassParticles(flies, shipX, particles, sparks);
      flies := r.flies;
      particles := r.particles;
      score := score + FlyPoints * r.docked;
      caught := caught + r.docked;
      if caught >= perWave {
        ResetWave(draws);
      }
    }

    /**
     * `moveShip`, then `moveBeam` for each unlocked beam, then the side
     * offsets `drawShip` gives the second and third beams.
     */
    method MoveBeams(mouseX: real)
      requires Valid()
      modifies this, beam, second, third
      ensures Valid()
      ensures shipX == mouseX
      ensures beam.State() == Stepped(old(beam.State()), mouseX)
      ensures second.State() == if doubleUnlocked then Stepped(old(second.State()), mouseX).(x := mouseX - SideOffset) else old(second.State())
      ensures third.State() == if tripleUnlocked then Stepped(old(third.State()), mouseX).(x := mouseX + SideOffset) else old(third.State())
      ensures screen == old(screen) && flies == old(flies) && particles == old(particles) && Counts() == old(Counts())
    {
      shipX := mouseX;
      beam.Move(mouseX);
      if doubleUnlocked {
        second.Move(mouseX);
        second.x := mouseX - SideOffset;
      }
      if tripleUnlocked {
        third.Move(mouseX);
        third.x := mouseX + SideOffset;
      }
    }

    /**
     * `checkBeamOverlap(b)`: the last catchable fly, if any, is captured and
     * pulled to the tip, sheds a burst of particles where it was, and the
     * beam turns inbound.
     */
    method CheckBeam(b: Beam, sparks: nat -> Spark)
      requires Valid() && (b == beam || b == second || b == third)
      modifies this, b
      ensures Valid()
      ensures flies == Caught(old(flies), old(b.x), old(b.y))
      ensures match LastCatchable(old(flies), old(b.x), old(b.y))
        case None => b.State() == old(b.State()) && particles == old(particles)
        case Some(i) =>
          && b.State() == old(b.State()).(phase := Inbound)
          && particles == old(particles) + Burst(old(flies)[i].x, old(flies)[i].y, SparkCount, SparkLife, |old(particles)|, sparks)
      ensures screen == old(screen) && shipX == old(shipX) && Counts() == old(Counts())
    {
      var found := FindCatch(flies, b.x, b.y);
      if found.Some? {
        var i := found.value;
        var f := flies[i];
        particles := particles + Burst(f.x, f.y, SparkCount, SparkLife, |particles|, sparks);
        b.phase := Inbound;
        flies := flies[i := f.(captured := true, x := b.x, y := b.y)];
        // The source resets the wave here once every fly is caught; with a
        // fly of the wave still in flight that cannot be the case.
        assert caught < perWave;
      }
    }

    /** The update half of `drawParticles`. */
    method AgeAll()
      requires Valid()
      modifies this
      ensures Valid()
      ensures particles == Survivors(old(particles))
      ensures screen == old(screen) && shipX == old(shipX) && flies == old(flies) && Counts() == old(Counts())
    {
      particles := AgeParticles(particles);
    }

    /** The moving part of `game`: flies, ship and beams, captures, particles. */
    method Play(mouseX: real, sparks: nat -> Spark, draws: nat -> FlyDraw)
      requires Valid()
      modifies this, beam, second, third
      ensures Valid()
      ensures shipX == mouseX && screen == old(screen) && score >= old(score)
    {
      MoveFlies(sparks, draws);
      MoveBeams(mouseX);
      CheckBeam(beam, sparks);
      if doubleUnlocked {
        CheckBeam(second, sparks);
      }
      if tripleUnlocked {
        CheckBeam(third, sparks);
      }
      AgeAll();
    }

    /**
     * `game`: a score of 500 switches to the victory screen before anything
     * moves; during a wave's cooldown only the cooldown counts down.
     */
    method Frame(mouseX: real, sparks: nat -> Spark, draws: nat -> FlyDraw)
      requires Valid()
      modifies this, beam, second, third
      ensures Valid()
      ensures old(score) >= WinScore ==> Snapshot() == old(Snapshot()).(screen := Victory)
      ensures old(score) < WinScore && old(cooldown) > 0 ==>
        Snapshot() == old(Snapshot()).(counters := old(Counts()).(cooldown := old(cooldown) - 1))
      ensures old(score) < WinScore && old(cooldown) == 0 ==> shipX == mouseX && screen == old(screen)
      ensures score >= old(score)
    {
      if score >= WinScore {
        screen := Victory;
        return;
      }
      if cooldown > 0 {
        cooldown := cooldown - 1;
        return;
      }
      Play(mouseX, sparks, draws);
    }

    /** `draw`: only the game screen changes any state, and it runs one `game` frame. */
    method Draw(mouseX: real, sparks: nat -> Spark, draws: nat -> FlyDraw)
      requires Valid()
      modifies this, beam, second, third
      ensures Valid()
      ensures old(screen) != Playing ==> Snapshot() == old(Snapshot())
      ensures old(screen) == Playing && old(score) >= WinScore ==> Snapshot() == old(Snapshot()).(screen := Victory)
      ensures old(screen) == Playing && old(score) < WinScore && old(cooldown) > 0 ==>
        Snapshot() == old(Snapshot()).(counters := old(Counts()).(cooldown := old(cooldown) - 1))
      ensures old(screen) == Playing && old(score) < WinScore && old(cooldown) == 0 ==> shipX == mouseX && screen == Playing
      ensures score >= old(score)
    {
      if screen == Playing {
        Frame(mouseX, sparks, draws);
      }
    }

    /** The restart branch of `mousePressed`: fresh counters, the first wave, the title screen. */
    method Restart(draws: nat -> FlyDraw)
      requires Valid()
      modifies this
      ensures Valid()
      ensures Counts() == Fresh && screen == Title && IsWave(flies, FirstWaveSize, 1, draws)
      ensures shipX == old(shipX) && particles == old(particles)
    {
      var wave1 := MakeWave(FirstWaveSize, 1, draws);
      ResetCounters();
      flies := wave1;
    }

    /** The counters and the screen a restart goes back to. */
    method ResetCounters()
      modifies this
      ensures Counts() == Fresh && screen == Title
      ensures shipX == old(shipX) && particles == old(particles) && flies == old(flies)
    {
      score, wave, caught, perWave, cooldown := 0, 1, 0, FirstWaveSize, 0;
      doubleUnlocked, tripleUnlocked := false, false;
      screen := Title;
    }

    /** The squash branch of `mousePressed`: a burst of blood at the ship (the game-over timer it starts is not modelled). */
    method Squash(sparks: nat -> Spark)
      requires Valid()
      modifies this
      ensures Valid()
      ensures particles == old(particles) + Burst(shipX, ShipY, BloodCount, BloodLife, |old(particles)|, sparks)
      ensures screen == old(screen) && shipX == old(shipX) && flies == old(flies) && Counts() == old(Counts())
    {
      particles := particles + Burst(shipX, ShipY, BloodCount, BloodLife, |particles|, sparks);
    }

    /** The launch branch of `mousePressed`: only with the first beam idle, and the others only if unlocked and idle too. */
    method Fire()
      requires Valid()
      modifies beam, second, third
      ensures beam.State() == LaunchedIfIdle(old(beam.State()))
      ensures second.State() == if old(beam.phase) == Idle && doubleUnlocked then LaunchedIfIdle(old(second.State())) else old(second.State())
      ensures third.State() == if old(beam.phase) == Idle && tripleUnlocked then LaunchedIfIdle(old(third.State())) else old(third.State())
    {
      if beam.phase == Idle {
        beam.Launch();
        if doubleUnlocked {
          second.Launch();
        }
        if tripleUnlocked {
          third.Launch();
        }
      }
    }

    /** `mousePressed`: restart, squash, start and launch, first match wins. */
    method MousePressed(mouseX: real, mouseY: real, sparks: nat -> Spark, draws: nat -> FlyDraw)
      requires Valid()
      modifies this, beam, second, third
      ensures Valid()
      ensures Restarts(old(screen), mouseX, mouseY) ==>
        && Counts() == Fresh && screen == Title && IsWave(flies, FirstWaveSize, 1, draws)
        && Snapshot().(counters := Fresh, screen := Title, flies := flies) == old(Snapshot()).(counters := Fresh, screen := Title, flies := flies)
      ensures !Restarts(old(screen), mouseX, mouseY) && Squashes(shipX, mouseX, mouseY) ==>
        Snapshot() == old(Snapshot()).(particles := old(particles) + Burst(shipX, ShipY, BloodCount, BloodLife, |old(particles)|, sparks))
      ensures !Restarts(old(screen), mouseX, mouseY) && !Squashes(shipX, mouseX, mouseY) && OnStartButton(mouseX, mouseY) ==>
        Snapshot() == old(Snapshot()).(screen := Playing)
      ensures !Restarts(old(screen), mouseX, mouseY) && !Squashes(shipX, mouseX, mouseY) && !OnStartButton(mouseX, mouseY) ==>
        && Snapshot().(beam := beam.State(), second := second.State(), third := third.State()) == old(Snapshot()).(beam := beam.State(), second := second.State(), third := third.State())
        && beam.State() == LaunchedIfIdle(old(beam.State()))
        && second.State() == (if old(beam.phase) == Idle && doubleUnlocked then LaunchedIfIdle(old(second.State())) else old(second.State()))
        && third.State() == (if old(beam.phase) == Idle && tripleUnlocked then LaunchedIfIdle(old(third.State())) else old(third.State()))
    {
      if Restarts(screen, mouseX, mouseY) {
        Restart(draws);
        return;
      }
      if Squashes(shipX, mouseX, mouseY) {
        Squash(sparks);
        return;
      }
      if OnStartButton(mouseX, mouseY) {
        screen := Playing;
      } else {
        Fire();
      }
    }
  }
}
