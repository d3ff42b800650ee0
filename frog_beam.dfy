/**
 * Frogala's ship and its tractor beams.
 *
 * The ship's body sits at a fixed height below the canvas and follows the
 * mouse horizontally; each beam is an object the game moves once a frame and
 * a click launches.  A beam's tip runs up from the ship, turns back at the top
 * of the canvas, and goes idle once it is back at the ship.
 */
module FrogBeam {
  const CanvasWidth: real := 640.0
  const CanvasHeight: real := 480.0
  const ShipStartX: real := 320.0
  const ShipY: real := 520.0
  const ShipSize: real := 150.0
  const BeamSize: real := 20.0
  const BeamSpeed: real := 20.0
  /** A launched beam starts this far above the ship's body. */
  const LaunchDepth: real := 40.0
  /** The second and third beams hang this far left and right of the ship. */
  const SideOffset: real := 30.0

  /** `dist(x0, y0, x1, y1) < r`, compared on squares so that it stays exact. */
  predicate Within(x0: real, y0: real, x1: real, y1: real, r: real) {
    r > 0.0 && (x0 - x1) * (x0 - x1) + (y0 - y1) * (y0 - y1) < r * r
  }

  datatype Phase = Idle | Outbound | Inbound

  datatype BeamView = BeamView(x: real, y: real, phase: Phase)

  /** A frame leaves the phase alone or moves it one step along outbound, inbound, idle. */
  predicate Follows(p: Phase, q: Phase) {
    p == q || (p == Outbound && q == Inbound) || (p == Inbound && q == Idle)
  }

  /** One frame of `moveBeam`, with the ship's body at `shipX`. */
  function Stepped(b: BeamView, shipX: real): (r: BeamView)
    ensures r.x == shipX
    ensures Follows(b.phase, r.phase)
    ensures b.phase == Idle ==> r.y == b.y
    ensures b.phase == Outbound ==> r.y == b.y - BeamSpeed && (r.phase == Inbound <==> r.y <= 0.0)
    ensures b.phase == Inbound ==> (r.phase == Idle <==> b.y >= ShipY)
    ensures b.phase == Inbound && r.phase == Inbound ==> r.y == b.y + BeamSpeed
    ensures b.phase == Inbound && r.phase == Idle ==> r.y == b.y
  {
    match b.phase
    case Idle => b.(x := shipX)
    case Outbound =>
      var y := b.y - BeamSpeed;
      BeamView(shipX, y, if y <= 0.0 then Inbound else Outbound)
    case Inbound =>
      if b.y < ShipY then BeamView(shipX, b.y + BeamSpeed, Inbound) else BeamView(shipX, b.y, Idle)
  }

  /** What a click does to a beam it launches: the tip goes to just above the ship, outbound. */
  function Launched(b: BeamView): (r: BeamView)
    ensures r.x == b.x && r.phase == Outbound && r.y == ShipY - LaunchDepth
  {
    b.(y := ShipY - LaunchDepth, phase := Outbound)
  }

  /** A click's effect on a beam that is only launched when idle. */
  function LaunchedIfIdle(b: BeamView): (r: BeamView)
    ensures b.phase == Idle ==> r == Launched(b)
    ensures b.phase != Idle ==> r == b
  {
    if b.phase == Idle then Launched(b) else b
  }

  /** `n` frames with the ship held at `shipX`. */
  ghost function Frames(b: BeamView, n: nat, shipX: real): BeamView
    decreases n
  {
    if n == 0 then b else Frames(Stepped(b, shipX), n - 1, shipX)
  }

  lemma {:induction false} FramesSplit(b: BeamView, m: nat, n: nat, shipX: real)
    ensures Frames(b, m + n, shipX) == Frames(Frames(b, m, shipX), n, shipX)
    decreases m
  {
    if m > 0 {
      FramesSplit(Stepped(b, shipX), m - 1, n, shipX);
    }
  }

  /** An outbound tip rises one speed a frame for as long as it stays below the top. */
  lemma {:induction false} Rising(b: BeamView, k: nat, shipX: real)
    requires b.phase == Outbound && (k as real) * BeamSpeed < b.y
    ensures Frames(b, k, shipX).phase == Outbound
    ensures Frames(b, k, shipX).y == b.y - (k as real) * BeamSpeed
    decreases k
  {
    if k > 0 {
      Rising(Stepped(b, shipX), k - 1, shipX);
    }
  }

  /** An inbound tip sinks one speed a frame for as long as it started each frame above the ship. */
  lemma {:induction false} Sinking(b: BeamView, k: nat, shipX: real)
    requires b.phase == Inbound && (k == 0 || b.y + ((k - 1) as real) * BeamSpeed < ShipY)
    ensures Frames(b, k, shipX).phase == Inbound
    ensures Frames(b, k, shipX).y == b.y + (k as real) * BeamSpeed
    decreases k
  {
    if k > 0 {
      Sinking(Stepped(b, shipX), k - 1, shipX);
    }
  }

  /**
   * A launched beam, with the ship holding still, is busy for 50 frames
   * (so clicks in between launch nothing) and is idle at the ship on the 51st.
   */
  lemma Returns(b: BeamView, shipX: real)
    requires b.phase == Idle
    ensures forall k :: 0 <= k < 51 ==> Frames(Launched(b), k, shipX).phase != Idle
    ensures Frames(Launched(b), 51, shipX) == BeamView(shipX, ShipY, Idle)
  {
    var l := Launched(b);
    Rising(l, 23, shipX);
    FramesSplit(l, 23, 1, shipX);
    var top := Frames(l, 24, shipX);
    assert top.phase == Inbound && top.y == 0.0;
    forall k | 0 <= k < 51 ensures Frames(l, k, shipX).phase != Idle {
      if k <= 23 {
        Rising(l, k, shipX);
      } else {
        FramesSplit(l, 24, k - 24, shipX);
        Sinking(top, k - 24, shipX);
      }
    }
    FramesSplit(l, 24, 26, shipX);
    Sinking(top, 26, shipX);
    FramesSplit(l, 50, 1, shipX);
  }

  /** One of the ship's beams. */
  class Beam {
    var x: real
    var y: real
    var phase: Phase

    function State(): BeamView
      reads this
    {
      BeamView(x, y, phase)
    }

    /** A beam as the ship is declared with: idle, tip just above the ship; its x is set before first use. */
    constructor ()
      ensures State() == BeamView(0.0, ShipY - LaunchDepth, Idle)
    {
      x := 0.0;
      y := ShipY - LaunchDepth;
      phase := Idle;
    }

    /** `moveBeam(beam)`. */
    method Move(shipX: real)
      modifies this
      ensures State() == Stepped(old(State()), shipX)
    {
      x := shipX;
      if phase == Idle {
        return;
      } else if phase == Outbound {
        y := y - BeamSpeed;
        if y <= 0.0 {
          phase := Inbound;
        }
      } else {
        if y < ShipY {
          y := y + BeamSpeed;
        } else {
          phase := Idle;
        }
      }
    }

    /** The click's launch of a beam, which happens only if it is idle. */
    method Launch()
      modifies this
      ensures State() == LaunchedIfIdle(old(State()))
    {
      if phase == Idle {
        y := ShipY - LaunchDepth;
        phase := Outbound;
      }
    }
  }
}
