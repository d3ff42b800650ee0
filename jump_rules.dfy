/**
 * The per-sketch rules of the "Greek Myth Jump" variants: what ends a frame
 * in defeat or victory, when the space bar restarts, how many fragments a
 * session starts with and whether generation is capped.
 *
 *   Icarus      Variation-Jam-1 (script1.js, and script.js with the same rules)
 *   Orpheus     Variation-Jam-2/script2.js
 *   Plain       Variation-Jam-2/script.js (no fragments, no story)
 *   Prometheus  Variation-Jam-3/script.js
 */
module JumpRules {
  import opened JumpEngine

  datatype Variant = Icarus | Orpheus | Plain | Prometheus

  const FallLimit: real := Height + 100.0
  const FragmentGoal: nat := 4
  const EndBarrierY: real := -700.0 * 60.0
  const EndBarrierHeight: real := 500.0
  const GateHalfWidth: real := 40.0
  const FinalPlatformIndex: nat := 499
  const PlatformCap: nat := 500
  const BackgroundCount: nat := 5

  /** What the end-of-frame checks decided: `gameOver` is set, or the victory screen is shown (the loop stops either way). */
  datatype Ending = Ending(gameOver: bool, victory: bool)

  predicate Fell(b: Body) {
    b.py > FallLimit
  }

  /** Icarus: falling, or reaching the sun barrier within the central gate, is game over; four fragments is victory. */
  function IcarusEnding(b: Body, collected: nat): (r: Ending)
    ensures r.gameOver <==> Fell(b) || (b.py <= EndBarrierY + EndBarrierHeight && Width / 2.0 - GateHalfWidth < b.px < Width / 2.0 + GateHalfWidth)
    ensures r.victory <==> collected == FragmentGoal
  {
    var barrier := b.py <= EndBarrierY + EndBarrierHeight && b.px > Width / 2.0 - GateHalfWidth && b.px < Width / 2.0 + GateHalfWidth;
    Ending(Fell(b) || barrier, collected == FragmentGoal)
  }

  /** Orpheus: falling is game over; landing on the 500th platform with four fragments is victory. */
  function OrpheusEnding(b: Body, w: real, h: real, collected: nat, ps: seq<Platform>): (r: Ending)
    ensures r.gameOver <==> Fell(b)
    ensures r.victory ==> |ps| > FinalPlatformIndex && Lands(b, w, h, ps[FinalPlatformIndex]) && collected == FragmentGoal
    ensures |ps| > FinalPlatformIndex && Lands(b, w, h, ps[FinalPlatformIndex]) && collected == FragmentGoal ==> r.victory
  {
    Ending(Fell(b), |ps| > FinalPlatformIndex && Lands(b, w, h, ps[FinalPlatformIndex]) && collected == FragmentGoal)
  }

  /** Plain: falling is game over and there is no victory. */
  function PlainEnding(b: Body): (r: Ending)
    ensures r.gameOver <==> Fell(b)
    ensures !r.victory
  {
    Ending(Fell(b), false)
  }

  /** Prometheus: falling with four fragments is victory, falling with fewer is game over. */
  function PrometheusEnding(b: Body, collected: nat): (r: Ending)
    ensures r.victory <==> Fell(b) && collected == FragmentGoal
    ensures r.gameOver <==> Fell(b) && collected != FragmentGoal
    ensures !(r.gameOver && r.victory)
    ensures r.gameOver || r.victory <==> Fell(b)
  {
    if Fell(b) && collected == FragmentGoal then Ending(false, true)
    else if Fell(b) then Ending(true, false)
    else Ending(false, false)
  }

  function EndingOf(v: Variant, b: Body, w: real, h: real, collected: nat, ps: seq<Platform>): (r: Ending)
    ensures Fell(b) ==> r.gameOver || r.victory
    ensures v == Plain ==> !r.victory
  {
    match v
    case Icarus => IcarusEnding(b, collected)
    case Orpheus => OrpheusEnding(b, w, h, collected, ps)
    case Plain => PlainEnding(b)
    case Prometheus => PrometheusEnding(b, collected)
  }

  /** Whether the space bar restarts: only after game over, and in Prometheus also after falling with all four fragments. */
  function MayRestart(v: Variant, gameOver: bool, b: Body, collected: nat): (r: bool)
    ensures v != Prometheus ==> (r <==> gameOver)
    ensures v == Prometheus ==> (r <==> gameOver || (Fell(b) && collected == FragmentGoal))
  {
    match v
    case Prometheus => gameOver || (b.py > FallLimit && collected == FragmentGoal)
    case _ => gameOver
  }

  /** The fragments a session starts with (fragment indices, each drawn at `FragmentY`). */
  function StartingFragments(v: Variant): (r: seq<int>)
    ensures v == Plain ==> r == []
    ensures v != Plain ==> |r| == FragmentGoal
  {
    if v == Plain then [] else [100, 200, 300, 400]
  }

  function GenerationCap(v: Variant): Cap {
    if v == Orpheus then AtMost(PlatformCap) else Uncapped
  }

  /** A platform array as a running session keeps it: non-empty, spaced, at most `MaxWindow` platforms. */
  ghost predicate Stacked(ps: seq<Platform>) {
    0 < |ps| <= MaxWindow && Spaced(ps)
  }

  /** The player is 40 by 40, its acceleration is spent, and it never rises faster than a bounce. */
  predicate Settled(b: Body, w: real, h: real) {
    && w == PlayerSize && h == PlayerSize
    && b.vy >= BounceVelocity && b.ax == 0.0 && b.ay == 0.0
  }

  /** Every fragment is still in play or collected, and the story snippet index is that of the last one collected. */
  predicate Tallied(v: Variant, fragments: seq<int>, collected: nat, snippet: int, showStory: bool) {
    && collected + |fragments| == |StartingFragments(v)|
    && snippet == collected - 1
    && (v == Plain ==> !showStory)
  }

  /** Prometheus's background after collecting: it follows the fragment count while there is a background for it. */
  function NextBackground(bg: nat, collected: nat): (r: nat)
    ensures collected < BackgroundCount ==> r == collected
    ensures collected >= BackgroundCount ==> r == bg
    ensures bg < BackgroundCount ==> r < BackgroundCount
  {
    if collected < BackgroundCount then collected else bg
  }
}
