/**
 * The vertical platform-jumper engine shared by the "Greek Myth Jump" sketches:
 * the player's physics step, the landing test, and the passes a frame makes
 * over the platform array (pruning, generation ahead of the player, scoring)
 * and over the memory fragments (pickup).
 *
 * Coordinates are canvas coordinates: y grows downwards, so "above" means a
 * smaller y.
 */
module JumpEngine {
  import opened Maybe

  const Width: real := 500.0
  const Height: real := 600.0
  const Gravity: real := 0.5
  const BounceVelocity: real := -10.0
  const Spacing: real := 60.0
  const PlatformWidth: real := 80.0
  const PlatformHeight: real := 15.0
  const PlatformBuffer: real := 100.0
  const MoveSpeed: real := 5.0
  const PlayerSize: real := 40.0
  const InitialPlatforms: nat := 10
  const FragmentSpacing: real := 60.0
  const PickupRadius: real := 30.0

  /** A platform; `jumpCount` is only ever changed by the Orpheus variant. */
  datatype Platform = Platform(x: real, y: real, w: real, h: real, scored: bool, jumpCount: nat)

  /** `new Platform(x, y, 80, 15)`: an 80-by-15 platform that has not scored and has not been jumped on. */
  function NewPlatform(x: real, y: real): (p: Platform)
    ensures p.x == x && p.y == y && p.w == 80.0 && p.h == 15.0
    ensures !p.scored && p.jumpCount == 0
  {
    Platform(x, y, PlatformWidth, PlatformHeight, false, 0)
  }

  function Last(ps: seq<Platform>): Platform
    requires |ps| > 0
  {
    ps[|ps| - 1]
  }

  /** Every platform lies at least one spacing above the platform before it in the array. */
  ghost predicate Spaced(ps: seq<Platform>) {
    |ps| <= 1 || (Spaced(ps[..|ps| - 1]) && Last(ps).y <= ps[|ps| - 2].y - Spacing)
  }

  /** In a spaced array every platform lies at least one spacing above each platform before it. */
  lemma {:induction false} SpacedPair(ps: seq<Platform>, i: nat, j: nat)
    requires Spaced(ps) && i < j < |ps|
    ensures ps[j].y <= ps[i].y - Spacing
    decreases |ps|
  {
    var init := ps[..|ps| - 1];
    if j < |ps| - 1 {
      SpacedPair(init, i, j);
    } else if i < j - 1 {
      SpacedPair(init, i, j - 1);
    }
  }

  /** Conversely, an array whose every pair is a spacing apart is spaced. */
  lemma {:induction false} PairsSpaced(ps: seq<Platform>)
    requires forall i, j :: 0 <= i < j < |ps| ==> ps[j].y <= ps[i].y - Spacing
    ensures Spaced(ps)
    decreases |ps|
  {
    if |ps| > 1 {
      var init := ps[..|ps| - 1];
      assert forall i, j :: 0 <= i < j < |init| ==> init[j].y <= init[i].y - Spacing by {
        forall i, j | 0 <= i < j < |init| ensures init[j].y <= init[i].y - Spacing {
          assert init[i] == ps[i] && init[j] == ps[j];
        }
      }
      PairsSpaced(init);
    }
  }

  /** Spacing depends on heights alone. */
  lemma {:induction false} SameHeightsSpaced(ps: seq<Platform>, qs: seq<Platform>)
    requires Spaced(ps) && |qs| == |ps|
    requires forall i :: 0 <= i < |ps| ==> qs[i].y == ps[i].y
    ensures Spaced(qs)
    decreases |ps|
  {
    if |ps| > 1 {
      SameHeightsSpaced(ps[..|ps| - 1], qs[..|qs| - 1]);
    }
  }

  // ---------------------------------------------------------------------------
  // Player physics
  // ---------------------------------------------------------------------------

  /** Position, velocity and acceleration of the player. */
  datatype Body = Body(px: real, py: real, vx: real, vy: real, ax: real, ay: real)

  /**
   * Gravity integration and horizontal wraparound: gravity is added to the
   * acceleration, the acceleration to the velocity, the velocity to the
   * position, the acceleration is zeroed, and x is wrapped at the canvas edges.
   */
  function Fall(b: Body): (r: Body)
    ensures r.ax == 0.0 && r.ay == 0.0
    ensures r.vx == b.vx + b.ax && r.vy == b.vy + b.ay + Gravity
    ensures r.py == b.py + r.vy
    ensures 0.0 <= r.px <= Width
    ensures 0.0 <= b.px + r.vx <= Width ==> r.px == b.px + r.vx
    ensures b.px + r.vx > Width ==> r.px == 0.0
    ensures b.px + r.vx < 0.0 ==> r.px == Width
  {
    var vx := b.vx + b.ax;
    var vy := b.vy + b.ay + Gravity;
    var x := b.px + vx;
    var x' := if x > Width then 0.0 else x;
    var x'' := if x' < 0.0 then Width else x';
    Body(x'', b.py + vy, vx, vy, 0.0, 0.0)
  }

  /**
   * The landing test of one platform: the boxes overlap horizontally and the
   * player's feet reach the platform's top within this frame's vertical travel.
   */
  predicate Lands(b: Body, w: real, h: real, p: Platform) {
    b.px + w > p.x && b.px < p.x + p.w && b.py + h <= p.y && b.py + h + b.vy >= p.y
  }

  ghost predicate LandsOnAny(b: Body, w: real, h: real, ps: seq<Platform>) {
    exists i :: 0 <= i < |ps| && Lands(b, w, h, ps[i])
  }

  /** Index of the first platform, in array order, the player lands on. */
  function FirstLanding(ps: seq<Platform>, b: Body, w: real, h: real): (r: Option<nat>)
    ensures r.Some? ==> r.value < |ps| && Lands(b, w, h, ps[r.value])
    ensures r.Some? ==> forall j :: 0 <= j < r.value ==> !Lands(b, w, h, ps[j])
    ensures r.None? ==> forall j :: 0 <= j < |ps| ==> !Lands(b, w, h, ps[j])
  {
    if ps == [] then None
    else if Lands(b, w, h, ps[0]) then Some(0)
    else match FirstLanding(ps[1..], b, w, h)
      case None => None
      case Some(i) => Some(i + 1)
  }

  /** Index of the last platform in the array the player lands on (the topmost-first scan). */
  function TopLanding(ps: seq<Platform>, b: Body, w: real, h: real): (r: Option<nat>)
    ensures r.Some? ==> r.value < |ps| && Lands(b, w, h, ps[r.value])
    ensures r.Some? ==> forall j :: r.value < j < |ps| ==> !Lands(b, w, h, ps[j])
    ensures r.None? ==> forall j :: 0 <= j < |ps| ==> !Lands(b, w, h, ps[j])
  {
    if ps == [] then None
    else if Lands(b, w, h, ps[|ps| - 1]) then Some(|ps| - 1)
    else TopLanding(ps[..|ps| - 1], b, w, h)
  }

  /**
   * The landing response: a falling player that lands on some platform gets
   * the bounce velocity, whatever its incoming speed; nothing else changes.
   */
  function Bounce(b: Body, w: real, h: real, ps: seq<Platform>): (r: Body)
    ensures r.(vy := b.vy) == b
    ensures b.vy > 0.0 && LandsOnAny(b, w, h, ps) ==> r.vy == BounceVelocity
    ensures !(b.vy > 0.0 && LandsOnAny(b, w, h, ps)) ==> r == b
  {
    if b.vy > 0.0 && FirstLanding(ps, b, w, h).Some? then b.(vy := BounceVelocity) else b
  }

  /** The platform array after the topmost-first landing scan stomped on platform `i`. */
  function Stomp(ps: seq<Platform>, i: nat): (r: seq<Platform>)
    requires i < |ps|
    ensures ps[i].jumpCount + 1 >= 2 ==> r == ps[..i] + ps[i + 1..]
    ensures ps[i].jumpCount + 1 < 2 ==> |r| == |ps| && r[i].jumpCount == ps[i].jumpCount + 1
    ensures ps[i].jumpCount + 1 < 2 ==> forall j :: 0 <= j < |ps| && j != i ==> r[j] == ps[j]
    ensures ps[i].jumpCount + 1 < 2 ==> r[i].(jumpCount := ps[i].jumpCount) == ps[i]
  {
    var p := ps[i].(jumpCount := ps[i].jumpCount + 1);
    if p.jumpCount >= 2 then ps[..i] + ps[i + 1..] else ps[i := p]
  }

  /** The platform array after the topmost-first landing scan of the Orpheus variant. */
  function Trampled(ps: seq<Platform>, b: Body, w: real, h: real): seq<Platform> {
    if b.vy > 0.0 then
      match TopLanding(ps, b, w, h)
      case None => ps
      case Some(i) => Stomp(ps, i)
    else ps
  }

  datatype Direction = Left | Right

  /** Horizontal velocity after `move(direction, isPressed)`. */
  function Steer(vx: real, dir: Direction, pressed: bool): (r: real)
    ensures pressed ==> r == (if dir == Left then -MoveSpeed else MoveSpeed)
    ensures !pressed ==> r == 0.0
  {
    if pressed then (if dir == Left then -MoveSpeed else MoveSpeed) else 0.0
  }

  /** The player: its vectors are updated in place every frame. */
  class Player {
    var px: real
    var py: real
    var vx: real
    var vy: real
    var ax: real
    var ay: real
    const w: real
    const h: real

    function State(): Body
      reads this
    {
      Body(px, py, vx, vy, ax, ay)
    }

    constructor (x: real, y: real, w: real, h: real)
      ensures State() == Body(x, y, 0.0, 0.0, 0.0, 0.0)
      ensures this.w == w && this.h == h
    {
      px, py := x, y;
      vx, vy, ax, ay := 0.0, 0.0, 0.0, 0.0;
      this.w, this.h := w, h;
    }

    /** Gravity, velocity and wraparound, the first half of `update`. */
    method Integrate()
      modifies this
      ensures State() == Fall(old(State()))
    {
      ax, ay := ax + 0.0, ay + Gravity;
      vx, vy := vx + ax, vy + ay;
      px, py := px + vx, py + vy;
      ax, ay := 0.0, 0.0;
      if px > Width { px := 0.0; }
      if px < 0.0 { px := Width; }
    }

    /**
     * `update(platforms)` of the variants that scan the platforms in array
     * order and leave them untouched: the first platform landed on while
     * falling bounces the player.
     */
    method Update(ps: seq<Platform>)
      modifies this
      ensures State() == Bounce(Fall(old(State())), w, h, ps)
    {
      Integrate();
      if vy > 0.0 {
        var i := 0;
        while i < |ps|
          invariant 0 <= i <= |ps|
          invariant State() == Fall(old(State()))
          invariant forall j :: 0 <= j < i ==> !Lands(State(), w, h, ps[j])
        {
          if Lands(State(), w, h, ps[i]) {
            vy := BounceVelocity;
            return;
          }
          i := i + 1;
        }
      }
    }

    /**
     * `update(platforms)` of the Orpheus variant: the scan runs from the last
     * platform to the first, and the platform landed on counts the jump and
     * is removed at its second one.
     */
    method UpdateTopFirst(ps: seq<Platform>) returns (ps': seq<Platform>)
      modifies this
      ensures State() == Bounce(Fall(old(State())), w, h, ps)
      ensures ps' == Trampled(ps, Fall(old(State())), w, h)
    {
      Integrate();
      ps' := ps;
      if vy > 0.0 {
        var i := |ps|;
        while i > 0
          invariant 0 <= i <= |ps|
          invariant State() == Fall(old(State()))
          invariant forall j :: i <= j < |ps| ==> !Lands(State(), w, h, ps[j])
          invariant TopLanding(ps, State(), w, h) == TopLanding(ps[..i], State(), w, h)
        {
          i := i - 1;
          assert ps[..i + 1][..i] == ps[..i];
          if Lands(State(), w, h, ps[i]) {
            vy := BounceVelocity;
            var p := ps[i].(jumpCount := ps[i].jumpCount + 1);
            if p.jumpCount >= 2 {
              ps' := ps[..i] + ps[i + 1..];
            } else {
              ps' := ps[i := p];
            }
            return;
          }
        }
      }
    }

    /** `move(direction, isPressed)`: only the horizontal velocity changes. */
    method Move(dir: Direction, pressed: bool)
      modifies this
      ensures State() == old(State()).(vx := Steer(old(vx), dir, pressed))
    {
      vx := if pressed then (if dir == Left then -MoveSpeed else MoveSpeed) else 0.0;
    }
  }

  // ---------------------------------------------------------------------------
  // Platform array passes
  // ---------------------------------------------------------------------------

  /** The platforms that survive pruning: those not below `limit`, in their original order. */
  function Unpruned(ps: seq<Platform>, limit: real): (r: seq<Platform>)
    ensures |r| <= |ps|
    ensures forall i :: 0 <= i < |r| ==> r[i].y <= limit
  {
    if ps == [] then []
    else (if ps[0].y <= limit then [ps[0]] else []) + Unpruned(ps[1..], limit)
  }

  /** Pruning keeps exactly the platforms that are not below `limit`. */
  lemma {:induction false} UnprunedMembers(ps: seq<Platform>, limit: real)
    ensures forall p :: p in Unpruned(ps, limit) <==> p in ps && p.y <= limit
  {
    if ps != [] {
      UnprunedMembers(ps[1..], limit);
      assert ps == [ps[0]] + ps[1..];
    }
  }

  /**
   * The pruning pass: scanning from the last index to the first, every
   * platform below `limit` is spliced out.
   */
  method Prune(ps: seq<Platform>, limit: real) returns (kept: seq<Platform>)
    ensures kept == Unpruned(ps, limit)
  {
    kept := ps;
    var i := |ps|;
    while i > 0
      invariant 0 <= i <= |ps|
      invariant kept == ps[..i] + Unpruned(ps[i..], limit)
    {
      i := i - 1;
      assert ps[i..] == [ps[i]] + ps[i + 1..];
      assert kept[..i] == ps[..i] && kept[i] == ps[i];
      if kept[i].y > limit {
        kept := kept[..i] + kept[i + 1..];
      }
    }
    assert ps[0..] == ps;
  }

  /** Pruning keeps the spacing of the platforms that remain. */
  lemma {:induction false} UnprunedSpaced(ps: seq<Platform>, limit: real)
    requires Spaced(ps)
    ensures Spaced(Unpruned(ps, limit))
  {
    if ps != [] {
      var rest := Unpruned(ps[1..], limit);
      SpacedTail(ps);
      UnprunedSpaced(ps[1..], limit);
      if ps[0].y <= limit {
        if rest != [] {
          UnprunedMembers(ps[1..], limit);
          assert rest[0] in ps[1..];
          var k :| 0 <= k < |ps| - 1 && ps[1..][k] == rest[0];
          SpacedPair(ps, 0, k + 1);
        }
        SpacedCons(ps[0], rest);
      } else {
        assert Unpruned(ps, limit) == rest;
      }
    }
  }

  lemma {:induction false} SpacedTail(ps: seq<Platform>)
    requires |ps| > 0 && Spaced(ps)
    ensures Spaced(ps[1..])
    decreases |ps|
  {
    if |ps| > 2 {
      var init := ps[..|ps| - 1];
      var tail := ps[1..];
      SpacedTail(init);
      assert tail[..|tail| - 1] == init[1..];
      assert tail[|tail| - 2] == ps[|ps| - 2];
    }
  }

  lemma {:induction false} SpacedCons(p: Platform, ps: seq<Platform>)
    requires Spaced(ps) && (|ps| > 0 ==> ps[0].y <= p.y - Spacing)
    ensures Spaced([p] + ps)
    decreases |ps|
  {
    if |ps| > 0 {
      var init := ps[..|ps| - 1];
      var r := [p] + ps;
      if |ps| > 1 {
        SpacedCons(p, init);
        assert r[|r| - 2] == ps[|ps| - 2];
      }
      assert r[..|ps|] == [p] + init;
      assert Spaced(r[..|r| - 1]);
      assert Last(r).y <= r[|r| - 2].y - Spacing;
    }
  }

  /** A top platform that is not below `limit` survives pruning and stays on top. */
  lemma {:induction false} UnprunedKeepsTop(ps: seq<Platform>, limit: real)
    requires |ps| > 0 && Last(ps).y <= limit
    ensures |Unpruned(ps, limit)| > 0 && Last(Unpruned(ps, limit)) == Last(ps)
  {
    if |ps| > 1 {
      UnprunedKeepsTop(ps[1..], limit);
    }
  }

  /**
   * `grown` is `ps` followed by platforms each one spacing above the one
   * before it, the k-th new one at the x the random source gives for k.
   */
  ghost predicate Extends(ps: seq<Platform>, grown: seq<Platform>, newX: nat -> real)
    decreases |grown|
  {
    if |grown| <= |ps| || |ps| == 0 then grown == ps
    else
      && Extends(ps, grown[..|grown| - 1], newX)
      && Last(grown) == NewPlatform(newX(|grown| - 1 - |ps|), grown[|grown| - 2].y - Spacing)
  }

  /** How far generation goes: without a cap, or until the array holds `n` platforms. */
  datatype Cap = Uncapped | AtMost(n: nat)

  predicate Full(c: Cap, count: nat) {
    c.AtMost? && count >= c.n
  }

  /**
   * The generation pass: while the top platform is still below
   * `playerY - platformBuffer - height`, a platform is appended one spacing
   * above the current top, at the x the random source gives for it.
   */
  method Generate(ps: seq<Platform>, playerY: real, newX: nat -> real, cap: Cap) returns (grown: seq<Platform>)
    requires |ps| > 0
    ensures Extends(ps, grown, newX)
    ensures |grown| >= |ps| && grown[..|ps|] == ps
    ensures !Full(cap, |grown|) ==> Last(grown).y <= playerY - PlatformBuffer - Height
    ensures |grown| > |ps| ==> Last(grown).y > playerY - PlatformBuffer - Height - Spacing
    ensures |grown| > |ps| ==> !Full(cap, |grown| - 1)
    ensures Last(ps).y <= playerY - PlatformBuffer - Height ==> grown == ps
  {
    var limit := playerY - PlatformBuffer - Height;
    grown := ps;
    while Last(grown).y > limit
      invariant Extends(ps, grown, newX)
      invariant |grown| >= |ps| && grown[..|ps|] == ps
      invariant |grown| > |ps| ==> Last(grown).y > limit - Spacing
      invariant |grown| > |ps| ==> !Full(cap, |grown| - 1)
      invariant Last(ps).y <= limit ==> grown == ps
      decreases (Last(grown).y - limit).Floor
    {
      var x := newX(|grown| - |ps|);
      var y := Last(grown).y - Spacing;
      if Full(cap, |grown|) {
        break;
      }
      var next := grown + [NewPlatform(x, y)];
      assert next[..|grown|] == grown && next[..|ps|] == ps;
      grown := next;
    }
  }

  /** Appending platforms one spacing above the top keeps the array spaced. */
  lemma {:induction false} GeneratedSpaced(ps: seq<Platform>, grown: seq<Platform>, newX: nat -> real)
    requires |ps| > 0 && Spaced(ps)
    requires Extends(ps, grown, newX)
    ensures Spaced(grown)
    decreases |grown|
  {
    if |grown| > |ps| {
      GeneratedSpaced(ps, grown[..|grown| - 1], newX);
    }
  }

  /**
   * A spaced array whose first platform is not below `hi` and whose top is
   * above `lo`, with `hi - lo` at most `n` spacings, holds at most `n`
   * platforms.
   */
  lemma {:induction false} SpacedWindow(ps: seq<Platform>, lo: real, hi: real, n: nat)
    requires |ps| > 0 && Spaced(ps)
    requires ps[0].y <= hi && Last(ps).y > lo
    requires hi - lo <= n as real * Spacing
    ensures |ps| <= n
  {
    var k := |ps| - 1;
    SpacedDrop(ps, k);
    assert (k - n) as real * Spacing < 0.0;
  }

  lemma {:induction false} SpacedDrop(ps: seq<Platform>, k: nat)
    requires Spaced(ps) && k < |ps|
    ensures ps[k].y <= ps[0].y - k as real * Spacing
  {
    if k > 0 {
      SpacedDrop(ps, k - 1);
      SpacedPair(ps, k - 1, k);
    }
  }

  /** The most platforms the array holds between frames of a running game. */
  const MaxWindow: nat := 23

  /**
   * The two platform passes of a frame: platforms more than a canvas height
   * below the player are spliced out, then platforms are generated above the
   * top. A spaced array of at most `MaxWindow` platforms stays spaced and
   * within `MaxWindow`, so a cap above `MaxWindow` is never reached and the
   * top ends a buffer above the view.
   */
  method Scroll(ps: seq<Platform>, playerY: real, newX: nat -> real, cap: Cap) returns (r: seq<Platform>)
    requires |ps| > 0 && Last(ps).y <= playerY + Height
    ensures Extends(Unpruned(ps, playerY + Height), r, newX)
    ensures |r| > 0
    ensures Spaced(ps) && |ps| <= MaxWindow && !Full(cap, MaxWindow) ==>
      && Spaced(r) && |r| <= MaxWindow
      && Last(r).y <= playerY - PlatformBuffer - Height
  {
    var limit := playerY + Height;
    var kept := Prune(ps, limit);
    UnprunedKeepsTop(ps, limit);
    r := Generate(kept, playerY, newX, cap);
    if Spaced(ps) && |ps| <= MaxWindow && !Full(cap, MaxWindow) {
      UnprunedSpaced(ps, limit);
      GeneratedSpaced(kept, r, newX);
      if |r| > |kept| {
        SpacedWindow(r, playerY - PlatformBuffer - Height - Spacing, limit, MaxWindow);
      }
    }
  }

  /** Removing one platform from a spaced array leaves it spaced. */
  lemma {:induction false} RemovalSpaced(ps: seq<Platform>, i: nat)
    requires i < |ps| && Spaced(ps)
    ensures Spaced(ps[..i] + ps[i + 1..])
  {
    var r := ps[..i] + ps[i + 1..];
    forall a, b | 0 <= a < b < |r|
      ensures r[b].y <= r[a].y - Spacing
    {
      var a' := if a < i then a else a + 1;
      var b' := if b < i then b else b + 1;
      assert r[a] == ps[a'] && r[b] == ps[b'];
      SpacedPair(ps, a', b');
    }
    PairsSpaced(r);
  }

  /** The topmost-first landing scan never removes or changes the top platform when the player's feet are not above it. */
  lemma TrampleSparesTop(ps: seq<Platform>, b: Body, w: real, h: real, before: Body)
    requires |ps| > 0 && Spaced(ps)
    requires Last(ps).y <= before.py + h
    requires b.py == before.py + b.vy
    ensures |Trampled(ps, b, w, h)| > 0 && Last(Trampled(ps, b, w, h)) == Last(ps)
    ensures Spaced(Trampled(ps, b, w, h))
    ensures |Trampled(ps, b, w, h)| <= |ps|
  {
    if b.vy > 0.0 {
      match TopLanding(ps, b, w, h)
      case None =>
      case Some(i) =>
        assert ps[i].y >= b.py + h > Last(ps).y;
        assert i < |ps| - 1;
        if ps[i].jumpCount + 1 >= 2 {
          RemovalSpaced(ps, i);
          assert Last(ps[..i] + ps[i + 1..]) == Last(ps);
        } else {
          SameHeightsSpaced(ps, Stomp(ps, i));
        }
    }
  }

  /** The height of the i-th starting platform: the bottom of the canvas, then one spacing higher per platform. */
  function Rung(i: nat): real {
    Height - i as real * Spacing
  }

  /** The ten starting platforms, stacked one spacing apart from the bottom of the canvas. */
  method StartingPlatforms(xs: nat -> real) returns (ps: seq<Platform>)
    ensures |ps| == InitialPlatforms
    ensures forall i :: 0 <= i < |ps| ==> ps[i] == NewPlatform(xs(i), Rung(i))
    ensures Spaced(ps)
  {
    ps := [];
    for i := 0 to InitialPlatforms
      invariant |ps| == i
      invariant forall k :: 0 <= k < i ==> ps[k] == NewPlatform(xs(k), Rung(k))
      invariant Spaced(ps)
    {
      var next := ps + [NewPlatform(xs(i), Rung(i))];
      assert next[..i] == ps;
      if i > 0 {
        assert Rung(i) == Rung(i - 1) - Spacing;
      }
      ps := next;
    }
  }

  // ---------------------------------------------------------------------------
  // Scoring
  // ---------------------------------------------------------------------------

  /** A platform scores when it first passes below the scoring line. */
  function MarkOne(p: Platform, line: real): Platform {
    p.(scored := p.scored || p.y > line)
  }

  function Marked(ps: seq<Platform>, line: real): (r: seq<Platform>)
    ensures |r| == |ps|
    ensures forall i :: 0 <= i < |ps| ==> r[i] == MarkOne(ps[i], line)
  {
    if ps == [] then [] else Marked(ps[..|ps| - 1], line) + [MarkOne(ps[|ps| - 1], line)]
  }

  /** The number of platforms this pass newly marks as scored. */
  function NewlyScored(ps: seq<Platform>, line: real): nat {
    if ps == [] then 0
    else NewlyScored(ps[..|ps| - 1], line) + (if !Last(ps).scored && Last(ps).y > line then 1 else 0)
  }

  /** The number of platforms already marked as scored. */
  function ScoredCount(ps: seq<Platform>): nat {
    if ps == [] then 0 else ScoredCount(ps[..|ps| - 1]) + (if Last(ps).scored then 1 else 0)
  }

  /**
   * The scoring pass: every platform below the line that was not yet scored
   * is marked, and the score gain is the number of platforms newly marked.
   */
  method ScorePlatforms(ps: seq<Platform>, line: real) returns (marked: seq<Platform>, gained: nat)
    ensures marked == Marked(ps, line)
    ensures gained == NewlyScored(ps, line)
  {
    marked := [];
    gained := 0;
    for i := 0 to |ps|
      invariant marked == Marked(ps[..i], line)
      invariant gained == NewlyScored(ps[..i], line)
    {
      assert ps[..i + 1][..i] == ps[..i];
      var p := ps[i];
      if p.y > line && !p.scored {
        gained := gained + 1;
      }
      marked := marked + [MarkOne(p, line)];
    }
    assert ps[..|ps|] == ps;
  }

  /** The score gain is exactly the growth in the number of scored flags, so each platform scores once. */
  lemma {:induction false} ScoreCountsNewFlags(ps: seq<Platform>, line: real)
    ensures ScoredCount(Marked(ps, line)) == ScoredCount(ps) + NewlyScored(ps, line)
    ensures NewlyScored(Marked(ps, line), line) == 0
  {
    if ps != [] {
      var init := ps[..|ps| - 1];
      ScoreCountsNewFlags(init, line);
      assert Marked(ps, line)[..|ps| - 1] == Marked(init, line);
    }
  }

  /** Scoring moves no platform: the array stays spaced, with the same top height. */
  lemma MarkedSpaced(ps: seq<Platform>, line: real)
    requires Spaced(ps)
    ensures Spaced(Marked(ps, line))
    ensures |ps| > 0 ==> Last(Marked(ps, line)).y == Last(ps).y
  {
    SameHeightsSpaced(ps, Marked(ps, line));
  }

  // ---------------------------------------------------------------------------
  // Memory fragments
  // ---------------------------------------------------------------------------

  /** Fragment `m` is drawn at this height. */
  function FragmentY(m: int): real {
    Height - m as real * FragmentSpacing
  }

  /**
   * The pickup test: the fragment is within one canvas height of the player
   * and the player's centre is strictly closer than the pickup radius to the
   * fragment's centre.
   */
  predicate Collects(b: Body, w: real, h: real, m: int) {
    var fy := FragmentY(m);
    var dx := b.px + w / 2.0 - Width / 2.0;
    var dy := b.py + h / 2.0 - (fy + 10.0);
    fy > b.py - Height && fy < b.py + Height && dx * dx + dy * dy < PickupRadius * PickupRadius
  }

  /**
   * The fragment pass: scanning from the last fragment to the first, the
   * first one the player collects is reported and the scan stops.
   */
  method FindFragment(frags: seq<int>, b: Body, w: real, h: real) returns (found: Option<nat>)
    ensures found.Some? ==> found.value < |frags| && Collects(b, w, h, frags[found.value])
    ensures found.Some? ==> forall j :: found.value < j < |frags| ==> !Collects(b, w, h, frags[j])
    ensures found.None? ==> forall j :: 0 <= j < |frags| ==> !Collects(b, w, h, frags[j])
  {
    var i := |frags|;
    while i > 0
      invariant 0 <= i <= |frags|
      invariant forall j :: i <= j < |frags| ==> !Collects(b, w, h, frags[j])
    {
      i := i - 1;
      if Collects(b, w, h, frags[i]) {
        return Some(i);
      }
    }
    return None;
  }
}
