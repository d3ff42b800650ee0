/**
 * One session of a "Greek Myth Jump" sketch: the global state a sketch keeps
 * (player, platform array, score, flags, fragments) and the three entry
 * points the graphics library calls (`draw` once a frame while the loop runs,
 * `keyPressed`, `keyReleased`), for each of the four rule sets.
 *
 * The session invariant says why the frame's passes are safe: the platform
 * array is never empty when generation reads its last element, it stays
 * spaced with its last element on top, and it never holds more than 23
 * platforms.
 */
module JumpSession {
  import opened Maybe
  import opened JumpEngine
  import opened JumpRules

  /** An index into the five background images. */
  type Background = i: nat | i < BackgroundCount

  /** p5's `key` values the handlers test: the space bar, a lower-case c and the two arrow keys. */
  const SpaceKey: string := " "
  const StoryKey: string := "c"
  const LeftKey: string := "ArrowLeft"
  const RightKey: string := "ArrowRight"

  class Session {
    const variant: Variant
    var player: Player
    var platforms: seq<Platform>
    var score: nat
    var gameOver: bool
    /** The victory screen was shown (the sketches keep no flag for it; the loop stops). */
    var won: bool
    /** Whether the graphics library is still calling `draw` (`loop()` / `noLoop()`). */
    var looping: bool
    var fragments: seq<int>
    var collected: nat
    var snippet: int
    var showStory: bool
    /** Prometheus only: the background image index. */
    var bgIndex: Background

    ghost predicate Valid()
      reads this, player
    {
      && Stacked(platforms)
      && Settled(player.State(), player.w, player.h)
      && Tallied(variant, fragments, collected, snippet, showStory)
      && Last(platforms).y <= player.py + player.h
      && looping == !(gameOver || won)
      && (Fell(player.State()) ==> !looping)
      && (variant == Prometheus && won ==> Fell(player.State()) && collected == FragmentGoal)
      && (variant == Orpheus ==> !won)
    }

    /**
     * What holds between the passes of a running frame: the loop runs, and
     * the top platform may lie anywhere up to a canvas height below the
     * player until generation has run again.
     */
    ghost predicate Mid()
      reads this, player
    {
      && Stacked(platforms)
      && Settled(player.State(), player.w, player.h)
      && Tallied(variant, fragments, collected, snippet, showStory)
      && Last(platforms).y <= player.py + Height
      && looping && !gameOver && !won
    }

    /** `setup()`: the globals' initial values, then `initializeGame()`. */
    constructor (variant: Variant, xs: nat -> real)
      ensures Valid() && this.variant == variant && bgIndex == 0
      ensures score == 0 && looping && collected == 0 && !showStory
      ensures fresh(player)
    {
      this.variant := variant;
      player := new Player(0.0, 0.0, PlayerSize, PlayerSize);
      platforms := [];
      score, gameOver, won, looping := 0, false, false, true;
      fragments, collected, snippet, showStory := [], 0, -1, false;
      bgIndex := 0;
      new;
      Initialize(xs);
    }

    /**
     * `initializeGame()`: ten platforms one spacing apart from the bottom of
     * the canvas, the player centred on the top one, the fragments, and every
     * counter and flag reset. The Prometheus background index is not reset.
     */
    method Initialize(xs: nat -> real)
      modifies this
      ensures Valid() && fresh(player)
      ensures |platforms| == InitialPlatforms
      ensures forall i :: 0 <= i < |platforms| ==> platforms[i] == NewPlatform(xs(i), Rung(i))
      ensures player.State() == Body(Last(platforms).x + PlatformWidth / 2.0 - PlayerSize / 2.0, Last(platforms).y - PlayerSize, 0.0, 0.0, 0.0, 0.0)
      ensures fragments == StartingFragments(variant)
      ensures score == 0 && !gameOver && !won && looping && collected == 0 && snippet == -1 && !showStory
      ensures bgIndex == old(bgIndex)
    {
      PlacePlayer(xs);
      ResetCounters();
    }

    /** The platform and player half of `initializeGame()`. */
    method PlacePlayer(xs: nat -> real)
      modifies this`platforms, this`player
      ensures fresh(player) && Stacked(platforms) && Settled(player.State(), player.w, player.h)
      ensures Last(platforms).y <= player.py + player.h && !Fell(player.State())
      ensures |platforms| == InitialPlatforms
      ensures forall i :: 0 <= i < |platforms| ==> platforms[i] == NewPlatform(xs(i), Rung(i))
      ensures player.State() == Body(Last(platforms).x + PlatformWidth / 2.0 - PlayerSize / 2.0, Last(platforms).y - PlayerSize, 0.0, 0.0, 0.0, 0.0)
    {
      var ps := StartingPlatforms(xs);
      var top := Last(ps);
      assert top == NewPlatform(xs(9), Rung(9)) && Rung(9) == 60.0;
      player := new Player(top.x + top.w / 2.0 - PlayerSize / 2.0, top.y - PlayerSize, PlayerSize, PlayerSize);
      platforms := ps;
    }

    /** The counter and flag half of `initializeGame()`. */
    method ResetCounters()
      modifies this`fragments, this`score, this`gameOver, this`won, this`looping, this`collected, this`snippet, this`showStory
      ensures Tallied(variant, fragments, collected, snippet, showStory)
      ensures fragments == StartingFragments(variant)
      ensures score == 0 && !gameOver && !won && looping && collected == 0 && snippet == -1 && !showStory
    {
      fragments, score := StartingFragments(variant), 0;
      gameOver, won, looping, collected, snippet, showStory := false, false, true, 0, -1, false;
    }

    /**
     * The physics step of `draw()`, `player.update(platforms)`: gravity and
     * the bounce off the platform landed on; in Orpheus that platform's jump
     * is counted and it is removed at its second jump.
     */
    method StepPlayer()
      requires Valid() && looping && !(variant == Plain && showStory)
      modifies this`platforms, player
      ensures Mid()
      ensures player.State() == Bounce(Fall(old(player.State())), player.w, player.h, old(platforms))
      ensures variant == Orpheus ==> platforms == Trampled(old(platforms), Fall(old(player.State())), player.w, player.h)
      ensures variant != Orpheus ==> platforms == old(platforms)
    {
      ghost var before := player.State();
      ghost var start := platforms;
      if variant == Orpheus {
        platforms := player.UpdateTopFirst(platforms);
        TrampleSparesTop(start, Fall(before), player.w, player.h, before);
      } else {
        player.Update(platforms);
      }
    }

    /**
     * The two platform passes of `draw()`: platforms more than a canvas
     * height below the player are spliced out, then platforms are appended
     * one spacing apart until the top one is a buffer above the top of the
     * view. With at most 23 platforms before, Orpheus's cap of 500 is never
     * reached and the array holds at most 23 platforms after.
     */
    method ScrollPlatforms(newX: nat -> real)
      requires Mid()
      modifies this`platforms
      ensures Mid()
      ensures Extends(Unpruned(old(platforms), player.py + Height), platforms, newX)
      ensures Last(platforms).y <= player.py - PlatformBuffer - Height
    {
      platforms := Scroll(platforms, player.py, newX, GenerationCap(variant));
    }

    /**
     * The fragment pass of `draw()`: scanning from the last fragment to the
     * first, the first one within reach is spliced out, counted, and its
     * story snippet shown; Prometheus also moves to the matching background.
     */
    method PickUp() returns (found: Option<nat>)
      requires Mid() && variant != Plain
      modifies this`fragments, this`collected, this`snippet, this`showStory, this`bgIndex
      ensures Mid()
      ensures found.Some? ==> found.value < old(|fragments|) && Collects(player.State(), player.w, player.h, old(fragments)[found.value])
      ensures found.Some? ==> forall j :: found.value < j < old(|fragments|) ==> !Collects(player.State(), player.w, player.h, old(fragments)[j])
      ensures found.None? ==> forall j :: 0 <= j < old(|fragments|) ==> !Collects(player.State(), player.w, player.h, old(fragments)[j])
      ensures found.Some? ==>
        && fragments == old(fragments)[..found.value] + old(fragments)[found.value + 1..]
        && collected == old(collected) + 1 && showStory
        && bgIndex == (if variant == Prometheus then NextBackground(old(bgIndex), collected) else old(bgIndex))
      ensures found.None? ==> unchanged(this)
    {
      found := FindFragment(fragments, player.State(), player.w, player.h);
      if found.Some? {
        var i := found.value;
        fragments := fragments[..i] + fragments[i + 1..];
        collected := collected + 1;
        snippet := snippet + 1;
        showStory := true;
        if variant == Prometheus {
          bgIndex := NextBackground(bgIndex, collected);
        }
      }
    }

    /** The scoring pass of `draw()`: platforms below the scoring line half a canvas under the player score once each. */
    method ScoreFrame()
      requires Mid()
      modifies this`platforms, this`score
      ensures Mid()
      ensures platforms == Marked(old(platforms), player.py + Height / 2.0)
      ensures score == old(score) + NewlyScored(old(platforms), player.py + Height / 2.0)
      ensures Last(platforms).y == Last(old(platforms)).y
    {
      var line := player.py + Height / 2.0;
      var marked, gained := ScorePlatforms(platforms, line);
      MarkedSpaced(platforms, line);
      platforms := marked;
      score := score + gained;
    }

    /** The end-of-frame checks of `draw()`: the variant's ending sets game over or shows victory, and either stops the loop. */
    method CheckEnding()
      requires Mid() && Last(platforms).y <= player.py + player.h
      modifies this`gameOver, this`won, this`looping
      ensures Valid()
      ensures gameOver == EndingOf(variant, player.State(), player.w, player.h, collected, platforms).gameOver
      ensures won == EndingOf(variant, player.State(), player.w, player.h, collected, platforms).victory
    {
      var e := EndingOf(variant, player.State(), player.w, player.h, collected, platforms);
      if e.gameOver {
        gameOver := true;
        looping := false;
      }
      if e.victory {
        won := true;
        looping := false;
      }
    }

    /** The moving half of a running frame of `draw()`: the physics step, then the platform passes. */
    method Climb(newX: nat -> real)
      requires Valid() && looping && !showStory
      modifies this`platforms, player
      ensures Mid() && Last(platforms).y <= player.py + player.h
      ensures score == old(score) && collected == old(collected) && showStory == old(showStory)
    {
      StepPlayer();
      ScrollPlatforms(newX);
    }

    /** The bookkeeping half of a running frame of `draw()`: the fragment pass, the scoring pass and the end-of-frame checks. */
    method Settle()
      requires Mid() && Last(platforms).y <= player.py + player.h
      modifies this`platforms, this`score, this`fragments, this`collected, this`snippet, this`showStory, this`bgIndex,
        this`gameOver, this`won, this`looping
      ensures Valid()
      ensures platforms == Marked(old(platforms), player.py + Height / 2.0)
      ensures score == old(score) + NewlyScored(old(platforms), player.py + Height / 2.0)
      ensures old(collected) <= collected <= old(collected) + 1
      ensures collected > old(collected) ==> showStory
      ensures variant == Plain ==> fragments == old(fragments) && collected == old(collected)
      ensures gameOver == EndingOf(variant, player.State(), player.w, player.h, collected, platforms).gameOver
      ensures won == EndingOf(variant, player.State(), player.w, player.h, collected, platforms).victory
    {
      if variant != Plain {
        var _ := PickUp();
      }
      ScoreFrame();
      CheckEnding();
    }

    /** The passes of a running frame of `draw()`, in order. */
    method Advance(newX: nat -> real)
      requires Valid() && looping && !showStory
      modifies this, player
      ensures Valid() && player == old(player)
      ensures score >= old(score)
      ensures old(collected) <= collected <= old(collected) + 1
      ensures collected > old(collected) ==> showStory
    {
      Climb(newX);
      Settle();
    }

    /**
     * `draw()`: one frame. Nothing happens while the loop is stopped, while a
     * story snippet is shown, or (Plain) after game over. Otherwise the
     * player moves, the platforms are pruned and generated, one fragment may
     * be collected, platforms are scored and the end conditions are checked.
     */
    method Draw(newX: nat -> real)
      requires Valid()
      modifies this, player
      ensures Valid() && player == old(player)
      ensures !old(looping) || old(showStory) || (variant == Plain && old(gameOver)) ==> unchanged(this, player)
      ensures score >= old(score)
      ensures old(collected) <= collected <= old(collected) + 1
      ensures collected > old(collected) ==> showStory
    {
      if !looping || (variant == Plain && gameOver) || showStory {
        return;
      }
      Advance(newX);
    }

    /**
     * `keyPressed()`: space restarts when the variant allows it, 'c' closes
     * the story snippet, and the arrow keys steer unless the game is over.
     */
    method KeyPressed(key: string, xs: nat -> real)
      requires Valid()
      modifies this, player
      ensures Valid()
      ensures variant == Prometheus ==> (old(MayRestart(variant, gameOver, player.State(), collected)) <==> old(!looping))
      ensures key == SpaceKey && old(MayRestart(variant, gameOver, player.State(), collected)) ==>
        && fresh(player) && |platforms| == InitialPlatforms
        && (forall i :: 0 <= i < |platforms| ==> platforms[i] == NewPlatform(xs(i), Rung(i)))
        && player.State() == Body(Last(platforms).x + PlatformWidth / 2.0 - PlayerSize / 2.0, Last(platforms).y - PlayerSize, 0.0, 0.0, 0.0, 0.0)
        && fragments == StartingFragments(variant)
        && score == 0 && !gameOver && !won && looping && collected == 0 && snippet == -1 && !showStory
      ensures !(key == SpaceKey && old(MayRestart(variant, gameOver, player.State(), collected))) ==>
        && player == old(player) && platforms == old(platforms) && score == old(score) && gameOver == old(gameOver)
        && won == old(won) && looping == old(looping) && fragments == old(fragments) && collected == old(collected)
        && snippet == old(snippet)
      ensures bgIndex == old(bgIndex)
      ensures key == StoryKey && variant != Plain ==> !showStory
      ensures key != StoryKey && !(key == SpaceKey && old(MayRestart(variant, gameOver, player.State(), collected))) ==> showStory == old(showStory)
      ensures key != LeftKey && key != RightKey && player == old(player) ==> player.State() == old(player.State())
      ensures (key == LeftKey || key == RightKey) && !old(gameOver) ==>
        player.State() == old(player.State()).(vx := Steer(old(player.vx), if key == LeftKey then Left else Right, true))
      ensures (key == LeftKey || key == RightKey) && old(gameOver) ==> player.State() == old(player.State())
    {
      if key == SpaceKey && MayRestart(variant, gameOver, player.State(), collected) {
        Initialize(xs);
      }
      if variant != Plain && showStory && key == StoryKey {
        showStory := false;
      }
      if !gameOver {
        if key == LeftKey {
          player.Move(Left, true);
        }
        if key == RightKey {
          player.Move(Right, true);
        }
      }
    }

    /** `keyReleased()`: releasing an arrow key stops horizontal motion unless the game is over. */
    method KeyReleased(key: string)
      requires Valid()
      modifies player
      ensures Valid()
      ensures (key == LeftKey || key == RightKey) && !gameOver ==> player.State() == old(player.State()).(vx := 0.0)
      ensures !((key == LeftKey || key == RightKey) && !gameOver) ==> player.State() == old(player.State())
    {
      if !gameOver {
        if key == LeftKey {
          player.Move(Left, false);
        }
        if key == RightKey {
          player.Move(Right, false);
        }
      }
    }
  }
}
