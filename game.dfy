/**
 * The game objects of main.py: the bird, the pipes and the game itself with
 * its module-level variables (game_state, score, high_score) and its pipe
 * group. Every method is proved against the functions of GameRules through
 * the Snapshot of the objects' state.
 */
module Game {
  import opened Geometry
  import opened GameRules

  /** The player's sprite: its rectangle position and its velocity in quarter pixels. */
  class Bird {
    var x: int
    var y: int
    var velocity: int

    /** Bird.__init__: centred on (50, screen_height // 2), at rest. */
    constructor ()
      ensures State() == StartBird()
    {
      var r := CenteredAt(BirdStartX, ScreenHeight / 2, BirdWidth, BirdHeight);
      x, y, velocity := r.x, r.y, 0;
    }

    function State(): BirdState
      reads this
    {
      BirdState(x, y, velocity)
    }

    /** Bird.update's movement: gravity, the truncated move, and the clamp at the top. */
    method Update()
      modifies this
      ensures State() == BirdStep(old(State()))
    {
      velocity := velocity + Gravity;
      y := y + TruncQuarter(velocity);
      if y < 0 {
        y := 0;
        velocity := 0;
      }
    }

    /** Bird.flap, given the game state it reads. */
    method Flap(state: GameState)
      modifies this
      ensures State() == Flapped(old(State()), state)
    {
      if state == GameActive {
        velocity := FlapStrength;
      }
    }
  }

  /** One half of a pipe pair. */
  class Pipe {
    var x: int
    const y: int
    const kind: PipeKind
    var passed: bool

    /** Pipe.__init__ for the top (kind TopPipe) or bottom half of the pair around gapCenter. */
    constructor (x0: int, gapCenter: int, kind: PipeKind)
      ensures State() == if kind == TopPipe then TopPipeAt(x0, gapCenter) else BottomPipeAt(x0, gapCenter)
    {
      this.kind := kind;
      passed := false;
      if kind == TopPipe {
        var r := WithBottomLeft(x0, gapCenter - PipeGapSize / 2, PipeWidth, PipeHeight);
        x, y := r.x, r.y;
      } else {
        x, y := x0, gapCenter + PipeGapSize / 2;
      }
    }

    function State(): PipeState
      reads this
    {
      PipeState(x, y, kind, passed)
    }

    /** The scoring loop's test for this pipe: mark it passed once it is left of the bird; flipped says whether it was marked now. */
    method PassBy(birdLeft: int) returns (flipped: bool)
      modifies this
      ensures State() == Pass(old(State()), birdLeft)
      ensures flipped == (!old(passed) && old(State()).Bounds().Right() < birdLeft)
    {
      flipped := !passed && x + PipeWidth < birdLeft;
      if flipped {
        passed := true;
      }
    }

    /** Pipe.update: move left; alive is false when the pipe kills itself. */
    method Update() returns (alive: bool)
      modifies this
      ensures State() == Moved(old(State()))
      ensures alive == OnScreen(State())
    {
      x := x - PipeMoveSpeed;
      alive := x + PipeWidth >= 0;
    }
  }

  /** Pipes none of which a step touched have the states they had before it. */
  twostate lemma StatesUnchanged(ps: seq<Pipe>)
    requires forall q :: q in ps ==> unchanged(q)
    ensures StatesOf(ps) == old(StatesOf(ps))
  {
    forall i | 0 <= i < |ps|
      ensures StatesOf(ps)[i] == old(StatesOf(ps))[i]
    {
      assert ps[i] in ps;
    }
  }

  /** The states of a sequence of pipes. */
  ghost function StatesOf(ps: seq<Pipe>): (r: seq<PipeState>)
    reads ps
    ensures |r| == |ps|
    ensures forall i :: 0 <= i < |ps| ==> r[i] == ps[i].State()
  {
    seq(|ps|, i reads ps requires 0 <= i < |ps| => ps[i].State())
  }

  /** The pipes of ps whose entry in alive is true, in order. */
  ghost function Kept(ps: seq<Pipe>, alive: seq<bool>): seq<Pipe>
    requires |alive| == |ps|
    decreases |ps|
  {
    if ps == [] then []
    else Kept(ps[..|ps| - 1], alive[..|alive| - 1]) + if alive[|alive| - 1] then [ps[|ps| - 1]] else []
  }

  /** The kept pipes come from the group, and a group of distinct pipes keeps distinct pipes. */
  lemma {:induction false} KeptFromGroup(ps: seq<Pipe>, alive: seq<bool>)
    requires |alive| == |ps|
    requires forall i, j :: 0 <= i < j < |ps| ==> ps[i] != ps[j]
    ensures forall q :: q in Kept(ps, alive) ==> q in ps
    ensures forall i, j :: 0 <= i < j < |Kept(ps, alive)| ==> Kept(ps, alive)[i] != Kept(ps, alive)[j]
    decreases |ps|
  {
    if ps != [] {
      var init := ps[..|ps| - 1];
      KeptFromGroup(init, alive[..|alive| - 1]);
      assert forall q :: q in init ==> q in ps;
      assert ps[|ps| - 1] !in init;
    }
  }

  /** The game: the module-level variables of main.py, the bird and the pipe group. */
  class Game {
    var state: GameState
    var score: int
    var highScore: int
    var running: bool
    const bird: Bird
    var pipes: seq<Pipe>

    /** A pygame group holds each sprite once. */
    ghost predicate Valid()
      reads this
    {
      forall i, j :: 0 <= i < j < |pipes| ==> pipes[i] != pipes[j]
    }

    /** The value of the whole game. */
    ghost function Snapshot(): World
      reads this, bird, pipes
    {
      World(state, score, highScore, bird.State(), StatesOf(pipes), running)
    }

    /** The start of the program, with high_score read from its file. */
    constructor (savedHighScore: int)
      ensures Valid()
      ensures Snapshot() == InitialWorld(savedHighScore)
    {
      state := StartScreen;
      score := 0;
      highScore := savedHighScore;
      running := true;
      bird := new Bird();
      pipes := [];
    }

    /** create_pipe_pair: draw a gap centre in its range and add the two pipes around it. */
    method CreatePipePair() returns (gapCenter: int)
      requires Valid()
      modifies this
      ensures Valid()
      ensures InGapRange(gapCenter)
      ensures forall p :: p in pipes ==> p in old(pipes) || fresh(p)
      ensures Snapshot() == SpawnPair(old(Snapshot()), gapCenter)
    {
      var range := GapRange(ScreenHeight, PipeGapSize);
      gapCenter :| range.0 <= gapCenter <= range.1;
      var top := new Pipe(ScreenWidth, gapCenter, TopPipe);
      var bottom := new Pipe(ScreenWidth, gapCenter, BottomPipe);
      pipes := pipes + [top, bottom];
      assert StatesOf(pipes) == StatesOf(old(pipes)) + PipePair(gapCenter);
    }

    /**
     * The run start shared by the start-screen input and reset_game: active
     * state, score 0, the bird back at its start, the pipes replaced by one
     * new pair.
     */
    method StartRun() returns (gapCenter: int)
      requires Valid()
      modifies this, bird
      ensures Valid()
      ensures InGapRange(gapCenter)
      ensures forall p :: p in pipes ==> fresh(p)
      ensures Snapshot() == BeginRun(old(Snapshot()), gapCenter)
    {
      state := GameActive;
      score := 0;
      var start := CenteredAt(BirdStartX, ScreenHeight / 2, BirdWidth, BirdHeight);
      bird.x, bird.y := start.x, start.y;
      bird.velocity := 0;
      pipes := [];
      gapCenter := CreatePipePair();
    }

    /** reset_game: keep the better high score, then start a new run. */
    method ResetGame() returns (gapCenter: int)
      requires Valid()
      modifies this, bird
      ensures Valid()
      ensures InGapRange(gapCenter)
      ensures forall p :: p in pipes ==> fresh(p)
      ensures Snapshot() == GameRules.ResetGame(old(Snapshot()), gapCenter)
    {
      if score > highScore {
        highScore := score;
      }
      gapCenter := StartRun();
    }

    /** The primary input (SPACE or a mouse click). */
    method PrimaryInput() returns (gapCenter: int)
      requires Valid()
      modifies this, bird
      ensures Valid()
      ensures InGapRange(gapCenter)
      ensures forall p :: p in pipes ==> p in old(pipes) || fresh(p)
      ensures Snapshot() == GameRules.PrimaryInput(old(Snapshot()), gapCenter)
    {
      gapCenter := GapRange(ScreenHeight, PipeGapSize).0;
      if state == GameActive {
        bird.Flap(state);
      } else if state == StartScreen {
        gapCenter := StartRun();
      }
    }

    /**
     * The event dispatch of the main loop. gapCenter is the centre drawn for
     * a pipe pair the event created; an event that creates none leaves it at
     * the bottom of the range, unused.
     */
    method HandleEvent(e: Event) returns (ghost gapCenter: int)
      requires Valid()
      modifies this, bird
      ensures Valid()
      ensures InGapRange(gapCenter)
      ensures forall p :: p in pipes ==> p in old(pipes) || fresh(p)
      ensures Snapshot() == OnEvent(old(Snapshot()), e, gapCenter)
    {
      gapCenter := GapRange(ScreenHeight, PipeGapSize).0;
      match e
      case Quit =>
        running := false;
      case KeyDown(k) =>
        if k == Space {
          var c := PrimaryInput();
          gapCenter := c;
        }
        if k == R && state == GameOver {
          var c := ResetGame();
          gapCenter := c;
        }
      case MouseButtonDown =>
        var c := PrimaryInput();
        gapCenter := c;
      case PipeSpawn =>
        if state == GameActive {
          var c := CreatePipePair();
          gapCenter := c;
        }
    }

    /** all_sprites.update(): the bird's step, then every pipe's move, dropping those that kill themselves. */
    method UpdateSprites()
      requires Valid()
      modifies this`pipes, bird, set p | p in pipes
      ensures Valid()
      ensures forall p :: p in pipes ==> p in old(pipes)
      ensures Snapshot() == old(Snapshot()).(bird := BirdStep(old(bird.State())), pipes := MoveAndCull(old(StatesOf(pipes))))
    {
      label BeforeBird:
      bird.Update();
      StatesUnchanged@BeforeBird(pipes);
      var kept := MovePipes(pipes);
      pipes := kept;
    }

    /** Pipe.update on every pipe of the group, in order; kept is the group without the killed pipes. */
    static method MovePipes(group: seq<Pipe>) returns (kept: seq<Pipe>)
      requires forall i, j :: 0 <= i < j < |group| ==> group[i] != group[j]
      modifies set p | p in group
      ensures forall i, j :: 0 <= i < j < |kept| ==> kept[i] != kept[j]
      ensures forall p :: p in kept ==> p in group
      ensures StatesOf(kept) == MoveAndCull(old(StatesOf(group)))
    {
      ghost var before := StatesOf(group);
      kept := [];
      ghost var alive: seq<bool> := [];  // what Pipe.update reported for each pipe so far
      var i := 0;
      while i < |group|
        invariant 0 <= i <= |group|
        invariant |alive| == i
        invariant kept == Kept(group[..i], alive)
        invariant forall k :: 0 <= k < |kept| ==> kept[k] !in group[i..]
        invariant forall j :: i <= j < |group| ==> group[j].State() == before[j]
        invariant StatesOf(kept) == MoveAndCull(before[..i])
      {
        assert group[i] !in kept;
        assert before[..i + 1][..i] == before[..i];
        assert group[..i + 1][..i] == group[..i];
        ghost var n := |kept|;
        kept := UpdateOne(group[i], kept);
        alive := alive + [|kept| > n];
        i := i + 1;
      }
      assert before[..i] == before;
      assert group[..i] == group;
      KeptFromGroup(group, alive);
    }

    /** Pipe.update on one pipe of the group; kept grows by it unless it killed itself. */
    static method UpdateOne(p: Pipe, kept: seq<Pipe>) returns (more: seq<Pipe>)
      requires p !in kept
      modifies p
      ensures p.State() == Moved(old(p.State()))
      ensures more == kept + if OnScreen(p.State()) then [p] else []
      ensures StatesOf(more) == old(StatesOf(kept)) + if OnScreen(p.State()) then [p.State()] else []
    {
      label BeforeUpdate:
      var alive := p.Update();
      StatesUnchanged@BeforeUpdate(kept);
      more := kept;
      if alive {
        more := more + [p];
        assert StatesOf(more) == StatesOf(kept) + [p.State()];
      }
    }

    /** pygame.sprite.spritecollide(bird, pipes, False), as a yes/no answer. */
    method CollidesWithPipes() returns (hit: bool)
      ensures hit == HitsAnyPipe(bird.State().Bounds(), StatesOf(pipes))
    {
      hit := false;
      for i := 0 to |pipes|
        invariant hit <==> exists j :: 0 <= j < i && bird.State().Bounds().CollidesWith(pipes[j].State().Bounds())
      {
        if bird.State().Bounds().CollidesWith(pipes[i].State().Bounds()) {
          hit := true;
        }
      }
    }

    /** The scoring loop: mark every pipe the bird has passed, one point per bottom pipe marked. */
    method AwardPoints()
      requires Valid()
      modifies this`score, set p | p in pipes
      ensures Valid()
      ensures Snapshot() == old(Snapshot()).(pipes := Scored(old(StatesOf(pipes)), bird.x),
                                             score := old(score) + Points(old(StatesOf(pipes)), bird.x))
    {
      ghost var b := bird.State();
      var gained := PassPipes(pipes, bird.x);
      assert bird.State() == b;
      score := score + gained;
    }

    /**
     * The loop over the group behind the scoring: each pipe in order is
     * marked passed once its right edge is left of birdLeft, and gained
     * counts the bottom pipes marked.
     */
    static method PassPipes(group: seq<Pipe>, birdLeft: int) returns (gained: int)
      requires forall i, j :: 0 <= i < j < |group| ==> group[i] != group[j]
      modifies set p | p in group
      ensures StatesOf(group) == Scored(old(StatesOf(group)), birdLeft)
      ensures gained == Points(old(StatesOf(group)), birdLeft)
    {
      ghost var before := StatesOf(group);
      gained := 0;
      for i := 0 to |group|
        invariant forall j :: 0 <= j < i ==> group[j].State() == Pass(before[j], birdLeft)
        invariant forall j :: i <= j < |group| ==> group[j].State() == before[j]
        invariant gained == Points(before[..i], birdLeft)
      {
        var p := group[i];
        var flipped := p.PassBy(birdLeft);
        if flipped && p.kind == BottomPipe {
          gained := gained + 1;
        }
        assert before[..i + 1][..i] == before[..i];
      }
      assert before[..|group|] == before;
    }

    /** The collision test of an active frame: a crash ends the run and records the high score. */
    method DetectCrash()
      requires Valid()
      modifies this`state, this`highScore
      ensures Valid()
      ensures Crashed(bird.State(), StatesOf(pipes)) ==>
                Snapshot() == old(Snapshot()).(state := GameOver, highScore := Max(old(highScore), score))
      ensures !Crashed(bird.State(), StatesOf(pipes)) ==> Snapshot() == old(Snapshot())
    {
      var hit := CollidesWithPipes();
      if hit || bird.y + BirdHeight >= ScreenHeight || bird.y <= 0 {
        state := GameOver;
        if score > highScore {
          highScore := score;
        }
      }
    }

    /** The rules part of one frame: only an active game moves, crashes and scores. */
    method Tick()
      requires Valid()
      modifies this, bird, set p | p in pipes
      ensures Valid()
      ensures Snapshot() == GameRules.Tick(old(Snapshot()))
    {
      if state == GameActive {
        UpdateSprites();
        DetectCrash();
        AwardPoints();
      }
    }

    /** One pass of the main loop: every pending event in order, then the tick. */
    method Frame(events: seq<Event>) returns (ghost gapCenters: seq<int>)
      requires Valid()
      modifies this, bird, set p | p in pipes
      ensures Valid()
      ensures |gapCenters| == |events|
      ensures forall i :: 0 <= i < |events| ==> InGapRange(gapCenters[i])
      ensures Snapshot() == GameRules.Frame(old(Snapshot()), events, gapCenters)
    {
      gapCenters := [];
      for i := 0 to |events|
        invariant Valid()
        invariant |gapCenters| == i
        invariant forall j :: 0 <= j < i ==> InGapRange(gapCenters[j])
        invariant forall p :: p in pipes ==> p in old(pipes) || fresh(p)
        invariant Snapshot() == OnEvents(old(Snapshot()), events[..i], gapCenters)
      {
        var c := HandleEvent(events[i]);
        assert events[..i + 1][..i] == events[..i];
        ghost var prev := gapCenters;
        gapCenters := gapCenters + [c];
        assert gapCenters[..i] == prev;
      }
      assert events[..|events|] == events;
      Tick();
    }
  }
}
