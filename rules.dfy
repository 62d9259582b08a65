/**
 * The rules of one game of Flappy Bird (main.py), as functions on values:
 * the bird's vertical step, pipe geometry, pipe movement and culling,
 * scoring, collisions and the start / active / game-over state machine.
 * The classes in module Game carry this state in objects and are proved
 * against these functions.
 *
 * Velocities are kept in quarter pixels per tick: gravity 0.25 is 1,
 * the flap strength -6 is -24, and every velocity the game reaches is a
 * whole number of quarters, so the float arithmetic of the source is exact.
 */
module GameRules {
  import opened Geometry

  // Screen size and difficulty settings.
  const ScreenWidth: int := 288
  const ScreenHeight: int := 512
  const PipeMoveSpeed: int := 3
  const PipeGapSize: int := 150
  /** Least distance of the gap centre from the top, and the margin kept below the gap. */
  const GapMargin: int := 100

  // Sprite sizes (those of the placeholder surfaces).
  const BirdWidth: nat := 34
  const BirdHeight: nat := 24
  const PipeWidth: nat := 52
  const PipeHeight: nat := 320

  /** The bird's centre x at the start of every run. */
  const BirdStartX: int := 50

  // Velocities in quarter pixels per tick.
  const Gravity: int := 1
  const FlapStrength: int := -24

  datatype GameState = StartScreen | GameActive | GameOver

  /** pipe_type 1 (the upper half of a pair) and -1 (the lower half, the one that scores). */
  datatype PipeKind = TopPipe | BottomPipe

  function Max(a: int, b: int): int { if a < b then b else a }

  // ---------------------------------------------------------------- the bird

  /** The bird's rectangle position (x, y = its top) and velocity in quarter pixels. */
  datatype BirdState = BirdState(x: int, y: int, velocity: int) {
    function Bounds(): Rect { Rect(x, y, BirdWidth, BirdHeight) }
  }

  /** The bird as every run starts it: centred on (50, screen_height // 2), at rest. */
  function StartBird(): (b: BirdState)
    ensures b.Bounds().CenterX() == BirdStartX && b.Bounds().CenterY() == ScreenHeight / 2
    ensures b.velocity == 0
  {
    var r := CenteredAt(BirdStartX, ScreenHeight / 2, BirdWidth, BirdHeight);
    BirdState(r.x, r.y, 0)
  }

  /**
   * One physics step of the bird: gravity is added to the velocity, the bird
   * moves by the velocity truncated to whole pixels, and if that takes its top
   * above the screen it is put back at the top with velocity zero.
   */
  function BirdStep(b: BirdState): (r: BirdState)
    ensures r.x == b.x
    ensures r.y >= 0
    ensures b.y + TruncQuarter(b.velocity + Gravity) >= 0 ==>
              r.y == b.y + TruncQuarter(b.velocity + Gravity) && r.velocity == b.velocity + Gravity
    ensures b.y + TruncQuarter(b.velocity + Gravity) < 0 ==> r.y == 0 && r.velocity == 0
  {
    var v := b.velocity + Gravity;
    var y := b.y + TruncQuarter(v);
    if y < 0 then BirdState(b.x, 0, 0) else BirdState(b.x, y, v)
  }

  /** A flap sets the velocity to the flap strength, and only during play. */
  function Flapped(b: BirdState, state: GameState): (r: BirdState)
    ensures r.x == b.x && r.y == b.y
    ensures r.velocity == if state == GameActive then FlapStrength else b.velocity
  {
    if state == GameActive then b.(velocity := FlapStrength) else b
  }

  // ----------------------------------------------------------------- pipes

  /** A pipe's rectangle position, which half of a pair it is, and whether it has been passed. */
  datatype PipeState = PipeState(x: int, y: int, kind: PipeKind, passed: bool) {
    function Bounds(): Rect { Rect(x, y, PipeWidth, PipeHeight) }
  }

  /** The upper pipe of a pair: its bottom edge is half the gap above the gap centre. */
  function TopPipeAt(x: int, gapCenter: int): (p: PipeState)
    ensures p.kind == TopPipe && !p.passed
    ensures p.Bounds().Left() == x && p.Bounds().Bottom() == gapCenter - PipeGapSize / 2
  {
    var r := WithBottomLeft(x, gapCenter - PipeGapSize / 2, PipeWidth, PipeHeight);
    PipeState(r.x, r.y, TopPipe, false)
  }

  /** The lower pipe of a pair: its top edge is half the gap below the gap centre. */
  function BottomPipeAt(x: int, gapCenter: int): (p: PipeState)
    ensures p.kind == BottomPipe && !p.passed
    ensures p.Bounds().Left() == x && p.Bounds().Top() == gapCenter + PipeGapSize / 2
  {
    PipeState(x, gapCenter + PipeGapSize / 2, BottomPipe, false)
  }

  /** The two pipes create_pipe_pair adds, at the right edge of the screen, top one first. */
  function PipePair(gapCenter: int): (ps: seq<PipeState>)
    ensures |ps| == 2 && ps[0].kind == TopPipe && ps[1].kind == BottomPipe
    ensures !ps[0].passed && !ps[1].passed
    ensures ps[0].x == ps[1].x == ScreenWidth
    ensures ps[0].Bounds().Bottom() == gapCenter - PipeGapSize / 2
    ensures ps[1].Bounds().Top() == gapCenter + PipeGapSize / 2
    ensures ps[1].Bounds().Top() - ps[0].Bounds().Bottom() == PipeGapSize
  {
    [TopPipeAt(ScreenWidth, gapCenter), BottomPipeAt(ScreenWidth, gapCenter)]
  }

  /**
   * The range the gap centre is drawn from: [margin, height - margin - gap],
   * or the single point height // 2 when that range has at most one value.
   */
  function GapRange(screenHeight: int, gapSize: int): (r: (int, int))
    ensures r.0 <= r.1
    ensures GapMargin < screenHeight - GapMargin - gapSize ==>
              r.0 == GapMargin && r.1 == screenHeight - GapMargin - gapSize
    ensures GapMargin >= screenHeight - GapMargin - gapSize ==>
              r.0 == r.1 == screenHeight / 2
  {
    var minY := GapMargin;
    var maxY := screenHeight - GapMargin - gapSize;
    if minY >= maxY then (screenHeight / 2, screenHeight / 2) else (minY, maxY)
  }

  /** A gap centre the game can draw. */
  predicate InGapRange(gapCenter: int) {
    GapRange(ScreenHeight, PipeGapSize).0 <= gapCenter <= GapRange(ScreenHeight, PipeGapSize).1
  }

  /**
   * With the shipped settings the centre lies in [100, 262], so the whole
   * gap lies on screen, at least 25 pixels below the top and 175 above the
   * bottom.
   */
  lemma ShippedGap(gapCenter: int)
    requires InGapRange(gapCenter)
    ensures 100 <= gapCenter <= 262
    ensures 25 <= PipePair(gapCenter)[0].Bounds().Bottom()
    ensures PipePair(gapCenter)[1].Bounds().Top() <= ScreenHeight - 175
  {
  }

  /** Pipe.update's move: every pipe goes pipe_move_speed pixels to the left. */
  function Moved(p: PipeState): (r: PipeState)
    ensures r.Bounds().Right() == p.Bounds().Right() - PipeMoveSpeed
    ensures r.y == p.y && r.kind == p.kind && r.passed == p.passed
  {
    p.(x := p.x - PipeMoveSpeed)
  }

  /** A pipe is killed once its right edge is left of the screen. */
  predicate OnScreen(p: PipeState) {
    p.Bounds().Right() >= 0
  }

  /** All pipes moved, and those that went off screen dropped, in order. */
  function MoveAndCull(ps: seq<PipeState>): (r: seq<PipeState>)
    ensures |r| <= |ps|
    ensures forall i :: 0 <= i < |r| ==> OnScreen(r[i])
    decreases |ps|
  {
    if ps == [] then []
    else
      var last := Moved(ps[|ps| - 1]);
      MoveAndCull(ps[..|ps| - 1]) + if OnScreen(last) then [last] else []
  }
  /** When no pipe goes off screen, moving and culling only moves every pipe. */
  lemma {:induction false} MoveAndCullKeepsAll(ps: seq<PipeState>)
    requires forall i :: 0 <= i < |ps| ==> OnScreen(Moved(ps[i]))
    ensures MoveAndCull(ps) == seq(|ps|, i requires 0 <= i < |ps| => Moved(ps[i]))
    decreases |ps|
  {
    if ps != [] {
      MoveAndCullKeepsAll(ps[..|ps| - 1]);
    }
  }


  /**
   * A pipe is in the moved group exactly when it is on screen and is the
   * move of a pipe of the old group.
   */
  lemma {:induction false} MoveAndCullMembership(ps: seq<PipeState>, q: PipeState)
    ensures q in MoveAndCull(ps) <==> OnScreen(q) && q.(x := q.x + PipeMoveSpeed) in ps
    decreases |ps|
  {
    if ps != [] {
      var init := ps[..|ps| - 1];
      var last := ps[|ps| - 1];
      MoveAndCullMembership(init, q);
      assert ps == init + [last];
      assert q == Moved(last) <==> q.(x := q.x + PipeMoveSpeed) == last;
    }
  }

  // --------------------------------------------------------------- scoring

  /** The scoring loop's step for one pipe: mark it passed once its right edge is left of the bird. */
  function Pass(p: PipeState, birdLeft: int): PipeState {
    if !p.passed && p.Bounds().Right() < birdLeft then p.(passed := true) else p
  }

  /** The pipes after the scoring loop: a pipe is passed once the bird's left edge is past it. */
  function Scored(ps: seq<PipeState>, birdLeft: int): (r: seq<PipeState>)
    ensures |r| == |ps|
    ensures forall i :: 0 <= i < |ps| ==>
              && r[i].x == ps[i].x && r[i].y == ps[i].y && r[i].kind == ps[i].kind
              && (r[i].passed <==> ps[i].passed || ps[i].Bounds().Right() < birdLeft)
  {
    seq(|ps|, i requires 0 <= i < |ps| => Pass(ps[i], birdLeft))
  }

  /** Whether the scoring loop flips this pipe and scores a point for it. */
  predicate EarnsPoint(p: PipeState, birdLeft: int) {
    p.kind == BottomPipe && !p.passed && p.Bounds().Right() < birdLeft
  }

  /** The points the scoring loop adds: one per bottom pipe it flips. */
  function Points(ps: seq<PipeState>, birdLeft: int): (n: nat)
    ensures n <= |ps|
    decreases |ps|
  {
    if ps == [] then 0
    else Points(ps[..|ps| - 1], birdLeft) + if EarnsPoint(ps[|ps| - 1], birdLeft) then 1 else 0
  }

  /** The number of bottom pipes that have not been scored yet. */
  function UnpassedBottoms(ps: seq<PipeState>): (n: nat)
    ensures n <= |ps|
    decreases |ps|
  {
    if ps == [] then 0
    else UnpassedBottoms(ps[..|ps| - 1])
         + if ps[|ps| - 1].kind == BottomPipe && !ps[|ps| - 1].passed then 1 else 0
  }

  lemma {:induction false} UnpassedBottomsAppend(a: seq<PipeState>, b: seq<PipeState>)
    ensures UnpassedBottoms(a + b) == UnpassedBottoms(a) + UnpassedBottoms(b)
    decreases |b|
  {
    if b == [] {
      assert a + b == a;
    } else {
      var init := b[..|b| - 1];
      assert (a + b)[..|a + b| - 1] == a + init;
      UnpassedBottomsAppend(a, init);
    }
  }

  /**
   * Every point the scoring loop awards uses up one unscored bottom pipe:
   * no pipe scores twice and no point comes from anything else.
   */
  lemma {:induction false} ScoringConservation(ps: seq<PipeState>, birdLeft: int)
    ensures Points(ps, birdLeft) + UnpassedBottoms(Scored(ps, birdLeft)) == UnpassedBottoms(ps)
    decreases |ps|
  {
    if ps != [] {
      var init := ps[..|ps| - 1];
      ScoringConservation(init, birdLeft);
      assert Scored(ps, birdLeft)[..|ps| - 1] == Scored(init, birdLeft);
    }
  }

  /** Scoring twice at the same bird position changes nothing and scores nothing more. */
  lemma ScoringIdempotent(ps: seq<PipeState>, birdLeft: int)
    ensures Scored(Scored(ps, birdLeft), birdLeft) == Scored(ps, birdLeft)
    ensures Points(Scored(ps, birdLeft), birdLeft) == 0
  {
    var once := Scored(ps, birdLeft);
    ScoringConservation(once, birdLeft);
  }

  /** Every pipe whose right edge is left of the bird has been marked passed. */
  ghost predicate PassedBehind(ps: seq<PipeState>, birdLeft: int) {
    forall i :: 0 <= i < |ps| && ps[i].Bounds().Right() < birdLeft ==> ps[i].passed
  }

  /**
   * When every pipe behind the bird is already passed, culling never drops an
   * unscored bottom pipe: a pipe leaves the screen only after it was passed.
   */
  lemma {:induction false} CullKeepsUnpassed(ps: seq<PipeState>, birdLeft: int)
    requires PipeMoveSpeed <= birdLeft
    requires PassedBehind(ps, birdLeft)
    ensures UnpassedBottoms(MoveAndCull(ps)) == UnpassedBottoms(ps)
    decreases |ps|
  {
    if ps != [] {
      var init := ps[..|ps| - 1];
      var last := Moved(ps[|ps| - 1]);
      CullKeepsUnpassed(init, birdLeft);
      UnpassedBottomsAppend(MoveAndCull(init), if OnScreen(last) then [last] else []);
    }
  }

  // ----------------------------------------------------------- collisions

  /** pygame.sprite.spritecollide: the bird's rectangle overlaps some pipe's. */
  predicate HitsAnyPipe(bird: Rect, ps: seq<PipeState>) {
    exists i :: 0 <= i < |ps| && bird.CollidesWith(ps[i].Bounds())
  }

  /** The game-over test of an active tick. */
  predicate Crashed(b: BirdState, ps: seq<PipeState>) {
    HitsAnyPipe(b.Bounds(), ps) || b.Bounds().Bottom() >= ScreenHeight || b.Bounds().Top() <= 0
  }

  // ---------------------------------------------------------- whole game

  /** The module-level game variables, the bird and the pipe group. */
  datatype World = World(
    state: GameState,
    score: int,
    highScore: int,
    bird: BirdState,
    pipes: seq<PipeState>,
    running: bool)

  /** The game as the program starts it, with the high score read from its file. */
  function InitialWorld(savedHighScore: int): (w: World)
    ensures w.state == StartScreen && w.score == 0 && w.highScore == savedHighScore
    ensures w.bird == StartBird() && w.pipes == [] && w.running
  {
    World(StartScreen, 0, savedHighScore, StartBird(), [], true)
  }

  /** create_pipe_pair: one new pair around the drawn gap centre joins the pipes. */
  function SpawnPair(w: World, gapCenter: int): World {
    w.(pipes := w.pipes + PipePair(gapCenter))
  }

  /**
   * Starting a run: active state, score 0, the bird back at its start at
   * rest, and the pipes replaced by one fresh pair.
   */
  function BeginRun(w: World, gapCenter: int): (r: World)
    ensures r.state == GameActive && r.score == 0 && r.highScore == w.highScore
    ensures r.bird == StartBird() && r.pipes == PipePair(gapCenter) && r.running == w.running
  {
    SpawnPair(w.(state := GameActive, score := 0, bird := StartBird(), pipes := []), gapCenter)
  }

  /** reset_game: keep the better of the high score and the score, then start a run. */
  function ResetGame(w: World, gapCenter: int): (r: World)
    ensures r.highScore == Max(w.highScore, w.score)
    ensures r == BeginRun(w.(highScore := r.highScore), gapCenter)
  {
    var best := if w.score > w.highScore then w.score else w.highScore;
    BeginRun(w.(highScore := best), gapCenter)
  }

  datatype Key = Space | R | OtherKey

  /** The events the main loop reacts to; PipeSpawn is the spawn timer's event. */
  datatype Event = Quit | KeyDown(key: Key) | MouseButtonDown | PipeSpawn

  /** The primary input (SPACE or a click): flap during play, start from the start screen. */
  function PrimaryInput(w: World, gapCenter: int): World {
    if w.state == GameActive then w.(bird := Flapped(w.bird, w.state))
    else if w.state == StartScreen then BeginRun(w, gapCenter)
    else w
  }

  /**
   * One event of the main loop. gapCenter is the value the random draw gives
   * if the event creates a pipe pair; other events ignore it.
   */
  function OnEvent(w: World, e: Event, gapCenter: int): World {
    match e
    case Quit => w.(running := false)
    case KeyDown(k) =>
      var w1 := if k == Space then PrimaryInput(w, gapCenter) else w;
      if k == R && w1.state == GameOver then ResetGame(w1, gapCenter) else w1
    case MouseButtonDown => PrimaryInput(w, gapCenter)
    case PipeSpawn => if w.state == GameActive then SpawnPair(w, gapCenter) else w
  }

  /**
   * The rules part of one frame of an active game: all sprites update, a
   * crash ends the run and records the high score, and the scoring loop runs
   * over the remaining pipes (in the crash frame too). Other states have no
   * rules to apply.
   */
  function Tick(w: World): World {
    if w.state != GameActive then w
    else
      var b := BirdStep(w.bird);
      var ps := MoveAndCull(w.pipes);
      var crashed := Crashed(b, ps);
      var best := if crashed && w.score > w.highScore then w.score else w.highScore;
      w.(state := if crashed then GameOver else GameActive,
         highScore := best,
         bird := b,
         pipes := Scored(ps, b.x),
         score := w.score + Points(ps, b.x))
  }

  /** The events of one frame, in order; gapCenters[i] is the draw for events[i]. */
  function OnEvents(w: World, events: seq<Event>, gapCenters: seq<int>): World
    requires |events| == |gapCenters|
    decreases |events|
  {
    if events == [] then w
    else
      var n := |events| - 1;
      OnEvent(OnEvents(w, events[..n], gapCenters[..n]), events[n], gapCenters[n])
  }

  /** One pass of the main loop: its events, then the tick. */
  function Frame(w: World, events: seq<Event>, gapCenters: seq<int>): World
    requires |events| == |gapCenters|
  {
    Tick(OnEvents(w, events, gapCenters))
  }

  // ------------------------------------------------ properties of the game

  /** The state changes the main loop can make: start -> active -> over -> active. */
  predicate LegalTransition(s: GameState, t: GameState) {
    || s == t
    || (s == StartScreen && t == GameActive)
    || (s == GameActive && t == GameOver)
    || (s == GameOver && t == GameActive)
  }

  /**
   * What each event does to the state machine: the primary input starts a run
   * from the start screen and is ignored after game over, R restarts after
   * game over, the spawn timer adds a pair only during play, R in any other
   * state and every other key are ignored, quitting only clears running, and
   * no event ends a run.
   */
  lemma EventTransitions(w: World, e: Event, gapCenter: int)
    ensures LegalTransition(w.state, OnEvent(w, e, gapCenter).state)
    ensures OnEvent(w, e, gapCenter).state == GameOver ==> w.state == GameOver
    ensures w.state == StartScreen && (e == KeyDown(Space) || e == MouseButtonDown) ==>
              OnEvent(w, e, gapCenter) == BeginRun(w, gapCenter)
    ensures w.state == GameActive && (e == KeyDown(Space) || e == MouseButtonDown) ==>
              OnEvent(w, e, gapCenter) == w.(bird := w.bird.(velocity := FlapStrength))
    ensures w.state == GameOver && e == KeyDown(R) ==> OnEvent(w, e, gapCenter) == ResetGame(w, gapCenter)
    ensures w.state == GameOver && (e == KeyDown(Space) || e == MouseButtonDown) ==>
              OnEvent(w, e, gapCenter) == w
    ensures e == PipeSpawn ==>
              OnEvent(w, e, gapCenter) == if w.state == GameActive then SpawnPair(w, gapCenter) else w
    ensures e == KeyDown(OtherKey) || (e == KeyDown(R) && w.state != GameOver) ==> OnEvent(w, e, gapCenter) == w
    ensures e == Quit ==> OnEvent(w, e, gapCenter) == w.(running := false)
  {
    match e
    case Quit =>
    case KeyDown(k) =>
      if k == Space {
        assert OnEvent(w, e, gapCenter) == PrimaryInput(w, gapCenter);
      }
    case MouseButtonDown =>
    case PipeSpawn =>
  }

  /**
   * What a tick does to the state machine: nothing outside play; during play
   * the run ends exactly when the moved bird crashes, and then the high score
   * becomes the better of itself and the score reached before the tick's
   * scoring; a tick that does not end the run leaves the high score alone.
   */
  lemma TickTransitions(w: World)
    ensures LegalTransition(w.state, Tick(w).state)
    ensures w.state != GameActive ==> Tick(w) == w
    ensures w.state == GameActive ==>
              (Tick(w).state == GameOver <==> Crashed(BirdStep(w.bird), MoveAndCull(w.pipes)))
    ensures w.state == GameActive && Tick(w).state == GameOver ==>
              Tick(w).highScore == Max(w.highScore, w.score)
    ensures w.state == GameActive && Tick(w).state == GameActive ==> Tick(w).highScore == w.highScore
    ensures Tick(w).score >= w.score
  {
  }

  /** A bird that reaches the top of the screen ends the run in the same tick. */
  lemma TopClampEndsRun(w: World)
    requires w.state == GameActive
    requires w.bird.y + TruncQuarter(w.bird.velocity + Gravity) <= 0
    ensures BirdStep(w.bird).y == 0
    ensures Tick(w).state == GameOver
  {
  }

  /**
   * The scoring loop runs after the crash test, so a pipe passed in the crash
   * tick is scored after the high score was recorded. Here two pairs spawned
   * one frame apart are in play; in the tick the bird flies into the top pipe
   * of the later pair while the earlier pair passes behind it, so the game
   * ends with score 1 and high score 0, until reset_game takes the maximum
   * again.
   */
  lemma ScoreCanPassHighScoreAtGameOver()
    ensures var w := World(GameActive, 0, 0, BirdState(33, 190, FlapStrength),
                           [TopPipeAt(-18, 200), BottomPipeAt(-18, 200),
                            TopPipeAt(-15, 262), BottomPipeAt(-15, 262)], true);
            && Playable(w)
            && Tick(w).state == GameOver
            && Tick(w).score == 1 && Tick(w).highScore == 0
            && OnEvent(Tick(w), KeyDown(R), 200).highScore == 1
  {
    var ps := [TopPipeAt(-18, 200), BottomPipeAt(-18, 200), TopPipeAt(-15, 262), BottomPipeAt(-15, 262)];
    var w := World(GameActive, 0, 0, BirdState(33, 190, FlapStrength), ps, true);
    assert Playable(w);
    var b := BirdStep(w.bird);
    assert b == BirdState(33, 185, FlapStrength + Gravity);
    var moved := [TopPipeAt(-21, 200), BottomPipeAt(-21, 200), TopPipeAt(-18, 262), BottomPipeAt(-18, 262)];
    MoveAndCullKeepsAll(ps);
    assert MoveAndCull(ps) == moved;
    assert Crashed(b, moved) by {
      assert b.Bounds().CollidesWith(moved[2].Bounds());
    }
    EarlierPairScores(moved);
    var after := World(GameOver, 1, 0, b, Scored(moved, 33), true);
    assert Tick(w) == after;
  }

  /** Of the two pairs after the crash tick, only the earlier bottom pipe is behind the bird. */
  lemma EarlierPairScores(moved: seq<PipeState>)
    requires moved == [TopPipeAt(-21, 200), BottomPipeAt(-21, 200), TopPipeAt(-18, 262), BottomPipeAt(-18, 262)]
    ensures Points(moved, 33) == 1
  {
    assert Points(moved[..1], 33) == 0 by { assert moved[..1][..0] == []; }
    assert Points(moved[..2], 33) == 1 by { assert moved[..2][..1] == moved[..1]; }
    assert Points(moved[..3], 33) == 1 by { assert moved[..3][..2] == moved[..2]; }
    assert moved[..3] == moved[..|moved| - 1];
  }

  /** The high score never goes down, neither through an event nor through a tick. */
  lemma HighScoreNeverDecreases(w: World, e: Event, gapCenter: int)
    ensures OnEvent(w, e, gapCenter).highScore >= w.highScore
    ensures Tick(w).highScore >= w.highScore
  {
  }

  /** Over a whole frame the high score never goes down. */
  lemma {:induction false} FrameKeepsHighScore(w: World, events: seq<Event>, gapCenters: seq<int>)
    requires |events| == |gapCenters|
    ensures Frame(w, events, gapCenters).highScore >= w.highScore
    ensures OnEvents(w, events, gapCenters).highScore >= w.highScore
    decreases |events|
  {
    if events != [] {
      var n := |events| - 1;
      FrameKeepsHighScore(w, events[..n], gapCenters[..n]);
      HighScoreNeverDecreases(OnEvents(w, events[..n], gapCenters[..n]), events[n], gapCenters[n]);
    }
    HighScoreNeverDecreases(OnEvents(w, events, gapCenters), Quit, 0);
  }

  /**
   * The invariant of every reachable game: the bird stays in its column, the
   * score is not negative, and during play the bird is strictly inside the
   * screen vertically and every pipe behind it has been passed.
   */
  ghost predicate Playable(w: World) {
    && w.bird.x == StartBird().x
    && w.score >= 0
    && (w.state == GameActive ==>
          && 0 < w.bird.Bounds().Top()
          && w.bird.Bounds().Bottom() < ScreenHeight
          && PassedBehind(w.pipes, w.bird.x))
  }

  lemma InitialPlayable(savedHighScore: int)
    ensures Playable(InitialWorld(savedHighScore))
  {
  }

  lemma SpawnPlayable(w: World, gapCenter: int)
    requires Playable(w)
    ensures Playable(SpawnPair(w, gapCenter))
  {
    var ps := w.pipes + PipePair(gapCenter);
    assert forall i :: |w.pipes| <= i < |ps| ==> ps[i].Bounds().Right() == ScreenWidth + PipeWidth;
  }

  lemma {:induction false} OnEventPlayable(w: World, e: Event, gapCenter: int)
    requires Playable(w)
    ensures Playable(OnEvent(w, e, gapCenter))
  {
    SpawnPlayable(w.(state := GameActive, score := 0, bird := StartBird(), pipes := []), gapCenter);
    SpawnPlayable(w.(highScore := Max(w.highScore, w.score), state := GameActive, score := 0,
                     bird := StartBird(), pipes := []), gapCenter);
    SpawnPlayable(w, gapCenter);
  }

  lemma TickPlayable(w: World)
    requires Playable(w)
    ensures Playable(Tick(w))
  {
  }

  /** Every frame keeps the invariant, whatever its events and draws. */
  lemma {:induction false} FramePlayable(w: World, events: seq<Event>, gapCenters: seq<int>)
    requires |events| == |gapCenters|
    requires Playable(w)
    ensures Playable(OnEvents(w, events, gapCenters))
    ensures Playable(Frame(w, events, gapCenters))
    decreases |events|
  {
    if events != [] {
      var n := |events| - 1;
      FramePlayable(w, events[..n], gapCenters[..n]);
      OnEventPlayable(OnEvents(w, events[..n], gapCenters[..n]), events[n], gapCenters[n]);
    }
    TickPlayable(OnEvents(w, events, gapCenters));
  }

  /**
   * Score accounting over a tick of play: the points gained equal the
   * unscored bottom pipes used up, so score + UnpassedBottoms(pipes) is
   * unchanged, and no pipe leaves the screen unscored.
   */
  lemma TickAccounting(w: World)
    requires Playable(w) && w.state == GameActive
    ensures Tick(w).score + UnpassedBottoms(Tick(w).pipes) == w.score + UnpassedBottoms(w.pipes)
  {
    CullKeepsUnpassed(w.pipes, w.bird.x);
    ScoringConservation(MoveAndCull(w.pipes), w.bird.x);
  }

  /** A run starts with score 0 and one unscored bottom pipe. */
  lemma BeginRunAccounting(w: World, gapCenter: int)
    ensures BeginRun(w, gapCenter).score + UnpassedBottoms(BeginRun(w, gapCenter).pipes) == 1
  {
    assert PipePair(gapCenter)[..1] == [TopPipeAt(ScreenWidth, gapCenter)];
  }

  /** Each spawned pair adds exactly one unscored bottom pipe and no points. */
  lemma SpawnAccounting(w: World, gapCenter: int)
    requires w.state == GameActive
    ensures OnEvent(w, PipeSpawn, gapCenter).score == w.score
    ensures UnpassedBottoms(OnEvent(w, PipeSpawn, gapCenter).pipes) == UnpassedBottoms(w.pipes) + 1
  {
    UnpassedBottomsAppend(w.pipes, PipePair(gapCenter));
    assert PipePair(gapCenter)[..1] == [TopPipeAt(ScreenWidth, gapCenter)];
  }

  /** The number of PipeSpawn events in a frame's event list. */
  function Spawns(events: seq<Event>): nat
    decreases |events|
  {
    if events == [] then 0
    else Spawns(events[..|events| - 1]) + if events[|events| - 1] == PipeSpawn then 1 else 0
  }

  /**
   * No event ends a run, and during play only a PipeSpawn changes the
   * score or the unscored bottom pipes: it adds one unscored bottom pipe.
   */
  lemma EventAccounting(w: World, e: Event, gapCenter: int)
    requires Playable(w) && w.state == GameActive
    ensures OnEvent(w, e, gapCenter).state == GameActive
    ensures OnEvent(w, e, gapCenter).score == w.score
    ensures UnpassedBottoms(OnEvent(w, e, gapCenter).pipes) ==
              UnpassedBottoms(w.pipes) + if e == PipeSpawn then 1 else 0
  {
    if e == PipeSpawn {
      SpawnAccounting(w, gapCenter);
    }
  }

  /**
   * Score accounting over one frame of play: score + UnpassedBottoms(pipes)
   * grows by exactly the number of pairs spawned in the frame, the run's
   * last frame included. With BeginRunAccounting, the score of a run plus
   * its unscored bottom pipes is the number of pairs created in the run: a
   * pair scores at most once and none leaves the screen unscored, while a
   * pair still on screen when the run ends is never scored.
   */
  lemma {:induction false} FrameAccounting(w: World, events: seq<Event>, gapCenters: seq<int>)
    requires |events| == |gapCenters|
    requires Playable(w) && w.state == GameActive
    ensures OnEvents(w, events, gapCenters).state == GameActive
    ensures OnEvents(w, events, gapCenters).score + UnpassedBottoms(OnEvents(w, events, gapCenters).pipes) ==
              w.score + UnpassedBottoms(w.pipes) + Spawns(events)
    ensures Frame(w, events, gapCenters).score + UnpassedBottoms(Frame(w, events, gapCenters).pipes) ==
              w.score + UnpassedBottoms(w.pipes) + Spawns(events)
    decreases |events|
  {
    if events != [] {
      var n := |events| - 1;
      FrameAccounting(w, events[..n], gapCenters[..n]);
      FramePlayable(w, events[..n], gapCenters[..n]);
      EventAccounting(OnEvents(w, events[..n], gapCenters[..n]), events[n], gapCenters[n]);
    }
    FramePlayable(w, events, gapCenters);
    TickAccounting(OnEvents(w, events, gapCenters));
  }
}
