/**
 * The game: the READY / START / OVER phase machine driven by the space key, and the
 * per-frame update that runs the pipe field only outside READY and then moves the
 * bird. A whole game is one value (World); the Game class is proved against the two
 * functions that step it, OnKey and Tick.
 */
module GameModel {
  import opened Awt
  import opened Constants
  import opened Pipes
  import opened Score
  import opened Phases
  import opened BirdModel
  import opened ElementLayer

  /** KeyEvent.VK_SPACE; getKeyChar of the space bar is the same code. */
  const VK_SPACE: int := 32

  /** keyPressed carries getKeyCode, keyReleased getKeyChar. */
  datatype KeyEvent = Press(keyCode: int) | Release(keyChar: int)

  /** Everything a player can observe of a game. */
  datatype World = World(phase: Phase, bird: BirdView, pipes: seq<Pipe>, current: nat, best: nat)

  /** A freshly constructed game. */
  function InitialWorld(cfg: Config, savedBest: nat): (r: World)
    ensures r.phase == Ready && r.pipes == [] && r.current == 0 && r.best == savedBest
    ensures r.bird.state == Normal && !r.bird.IsDead() && r.bird.keyFlag
  {
    World(Ready, InitialBird(cfg), [], 0, savedBest)
  }

  /**
   * The key listener. Only the space key matters. In READY and START a press flaps
   * and then calls fall; READY also moves to START. In OVER a press restarts: the
   * phase goes back to READY, the pipes go back to the pool and the bird resets,
   * which clears the current score. A release re-arms the flap.
   */
  function OnKey(cfg: Config, w: World, e: KeyEvent): (r: World)
    ensures e.Press? && e.keyCode != VK_SPACE ==> r == w
    ensures e.Release? ==> r.phase == w.phase && r.pipes == w.pipes && r.current == w.current
    ensures e.Release? && e.keyChar == VK_SPACE ==> r.bird == w.bird.(keyFlag := true)
    ensures e.Release? && e.keyChar != VK_SPACE ==> r == w
    ensures e == Press(VK_SPACE) && w.phase != Over ==>
      && r.phase == Start && r.pipes == w.pipes && r.current == w.current
      && (w.bird.IsDead() ==> r.bird == w.bird)
      && (!w.bird.IsDead() ==> r.bird.state == Fall && !r.bird.keyFlag && r.bird.y == w.bird.y)
    ensures e == Press(VK_SPACE) && w.phase == Over ==>
      && r.phase == Ready && r.pipes == [] && r.current == 0
      && r.bird.state == Normal && r.bird.velocity == 0
    ensures r.best == w.best
  {
    match e
    case Press(code) =>
      if code != VK_SPACE then w
      else
        (match w.phase
         case Ready => w.(phase := Start, bird := Fallen(Flapped(w.bird, cfg.topBarHeight)))
         case Start => w.(bird := Fallen(Flapped(w.bird, cfg.topBarHeight)))
         case Over => w.(phase := Ready, pipes := [], current := 0, bird := ResetView(w.bird, cfg)))
    case Release(ch) =>
      if ch == VK_SPACE then w.(bird := w.bird.(keyFlag := true)) else w
  }

  /** The key events of a sequence, applied in order. */
  function Replay(cfg: Config, w: World, es: seq<KeyEvent>): World
    decreases |es|
  {
    if es == [] then w else Replay(cfg, OnKey(cfg, w, es[0]), es[1..])
  }

  /** n presses of the space key with no release in between. */
  function HeldSpace(n: nat): (r: seq<KeyEvent>)
    ensures |r| == n && forall i :: 0 <= i < n ==> r[i] == Press(VK_SPACE)
  {
    if n == 0 then [] else [Press(VK_SPACE)] + HeldSpace(n - 1)
  }

  /** A second space press while the key is still held does nothing more than the first. */
  lemma SpacePressIdempotent(cfg: Config, w: World)
    requires w.phase != Over
    ensures OnKey(cfg, OnKey(cfg, w, Press(VK_SPACE)), Press(VK_SPACE)) == OnKey(cfg, w, Press(VK_SPACE))
  {
    FlapIdempotent(w.bird, cfg.topBarHeight);
  }

  /**
   * Holding the space bar (auto-repeated presses, no release) outside OVER flaps once:
   * any number of presses has the effect of the first.
   */
  lemma {:induction false} HeldSpaceRepeats(cfg: Config, w: World, n: nat)
    requires w.phase != Over && n >= 1
    ensures Replay(cfg, w, HeldSpace(n)) == OnKey(cfg, w, Press(VK_SPACE))
    decreases n
  {
    var once := OnKey(cfg, w, Press(VK_SPACE));
    assert HeldSpace(n)[1..] == HeldSpace(n - 1);
    if n > 1 {
      HeldSpaceRepeats(cfg, once, n - 1);
      SpacePressIdempotent(cfg, w);
    }
  }

  /**
   * While a dying bird falls in START (the collision happened, the ground is not yet
   * reached) no key brings it back: the phase stays START, the pipes and the score
   * stay, and the bird changes at most in its flap re-arm flag.
   */
  lemma {:induction false} DeadBirdIgnoresKeys(cfg: Config, w: World, es: seq<KeyEvent>)
    requires w.phase == Start && w.bird.IsDead()
    ensures Replay(cfg, w, es).phase == Start
    ensures Replay(cfg, w, es).pipes == w.pipes && Replay(cfg, w, es).current == w.current
    ensures Replay(cfg, w, es).bird == w.bird.(keyFlag := Replay(cfg, w, es).bird.keyFlag)
    decreases |es|
  {
    if es != [] {
      var next := OnKey(cfg, w, es[0]);
      assert next.bird == w.bird.(keyFlag := next.bird.keyFlag);
      DeadBirdIgnoresKeys(cfg, next, es[1..]);
    }
  }

  /**
   * The first space press on the welcome screen starts the game, and the bird is left
   * in FALL with the flap impulse rather than in UP: fall runs right after flap.
   */
  lemma FirstPressLeavesBirdFalling(cfg: Config, savedBest: nat)
    requires cfg.Valid() && InitialRect(cfg).y > cfg.topBarHeight
    ensures OnKey(cfg, InitialWorld(cfg, savedBest), Press(VK_SPACE)).phase == Start
    ensures OnKey(cfg, InitialWorld(cfg, savedBest), Press(VK_SPACE)).bird.state == Fall
    ensures OnKey(cfg, InitialWorld(cfg, savedBest), Press(VK_SPACE)).bird.velocity == ACC_FLAP
  {
  }

  /**
   * A restart from OVER gives back the bird of a fresh game, except for the wing
   * counter and the flap re-arm flag, which reset leaves alone.
   */
  lemma RestartRestoresInitialBird(cfg: Config, w: World)
    requires w.phase == Over && Consistent(w.bird, cfg)
    ensures OnKey(cfg, w, Press(VK_SPACE)).bird
      == InitialBird(cfg).(wingState := w.bird.wingState, keyFlag := w.bird.keyFlag)
  {
  }

  /**
   * The environment of one frame: how drawing moves each pipe, which pipes are in
   * frame, their rectangles, and the draws.
   */
  datatype TickInput = TickInput(motion: Pipe -> Motion, inFrame: Pipe -> bool, pipeRect: Pipe -> Rect, d: Draws)

  /**
   * One frame: outside READY the pipe field draws (recycling pass, collision scan,
   * spawn and score), then the bird moves; a bird that reaches the ground dies, which
   * saves the best score and ends the game.
   */
  function Tick(cfg: Config, w: World, t: TickInput): (r: World)
    ensures w.phase == Ready ==> r.pipes == w.pipes && r.current == w.current
    ensures w.phase != Ready ==>
      var kept := AdvanceAll(KeepVisible(w.pipes), t.motion);
      && (|r.pipes| == |kept| || |r.pipes| == |kept| + 2)
      && r.pipes[..|kept|] == kept
    ensures r.current == w.current || (r.current == w.current + 1 && w.phase != Ready && !w.bird.IsDead())
    ensures r.best >= w.best && (r.best == w.best || r.best == r.current)
    ensures r.phase == w.phase || (r.phase == Over && r.bird.state == Dead)
    ensures w.bird.IsDead() ==> r.bird.IsDead()
  {
    var drawn :=
      if w.phase == Ready then w
      else
        var kept := AdvanceAll(KeepVisible(w.pipes), t.motion);
        var b := ScanOutcome(w.bird, kept, t.pipeRect);
        var s := BornLogic(cfg, kept, b.IsDead(), BirdX(cfg), t.inFrame, t.d);
        w.(bird := b, pipes := kept + s.added, current := w.current + if s.scored then 1 else 0);
    var m := Moved(drawn.bird, BottomBoundary(cfg));
    drawn.(phase := if m.died then Over else drawn.phase,
           bird := m.bird,
           best := if m.died && drawn.current > drawn.best then drawn.current else drawn.best)
  }

  /** Frames applied in order. */
  function Frames(cfg: Config, w: World, ts: seq<TickInput>): World
    decreases |ts|
  {
    if ts == [] then w else Frames(cfg, Tick(cfg, w, ts[0]), ts[1..])
  }

  /**
   * Frames never bring a game back: the phase either stays or ends in OVER, a dead
   * bird stays dead, and neither score goes down.
   */
  lemma {:induction false} FramesMonotone(cfg: Config, w: World, ts: seq<TickInput>)
    ensures Frames(cfg, w, ts).phase == w.phase || Frames(cfg, w, ts).phase == Over
    ensures w.bird.IsDead() ==> Frames(cfg, w, ts).bird.IsDead()
    ensures Frames(cfg, w, ts).current >= w.current && Frames(cfg, w, ts).best >= w.best
    decreases |ts|
  {
    if ts != [] {
      FramesMonotone(cfg, Tick(cfg, w, ts[0]), ts[1..]);
    }
  }

  /** Once the bird is dying or dead, no frame gives a point. */
  lemma {:induction false} DeadBirdScoresNothing(cfg: Config, w: World, ts: seq<TickInput>)
    requires w.bird.IsDead()
    ensures Frames(cfg, w, ts).current == w.current
    decreases |ts|
  {
    if ts != [] {
      DeadBirdScoresNothing(cfg, Tick(cfg, w, ts[0]), ts[1..]);
    }
  }

  /**
   * The welcome screen: in READY with a bird at rest in NORMAL, frames only flap the
   * wings; no pipe appears and the bird does not move.
   */
  lemma {:induction false} WelcomeScreenIdle(cfg: Config, w: World, ts: seq<TickInput>)
    requires w.phase == Ready && w.bird.state == Normal
    ensures Frames(cfg, w, ts) == w.(bird := w.bird.(wingState := w.bird.wingState + |ts|))
    decreases |ts|
  {
    if ts != [] {
      var next := Tick(cfg, w, ts[0]);
      assert next == w.(bird := w.bird.(wingState := w.bird.wingState + 1));
      WelcomeScreenIdle(cfg, next, ts[1..]);
    }
  }

  /** Anything that happens to a game: a key event or a frame. */
  datatype Event = Key(key: KeyEvent) | Frame(input: TickInput)

  function Step(cfg: Config, w: World, ev: Event): World
  {
    match ev
    case Key(e) => OnKey(cfg, w, e)
    case Frame(t) => Tick(cfg, w, t)
  }

  function Play(cfg: Config, w: World, evs: seq<Event>): World
    decreases |evs|
  {
    if evs == [] then w else Play(cfg, Step(cfg, w, evs[0]), evs[1..])
  }

  /** Whatever keys are pressed and however many games are played, the best score never drops. */
  lemma {:induction false} BestNeverDrops(cfg: Config, w: World, evs: seq<Event>)
    ensures Play(cfg, w, evs).best >= w.best
    decreases |evs|
  {
    if evs != [] {
      BestNeverDrops(cfg, Step(cfg, w, evs[0]), evs[1..]);
    }
  }

  class Game {
    const cfg: Config
    /** Game's static gameState. */
    const holder: StaticGameState
    const bird: Bird
    const gameElement: GameElementLayer

    ghost predicate Valid()
      reads this, holder, bird, gameElement, gameElement.pool
    {
      && cfg.Valid()
      && bird.Valid() && bird.cfg == cfg && bird.game == holder
      && gameElement.Valid() && gameElement.cfg == cfg
    }

    function State(): World
      reads this, holder, bird, bird.counter, gameElement
    {
      World(holder.gameState, bird.View(), gameElement.pipes, bird.counter.current, bird.counter.best)
    }

    /** The components of initGame, then setGameState(GAME_READY). */
    constructor (cfg: Config, savedBest: nat)
      requires cfg.Valid()
      ensures Valid() && this.cfg == cfg
      ensures fresh(holder) && fresh(bird) && fresh(bird.counter) && fresh(gameElement) && fresh(gameElement.pool)
      ensures State() == InitialWorld(cfg, savedBest)
      ensures gameElement.pool.givenBack == [] && gameElement.pool.handedOut == []
    {
      var holder := new StaticGameState();
      var pool := new PipePool();
      var counter := new ScoreCounter(savedBest);
      this.cfg := cfg;
      this.holder := holder;
      this.gameElement := new GameElementLayer(cfg, pool);
      this.bird := new Bird(cfg, counter, holder);
      new;
      holder.SetGameState(Ready);
    }

    /** keyPressed of the key listener. */
    method KeyPressed(keyCode: int)
      requires Valid()
      modifies holder, bird, bird.counter, gameElement, gameElement.pool
      ensures Valid()
      ensures State() == OnKey(cfg, old(State()), Press(keyCode))
      ensures old(holder.gameState) == Over && keyCode == VK_SPACE ==>
        gameElement.pool.givenBack == old(gameElement.pool.givenBack) + old(gameElement.pipes)
      ensures !(old(holder.gameState) == Over && keyCode == VK_SPACE) ==>
        gameElement.pool.givenBack == old(gameElement.pool.givenBack)
      ensures gameElement.pool.handedOut == old(gameElement.pool.handedOut)
    {
      match holder.gameState
      case Ready =>
        if keyCode == VK_SPACE {
          bird.Flap();
          bird.Fall();
          holder.SetGameState(Start);
        }
      case Start =>
        if keyCode == VK_SPACE {
          bird.Flap();
          bird.Fall();
        }
      case Over =>
        if keyCode == VK_SPACE {
          ResetGame();
        }
    }

    /** resetGame: READY, the pipes back to the pool, the bird (and the current score) reset. */
    method ResetGame()
      requires Valid()
      modifies holder, bird, bird.counter, gameElement, gameElement.pool
      ensures Valid()
      ensures State() == old(State()).(phase := Ready, pipes := [], current := 0, bird := ResetView(old(bird.View()), cfg))
      ensures gameElement.pool.givenBack == old(gameElement.pool.givenBack) + old(gameElement.pipes)
      ensures gameElement.pool.handedOut == old(gameElement.pool.handedOut)
    {
      holder.SetGameState(Ready);
      gameElement.Reset();
      bird.Reset();
    }

    /** keyReleased of the key listener; it compares the key's character with VK_SPACE. */
    method KeyReleased(keyChar: int)
      requires Valid()
      modifies bird
      ensures Valid()
      ensures State() == OnKey(cfg, old(State()), Release(keyChar))
    {
      if keyChar == VK_SPACE {
        bird.KeyReleased();
      }
    }

    /**
     * The state-changing part of update: the pipe field draws unless the game is in
     * READY, then the bird draws (and moves).
     */
    method Update(t: TickInput)
      requires Valid() && DrawsInRange(cfg, t.d)
      modifies holder, bird, bird.counter, gameElement, gameElement.pool
      ensures Valid()
      ensures State() == Tick(cfg, old(State()), t)
      ensures old(holder.gameState) == Ready ==> gameElement.pool.givenBack == old(gameElement.pool.givenBack)
      ensures old(holder.gameState) != Ready ==>
        gameElement.pool.givenBack == old(gameElement.pool.givenBack) + Recycled(old(gameElement.pipes))
      ensures old(holder.gameState) == Ready ==> gameElement.pool.handedOut == old(gameElement.pool.handedOut)
      ensures old(holder.gameState) != Ready ==>
        var kept := KeepVisible(old(gameElement.pipes));
        && |kept| <= |gameElement.pipes|
        && gameElement.pool.handedOut == old(gameElement.pool.handedOut) + Classes(gameElement.pipes[|kept|..])
    {
      if holder.gameState != Ready {
        gameElement.Draw(bird, t.motion, t.inFrame, t.pipeRect, t.d);
      }
      bird.UpdateMovement();
    }
  }
}
