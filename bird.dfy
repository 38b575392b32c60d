/**
 * The bird: a five-state machine over integer fields. Every mutating method of the
 * class is specified by a pure function over a snapshot of those fields (BirdView),
 * and the properties of the bird are lemmas about those functions.
 */
module BirdModel {
  import opened Awt
  import opened Constants
  import opened Score
  import opened Phases

  const IMG_COUNT: int := 8
  const RECT_DESCALE: int := 2
  const ACC_FLAP: int := 14
  /** Declared as the double 2.0; its only use truncates it to the int 2. */
  const ACC_Y: int := 2
  const MAX_VEL_Y: int := 15

  /** BIRD_NORMAL, BIRD_UP, BIRD_FALL, BIRD_DEAD_FALL, BIRD_DEAD. */
  datatype BirdState = Normal | Up | Fall | DeadFall | Dead

  /** The mutable fields of a bird; `rect` is its collision rectangle. */
  datatype BirdView = BirdView(state: BirdState, y: int, velocity: int, wingState: int, keyFlag: bool, rect: Rect)
  {
    /** isDead: the two dying states, that is, none of the three living ones. */
    predicate IsDead(): (r: bool)
      ensures r <==> state != Normal && state != Up && state != Fall
    {
      state == DeadFall || state == Dead
    }

    /** The states in which a tick applies gravity. */
    predicate IsMoving() { state == Fall || state == DeadFall }
  }

  /** The bird's fixed horizontal position. */
  function BirdX(cfg: Config): int { cfg.frameWidth / 4 }

  /** The lowest y the bird's centre may take: the ground line minus half the sprite. */
  function BottomBoundary(cfg: Config): int { cfg.frameHeight - cfg.groundHeight - cfg.birdHeight / 2 }

  /** The collision rectangle the constructor builds: the sprite box shrunk by RECT_DESCALE. */
  function InitialRect(cfg: Config): Rect {
    Rect(BirdX(cfg) - cfg.birdWidth / 2 + RECT_DESCALE,
         cfg.frameHeight / 2 - cfg.birdHeight / 2 + RECT_DESCALE * 2,
         cfg.birdWidth - RECT_DESCALE * 3,
         cfg.birdHeight - RECT_DESCALE * 4)
  }

  /** The distance from y down to the top of the collision rectangle, as construction and reset lay it out. */
  function RectOffset(cfg: Config): int { RECT_DESCALE * 2 - cfg.birdHeight / 2 }

  /** A bird as the constructor leaves it. */
  function InitialBird(cfg: Config): (r: BirdView)
    ensures r.state == Normal && r.keyFlag && r.velocity == 0 && r.wingState == 0
    ensures r.y == cfg.frameHeight / 2 && r.rect.y - r.y == RectOffset(cfg)
  {
    BirdView(Normal, cfg.frameHeight / 2, 0, 0, true, InitialRect(cfg))
  }

  /**
   * What every reachable bird satisfies: the rectangle keeps its x and size, the
   * velocity never exceeds the flap impulse (so it stays below MAX_VEL_Y), the wing
   * counter is non-negative, and the rectangle never rises above its nominal offset.
   */
  ghost predicate Consistent(b: BirdView, cfg: Config) {
    && b.rect.x == InitialRect(cfg).x
    && b.rect.width == InitialRect(cfg).width
    && b.rect.height == InitialRect(cfg).height
    && b.velocity <= ACC_FLAP
    && b.wingState >= 0
    && b.rect.y - b.y >= RectOffset(cfg)
  }

  /** flap: edge-triggered by keyFlag; the impulse applies only below the top bar. */
  function Flapped(b: BirdView, topBarHeight: int): (r: BirdView)
    ensures !b.keyFlag || b.IsDead() ==> r == b
    ensures b.keyFlag && !b.IsDead() ==>
      && r.state == Up && !r.keyFlag
      && r.y == b.y && r.rect == b.rect
      && (b.rect.y > topBarHeight ==> r.velocity == ACC_FLAP && r.wingState == 0)
      && (b.rect.y <= topBarHeight ==> r.velocity == b.velocity && r.wingState == b.wingState)
  {
    if !b.keyFlag || b.IsDead() then b
    else
      var up := b.(state := Up);
      var impulse := if b.rect.y > topBarHeight then up.(velocity := ACC_FLAP, wingState := 0) else up;
      impulse.(keyFlag := false)
  }

  /** fall: a living bird starts falling; nothing else changes. */
  function Fallen(b: BirdView): (r: BirdView)
    ensures b.IsDead() ==> r == b
    ensures !b.IsDead() ==> r.state == Fall && r == b.(state := r.state)
  {
    if b.IsDead() then b else b.(state := Fall)
  }

  /** deadFall: whatever the state, the bird starts its death fall from rest. */
  function DeadFallen(b: BirdView): (r: BirdView)
    ensures r.state == DeadFall && r.IsDead() && r.velocity == 0
    ensures r.y == b.y && r.rect == b.rect && r.wingState == b.wingState && r.keyFlag == b.keyFlag
  {
    b.(state := DeadFall, velocity := 0)
  }

  /**
   * applyGravity: velocity drops by ACC_Y only while below MAX_VEL_Y (there is no
   * lower bound), y moves by the new velocity but is clamped to the bottom boundary,
   * and the rectangle moves by the new velocity without any clamp.
   */
  function Gravity(b: BirdView, bottomBoundary: int): (r: BirdView)
    ensures r.velocity == if b.velocity < MAX_VEL_Y then b.velocity - ACC_Y else b.velocity
    ensures r.y <= bottomBoundary
    ensures r.y == if b.y - r.velocity <= bottomBoundary then b.y - r.velocity else bottomBoundary
    ensures r.rect == b.rect.(y := b.rect.y - r.velocity)
    ensures b.y - r.velocity <= bottomBoundary ==> r.rect.y - r.y == b.rect.y - b.y
    ensures r.rect.y - r.y >= b.rect.y - b.y
    ensures r.state == b.state && r.wingState == b.wingState && r.keyFlag == b.keyFlag
  {
    var v := if b.velocity < MAX_VEL_Y then b.velocity - ACC_Y else b.velocity;
    var y := if b.y - v < bottomBoundary then b.y - v else bottomBoundary;
    b.(velocity := v, y := y, rect := b.rect.(y := b.rect.y - v))
  }

  /** The outcome of one tick of the bird: its new fields and whether it died (die was called). */
  datatype Movement = Movement(bird: BirdView, died: bool)

  /**
   * updateMovement: the wing counter always advances; only FALL and DEAD_FALL move
   * the bird; the bird dies when the moved rectangle lies below the bottom boundary.
   */
  function Moved(b: BirdView, bottomBoundary: int): (r: Movement)
    ensures r.bird.wingState == b.wingState + 1 && r.bird.keyFlag == b.keyFlag
    ensures !b.IsMoving() ==> r.bird == b.(wingState := b.wingState + 1) && !r.died
    ensures b.IsMoving() ==>
      var g := Gravity(b, bottomBoundary);
      r.bird.velocity == g.velocity && r.bird.y == g.y && r.bird.rect == g.rect
    ensures r.died <==> b.IsMoving() && r.bird.rect.y > bottomBoundary
    ensures r.bird.state == if r.died then Dead else b.state
  {
    var counted := b.(wingState := b.wingState + 1);
    if counted.IsMoving() then
      var g := Gravity(counted, bottomBoundary);
      if g.rect.y > bottomBoundary then Movement(g.(state := Dead), true) else Movement(g, false)
    else
      Movement(counted, false)
  }

  /** reset: back to NORMAL at mid-height, at rest, with the rectangle realigned. */
  function ResetView(b: BirdView, cfg: Config): (r: BirdView)
    ensures r.state == Normal && !r.IsDead() && r.velocity == 0
    ensures r.y == cfg.frameHeight / 2 && r.rect.y - r.y == RectOffset(cfg)
    ensures r.rect == b.rect.(y := r.rect.y)
    ensures r.wingState == b.wingState && r.keyFlag == b.keyFlag
  {
    var y := cfg.frameHeight / 2;
    b.(state := Normal, y := y, velocity := 0, rect := b.rect.(y := y - cfg.birdHeight / 2 + RECT_DESCALE * 2))
  }

  /** The image index `wingState / 10 % IMG_COUNT` picks one of the IMG_COUNT frames. */
  function ImageIndex(wingState: int): (r: int)
    requires wingState >= 0
    ensures 0 <= r < IMG_COUNT
  {
    wingState / 10 % IMG_COUNT
  }

  /** A second flap while the key is still held changes nothing. */
  lemma FlapIdempotent(b: BirdView, topBarHeight: int)
    ensures Flapped(Flapped(b, topBarHeight), topBarHeight) == Flapped(b, topBarHeight)
  {
  }

  /** The dying states are terminal: flap and fall leave a dead bird alone and ticks keep it dead. */
  lemma DeadIsTerminal(b: BirdView, cfg: Config)
    requires b.IsDead()
    ensures Flapped(b, cfg.topBarHeight) == b && Fallen(b) == b
    ensures Moved(b, BottomBoundary(cfg)).bird.IsDead()
    ensures DeadFallen(b).IsDead()
  {
  }

  /** Every operation keeps a bird Consistent. */
  lemma OperationsKeepConsistent(b: BirdView, cfg: Config)
    requires Consistent(b, cfg)
    ensures Consistent(Flapped(b, cfg.topBarHeight), cfg)
    ensures Consistent(Fallen(b), cfg)
    ensures Consistent(DeadFallen(b), cfg)
    ensures Consistent(Moved(b, BottomBoundary(cfg)).bird, cfg)
    ensures Consistent(ResetView(b, cfg), cfg)
  {
  }

  /** n ticks of gravity. */
  function GravitySteps(b: BirdView, bottomBoundary: int, n: nat): BirdView
  {
    if n == 0 then b else Gravity(GravitySteps(b, bottomBoundary, n - 1), bottomBoundary)
  }

  /**
   * Fall speed has no floor: from any velocity below MAX_VEL_Y, n gravity ticks lower
   * it by exactly 2n, the rectangle's offset from y never shrinks, and after any tick
   * y is at most the bottom boundary.
   */
  lemma {:induction false} FreeFallUnbounded(b: BirdView, bottomBoundary: int, n: nat)
    requires b.velocity < MAX_VEL_Y
    ensures GravitySteps(b, bottomBoundary, n).velocity == b.velocity - ACC_Y * n
    ensures GravitySteps(b, bottomBoundary, n).rect.y - GravitySteps(b, bottomBoundary, n).y >= b.rect.y - b.y
    ensures n > 0 ==> GravitySteps(b, bottomBoundary, n).y <= bottomBoundary
  {
    if n > 0 {
      FreeFallUnbounded(b, bottomBoundary, n - 1);
    }
  }

  class Bird {
    const cfg: Config
    /** The ScoreCounter singleton. */
    const counter: ScoreCounter
    /** Game's static phase, written by die. */
    const game: StaticGameState
    const x: int
    const bottomBoundary: int
    var y: int
    var velocity: int
    var wingState: int
    var state: BirdState
    var keyFlag: bool
    var collisionRect: Rect

    function View(): BirdView
      reads this
    {
      BirdView(state, y, velocity, wingState, keyFlag, collisionRect)
    }

    ghost predicate Valid()
      reads this
    {
      && cfg.Valid()
      && x == BirdX(cfg)
      && bottomBoundary == BottomBoundary(cfg)
      && Consistent(View(), cfg)
    }

    constructor (cfg: Config, counter: ScoreCounter, game: StaticGameState)
      requires cfg.Valid()
      ensures Valid()
      ensures this.cfg == cfg && this.counter == counter && this.game == game
      ensures View() == InitialBird(cfg)
    {
      this.cfg := cfg;
      this.counter := counter;
      this.game := game;
      x := cfg.frameWidth / 4;
      y := cfg.frameHeight / 2;
      collisionRect := Rect(
        cfg.frameWidth / 4 - cfg.birdWidth / 2 + RECT_DESCALE,
        cfg.frameHeight / 2 - cfg.birdHeight / 2 + RECT_DESCALE * 2,
        cfg.birdWidth - RECT_DESCALE * 3,
        cfg.birdHeight - RECT_DESCALE * 4);
      bottomBoundary := cfg.frameHeight - cfg.groundHeight - cfg.birdHeight / 2;
      velocity := 0;
      wingState := 0;
      state := Normal;
      keyFlag := true;
    }

    /** One tick of the bird (the state-changing half of Bird.draw). */
    method UpdateMovement()
      requires Valid()
      modifies this, counter, game
      ensures Valid()
      ensures var m := Moved(old(View()), bottomBoundary);
        && View() == m.bird
        && counter.current == old(counter.current)
        && counter.best == (if m.died && old(counter.current) > old(counter.best) then old(counter.current) else old(counter.best))
        && game.gameState == (if m.died then Over else old(game.gameState))
    {
      wingState := wingState + 1;
      if state == BirdState.Fall || state == BirdState.DeadFall {
        ApplyGravity();
        if collisionRect.y > bottomBoundary {
          Die();
        }
      }
      OperationsKeepConsistent(old(View()), cfg);
    }

    method ApplyGravity()
      modifies this
      ensures View() == Gravity(old(View()), bottomBoundary)
    {
      if velocity < MAX_VEL_Y {
        velocity := velocity - ACC_Y;
      }
      y := if y - velocity < bottomBoundary then y - velocity else bottomBoundary;
      collisionRect := collisionRect.(y := collisionRect.y - velocity);
    }

    /** die: save the score, stop, and end the game. */
    method Die()
      modifies this, counter, game
      ensures View() == old(View()).(state := Dead)
      ensures counter.current == old(counter.current)
      ensures counter.best == if old(counter.current) > old(counter.best) then old(counter.current) else old(counter.best)
      ensures game.gameState == Over
    {
      counter.SaveScore();
      state := Dead;
      game.SetGameState(Over);
    }

    method Flap()
      requires Valid()
      modifies this
      ensures Valid()
      ensures View() == Flapped(old(View()), cfg.topBarHeight)
    {
      if !KeyIsReleased() || IsDead() {
        return;
      }
      state := Up;
      if collisionRect.y > cfg.topBarHeight {
        velocity := ACC_FLAP;
        wingState := 0;
      }
      KeyPressed();
    }

    method Fall()
      requires Valid()
      modifies this
      ensures Valid()
      ensures View() == Fallen(old(View()))
    {
      if IsDead() {
        return;
      }
      state := BirdState.Fall;
    }

    method DeadFall()
      requires Valid()
      modifies this
      ensures Valid()
      ensures View() == DeadFallen(old(View()))
    {
      state := BirdState.DeadFall;
      velocity := 0;
    }

    predicate IsDead(): (r: bool)
      reads this
      ensures r <==> View().IsDead()
    {
      state == BirdState.DeadFall || state == BirdState.Dead
    }

    method Reset()
      requires Valid()
      modifies this, counter
      ensures Valid()
      ensures View() == ResetView(old(View()), cfg)
      ensures counter.current == 0 && counter.best == old(counter.best)
    {
      state := Normal;
      y := cfg.frameHeight / 2;
      velocity := 0;
      collisionRect := collisionRect.(y := y - cfg.birdHeight / 2 + RECT_DESCALE * 2);
      counter.Reset();
    }

    method KeyPressed()
      requires Valid()
      modifies this
      ensures Valid()
      ensures View() == old(View()).(keyFlag := false)
    {
      keyFlag := false;
    }

    method KeyReleased()
      requires Valid()
      modifies this
      ensures Valid()
      ensures View() == old(View()).(keyFlag := true)
    {
      keyFlag := true;
    }

    predicate KeyIsReleased(): (r: bool)
      reads this
      ensures r <==> View().keyFlag
    {
      keyFlag
    }
  }
}
