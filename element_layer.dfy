/**
 * The pipe field (GameElementLayer): an ordered list of pipes that, once per tick,
 * recycles the invisible pipes in place, scans for the first pipe hitting the bird,
 * and may append one new pair of pipes and give one point.
 */
module ElementLayer {
  import opened Awt
  import opened Constants
  import opened Pipes
  import opened Score
  import opened BirdModel

  datatype Option<T> = None | Some(value: T)

  /** VERTICAL_INTERVAL: the height of the gap inside a pair, a fifth of the frame rounded down. */
  function VerticalInterval(cfg: Config): (r: int)
    ensures cfg.frameHeight >= 0 ==> 0 <= 5 * r <= cfg.frameHeight < 5 * r + 5
  {
    cfg.frameHeight / 5
  }

  /** HORIZONTAL_INTERVAL (FRAME_HEIGHT >> 2): the distance between consecutive pairs. */
  function HorizontalInterval(cfg: Config): (r: int)
    ensures cfg.frameHeight >= 0 ==> 0 <= 4 * r <= cfg.frameHeight < 4 * r + 4
  {
    cfg.frameHeight / 4
  }

  /** MIN_HEIGHT (FRAME_HEIGHT >> 3): the shortest top pipe of a column pair. */
  function MinHeight(cfg: Config): (r: int)
    ensures cfg.frameHeight >= 0 ==> 0 <= 8 * r <= cfg.frameHeight < 8 * r + 8
  {
    cfg.frameHeight / 8
  }

  /**
   * MAX_HEIGHT ((FRAME_HEIGHT >> 3) * 5): the tallest top pipe of a column pair, at
   * most five eighths of the frame, so that a top pipe of that height and the gap
   * still leave room for the bottom pipe.
   */
  function MaxHeight(cfg: Config): (r: int)
    ensures cfg.frameHeight >= 0 ==> MinHeight(cfg) <= r && 8 * r <= 5 * cfg.frameHeight
    ensures cfg.frameHeight > 0 ==> r + VerticalInterval(cfg) < cfg.frameHeight
  {
    (cfg.frameHeight / 8) * 5
  }

  /**
   * The random draws of one spawn: GameUtil.getRandomNumber results (topHeight for a
   * column pair, hoverHeight and hoverY for a hover pair) and GameUtil.isInProbability
   * outcomes (hard pair, hover among hard pairs, column among normal pairs).
   */
  datatype Draws = Draws(topHeight: int, hoverHeight: int, hoverY: int, hard: bool, hardHover: bool, column: bool)

  /** getRandomNumber(min, max) lies in [min, max), for the bounds each draw passes. */
  predicate DrawsInRange(cfg: Config, d: Draws) {
    && MinHeight(cfg) <= d.topHeight < MaxHeight(cfg) + 1
    && cfg.frameHeight / 6 <= d.hoverHeight < cfg.frameHeight / 4
    && cfg.frameHeight / 12 <= d.hoverY < cfg.frameHeight / 6
  }

  /**
   * A column pair at x: a top pipe lengthened upwards off screen that ends at
   * topHeight, the gap, and a bottom pipe reaching the bottom of the frame.
   */
  function ColumnPair(cfg: Config, cls: PipeClass, x: int, topHeight: int): (r: seq<Pipe>)
    ensures |r| == 2
    ensures r[0].cls == cls && r[0].x == x && r[0].visible && r[0].TypeMatchesClass()
    ensures r[1].cls == cls && r[1].x == x && r[1].visible && r[1].TypeMatchesClass()
    ensures r[0].pipeType.IsTop() && r[1].pipeType.IsBottom()
    ensures r[0].y == -cfg.topPipeLengthening && r[0].height == topHeight + cfg.topPipeLengthening
    ensures r[1].y == r[0].y + r[0].height + VerticalInterval(cfg)
    ensures r[1].y + r[1].height == cfg.frameHeight
  {
    var hard := cls == MovingPipe;
    [Pipe(cls, x, -cfg.topPipeLengthening, topHeight + cfg.topPipeLengthening,
          if hard then TopHard else TopNormal, true),
     Pipe(cls, x, topHeight + VerticalInterval(cfg), cfg.frameHeight - topHeight - VerticalInterval(cfg),
          if hard then BottomHard else BottomNormal, true)]
  }

  /**
   * A hover pair at x: a piece starting y below the top, the gap, and a piece ending
   * y above the bottom of the frame.
   */
  function HoverPair(cfg: Config, cls: PipeClass, x: int, y: int, topHoverHeight: int): (r: seq<Pipe>)
    ensures |r| == 2
    ensures r[0].cls == cls && r[0].x == x && r[0].visible && r[0].TypeMatchesClass() && r[0].pipeType.IsHover()
    ensures r[1].cls == cls && r[1].x == x && r[1].visible && r[1].TypeMatchesClass() && r[1].pipeType.IsHover()
    ensures r[0].y == y && r[0].height == topHoverHeight
    ensures r[1].y == r[0].y + r[0].height + VerticalInterval(cfg)
    ensures r[1].y + r[1].height == cfg.frameHeight - y
  {
    var t := if cls == MovingPipe then HoverHard else HoverNormal;
    [Pipe(cls, x, y, topHoverHeight, t, true),
     Pipe(cls, x, y + topHoverHeight + VerticalInterval(cfg),
          cfg.frameHeight - 2 * y - topHoverHeight - VerticalInterval(cfg), t, true)]
  }

  /**
   * The pair appended after the last pipe: HORIZONTAL_INTERVAL to its right, from
   * the "MovingPipe" family exactly when the hard draw succeeds, hover-shaped for a
   * quarter-chance hard pair or a half-chance normal pair.
   */
  function NextPair(cfg: Config, lastX: int, d: Draws): (r: seq<Pipe>)
    ensures |r| == 2
    ensures r[0].x == r[1].x == lastX + HorizontalInterval(cfg)
    ensures r[0].visible && r[1].visible && r[0].TypeMatchesClass() && r[1].TypeMatchesClass()
    ensures r[0].cls == r[1].cls == (if d.hard then MovingPipe else PlainPipe)
    ensures r[0].pipeType.IsHover() <==> (if d.hard then d.hardHover else !d.column)
    ensures r[0].pipeType.IsHover() ==> r[1].y + r[1].height == cfg.frameHeight - d.hoverY
    ensures !r[0].pipeType.IsHover() ==> r[1].y + r[1].height == cfg.frameHeight
    ensures r[1].y == r[0].y + r[0].height + VerticalInterval(cfg)
  {
    var x := lastX + HorizontalInterval(cfg);
    if d.hard then
      if d.hardHover then HoverPair(cfg, MovingPipe, x, d.hoverY, d.hoverHeight)
      else ColumnPair(cfg, MovingPipe, x, d.topHeight)
    else
      if d.column then ColumnPair(cfg, PlainPipe, x, d.topHeight)
      else HoverPair(cfg, PlainPipe, x, d.hoverY, d.hoverHeight)
  }

  /**
   * Whatever the draws, as long as they lie in their ranges, the lower piece of every
   * pair the field spawns has positive height.
   */
  lemma SpawnedLowerPiecePositive(cfg: Config, lastX: int, d: Draws)
    requires cfg.Valid() && DrawsInRange(cfg, d)
    ensures NextPair(cfg, lastX, d)[1].height > 0
    ensures ColumnPair(cfg, PlainPipe, cfg.frameWidth, d.topHeight)[1].height > 0
  {
    var x := lastX + HorizontalInterval(cfg);
    ColumnBottomPositive(cfg, PlainPipe, cfg.frameWidth, d.topHeight);
    ColumnBottomPositive(cfg, if d.hard then MovingPipe else PlainPipe, x, d.topHeight);
    HoverPiecesPositive(cfg, if d.hard then MovingPipe else PlainPipe, x, d);
  }

  /** Within the drawn ranges, the bottom pipe of a column pair has positive height. */
  lemma ColumnBottomPositive(cfg: Config, cls: PipeClass, x: int, topHeight: int)
    requires cfg.Valid()
    requires MinHeight(cfg) <= topHeight <= MaxHeight(cfg)
    ensures ColumnPair(cfg, cls, x, topHeight)[1].height > 0
  {
  }

  /** Within the drawn ranges, both pieces of a hover pair have positive height. */
  lemma HoverPiecesPositive(cfg: Config, cls: PipeClass, x: int, d: Draws)
    requires cfg.Valid() && DrawsInRange(cfg, d)
    ensures HoverPair(cfg, cls, x, d.hoverY, d.hoverHeight)[0].height > 0
    ensures HoverPair(cfg, cls, x, d.hoverY, d.hoverHeight)[1].height > 0
  {
  }

  /** The pipes that stay in the list, in their original order. */
  function KeepVisible(ps: seq<Pipe>): (r: seq<Pipe>)
    ensures |r| <= |ps|
    ensures forall p <- r :: p.visible
  {
    if ps == [] then []
    else
      var last := ps[|ps| - 1];
      var rest := KeepVisible(ps[..|ps| - 1]);
      if last.visible then rest + [last] else rest
  }

  /** The pipes handed back to the pool, in the order they are removed. */
  function Recycled(ps: seq<Pipe>): (r: seq<Pipe>)
    ensures |r| <= |ps|
    ensures forall p <- r :: !p.visible
  {
    if ps == [] then []
    else
      var last := ps[|ps| - 1];
      var rest := Recycled(ps[..|ps| - 1]);
      if last.visible then rest else rest + [last]
  }

  /**
   * The pass loses nothing and duplicates nothing: kept and recycled pipes together
   * are exactly the list, each visible pipe stays as often as it occurred and each
   * invisible one goes back to the pool as often as it occurred.
   */
  lemma {:induction false} RecyclePartition(ps: seq<Pipe>)
    ensures multiset(KeepVisible(ps)) + multiset(Recycled(ps)) == multiset(ps)
    ensures forall p: Pipe :: p.visible ==> multiset(KeepVisible(ps))[p] == multiset(ps)[p]
    ensures forall p: Pipe :: !p.visible ==> multiset(Recycled(ps))[p] == multiset(ps)[p]
  {
    if ps != [] {
      var init, last := ps[..|ps| - 1], ps[|ps| - 1];
      RecyclePartition(init);
      assert ps == init + [last];
      assert multiset(ps) == multiset(init) + multiset{last};
    }
    forall p: Pipe | p.visible
      ensures multiset(Recycled(ps))[p] == 0
    {
      assert p !in Recycled(ps);
    }
    forall p: Pipe | !p.visible
      ensures multiset(KeepVisible(ps))[p] == 0
    {
      assert p !in KeepVisible(ps);
    }
  }

  /** One more pipe of the original list processed: it is either kept or recycled. */
  lemma PrefixStep(ps: seq<Pipe>, k: nat)
    requires k < |ps|
    ensures KeepVisible(ps[..k + 1]) == KeepVisible(ps[..k]) + (if ps[k].visible then [ps[k]] else [])
    ensures Recycled(ps[..k + 1]) == Recycled(ps[..k]) + (if ps[k].visible then [] else [ps[k]])
  {
    assert ps[..k + 1][..k] == ps[..k];
  }

  /**
   * One iteration of the in-place pass: with the first k pipes of the original list
   * processed, index i points at original pipe k; a visible pipe is drawn (moved) and
   * i advances, an invisible one is removed and i stays where it is.
   */
  lemma PassStep(orig: seq<Pipe>, k: nat, pipes: seq<Pipe>, i: int, motion: Pipe -> Motion)
    requires k < |orig|
    requires pipes == AdvanceAll(KeepVisible(orig[..k]), motion) + orig[k..] && i == |KeepVisible(orig[..k])|
    ensures 0 <= i < |pipes| && pipes[i] == orig[k]
    ensures orig[k].visible ==>
      && pipes[i := Advance(pipes[i], motion(pipes[i]))] == AdvanceAll(KeepVisible(orig[..k + 1]), motion) + orig[k + 1..]
      && i + 1 == |KeepVisible(orig[..k + 1])|
      && Recycled(orig[..k + 1]) == Recycled(orig[..k])
    ensures !orig[k].visible ==>
      && pipes[..i] + pipes[i + 1..] == AdvanceAll(KeepVisible(orig[..k + 1]), motion) + orig[k + 1..]
      && i == |KeepVisible(orig[..k + 1])|
      && Recycled(orig[..k + 1]) == Recycled(orig[..k]) + [pipes[i]]
  {
    var moved := AdvanceAll(KeepVisible(orig[..k]), motion);
    PassSplit(moved, orig, k, pipes);
    PrefixStep(orig, k);
    if orig[k].visible {
      AdvanceAllSnoc(KeepVisible(orig[..k]), orig[k], motion);
      UpdateSplit(pipes, i, Advance(orig[k], motion(orig[k])));
    }
  }

  /** The list during the pass, cut at the current index. */
  lemma PassSplit(moved: seq<Pipe>, orig: seq<Pipe>, k: nat, pipes: seq<Pipe>)
    requires k < |orig| && pipes == moved + orig[k..]
    ensures |moved| < |pipes| && pipes[|moved|] == orig[k]
    ensures pipes[..|moved|] == moved && pipes[|moved| + 1..] == orig[k + 1..]
  {
    assert orig[k..] == [orig[k]] + orig[k + 1..];
  }

  /** Replacing one element is cutting the sequence around it. */
  lemma UpdateSplit(s: seq<Pipe>, i: int, x: Pipe)
    requires 0 <= i < |s|
    ensures s[i := x] == s[..i] + [x] + s[i + 1..]
  {
  }

  /** Drawing one more pipe appends its moved copy. */
  lemma AdvanceAllSnoc(ps: seq<Pipe>, p: Pipe, motion: Pipe -> Motion)
    ensures AdvanceAll(ps + [p], motion) == AdvanceAll(ps, motion) + [Advance(p, motion(p))]
  {
    assert (ps + [p])[..|ps|] == ps;
  }

  /** Filtering distributes over concatenation, so the kept pipes keep their relative order. */
  lemma {:induction false} KeepVisibleAppend(s: seq<Pipe>, t: seq<Pipe>)
    ensures KeepVisible(s + t) == KeepVisible(s) + KeepVisible(t)
  {
    if t == [] {
      assert s + t == s;
    } else {
      var init := t[..|t| - 1];
      KeepVisibleAppend(s, init);
      assert (s + t)[..|s + t| - 1] == s + init;
      assert (s + t)[|s + t| - 1] == t[|t| - 1];
    }
  }

  /** A list whose pipes are all visible survives the pass unchanged. */
  lemma {:induction false} KeepVisibleAllVisible(ps: seq<Pipe>)
    requires forall p <- ps :: p.visible
    ensures KeepVisible(ps) == ps && Recycled(ps) == []
  {
    if ps != [] {
      KeepVisibleAllVisible(ps[..|ps| - 1]);
      assert ps == ps[..|ps| - 1] + [ps[|ps| - 1]];
    }
  }

  /** The kept pipes after each has been drawn (moved) once, in order. */
  function AdvanceAll(ps: seq<Pipe>, motion: Pipe -> Motion): (r: seq<Pipe>)
    ensures |r| == |ps|
    ensures forall i :: 0 <= i < |ps| ==> r[i] == Advance(ps[i], motion(ps[i]))
  {
    if ps == [] then []
    else AdvanceAll(ps[..|ps| - 1], motion) + [Advance(ps[|ps| - 1], motion(ps[|ps| - 1]))]
  }

  /** Moving pipes does not change how many of each family there are. */
  lemma AdvanceAllCount(ps: seq<Pipe>, motion: Pipe -> Motion, family: PipeClass)
    ensures Count(AdvanceAll(ps, motion), family) == Count(ps, family)
  {
    assert Classes(AdvanceAll(ps, motion)) == Classes(ps);
    CountClasses(ps, family);
    CountClasses(AdvanceAll(ps, motion), family);
  }

  /** Per family, the pass keeps or gives back every pipe of the list. */
  lemma {:induction false} CountRecycle(ps: seq<Pipe>, family: PipeClass)
    ensures Count(KeepVisible(ps), family) + Count(Recycled(ps), family) == Count(ps, family)
  {
    if ps != [] {
      var init, last := ps[..|ps| - 1], ps[|ps| - 1];
      CountRecycle(init, family);
      assert ps == init + [last];
      CountAppend(init, [last], family);
      if last.visible {
        assert Recycled(ps) == Recycled(init);
        CountAppend(KeepVisible(init), [last], family);
      } else {
        assert KeepVisible(ps) == KeepVisible(init);
        CountAppend(Recycled(init), [last], family);
      }
    }
  }

  /**
   * A pipe that leaves the frame while it is drawn stays in the list for the rest of
   * that frame and is handed back to the pool by the next frame's pass.
   */
  lemma HiddenPipeGoesBack(ps: seq<Pipe>, motion: Pipe -> Motion, p: Pipe)
    requires p in ps && p.visible && !motion(p).visible
    ensures Advance(p, motion(p)) in AdvanceAll(KeepVisible(ps), motion)
    ensures Advance(p, motion(p)) in Recycled(AdvanceAll(KeepVisible(ps), motion))
  {
    RecyclePartition(ps);
    assert multiset(ps)[p] > 0;
    var kept := KeepVisible(ps);
    assert p in multiset(kept);
    var j :| 0 <= j < |kept| && kept[j] == p;
    var moved := AdvanceAll(kept, motion);
    var q := moved[j];
    assert q == Advance(p, motion(p));
    RecyclePartition(moved);
    assert multiset(moved)[q] > 0;
  }

  /** The index of the first pipe whose rectangle intersects the bird's, if any. */
  function FirstHit(ps: seq<Pipe>, pipeRect: Pipe -> Rect, birdRect: Rect): (r: Option<nat>)
    ensures r.Some? ==> r.value < |ps| && Intersects(pipeRect(ps[r.value]), birdRect)
    ensures r.Some? ==> forall j :: 0 <= j < r.value ==> !Intersects(pipeRect(ps[j]), birdRect)
    ensures r.None? <==> forall j :: 0 <= j < |ps| ==> !Intersects(pipeRect(ps[j]), birdRect)
  {
    if ps == [] then None
    else if Intersects(pipeRect(ps[0]), birdRect) then Some(0)
    else
      match FirstHit(ps[1..], pipeRect, birdRect)
      case None => None
      case Some(k) => Some(k + 1)
  }

  /**
   * isCollideBird: a dead bird is left alone; a living bird starts its death fall
   * exactly when some pipe's rectangle intersects its collision rectangle.
   */
  function ScanOutcome(b: BirdView, ps: seq<Pipe>, pipeRect: Pipe -> Rect): (r: BirdView)
    ensures b.IsDead() ==> r == b
    ensures !b.IsDead() && (exists j :: 0 <= j < |ps| && Intersects(pipeRect(ps[j]), b.rect)) ==> r == DeadFallen(b)
    ensures !b.IsDead() && (forall j :: 0 <= j < |ps| ==> !Intersects(pipeRect(ps[j]), b.rect)) ==> r == b
  {
    if b.IsDead() then b
    else if FirstHit(ps, pipeRect, b.rect).Some? then DeadFallen(b)
    else b
  }

  /** What pipeBornLogic does to the list and the score. */
  datatype Spawn = Spawn(added: seq<Pipe>, scored: bool)

  /**
   * pipeBornLogic. A dead bird stops everything. An empty list gets the initial
   * column pair at the right edge of the frame. Otherwise a pair is appended, and a
   * point may be given, only while the last pipe is in frame; the point needs the
   * list to be nearly full and the last pipe to be within the score distance.
   */
  function BornLogic(cfg: Config, ps: seq<Pipe>, birdDead: bool, birdX: int, inFrame: Pipe -> bool, d: Draws): (r: Spawn)
    ensures birdDead ==> r == Spawn([], false)
    ensures !birdDead && ps == [] ==> !r.scored && r.added == ColumnPair(cfg, PlainPipe, cfg.frameWidth, d.topHeight)
    ensures !birdDead && ps != [] ==>
      var last := ps[|ps| - 1];
      && (|r.added| == 2 <==> inFrame(last))
      && (!inFrame(last) ==> r.added == [])
      && (inFrame(last) ==> r.added == NextPair(cfg, last.x, d))
    ensures r.scored <==>
      && !birdDead && ps != [] && inFrame(ps[|ps| - 1])
      && |ps| >= cfg.fullPipe - 2
      && ps[|ps| - 1].x - birdX + cfg.birdWidth / 2 <= cfg.pipeWidth * 2 + HorizontalInterval(cfg) + cfg.pipeWidth * 3 / 2
    ensures |r.added| == 0 || |r.added| == 2
  {
    if birdDead then Spawn([], false)
    else if ps == [] then Spawn(ColumnPair(cfg, PlainPipe, cfg.frameWidth, d.topHeight), false)
    else
      var last := ps[|ps| - 1];
      var currentDistance := last.x - birdX + cfg.birdWidth / 2;
      var scoreDistance := cfg.pipeWidth * 2 + HorizontalInterval(cfg);
      if inFrame(last) then
        Spawn(NextPair(cfg, last.x, d),
              |ps| >= cfg.fullPipe - 2 && currentDistance <= scoreDistance + cfg.pipeWidth * 3 / 2)
      else Spawn([], false)
  }

  /** Handing out pipes and appending them to the list keeps the books balanced. */
  lemma BalanceAfterSpawn(handedOut: seq<PipeClass>, givenBack: seq<Pipe>, pipes: seq<Pipe>, added: seq<Pipe>)
    requires Books(handedOut, givenBack, pipes)
    ensures Books(handedOut + Classes(added), givenBack, pipes + added)
  {
    forall family: PipeClass
      ensures multiset(handedOut + Classes(added))[family] == Count(givenBack, family) + Count(pipes + added, family)
    {
      CountAppend(pipes, added, family);
      CountClasses(added, family);
    }
  }

  /** The recycling pass keeps the books balanced. */
  lemma BalanceAfterRecycle(handedOut: seq<PipeClass>, givenBack: seq<Pipe>, ps: seq<Pipe>, motion: Pipe -> Motion)
    requires Books(handedOut, givenBack, ps)
    ensures Books(handedOut, givenBack + Recycled(ps), AdvanceAll(KeepVisible(ps), motion))
  {
    forall family: PipeClass
      ensures multiset(handedOut)[family]
        == Count(givenBack + Recycled(ps), family) + Count(AdvanceAll(KeepVisible(ps), motion), family)
    {
      CountRecycle(ps, family);
      AdvanceAllCount(KeepVisible(ps), motion, family);
      CountAppend(givenBack, Recycled(ps), family);
    }
  }

  /** Giving the whole list back keeps the books balanced. */
  lemma BalanceAfterReset(handedOut: seq<PipeClass>, givenBack: seq<Pipe>, ps: seq<Pipe>)
    requires Books(handedOut, givenBack, ps)
    ensures Books(handedOut, givenBack + ps, [])
  {
    forall family: PipeClass
      ensures multiset(handedOut)[family] == Count(givenBack + ps, family) + Count([], family)
    {
      CountAppend(givenBack, ps, family);
    }
  }

  class GameElementLayer {
    const cfg: Config
    /** The static PipePool. */
    const pool: PipePool
    var pipes: seq<Pipe>

    ghost predicate Valid()
      reads this, pool
    {
      cfg.Valid() && Balanced()
    }

    /**
     * Pool accounting, family by family: every pipe the pool has handed out is either
     * back in the pool or in the list.
     */
    ghost predicate Balanced()
      reads this, pool
    {
      Books(pool.handedOut, pool.givenBack, pipes)
    }

    constructor (cfg: Config, pool: PipePool)
      requires cfg.Valid() && Books(pool.handedOut, pool.givenBack, [])
      ensures Valid() && this.cfg == cfg && this.pool == pool && pipes == []
    {
      this.cfg := cfg;
      this.pool := pool;
      pipes := [];
    }

    /**
     * The state-changing part of draw: the recycling pass, the collision scan and the
     * spawn logic, in that order. Each visible pipe is drawn during the pass, which
     * moves it as `motion` says; the images are not modelled.
     */
    method Draw(bird: Bird, motion: Pipe -> Motion, inFrame: Pipe -> bool, pipeRect: Pipe -> Rect, d: Draws)
      requires Valid() && bird.Valid() && bird.cfg == cfg && DrawsInRange(cfg, d)
      modifies this, pool, bird, bird.counter
      ensures Valid() && bird.Valid()
      ensures
        var kept := AdvanceAll(KeepVisible(old(pipes)), motion);
        var b := ScanOutcome(old(bird.View()), kept, pipeRect);
        var s := BornLogic(cfg, kept, b.IsDead(), bird.x, inFrame, d);
        && bird.View() == b
        && pipes == kept + s.added
        && pool.givenBack == old(pool.givenBack) + Recycled(old(pipes))
        && pool.handedOut == old(pool.handedOut) + Classes(s.added)
        && bird.counter.current == old(bird.counter.current) + (if s.scored then 1 else 0)
        && bird.counter.best == old(bird.counter.best)
      ensures |pipes| > |KeepVisible(old(pipes))| ==> pipes[|pipes| - 1].height > 0
    {
      RecycleInvisible(motion);
      BalanceAfterRecycle(pool.handedOut, old(pool.givenBack), old(pipes), motion);
      IsCollideBird(bird, pipeRect);
      PipeBornLogic(bird, inFrame, d);
    }

    /**
     * The loop of draw: visible pipes are drawn, which moves them, and invisible ones
     * are removed in place and given back.
     */
    method RecycleInvisible(motion: Pipe -> Motion)
      modifies this, pool
      ensures pipes == AdvanceAll(KeepVisible(old(pipes)), motion)
      ensures pool.givenBack == old(pool.givenBack) + Recycled(old(pipes))
      ensures pool.handedOut == old(pool.handedOut)
    {
      ghost var orig := pipes;
      ghost var k := 0;
      var i: int := 0;
      while i < |pipes|
        invariant 0 <= k <= |orig|
        invariant i == |KeepVisible(orig[..k])|
        invariant pipes == AdvanceAll(KeepVisible(orig[..k]), motion) + orig[k..]
        invariant pool.givenBack == old(pool.givenBack) + Recycled(orig[..k])
        invariant pool.handedOut == old(pool.handedOut)
        decreases |pipes| - i
      {
        i := VisitPipe(motion, orig, k, old(pool.givenBack), i);
        k := k + 1;
      }
      assert orig[..k] == orig;
    }

    /**
     * One turn of draw's loop, at index i with the first k pipes of the original list
     * processed: a visible pipe is drawn (moved) and the index advances, an invisible
     * one is removed in place, given back, and the index stays.
     */
    method VisitPipe(motion: Pipe -> Motion, ghost orig: seq<Pipe>, ghost k: nat, ghost givenBack: seq<Pipe>, i: int) returns (next: int)
      requires k < |orig| && i == |KeepVisible(orig[..k])|
      requires pipes == AdvanceAll(KeepVisible(orig[..k]), motion) + orig[k..]
      requires pool.givenBack == givenBack + Recycled(orig[..k])
      modifies this, pool
      ensures next == |KeepVisible(orig[..k + 1])|
      ensures pipes == AdvanceAll(KeepVisible(orig[..k + 1]), motion) + orig[k + 1..]
      ensures pool.givenBack == givenBack + Recycled(orig[..k + 1])
      ensures pool.handedOut == old(pool.handedOut)
    {
      PassStep(orig, k, pipes, i, motion);
      next := i;
      var pipe := pipes[i];
      if pipe.visible {
        // pipe.draw(g, bird): only its effect on the attributes is modelled
        pipes := pipes[i := Advance(pipe, motion(pipe))];
      } else {
        var removed := pipes[i];
        pipes := pipes[..i] + pipes[i + 1..];
        pool.GiveBack(removed);
        next := next - 1;
      }
      next := next + 1;
    }

    /** isCollideBird: scan in list order and stop at the first hit. */
    method IsCollideBird(bird: Bird, pipeRect: Pipe -> Rect)
      requires bird.Valid()
      modifies bird
      ensures bird.Valid()
      ensures bird.View() == ScanOutcome(old(bird.View()), pipes, pipeRect)
    {
      if bird.IsDead() {
        return;
      }
      var i := 0;
      while i < |pipes|
        invariant 0 <= i <= |pipes|
        invariant bird.View() == old(bird.View()) && bird.Valid()
        invariant forall j :: 0 <= j < i ==> !Intersects(pipeRect(pipes[j]), bird.collisionRect)
      {
        if Intersects(pipeRect(pipes[i]), bird.collisionRect) {
          bird.DeadFall();
          return;
        }
        i := i + 1;
      }
    }

    method PipeBornLogic(bird: Bird, inFrame: Pipe -> bool, d: Draws)
      requires Valid() && bird.Valid() && bird.cfg == cfg && DrawsInRange(cfg, d)
      modifies this, pool, bird.counter
      ensures Valid()
      ensures |pipes| > |old(pipes)| ==> pipes[|pipes| - 1].height > 0
      ensures
        var s := BornLogic(cfg, old(pipes), bird.IsDead(), bird.x, inFrame, d);
        && pipes == old(pipes) + s.added
        && pool.givenBack == old(pool.givenBack)
        && pool.handedOut == old(pool.handedOut) + Classes(s.added)
        && bird.counter.current == old(bird.counter.current) + (if s.scored then 1 else 0)
        && bird.counter.best == old(bird.counter.best)
    {
      ghost var s := BornLogic(cfg, pipes, bird.IsDead(), bird.x, inFrame, d);
      if bird.IsDead() {
        return;
      }
      if |pipes| == 0 {
        assert s == Spawn(ColumnPair(cfg, PlainPipe, cfg.frameWidth, d.topHeight), false);
        AddFirstPair(d);
      } else {
        var lastPipe := pipes[|pipes| - 1];
        var currentDistance := lastPipe.x - bird.x + cfg.birdWidth / 2;
        var scoreDistance := cfg.pipeWidth * 2 + HorizontalInterval(cfg);
        if inFrame(lastPipe) {
          assert s.added == NextPair(cfg, lastPipe.x, d);
          if |pipes| >= cfg.fullPipe - 2 && currentDistance <= scoreDistance + cfg.pipeWidth * 3 / 2 {
            bird.counter.Score();
          }
          AddNextPair(lastPipe, d);
        }
      }
    }

    /** The block of pipeBornLogic that lays out the first pair, a column at the right edge. */
    method AddFirstPair(d: Draws)
      requires Valid() && DrawsInRange(cfg, d)
      modifies this, pool
      ensures pipes == old(pipes) + ColumnPair(cfg, PlainPipe, cfg.frameWidth, d.topHeight)
      ensures pool.handedOut == old(pool.handedOut) + Classes(ColumnPair(cfg, PlainPipe, cfg.frameWidth, d.topHeight))
      ensures pool.givenBack == old(pool.givenBack)
      ensures Valid() && pipes[|pipes| - 1].height > 0
    {
      ghost var pair := ColumnPair(cfg, PlainPipe, cfg.frameWidth, d.topHeight);
      ClassesPair(pair);
      BalanceAfterSpawn(pool.handedOut, pool.givenBack, pipes, pair);
      SpawnedLowerPiecePositive(cfg, 0, d);
      var topHeight := d.topHeight;
      var top := pool.Get(PlainPipe);
      top := SetAttribute(top, cfg.frameWidth, -cfg.topPipeLengthening,
                          topHeight + cfg.topPipeLengthening, TopNormal, true);
      var bottom := pool.Get(PlainPipe);
      bottom := SetAttribute(bottom, cfg.frameWidth, topHeight + VerticalInterval(cfg),
                             cfg.frameHeight - topHeight - VerticalInterval(cfg), BottomNormal, true);
      pipes := pipes + [top];
      pipes := pipes + [bottom];
      assert [top, bottom] == pair;
    }

    /**
     * The guarded block of pipeBornLogic that picks the shape of the next pair: a hard
     * pair is a moving hover pair or a moving column pair, a normal pair a column pair
     * or a hover pair.
     */
    method AddNextPair(lastPipe: Pipe, d: Draws)
      requires Valid() && DrawsInRange(cfg, d)
      modifies this, pool
      ensures pipes == old(pipes) + NextPair(cfg, lastPipe.x, d)
      ensures pool.handedOut == old(pool.handedOut) + Classes(NextPair(cfg, lastPipe.x, d))
      ensures pool.givenBack == old(pool.givenBack)
      ensures Valid() && pipes[|pipes| - 1].height > 0
    {
      ClassesPair(NextPair(cfg, lastPipe.x, d));
      BalanceAfterSpawn(pool.handedOut, pool.givenBack, pipes, NextPair(cfg, lastPipe.x, d));
      SpawnedLowerPiecePositive(cfg, lastPipe.x, d);
      if d.hard {
        if d.hardHover {
          AddMovingHoverPipe(lastPipe, d.hoverY, d.hoverHeight);
        } else {
          AddMovingNormalPipe(lastPipe, d.topHeight);
        }
      } else {
        if d.column {
          AddNormalPipe(lastPipe, d.topHeight);
        } else {
          AddHoverPipe(lastPipe, d.hoverY, d.hoverHeight);
        }
      }
    }

    method AddNormalPipe(lastPipe: Pipe, topHeight: int)
      modifies this, pool
      ensures pipes == old(pipes) + ColumnPair(cfg, PlainPipe, lastPipe.x + HorizontalInterval(cfg), topHeight)
      ensures pool.handedOut == old(pool.handedOut) + [PlainPipe, PlainPipe] && pool.givenBack == old(pool.givenBack)
    {
      var x := lastPipe.x + HorizontalInterval(cfg);
      var top := pool.Get(PlainPipe);
      top := SetAttribute(top, x, -cfg.topPipeLengthening, topHeight + cfg.topPipeLengthening, TopNormal, true);
      var bottom := pool.Get(PlainPipe);
      bottom := SetAttribute(bottom, x, topHeight + VerticalInterval(cfg),
                             cfg.frameHeight - topHeight - VerticalInterval(cfg), BottomNormal, true);
      pipes := pipes + [top];
      pipes := pipes + [bottom];
    }

    method AddHoverPipe(lastPipe: Pipe, y: int, topHoverHeight: int)
      modifies this, pool
      ensures pipes == old(pipes) + HoverPair(cfg, PlainPipe, lastPipe.x + HorizontalInterval(cfg), y, topHoverHeight)
      ensures pool.handedOut == old(pool.handedOut) + [PlainPipe, PlainPipe] && pool.givenBack == old(pool.givenBack)
    {
      var x := lastPipe.x + HorizontalInterval(cfg);
      var pipeType := HoverNormal;
      var topHover := pool.Get(PlainPipe);
      topHover := SetAttribute(topHover, x, y, topHoverHeight, pipeType, true);
      var bottomHoverHeight := cfg.frameHeight - 2 * y - topHoverHeight - VerticalInterval(cfg);
      var bottomHover := pool.Get(PlainPipe);
      bottomHover := SetAttribute(bottomHover, x, y + topHoverHeight + VerticalInterval(cfg),
                                  bottomHoverHeight, pipeType, true);
      pipes := pipes + [topHover];
      pipes := pipes + [bottomHover];
    }

    method AddMovingHoverPipe(lastPipe: Pipe, y: int, topHoverHeight: int)
      modifies this, pool
      ensures pipes == old(pipes) + HoverPair(cfg, MovingPipe, lastPipe.x + HorizontalInterval(cfg), y, topHoverHeight)
      ensures pool.handedOut == old(pool.handedOut) + [MovingPipe, MovingPipe] && pool.givenBack == old(pool.givenBack)
    {
      var x := lastPipe.x + HorizontalInterval(cfg);
      var pipeType := HoverHard;
      var topHover := pool.Get(MovingPipe);
      topHover := SetAttribute(topHover, x, y, topHoverHeight, pipeType, true);
      var bottomHoverHeight := cfg.frameHeight - 2 * y - topHoverHeight - VerticalInterval(cfg);
      var bottomHover := pool.Get(MovingPipe);
      bottomHover := SetAttribute(bottomHover, x, y + topHoverHeight + VerticalInterval(cfg),
                                  bottomHoverHeight, pipeType, true);
      pipes := pipes + [topHover];
      pipes := pipes + [bottomHover];
    }

    method AddMovingNormalPipe(lastPipe: Pipe, topHeight: int)
      modifies this, pool
      ensures pipes == old(pipes) + ColumnPair(cfg, MovingPipe, lastPipe.x + HorizontalInterval(cfg), topHeight)
      ensures pool.handedOut == old(pool.handedOut) + [MovingPipe, MovingPipe] && pool.givenBack == old(pool.givenBack)
    {
      var x := lastPipe.x + HorizontalInterval(cfg);
      var top := pool.Get(MovingPipe);
      top := SetAttribute(top, x, -cfg.topPipeLengthening, topHeight + cfg.topPipeLengthening, TopHard, true);
      var bottom := pool.Get(MovingPipe);
      bottom := SetAttribute(bottom, x, topHeight + VerticalInterval(cfg),
                             cfg.frameHeight - topHeight - VerticalInterval(cfg), BottomHard, true);
      pipes := pipes + [top];
      pipes := pipes + [bottom];
    }

    /** reset: every pipe goes back to the pool, in list order, and the list empties. */
    method Reset()
      requires Balanced()
      modifies this, pool
      ensures Balanced()
      ensures pipes == []
      ensures pool.givenBack == old(pool.givenBack) + old(pipes)
      ensures pool.handedOut == old(pool.handedOut)
    {
      for i := 0 to |pipes|
        invariant pipes == old(pipes)
        invariant pool.givenBack == old(pool.givenBack) + pipes[..i]
        invariant pool.handedOut == old(pool.handedOut)
      {
        pool.GiveBack(pipes[i]);
      }
      assert pipes[..|pipes|] == pipes;
      BalanceAfterReset(pool.handedOut, old(pool.givenBack), pipes);
      pipes := [];
    }
  }
}
