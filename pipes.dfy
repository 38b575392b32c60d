/**
 * Pipe and PipePool as the pipe field sees them. The Pipe class itself (its movement,
 * its drawing and how it derives its collision rectangle) and the pool's storage and
 * capacity are not part of this model.
 */
module Pipes {

  /** The two runtime classes of pipes; they are also the pool's families "Pipe" and "MovingPipe". */
  datatype PipeClass = PlainPipe | MovingPipe

  /** Pipe.TYPE_TOP_NORMAL ... Pipe.TYPE_HOVER_HARD. */
  datatype PipeType = TopNormal | TopHard | BottomNormal | BottomHard | HoverNormal | HoverHard
  {
    predicate IsHard() { this == TopHard || this == BottomHard || this == HoverHard }
    predicate IsTop() { this == TopNormal || this == TopHard }
    predicate IsBottom() { this == BottomNormal || this == BottomHard }
    predicate IsHover() { this == HoverNormal || this == HoverHard }
  }

  /** The attributes Pipe.setAttribute writes, plus the pipe's runtime class. */
  datatype Pipe = Pipe(cls: PipeClass, x: int, y: int, height: int, pipeType: PipeType, visible: bool)
  {
    /** Hard (moving) types belong to MovingPipe instances, normal types to plain ones. */
    predicate TypeMatchesClass() { (cls == MovingPipe) == pipeType.IsHard() }
  }

  /** Pipe.setAttribute: every attribute is replaced; the instance's class stays. */
  function SetAttribute(p: Pipe, x: int, y: int, height: int, pipeType: PipeType, visible: bool): (r: Pipe)
    ensures r.cls == p.cls
    ensures r.x == x && r.y == y && r.height == height && r.pipeType == pipeType && r.visible == visible
  {
    p.(x := x, y := y, height := height, pipeType := pipeType, visible := visible)
  }

  /**
   * A pooled instance's earlier attributes do not show through: two instances of the
   * same class are indistinguishable once setAttribute has run on them.
   */
  lemma SetAttributeForgetsPast(p: Pipe, q: Pipe, x: int, y: int, height: int, pipeType: PipeType, visible: bool)
    requires p.cls == q.cls
    ensures SetAttribute(p, x, y, height, pipeType, visible) == SetAttribute(q, x, y, height, pipeType, visible)
  {
  }

  /**
   * What drawing a visible pipe for one frame does to it: it scrolls to a new x and
   * turns invisible once it has left the frame.
   */
  datatype Motion = Motion(x: int, visible: bool)

  /** Pipe.draw's effect on the pipe's attributes; class, type, y and height stay. */
  function Advance(p: Pipe, m: Motion): Pipe {
    p.(x := m.x, visible := m.visible)
  }

  /**
   * The static pool, reduced to what the field can observe of it: the sequence of
   * pipes handed back and the sequence of families requested.
   */
  class PipePool {
    ghost var givenBack: seq<Pipe>
    ghost var handedOut: seq<PipeClass>

    constructor ()
      ensures givenBack == [] && handedOut == []
    {
      givenBack, handedOut := [], [];
    }

    /** PipePool.get: an instance of the requested class; the caller sets all its attributes. */
    method Get(family: PipeClass) returns (p: Pipe)
      modifies this
      ensures p.cls == family
      ensures handedOut == old(handedOut) + [family] && givenBack == old(givenBack)
    {
      p := Pipe(family, 0, 0, 0, if family == PlainPipe then TopNormal else TopHard, false);
      handedOut := handedOut + [family];
    }

    /** PipePool.giveBack. */
    method GiveBack(p: Pipe)
      modifies this
      ensures givenBack == old(givenBack) + [p] && handedOut == old(handedOut)
    {
      givenBack := givenBack + [p];
    }
  }

  /** The classes of a sequence of pipes, in order. */
  function Classes(ps: seq<Pipe>): (r: seq<PipeClass>)
    ensures |r| == |ps| && forall i :: 0 <= i < |ps| ==> r[i] == ps[i].cls
  {
    if ps == [] then [] else [ps[0].cls] + Classes(ps[1..])
  }

  /** How many pipes of the given family a sequence holds. */
  function Count(ps: seq<Pipe>, family: PipeClass): nat
  {
    if ps == [] then 0 else (if ps[0].cls == family then 1 else 0) + Count(ps[1..], family)
  }

  /** The count is the multiplicity of the family among the classes of the pipes. */
  lemma {:induction false} CountClasses(ps: seq<Pipe>, family: PipeClass)
    ensures Count(ps, family) == multiset(Classes(ps))[family]
  {
    if ps != [] {
      CountClasses(ps[1..], family);
      assert Classes(ps) == [ps[0].cls] + Classes(ps[1..]);
    }
  }

  /** The count over a concatenation is the sum of the counts. */
  lemma {:induction false} CountAppend(a: seq<Pipe>, b: seq<Pipe>, family: PipeClass)
    ensures Count(a + b, family) == Count(a, family) + Count(b, family)
  {
    if a != [] {
      CountAppend(a[1..], b, family);
      assert (a + b)[1..] == a[1..] + b;
    } else {
      assert a + b == b;
    }
  }

  /**
   * The pool's books balance against a list of pipes in use: for every family, the
   * pool has handed out as many pipes as have come back plus those in the list.
   */
  ghost predicate Books(handedOut: seq<PipeClass>, givenBack: seq<Pipe>, inUse: seq<Pipe>)
  {
    forall family: PipeClass :: multiset(handedOut)[family] == Count(givenBack, family) + Count(inUse, family)
  }

  /** Balanced books are exactly a multiset identity over the families. */
  lemma BooksAsMultisets(handedOut: seq<PipeClass>, givenBack: seq<Pipe>, inUse: seq<Pipe>)
    ensures Books(handedOut, givenBack, inUse) <==>
      multiset(handedOut) == multiset(Classes(givenBack)) + multiset(Classes(inUse))
  {
    forall family: PipeClass
      ensures Count(givenBack, family) + Count(inUse, family)
        == (multiset(Classes(givenBack)) + multiset(Classes(inUse)))[family]
    {
      CountClasses(givenBack, family);
      CountClasses(inUse, family);
    }
  }

  /** The classes of a pair. */
  lemma ClassesPair(ps: seq<Pipe>)
    requires |ps| == 2
    ensures Classes(ps) == [ps[0].cls, ps[1].cls]
  {
  }
}
