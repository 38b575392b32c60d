/**
 * ScoreCounter, the process-wide score singleton shared by the bird and the pipe
 * field. Reading and writing the best score to a file is not part of this model:
 * the best score read at start-up is a constructor argument.
 */
module Score {

  class ScoreCounter {
    var current: nat
    var best: nat

    constructor (savedBest: nat)
      ensures current == 0 && best == savedBest
    {
      current, best := 0, savedBest;
    }

    /** score: one more point. */
    method Score()
      modifies this
      ensures current == old(current) + 1 && best == old(best)
    {
      current := current + 1;
    }

    /** saveScore: the best score becomes the current one when the current one beats it. */
    method SaveScore()
      modifies this
      ensures current == old(current)
      ensures best == if old(current) > old(best) then old(current) else old(best)
      ensures best >= old(best) && best >= current
    {
      if current > best {
        best := current;
      }
    }

    /** reset: the current score goes back to zero; the best score is kept. */
    method Reset()
      modifies this
      ensures current == 0 && best == old(best)
    {
      current := 0;
    }
  }
}
