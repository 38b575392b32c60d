/**
 * The game's phase: Game keeps it in a static field that the bird also writes when
 * it dies. Here that field is one shared object.
 */
module Phases {

  /** GAME_READY, GAME_START and STATE_OVER. */
  datatype Phase = Ready | Start | Over

  class StaticGameState {
    var gameState: Phase

    /** A static int field starts at 0, which is GAME_READY. */
    constructor ()
      ensures gameState == Ready
    {
      gameState := Ready;
    }

    /** Game.setGameState. */
    method SetGameState(s: Phase)
      modifies this
      ensures gameState == s
    {
      gameState := s;
    }
  }
}
