/**
 * The dimensions the simulation reads from classes outside its core: the window
 * (Constant), the ground strip (GameBackground), the pipe sprite (Pipe), the pool
 * size (PipePool) and the bird sprite. Their concrete values are not part of this
 * model, so every component takes them as one configuration value.
 */
module Constants {

  datatype Config = Config(
    frameWidth: int,          // Constant.FRAME_WIDTH
    frameHeight: int,         // Constant.FRAME_HEIGHT
    topBarHeight: int,        // Constant.TOP_BAR_HEIGHT
    topPipeLengthening: int,  // Constant.TOP_PIPE_LENGTHENING
    groundHeight: int,        // GameBackground.GROUND_HEIGHT
    birdWidth: int,           // width of the bird sprite (Bird.BIRD_WIDTH)
    birdHeight: int,          // height of the bird sprite
    pipeWidth: int,           // Pipe.PIPE_WIDTH
    fullPipe: int)            // PipePool.FULL_PIPE
  {
    /**
     * Sizes are positive and offsets non-negative. Under this condition Java's
     * truncating `/` and its `>>` agree with Dafny's `/` on every expression the
     * core evaluates.
     */
    predicate Valid() {
      && frameWidth > 0 && frameHeight > 0
      && birdWidth > 0 && birdHeight > 0 && pipeWidth > 0
      && topBarHeight >= 0 && topPipeLengthening >= 0 && groundHeight >= 0
    }
  }
}
