/** Fixed configuration of the game window (the `Settings` class of spiel.py). */
module Settings {
  /** Window size in pixels. */
  const WINDOW_WIDTH: int := 1000
  const WINDOW_HEIGHT: int := 800
  /** Target frame rate; only frame pacing uses it, which this model leaves out. */
  const FPS: int := 60
}
