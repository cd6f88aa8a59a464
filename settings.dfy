/** Constants and the game state enumeration of the struct version of the game. */
module Settings {

  const ScreenWidth: int := 1280
  const ScreenHeight: int := 720
  const HalfGameScreenWidth: int := ScreenWidth / 2
  const HalfGameScreenHeight: int := ScreenHeight / 2
  const PointsToWin: int := 10

  /** The current state of the game. */
  datatype GameState = Playing | Paused | GameOver | FirstService
}
