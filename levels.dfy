/** The level catalogue of the robot grid simulator: three named arenas, each a
    square grid with a list of blocked cells and a goal cell. */
module Levels {

  datatype Option<T> = None | Some(value: T)

  /** A grid cell. (0, 0) is the bottom-left corner; y grows upwards (NORTH). */
  datatype Cell = Cell(x: int, y: int)

  /** A level: side length of the square grid, obstacle cells (a list, as in the
      program) and the goal cell. */
  datatype Level = Level(gridSize: int, obstacles: seq<Cell>, goal: Cell)

  /** The cell every session starts on. */
  const Origin: Cell := Cell(0, 0)

  const EASY: Level := Level(5, [Cell(1, 1)], Cell(4, 4))
  const MEDIUM: Level := Level(8, [Cell(1, 2), Cell(2, 3), Cell(3, 1), Cell(6, 6)], Cell(7, 7))
  const HARD: Level := Level(10, [Cell(1, 1), Cell(2, 2), Cell(3, 3), Cell(4, 4),
                                  Cell(5, 5), Cell(6, 6), Cell(7, 7), Cell(8, 8)], Cell(9, 9))

  /** The fixed table of levels, keyed by name. */
  const LEVELS: map<string, Level> := map["Easy" := EASY, "Medium" := MEDIUM, "Hard" := HARD]

  /** Both coordinates lie in [0, gridSize). */
  predicate InBounds(gridSize: int, x: int, y: int) {
    0 <= x < gridSize && 0 <= y < gridSize
  }

  /** The cell (x, y) is listed as an obstacle. */
  predicate IsObstacle(obstacles: seq<Cell>, x: int, y: int) {
    Cell(x, y) in obstacles
  }

  /** The two cells share a side. */
  predicate Adjacent(a: Cell, b: Cell) {
    || (a.x == b.x && (a.y == b.y + 1 || a.y == b.y - 1))
    || (a.y == b.y && (a.x == b.x + 1 || a.x == b.x - 1))
  }

  /** A cell the robot may stand on: inside the grid and not blocked. */
  predicate Free(lvl: Level, x: int, y: int) {
    InBounds(lvl.gridSize, x, y) && !IsObstacle(lvl.obstacles, x, y)
  }

  /** What every entry of the table satisfies: a non-empty grid whose start cell
      is free, all obstacles on the grid, and a free goal in the far corner
      (so a session never starts on its goal). */
  predicate WellFormed(lvl: Level) {
    && lvl.gridSize > 0
    && Free(lvl, Origin.x, Origin.y)
    && (forall i :: 0 <= i < |lvl.obstacles| ==> InBounds(lvl.gridSize, lvl.obstacles[i].x, lvl.obstacles[i].y))
    && lvl.goal == Cell(lvl.gridSize - 1, lvl.gridSize - 1)
    && Free(lvl, lvl.goal.x, lvl.goal.y)
    && lvl.goal != Origin
  }

  /** Looking a level up by name; an unregistered name is the KeyError path. */
  function GetLevel(name: string): (r: Option<Level>)
    ensures r.Some? <==> name == "Easy" || name == "Medium" || name == "Hard"
    ensures name == "Easy" ==> r == Some(EASY)
    ensures name == "Medium" ==> r == Some(MEDIUM)
    ensures name == "Hard" ==> r == Some(HARD)
    ensures r.Some? ==> WellFormed(r.value)
  {
    TableWellFormed();
    if name in LEVELS then Some(LEVELS[name]) else None
  }

  /** Each of the three levels is well formed. */
  lemma TableWellFormed()
    ensures WellFormed(EASY) && WellFormed(MEDIUM) && WellFormed(HARD)
  {
  }

  /** The three levels grow in grid size and in number of obstacles. */
  lemma LevelsGrowHarder()
    ensures EASY.gridSize < MEDIUM.gridSize < HARD.gridSize
    ensures |EASY.obstacles| < |MEDIUM.obstacles| < |HARD.obstacles|
  {
  }
}
