/** The robot's state machine as pure functions on a state value: one function
    per command, the dispatcher, and the goal check made after every command.
    The class in simulator.dfy is proved against these functions. */
module RobotSpec {
  import opened Levels

  /** Heading names by heading index, in clockwise order. */
  const DIRECTIONS: seq<string> := ["NORTH", "EAST", "SOUTH", "WEST"]

  const FULL_BATTERY: int := 100
  const MOVE_COST: int := 10
  const TURN_COST: int := 1

  /** The names of the five commands, as the buttons of the window send them. */
  const COMMAND_NAMES: set<string> := {"forward", "left", "right", "report", "recharge"}

  /** Position, heading index and battery level of the robot. */
  datatype State = State(x: int, y: int, heading: int, battery: int)

  /** A unit step on the grid. */
  datatype Vector = Vector(dx: int, dy: int)

  /** What a command reports to the player (the dialogs, beeps and animation
      of the program become these tags). */
  datatype Outcome =
    | Moved(from: Cell, to: Cell)
    | LowBattery
    | Wall
    | Blocked(at: Cell)
    | Turned
    | Reported(position: Cell, direction: string, battery: int)
    | Recharged
    | Ignored

  datatype Step = Step(state: State, outcome: Outcome)

  /** The state after a command, what it reported, and whether the goal
      check that follows every command fired. */
  datatype Response = Response(state: State, outcome: Outcome, goalReached: bool)

  /** The five commands the window sends, plus any other name. */
  datatype Command = Forward | Left | Right | Report | Recharge | Unknown(name: string)

  /** Every session starts at the origin, facing NORTH, fully charged. */
  function Initial(): (s: State)
    ensures Cell(s.x, s.y) == Origin
    ensures 0 <= s.heading < |DIRECTIONS| && DIRECTIONS[s.heading] == "NORTH"
    ensures s.battery == FULL_BATTERY
  {
    State(Origin.x, Origin.y, 0, FULL_BATTERY)
  }

  /** The session invariant: a valid heading index, a battery level in
      [0, 100], and a position that is on the grid and not blocked. */
  predicate Safe(lvl: Level, s: State) {
    0 <= s.heading < |DIRECTIONS| && 0 <= s.battery <= FULL_BATTERY && Free(lvl, s.x, s.y)
  }

  /** The goal test of the display refresh. On a level of the table the goal
      is the free far corner, so a robot on it stands there. */
  predicate AtGoal(lvl: Level, s: State): (b: bool)
    ensures WellFormed(lvl) && b ==>
              && s.x == lvl.gridSize - 1 && s.y == lvl.gridSize - 1
              && Free(lvl, s.x, s.y)
              && Cell(s.x, s.y) != Origin
  {
    Cell(s.x, s.y) == lvl.goal
  }

  /** The unit vector of a heading: NORTH, EAST, SOUTH, WEST in index order. */
  function HeadingDelta(heading: int): (d: Vector)
    requires 0 <= heading < 4
    ensures Adjacent(Cell(0, 0), Cell(d.dx, d.dy))
  {
    [Vector(0, 1), Vector(1, 0), Vector(0, -1), Vector(-1, 0)][heading]
  }

  /** The cell one step ahead of the robot. */
  function Ahead(s: State): (c: Cell)
    requires 0 <= s.heading < 4
    ensures Adjacent(Cell(s.x, s.y), c)
  {
    var d := HeadingDelta(s.heading);
    Cell(s.x + d.dx, s.y + d.dy)
  }

  /** `forward`: battery guard, then wall check, then obstacle check; only a
      move that passes all three changes the state. */
  function ForwardStep(lvl: Level, s: State): (r: Step)
    requires 0 <= s.heading < 4
    ensures r.outcome.Moved? <==> s.battery >= MOVE_COST && Free(lvl, Ahead(s).x, Ahead(s).y)
    ensures !r.outcome.Moved? ==> r.state == s
    ensures s.battery < MOVE_COST ==> r.outcome == LowBattery
    ensures s.battery >= MOVE_COST && !InBounds(lvl.gridSize, Ahead(s).x, Ahead(s).y) ==> r.outcome == Wall
    ensures (s.battery >= MOVE_COST && InBounds(lvl.gridSize, Ahead(s).x, Ahead(s).y)
             && IsObstacle(lvl.obstacles, Ahead(s).x, Ahead(s).y)) ==> r.outcome == Blocked(Ahead(s))
    ensures r.outcome.Moved? ==>
              && r.outcome == Moved(Cell(s.x, s.y), Cell(r.state.x, r.state.y))
              && Adjacent(Cell(s.x, s.y), Cell(r.state.x, r.state.y))
              && r.state.heading == s.heading
              && r.state.battery == s.battery - MOVE_COST
    ensures Safe(lvl, s) ==> Safe(lvl, r.state)
  {
    if s.battery < MOVE_COST then Step(s, LowBattery)
    else
      var next := Ahead(s);
      if !InBounds(lvl.gridSize, next.x, next.y) then Step(s, Wall)
      else if IsObstacle(lvl.obstacles, next.x, next.y) then Step(s, Blocked(next))
      else Step(s.(x := next.x, y := next.y, battery := s.battery - MOVE_COST), Moved(Cell(s.x, s.y), next))
  }

  /** `left`: battery guard, then one quarter turn anticlockwise. */
  function LeftStep(s: State): (r: Step)
    ensures s.battery < TURN_COST ==> r == Step(s, LowBattery)
    ensures s.battery >= TURN_COST ==>
              && r.outcome == Turned
              && r.state.x == s.x && r.state.y == s.y
              && r.state.battery == s.battery - TURN_COST
              && 0 <= r.state.heading < 4
  {
    if s.battery < TURN_COST then Step(s, LowBattery)
    else Step(s.(heading := (s.heading - 1) % 4, battery := s.battery - TURN_COST), Turned)
  }

  /** `right`: battery guard, then one quarter turn clockwise. */
  function RightStep(s: State): (r: Step)
    ensures s.battery < TURN_COST ==> r == Step(s, LowBattery)
    ensures s.battery >= TURN_COST ==>
              && r.outcome == Turned
              && r.state.x == s.x && r.state.y == s.y
              && r.state.battery == s.battery - TURN_COST
              && 0 <= r.state.heading < 4
  {
    if s.battery < TURN_COST then Step(s, LowBattery)
    else Step(s.(heading := (s.heading + 1) % 4, battery := s.battery - TURN_COST), Turned)
  }

  /** `report`: shows position, heading name and battery; changes nothing. */
  function ReportStep(s: State): (r: Step)
    requires 0 <= s.heading < 4
    ensures r.state == s && r.outcome.Reported?
    ensures r.outcome.position == Cell(s.x, s.y) && r.outcome.battery == s.battery
    ensures r.outcome.direction in DIRECTIONS
    ensures forall i :: 0 <= i < |DIRECTIONS| && DIRECTIONS[i] == r.outcome.direction ==> i == s.heading
  {
    Step(s, Reported(Cell(s.x, s.y), DIRECTIONS[s.heading], s.battery))
  }

  /** `recharge`: refills the battery whatever its level. */
  function RechargeStep(s: State): (r: Step)
    ensures r.outcome == Recharged
    ensures r.state.x == s.x && r.state.y == s.y && r.state.heading == s.heading
    ensures r.state.battery == FULL_BATTERY
  {
    Step(s.(battery := FULL_BATTERY), Recharged)
  }

  /** The name each button of the window sends for a command. */
  function CommandName(c: Command): (n: string)
    requires !c.Unknown?
    ensures n in COMMAND_NAMES
  {
    match c
    case Forward => "forward"
    case Left => "left"
    case Right => "right"
    case Report => "report"
    case Recharge => "recharge"
  }

  /** Name dispatch: the five command names, anything else is Unknown. */
  function ParseCommand(name: string): (c: Command)
    ensures c.Unknown? <==> name !in COMMAND_NAMES
    ensures c.Unknown? ==> c.name == name
    ensures !c.Unknown? ==> CommandName(c) == name
  {
    if name == "forward" then Forward
    else if name == "left" then Left
    else if name == "right" then Right
    else if name == "report" then Report
    else if name == "recharge" then Recharge
    else Unknown(name)
  }

  /** `execute_command` on a parsed command; an unknown command does nothing. */
  function Execute(lvl: Level, s: State, c: Command): (r: Step)
    requires 0 <= s.heading < 4
    ensures 0 <= r.state.heading < 4
    ensures Safe(lvl, s) ==> Safe(lvl, r.state)
    ensures c.Report? || c.Unknown? ==> r.state == s
    ensures c.Unknown? ==> r.outcome == Ignored
    ensures c != Recharge ==> r.state.battery <= s.battery
    ensures c.Forward? ==> r == ForwardStep(lvl, s)
    ensures c.Left? ==> r == LeftStep(s)
    ensures c.Right? ==> r == RightStep(s)
    ensures c.Report? ==> r == ReportStep(s)
    ensures c.Recharge? ==> r == RechargeStep(s)
  {
    match c
    case Forward => ForwardStep(lvl, s)
    case Left => LeftStep(s)
    case Right => RightStep(s)
    case Report => ReportStep(s)
    case Recharge => RechargeStep(s)
    case Unknown(_) => Step(s, Ignored)
  }

  /** `execute_command` by name, followed by the goal check of the display
      refresh; the check fires after any command, and reaching the goal does
      not end the session. */
  function ExecuteCommand(lvl: Level, s: State, name: string): (r: Response)
    requires 0 <= s.heading < 4
    ensures r.goalReached <==> r.state.x == lvl.goal.x && r.state.y == lvl.goal.y
    ensures Safe(lvl, s) ==> Safe(lvl, r.state)
  {
    var step := Execute(lvl, s, ParseCommand(name));
    Response(step.state, step.outcome, AtGoal(lvl, step.state))
  }

  /** The state after a sequence of commands. */
  function Run(lvl: Level, s: State, cmds: seq<Command>): (t: State)
    requires 0 <= s.heading < 4
    ensures 0 <= t.heading < 4
    decreases |cmds|
  {
    if cmds == [] then s else Run(lvl, Execute(lvl, s, cmds[0]).state, cmds[1..])
  }
}
