/** A level session: the robot object whose fields the commands update in
    place, proved step by step against the state machine of RobotSpec. */
module Simulator {
  import opened Levels
  import opened RobotSpec

  class Robot {
    // The arena of the chosen level, fixed for the session.
    const gridSize: int
    const obstacles: seq<Cell>
    const goal: Cell

    // The robot itself.
    var x: int
    var y: int
    var heading: int
    var battery: int

    /** The level this session plays. */
    function Arena(): Level {
      Level(gridSize, obstacles, goal)
    }

    /** The robot's fields as a state value. */
    function Snapshot(): State
      reads this
    {
      State(x, y, heading, battery)
    }

    /** The session invariant holds of the current fields. */
    ghost predicate Valid()
      reads this
    {
      Safe(Arena(), Snapshot())
    }

    /** A fresh session on a level of the table: at the origin, facing NORTH,
        fully charged, and not yet on the goal. */
    constructor (level: Level)
      requires WellFormed(level)
      ensures Valid()
      ensures Arena() == level && Snapshot() == Initial()
      ensures !AtGoal(Arena(), Snapshot())
    {
      gridSize, obstacles, goal := level.gridSize, level.obstacles, level.goal;
      x, y := 0, 0;
      heading := 0;
      battery := FULL_BATTERY;
    }

    /** `forward`: each refusal returns before any field is written. */
    method Forward() returns (outcome: Outcome)
      requires Valid()
      modifies this
      ensures Valid()
      ensures Step(Snapshot(), outcome) == ForwardStep(Arena(), old(Snapshot()))
    {
      if battery < MOVE_COST {
        return LowBattery;
      }
      var d := HeadingDelta(heading);
      var newX, newY := x + d.dx, y + d.dy;
      if !InBounds(gridSize, newX, newY) {
        return Wall;
      }
      if IsObstacle(obstacles, newX, newY) {
        return Blocked(Cell(newX, newY));
      }
      outcome := Moved(Cell(x, y), Cell(newX, newY));
      x, y := newX, newY;
      battery := battery - MOVE_COST;
    }

    /** `left`: a quarter turn anticlockwise for one unit of battery. */
    method Left() returns (outcome: Outcome)
      requires Valid()
      modifies this
      ensures Valid()
      ensures Step(Snapshot(), outcome) == LeftStep(old(Snapshot()))
    {
      if battery < TURN_COST {
        return LowBattery;
      }
      heading := (heading - 1) % 4;
      battery := battery - TURN_COST;
      outcome := Turned;
    }

    /** `right`: a quarter turn clockwise for one unit of battery. */
    method Right() returns (outcome: Outcome)
      requires Valid()
      modifies this
      ensures Valid()
      ensures Step(Snapshot(), outcome) == RightStep(old(Snapshot()))
    {
      if battery < TURN_COST {
        return LowBattery;
      }
      heading := (heading + 1) % 4;
      battery := battery - TURN_COST;
      outcome := Turned;
    }

    /** `report`: reads the fields, changes nothing. */
    method Report() returns (outcome: Outcome)
      requires Valid()
      ensures Step(Snapshot(), outcome) == ReportStep(Snapshot())
    {
      outcome := Reported(Cell(x, y), DIRECTIONS[heading], battery);
    }

    /** `recharge`: the battery is full again, nothing else changes. */
    method Recharge() returns (outcome: Outcome)
      requires Valid()
      modifies this
      ensures Valid()
      ensures Step(Snapshot(), outcome) == RechargeStep(old(Snapshot()))
    {
      battery := FULL_BATTERY;
      outcome := Recharged;
    }

    /** `execute_command`: dispatch by name (an unknown name does nothing),
        then the goal check of the display refresh. */
    method ExecuteCommand(command: string) returns (outcome: Outcome, goalReached: bool)
      requires Valid()
      modifies this
      ensures Valid()
      ensures Response(Snapshot(), outcome, goalReached) == RobotSpec.ExecuteCommand(Arena(), old(Snapshot()), command)
    {
      var c := ParseCommand(command);
      if c.Forward? {
        outcome := Forward();
      } else if c.Left? {
        outcome := Left();
      } else if c.Right? {
        outcome := Right();
      } else if c.Report? {
        outcome := Report();
      } else if c.Recharge? {
        outcome := Recharge();
      } else {
        outcome := Ignored;
      }
      goalReached := Cell(x, y) == goal;
    }
  }

  /** `launch_game`: look the level up by name; an unknown name fails before
      any session exists, a known one starts a fresh session. */
  method Launch(levelName: string) returns (session: Option<Robot>)
    ensures session.None? <==> GetLevel(levelName).None?
    ensures session.Some? ==>
              && fresh(session.value)
              && session.value.Valid()
              && session.value.Arena() == GetLevel(levelName).value
              && session.value.Snapshot() == Initial()
  {
    var level := GetLevel(levelName);
    if level.None? {
      return None;
    }
    var robot := new Robot(level.value);
    session := Some(robot);
  }
}
