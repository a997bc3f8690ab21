# Robot grid simulator — a verified model of its core

The robot grid simulator is a small desktop game. The player picks a level
("Easy", "Medium" or "Hard"). Each level is a square grid with blocked cells
and a goal cell. The player then steers a robot with five commands:
`forward`, `left`, `right`, `report` and `recharge`. The robot starts at
(0, 0), faces NORTH and has a battery of 100. A move costs 10 and a turn
costs 1. A move is refused when the battery is too low, when it would leave
the grid or when it would enter an obstacle. A refused command changes
nothing. `recharge` refills the battery. After every command the window
checks whether the robot stands on the goal.

This project models that core in Dafny:

- `levels.dfy` (module `Levels`): the level table, the look-up by name
  (an unknown name gives `None`, the program's `KeyError`), and the
  bounds and obstacle predicates.
- `robot_spec.dfy` (module `RobotSpec`): the state machine as pure
  functions on a `State` value. There is one function per command, the
  name dispatcher, the goal check and `Run` over a list of commands. Each
  dialog, beep or animation of the program becomes an `Outcome` tag:
  `Moved(from, to)`, `LowBattery`, `Wall`, `Blocked(at)`, `Turned`,
  `Reported(...)`, `Recharged` or `Ignored`.
- `robot_properties.dfy` (module `RobotProperties`): lemmas about whole
  sessions. The invariant holds over any run. Turns cancel and cycle.
  A flat battery freezes the robot until a recharge. Concrete scenarios
  are proved, and the goal does not end the session.
- `simulator.dfy` (module `Simulator`): the session object as a class
  `Robot`. Its fields `x`, `y`, `heading` and `battery` are updated in place
  behind early-return guards, as in the program. Each method is proved to
  keep the invariant `Valid()` and to match the `RobotSpec` function of its
  command (`Report` and `Recharge` included). `Launch` models `launch_game`.

The invariant (`RobotSpec.Safe`) has three parts. The heading index is in
0..3. The battery is in [0, 100]. The robot is on the grid and not on an
obstacle.

Notes on the program's behaviour that the model keeps:

- The goal check runs after every command, not only after a move
  (`execute_command` always calls `update_display`, robotSimulator.py:123
  and 98). So it fires again on each command while the robot stays on the
  goal, and reaching the goal does not end the session.
- A successful turn opens no dialog and plays no sound; the model tags it
  `Turned`.
- Every goal of the table is exactly the far corner (n-1, n-1).
- Python's `%` floors. For the divisor 4 it agrees with Dafny's Euclidean
  `%`, so `(h - 1) % 4` is written as it is.

## Model

| member | source | states |
|---|---|---|
| `Levels.GetLevel` | robotSimulator.py:5-16 | a level is found exactly for "Easy", "Medium" and "Hard"; "Easy" gives the 5×5 level, "Medium" the 8×8 level and "Hard" the 10×10 level as listed in the table; every level found has a free start cell (0,0), obstacles on the grid, and a free goal in the far corner that is not the start |
| `Levels.InBounds` | robotSimulator.py:103 | the grid test as written (no contract of its own); what it decides is stated by the Wall clause of `RobotSpec.ForwardStep` and by `RobotProperties.RunKeepsSafe` (the robot always stays on the grid) |
| `Levels.IsObstacle` | robotSimulator.py:102 | the obstacle test as written (no contract of its own); what it decides is stated by the Blocked clause of `RobotSpec.ForwardStep` and by `RobotProperties.RunKeepsSafe` (the robot never stands on an obstacle) |
| `Levels.TableWellFormed` | robotSimulator.py:5-9 | each of the three levels has a free start cell, obstacles on the grid, and a free goal in the far corner that is not the start |
| `Levels.LevelsGrowHarder` | robotSimulator.py:5-9 | the three levels grow strictly in grid size and in number of obstacles |
| `RobotSpec.Initial` | robotSimulator.py:26-29 | a session starts at the origin, facing the heading named NORTH, with battery 100 |
| `RobotSpec.AtGoal` | robotSimulator.py:98 | on a level of the table, a robot on the goal stands on the far corner, on a free cell, and not on the start |
| `RobotSpec.Ahead` | robotSimulator.py:107-108 | the cell ahead shares a side with the robot's cell |
| `RobotSpec.HeadingDelta` | robotSimulator.py:107 | the step of every heading is a unit step to a side-adjacent cell |
| `RobotSpec.ForwardStep` | robotSimulator.py:105-111 | the move happens iff battery ≥ 10 and the cell ahead is on the grid and not an obstacle; otherwise the state is unchanged, with LowBattery first, then Wall, then Blocked at the cell ahead; a move goes to an adjacent cell, keeps the heading, costs exactly 10 and keeps the invariant |
| `RobotSpec.LeftStep` | robotSimulator.py:113-115 | with battery < 1 nothing changes (LowBattery); otherwise position is kept, battery drops by exactly 1 and the heading stays in 0..3 |
| `RobotSpec.RightStep` | robotSimulator.py:117-119 | with battery < 1 nothing changes (LowBattery); otherwise position is kept, battery drops by exactly 1 and the heading stays in 0..3 |
| `RobotSpec.ReportStep` | robotSimulator.py:121 | `report` changes nothing and shows the position, the battery and one of the four heading names, which names only the current heading |
| `RobotSpec.RechargeStep` | robotSimulator.py:122 | `recharge` keeps position and heading, sets the battery to exactly 100, and reports Recharged |
| `RobotSpec.CommandName` | robotSimulator.py:56-60 | every button sends one of the five command names |
| `RobotSpec.ParseCommand` | robotSimulator.py:123 | exactly the five command names dispatch to a command; any other name is Unknown and keeps the name; a recognised command's button name is the name given |
| `RobotSpec.Execute` | robotSimulator.py:121-123 | forward, left, right, report and recharge each yield exactly the state and outcome of their step function; every command keeps the heading in range and keeps the invariant; report and unknown commands leave the state unchanged; an unknown command is Ignored; no command but recharge raises the battery |
| `RobotSpec.ExecuteCommand` | robotSimulator.py:123 | the goal flag after a command is set exactly when the new position is the goal; the invariant is kept |
| `RobotProperties.ParseCommandName` | robotSimulator.py:56-60 | the name each button sends dispatches back to that same command |
| `RobotProperties.InitialIsSafe` | robotSimulator.py:23-29 | for every level in the table, the start state (0,0), NORTH, battery 100 satisfies the invariant and is not on the goal |
| `RobotProperties.RunKeepsSafe` | robotSimulator.py:102-123 | any sequence of commands from a safe state ends in a safe state: battery in [0,100], heading in 0..3, on the grid and off obstacles |
| `RobotProperties.ForwardFollowsCompass` | robotSimulator.py:107-108 | a move under heading NORTH, EAST, SOUTH or WEST goes to (x,y+1), (x+1,y), (x,y-1) or (x-1,y) |
| `RobotProperties.RightFollowsCompass` | robotSimulator.py:117-119 | a right turn sets the heading index to (h+1) mod 4, moves to the next heading name clockwise, wrapping WEST to NORTH, and rotates the unit step a quarter clockwise |
| `RobotProperties.LeftFollowsCompass` | robotSimulator.py:113-115 | a left turn sets the heading index to (h+3) mod 4, moves to the previous heading name, wrapping NORTH to WEST, and rotates the unit step a quarter anticlockwise |
| `RobotProperties.LeftThenRightRestores` | robotSimulator.py:113-119 | `left` then `right` gives back the original position and heading at a total cost of exactly 2 |
| `RobotProperties.RightThenLeftRestores` | robotSimulator.py:113-119 | `right` then `left` gives back the original position and heading at a total cost of exactly 2 |
| `RobotProperties.FourRightsRestore` | robotSimulator.py:117-119 | four `right` turns give back the original heading and position at a cost of exactly 4 |
| `RobotProperties.RechargeFillsBattery` | robotSimulator.py:122 | `recharge` sets the battery to exactly 100 from any level, changes nothing else, and afterwards neither a move nor a left or right turn is refused for low battery |
| `RobotProperties.UnknownNameIsNoOp` | robotSimulator.py:123 | a name that is none of the five commands leaves the state unchanged, reports Ignored, and the goal flag is then the goal test of the unchanged state |
| `RobotProperties.BatteryNeverRisesWithoutRecharge` | robotSimulator.py:105-123 | along any run without `recharge` the battery never ends higher than it started |
| `RobotProperties.FlatBatteryStaysPut` | robotSimulator.py:106-119 | with battery 0, any run without `recharge` leaves position, heading and battery exactly as they were |
| `RobotProperties.LowBatteryScenario` | robotSimulator.py:106 | with battery 5, `forward` reports low battery and changes nothing |
| `RobotProperties.WallScenario` | robotSimulator.py:109 | at (0,0) facing WEST, `forward` reports the wall and changes nothing |
| `RobotProperties.ObstacleScenario` | robotSimulator.py:110 | on Easy at (1,0) facing NORTH, `forward` is blocked by the obstacle at (1,1) and changes nothing |
| `RobotProperties.EasyRouteReachesGoal` | robotSimulator.py:98 | on Easy, four moves north, a right turn and four moves east are all accepted; the robot reaches (4,4) facing EAST with battery 19, and is on the goal after the last command and after no earlier one |
| `RobotProperties.GoalIsNotTerminal` | robotSimulator.py:98-100 | on every level, a robot on the goal facing SOUTH with battery ≥ 10 can still move, and leaves the goal |
| `Simulator.Robot.constructor` | robotSimulator.py:22-29 | a new session has the chosen level's arena, starts at (0,0), NORTH, battery 100, satisfies the invariant and is not on the goal |
| `Simulator.Robot.Forward` | robotSimulator.py:105-111 | the in-place update behind the three early returns yields exactly the state and outcome of `ForwardStep`, and keeps the invariant |
| `Simulator.Robot.Left` | robotSimulator.py:113-115 | the in-place update yields exactly the state and outcome of `LeftStep` and keeps the invariant |
| `Simulator.Robot.Right` | robotSimulator.py:117-119 | the in-place update yields exactly the state and outcome of `RightStep` and keeps the invariant |
| `Simulator.Robot.Report` | robotSimulator.py:121 | writes no field and yields exactly the outcome of `ReportStep` on the current state |
| `Simulator.Robot.Recharge` | robotSimulator.py:122 | the in-place update yields exactly the state and outcome of `RechargeStep`, and keeps the invariant |
| `Simulator.Robot.ExecuteCommand` | robotSimulator.py:123 | dispatching by name and then checking the goal yields exactly the state, outcome and goal flag of `RobotSpec.ExecuteCommand`, and keeps the invariant |
| `Simulator.Launch` | robotSimulator.py:11-16 | an unknown level name yields no session; a known one yields a fresh session on that level in the start state, satisfying the invariant |

## Left out

- The tkinter window, canvas, styles, buttons and key bindings
  (robotSimulator.py:31-68, 128-147) are user interface. Only the command
  names the buttons send are modelled (`RobotSpec.CommandName`).
- `animate_move` (robotSimulator.py:80-87) moves pixels with floating-point
  steps and sleeps. Only its start and end cells are kept, in the `Moved`
  outcome.
- Nested commands during a move: `animate_move` calls `self.canvas.update()`
  (robotSimulator.py:86) ten times, and Tk's `update` runs queued key and
  button callbacks before line 111 writes `x`, `y` and `battery`. A second
  `forward` (a held Up key) can then run nested and pass the battery guard
  of line 106 on the same old battery: from battery 10 both moves happen and
  the battery ends at -10. A `left` or `right` pressed during the move
  changes the heading while the outer move keeps its old direction. The
  model treats every command as atomic, so `RobotProperties.RunKeepsSafe`
  (battery in [0, 100]) and the other run lemmas hold only for commands that
  do not nest.
- `draw_grid` and the pixel arithmetic of `update_display`
  (robotSimulator.py:70-97) are presentation. Only the goal test of line 98
  is modelled.
- The `winsound` beeps and `messagebox` dialogs are foreign side effects.
  They become `Outcome` tags, without their text.
- The dispatch by `hasattr`/`getattr` (robotSimulator.py:123) would also run
  any other attribute of the object, such as `draw_grid`. It would fail on
  a method that needs arguments or on a data attribute. The model knows
  only the five command names and treats every other name as a no-op.
- `forward` and `report` index a four-element list by the heading index
  (robotSimulator.py:107, 121). An index from -4 to -1 would wrap to the
  end of the list; an index of 4 or more, or below -4, would raise
  IndexError. `left` and `right` reduce any index modulo 4. Every heading
  the program can reach is in 0..3 (start 0, then only turns modulo 4), so
  `RobotSpec.ForwardStep` and `RobotSpec.ReportStep` require an index in
  0..3 and the wrap and the IndexError are not modelled.
- Closing a level window and the exit button end a session or the process.
  The model has no such event.
