/** Properties of the robot's state machine over single commands and over
    whole sessions. */
module RobotProperties {
  import opened Levels
  import opened RobotSpec

  /** Every level of the table starts its session in a safe state that is not
      yet the goal. */
  lemma InitialIsSafe(name: string, lvl: Level)
    requires GetLevel(name) == Some(lvl)
    ensures Safe(lvl, Initial())
    ensures !AtGoal(lvl, Initial())
  {
  }

  /** The name each button sends is dispatched back to that command. */
  lemma ParseCommandName(c: Command)
    requires !c.Unknown?
    ensures ParseCommand(CommandName(c)) == c
  {
  }

  /** The session invariant survives any sequence of commands. */
  lemma {:induction false} RunKeepsSafe(lvl: Level, s: State, cmds: seq<Command>)
    requires Safe(lvl, s)
    ensures Safe(lvl, Run(lvl, s, cmds))
    decreases |cmds|
  {
    if cmds != [] {
      RunKeepsSafe(lvl, Execute(lvl, s, cmds[0]).state, cmds[1..]);
    }
  }

  /** A move goes one cell in the named compass direction of the heading. */
  lemma ForwardFollowsCompass(lvl: Level, s: State)
    requires 0 <= s.heading < 4
    requires ForwardStep(lvl, s).outcome.Moved?
    ensures var t := ForwardStep(lvl, s).state;
            && (DIRECTIONS[s.heading] == "NORTH" ==> t.x == s.x && t.y == s.y + 1)
            && (DIRECTIONS[s.heading] == "EAST" ==> t.x == s.x + 1 && t.y == s.y)
            && (DIRECTIONS[s.heading] == "SOUTH" ==> t.x == s.x && t.y == s.y - 1)
            && (DIRECTIONS[s.heading] == "WEST" ==> t.x == s.x - 1 && t.y == s.y)
  {
  }

  /** A right turn goes to the next heading name clockwise, wrapping from
      WEST to NORTH, and turns the unit step a quarter clockwise. */
  lemma RightFollowsCompass(s: State)
    requires 0 <= s.heading < 4 && s.battery >= TURN_COST
    ensures var t := RightStep(s).state;
            && t.heading == (s.heading + 1) % 4
            && DIRECTIONS[t.heading] == DIRECTIONS[(s.heading + 1) % |DIRECTIONS|]
            && HeadingDelta(t.heading) == Vector(HeadingDelta(s.heading).dy, -HeadingDelta(s.heading).dx)
  {
  }

  /** A left turn goes to the previous heading name, wrapping from NORTH to
      WEST, and turns the unit step a quarter anticlockwise. */
  lemma LeftFollowsCompass(s: State)
    requires 0 <= s.heading < 4 && s.battery >= TURN_COST
    ensures var t := LeftStep(s).state;
            && t.heading == (s.heading + 3) % 4
            && DIRECTIONS[t.heading] == DIRECTIONS[(s.heading + 3) % |DIRECTIONS|]
            && HeadingDelta(t.heading) == Vector(-HeadingDelta(s.heading).dy, HeadingDelta(s.heading).dx)
  {
  }

  /** `left` then `right` restores the heading and position at a cost of 2. */
  lemma LeftThenRightRestores(lvl: Level, s: State)
    requires 0 <= s.heading < 4 && s.battery >= 2 * TURN_COST
    ensures Run(lvl, s, [Left, Right]) == s.(battery := s.battery - 2 * TURN_COST)
  {
  }

  /** `right` then `left` restores the heading and position at a cost of 2. */
  lemma RightThenLeftRestores(lvl: Level, s: State)
    requires 0 <= s.heading < 4 && s.battery >= 2 * TURN_COST
    ensures Run(lvl, s, [Right, Left]) == s.(battery := s.battery - 2 * TURN_COST)
  {
  }

  /** Four right turns bring the robot back to its heading at a cost of 4. */
  lemma FourRightsRestore(lvl: Level, s: State)
    requires 0 <= s.heading < 4 && s.battery >= 4 * TURN_COST
    ensures Run(lvl, s, [Right, Right, Right, Right]) == s.(battery := s.battery - 4 * TURN_COST)
  {
  }

  /** `recharge` fills the battery whatever its level and touches nothing
      else; with the battery full again, a blocked-by-battery move or turn is
      possible again. */
  lemma RechargeFillsBattery(lvl: Level, s: State)
    requires 0 <= s.heading < 4
    ensures Execute(lvl, s, Recharge).state == s.(battery := FULL_BATTERY)
    ensures Execute(lvl, s, Recharge).outcome == Recharged
    ensures ForwardStep(lvl, Execute(lvl, s, Recharge).state).outcome != LowBattery
    ensures LeftStep(Execute(lvl, s, Recharge).state).outcome != LowBattery
    ensures RightStep(Execute(lvl, s, Recharge).state).outcome != LowBattery
  {
  }

  /** A name that is none of the five commands changes nothing; only the goal
      check runs. */
  lemma UnknownNameIsNoOp(lvl: Level, s: State, name: string)
    requires 0 <= s.heading < 4
    requires name !in COMMAND_NAMES
    ensures ExecuteCommand(lvl, s, name).state == s
    ensures ExecuteCommand(lvl, s, name).outcome == Ignored
    ensures ExecuteCommand(lvl, s, name).goalReached <==> AtGoal(lvl, s)
  {
  }

  /** No command but `recharge` raises the battery, so along a run without
      `recharge` the battery never rises. */
  lemma {:induction false} BatteryNeverRisesWithoutRecharge(lvl: Level, s: State, cmds: seq<Command>)
    requires 0 <= s.heading < 4
    requires Recharge !in cmds
    ensures Run(lvl, s, cmds).battery <= s.battery
    decreases |cmds|
  {
    if cmds != [] {
      var s1 := Execute(lvl, s, cmds[0]).state;
      assert Recharge !in cmds[1..] by {
        forall c | c in cmds[1..] ensures c != Recharge {
          assert c in cmds;
        }
      }
      BatteryNeverRisesWithoutRecharge(lvl, s1, cmds[1..]);
    }
  }

  /** A flat battery blocks every move and turn: until a `recharge`, no
      sequence of commands changes anything. */
  lemma {:induction false} FlatBatteryStaysPut(lvl: Level, s: State, cmds: seq<Command>)
    requires 0 <= s.heading < 4 && s.battery == 0
    requires Recharge !in cmds
    ensures Run(lvl, s, cmds) == s
    decreases |cmds|
  {
    if cmds != [] {
      assert Execute(lvl, s, cmds[0]).state == s;
      assert Recharge !in cmds[1..] by {
        forall c | c in cmds[1..] ensures c != Recharge {
          assert c in cmds;
        }
      }
      FlatBatteryStaysPut(lvl, s, cmds[1..]);
    }
  }

  /** With less than 10 battery (here 5), `forward` reports the low battery and
      leaves everything as it was. */
  lemma LowBatteryScenario(lvl: Level, s: State)
    requires 0 <= s.heading < 4 && s.battery == 5
    ensures ForwardStep(lvl, s) == Step(s, LowBattery)
  {
  }

  /** At the origin facing WEST, `forward` hits the wall and changes nothing. */
  lemma WallScenario(lvl: Level)
    ensures ForwardStep(lvl, Initial().(heading := 3)) == Step(Initial().(heading := 3), Wall)
  {
  }

  /** Heading NORTH from the cell below the obstacle of the Easy level,
      `forward` is blocked and changes nothing. */
  lemma ObstacleScenario()
    ensures var s := State(1, 0, 0, 50);
            ForwardStep(EASY, s) == Step(s, Blocked(Cell(1, 1)))
  {
  }

  /** The route up the west edge and along the north edge of the Easy level:
      four moves NORTH, a right turn, four moves EAST. */
  const EASY_ROUTE: seq<Command> :=
    [Forward, Forward, Forward, Forward, Right, Forward, Forward, Forward, Forward]

  /** The state after the first k commands of the Easy route: k cells up the
      west edge, then (after the turn at k = 5) k - 5 cells along the north edge. */
  function EasyRouteState(k: nat): State {
    if k <= 4 then State(0, k, 0, FULL_BATTERY - MOVE_COST * k)
    else State(k - 5, 4, 1, FULL_BATTERY - MOVE_COST * 4 - TURN_COST - MOVE_COST * (k - 5))
  }

  /** Each command of the Easy route is accepted and leads to the next state. */
  lemma EasyRouteStep(i: nat)
    requires i < |EASY_ROUTE|
    ensures Execute(EASY, EasyRouteState(i), EASY_ROUTE[i]).state == EasyRouteState(i + 1)
  {
    if i == 4 {
      assert EASY_ROUTE[i] == Right;
    } else {
      assert EASY_ROUTE[i] == Forward;
      var s := EasyRouteState(i);
      assert Free(EASY, Ahead(s).x, Ahead(s).y);
    }
  }

  /** Running the first k commands of the Easy route from the start ends in
      the k-th state. */
  lemma {:induction false} EasyRoutePrefix(k: nat)
    requires k <= |EASY_ROUTE|
    ensures Run(EASY, Initial(), EASY_ROUTE[..k]) == EasyRouteState(k)
  {
    if k == 0 {
      assert EASY_ROUTE[..0] == [];
    } else {
      EasyRoutePrefix(k - 1);
      assert EASY_ROUTE[..k] == EASY_ROUTE[..k - 1] + [EASY_ROUTE[k - 1]];
      RunExtend(EASY, Initial(), EASY_ROUTE[..k - 1], EASY_ROUTE[k - 1]);
      EasyRouteStep(k - 1);
    }
  }

  /** Along the Easy route no move is refused, the goal check fires only after
      the last command, and the robot arrives facing EAST with 19 battery left. */
  lemma EasyRouteReachesGoal()
    ensures Run(EASY, Initial(), EASY_ROUTE) == State(4, 4, 1, 19)
    ensures AtGoal(EASY, Run(EASY, Initial(), EASY_ROUTE))
    ensures forall k :: 0 <= k < |EASY_ROUTE| ==> !AtGoal(EASY, Run(EASY, Initial(), EASY_ROUTE[..k]))
  {
    forall k | 0 <= k < |EASY_ROUTE| ensures !AtGoal(EASY, Run(EASY, Initial(), EASY_ROUTE[..k])) {
      EasyRoutePrefix(k);
    }
    EasyRoutePrefix(|EASY_ROUTE|);
    assert EASY_ROUTE[..|EASY_ROUTE|] == EASY_ROUTE;
  }

  /** Running a command list and then one more command is running the
      extended list. */
  lemma {:induction false} RunExtend(lvl: Level, s: State, cmds: seq<Command>, c: Command)
    requires 0 <= s.heading < 4
    ensures Run(lvl, s, cmds + [c]) == Execute(lvl, Run(lvl, s, cmds), c).state
    decreases |cmds|
  {
    if cmds == [] {
      assert cmds + [c] == [c];
      assert [c][1..] == [];
    } else {
      assert (cmds + [c])[0] == cmds[0];
      assert (cmds + [c])[1..] == cmds[1..] + [c];
      RunExtend(lvl, Execute(lvl, s, cmds[0]).state, cmds[1..], c);
    }
  }

  /** Reaching the goal does not end the session: on every level, a robot on
      the goal facing SOUTH with enough battery can still move. */
  lemma GoalIsNotTerminal(name: string, lvl: Level, s: State)
    requires GetLevel(name) == Some(lvl)
    requires AtGoal(lvl, s) && s.heading == 2 && s.battery >= MOVE_COST
    ensures ForwardStep(lvl, s).outcome.Moved?
    ensures !AtGoal(lvl, ForwardStep(lvl, s).state)
  {
  }
}
