/**
 * The agent's behaviour on values: its state as a record, one function per
 * operation, and the invariants the operations keep. The `Agent` class
 * (module `Agents`) is proved to follow these functions.
 */
module AgentSpec {
  import opened Common
  import opened Geometry
  import opened Perception
  import opened Brains

  const Black := Color(0, 0, 0)
  const Red := Color(139, 0, 0)
  const Green := Color(0, 100, 0)

  /** Side of the square grid cells fitness is counted in. */
  const CellSize := 300.0
  /** Seconds an agent lives before it times out. */
  const MaxLifespan := 10.0
  /** The agent's body is a circle of this radius. */
  const AgentRadius := 10.0

  /** A grid cell: `(x // 300, y // 300)`. */
  datatype Cell = Cell(x: int, y: int)

  function CellOf(p: Point): (c: Cell)
  {
    Cell((p.x / CellSize).Floor, (p.y / CellSize).Floor)
  }

  /** The cell of `p` is the 300 x 300 square that contains it. */
  lemma CellContains(p: Point)
    ensures var c := CellOf(p);
      && (c.x as real) * CellSize <= p.x < ((c.x + 1) as real) * CellSize
      && (c.y as real) * CellSize <= p.y < ((c.y + 1) as real) * CellSize
  {
    var c := CellOf(p);
    assert (c.x as real) <= p.x / CellSize < (c.x as real) + 1.0;
    assert (c.y as real) <= p.y / CellSize < (c.y as real) + 1.0;
  }

  /** What an agent is given at construction and never changes. */
  datatype Config = Config(
    walls: seq<Wall>,
    rayLength: real,
    rayAngles: seq<real>,
    moveSpeed: real,
    rotateSpeed: real,
    startTime: real,
    num: Numerics)

  /** The fields the agent's methods update. */
  datatype AgentState = AgentState(
    position: Point,
    angle: real,
    velocity: Point,
    alive: bool,
    lifespan: real,
    collisionColor: Color,
    fitness: nat,
    visited: set<Cell>,
    trail: seq<Point>)

  /** The state of a newly constructed agent. */
  function Fresh(position: Point, angle: real): (s: AgentState)
    ensures s.alive && s.fitness == 0 && s.visited == {} && s.trail == []
    ensures s.velocity == Point(0.0, 0.0) && s.position == position
  {
    AgentState(position, angle, Point(0.0, 0.0), true, 0.0, Black, 0, {}, [])
  }

  // ---------------------------------------------------------------------
  // Collision
  // ---------------------------------------------------------------------

  predicate Collides(w: Wall, p: Point)
  {
    LineIntersectCircle(w.start, w.end, p, AgentRadius)
  }

  /** The first wall, from index `k` on, that a body centred at `p` touches. */
  function FirstCollisionFrom(walls: seq<Wall>, p: Point, k: nat): (r: Option<nat>)
    requires k <= |walls|
    ensures r.Some? ==>
      && k <= r.value < |walls| && Collides(walls[r.value], p)
      && forall j :: k <= j < r.value ==> !Collides(walls[j], p)
    ensures r.None? <==> forall j :: k <= j < |walls| ==> !Collides(walls[j], p)
    decreases |walls| - k
  {
    if k == |walls| then None
    else if Collides(walls[k], p) then Some(k)
    else FirstCollisionFrom(walls, p, k + 1)
  }

  function FirstCollision(walls: seq<Wall>, p: Point): Option<nat>
  {
    FirstCollisionFrom(walls, p, 0)
  }

  /**
   * The side effects of `check_collision(p)`: on the first wall hit, the
   * lifespan becomes the time alive so far and the collision colour that
   * wall's colour; without a hit nothing changes.
   */
  function Collided(s: AgentState, cfg: Config, p: Point, now: real): AgentState
  {
    match FirstCollision(cfg.walls, p)
    case None => s
    case Some(i) => s.(lifespan := now - cfg.startTime, collisionColor := cfg.walls[i].tag)
  }

  // ---------------------------------------------------------------------
  // Operations
  // ---------------------------------------------------------------------

  function Died(s: AgentState): AgentState
  {
    s.(alive := false)
  }

  /**
   * `update_fitness_and_trail(p)`: the cell of `p` joins the visited set,
   * fitness grows by one when the cell is new, and the current position is
   * appended to the trail.
   */
  function Explored(s: AgentState, p: Point): AgentState
  {
    var c := CellOf(p);
    s.(visited := s.visited + {c},
       fitness := if c in s.visited then s.fitness else s.fitness + 1,
       trail := s.trail + [s.position])
  }

  /** The velocity a move with signed speed factor `level` sets: `level * move_speed * (cos, sin)`. */
  function Velocity(angle: real, cfg: Config, level: real): Point
  {
    Scale(Heading(angle, cfg.num), level * cfg.moveSpeed)
  }

  /**
   * The rest of a move once the velocity `v` is set: the step to
   * `position + v` is taken if it collides with no wall, and otherwise the
   * agent dies where it stands.
   */
  function Advanced(s: AgentState, cfg: Config, v: Point, now: real): AgentState
  {
    var p := Add(s.position, v);
    var s1 := s.(velocity := v);
    if FirstCollision(cfg.walls, p).None? then Explored(s1.(position := p), p)
    else Died(Collided(s1, cfg, p, now))
  }

  /**
   * A move with signed speed factor `level`, as `move_forward(level)` and
   * `move_backward(-level)` do it; a dead agent does not move.
   */
  function Moved(s: AgentState, cfg: Config, level: real, now: real): AgentState
  {
    if !s.alive then s else Advanced(s, cfg, Velocity(s.angle, cfg, level), now)
  }

  function MovedForward(s: AgentState, cfg: Config, thrustLevel: real, now: real): AgentState
  {
    Moved(s, cfg, thrustLevel, now)
  }

  function MovedBackward(s: AgentState, cfg: Config, brakeLevel: real, now: real): AgentState
  {
    Moved(s, cfg, -brakeLevel, now)
  }

  function RotatedLeft(s: AgentState, cfg: Config, turning: real): AgentState
  {
    if s.alive then s.(angle := s.angle - turning * cfg.rotateSpeed) else s
  }

  function RotatedRight(s: AgentState, cfg: Config, turning: real): AgentState
  {
    if s.alive then s.(angle := s.angle + turning * cfg.rotateSpeed) else s
  }

  /** `update_lifespan`: death once more than ten seconds have passed since construction. */
  function LifespanChecked(s: AgentState, cfg: Config, now: real): AgentState
  {
    if s.alive && now - cfg.startTime > MaxLifespan then Died(s) else s
  }

  /** `get_inputs` for the agent in state `s`. */
  function Inputs(s: AgentState, cfg: Config): (v: seq<real>)
    ensures |v| == |cfg.rayAngles| + 5
  {
    SensorVector(cfg.walls, cfg.rayAngles, cfg.rayLength, cfg.num, s.position, s.velocity, s.angle)
  }

  /** The brain takes the agent's sensor vector and has the three outputs read. */
  predicate BrainFits(b: Brain, cfg: Config)
  {
    b.Ready() && b.layerSizes[0] == |cfg.rayAngles| + 5 && b.layerSizes[|b.weights|] >= 3
  }

  /**
   * What `neural_move` does with the brain's decision `a`: move forward by
   * the thrust, backward by the brake, and turn by `turning` (to the left,
   * by `-turning`, when it is negative).
   */
  function Steered(s: AgentState, cfg: Config, a: Actions, now: real): AgentState
  {
    var s1 := MovedForward(s, cfg, a.thrustLevel, now);
    var s2 := MovedBackward(s1, cfg, a.brakeLevel, now);
    Turned(s2, cfg, a.turning)
  }

  /** The turn of `neural_move`: to the left by `-turning` when it is negative, else to the right. */
  function Turned(s: AgentState, cfg: Config, turning: real): AgentState
  {
    if turning < 0.0 then RotatedLeft(s, cfg, -turning) else RotatedRight(s, cfg, turning)
  }

  /** `neural_move`: a live agent senses, asks its brain, and steers by the answer. */
  function NeuralStep(s: AgentState, cfg: Config, b: Brain, now: real): AgentState
    requires BrainFits(b, cfg)
  {
    if !s.alive then s else Steered(s, cfg, Decide(b, Inputs(s, cfg)), now)
  }

  // ---------------------------------------------------------------------
  // Properties of single operations
  // ---------------------------------------------------------------------

  /**
   * A move either commits or kills. When `position + velocity` touches no
   * wall, the agent stays alive at the new position and the trail grows by
   * exactly that point; otherwise the position is unchanged, the agent is
   * dead, and the collision colour is that of the first wall touched, in
   * list order.
   */
  lemma MoveCommitsOrKills(s: AgentState, cfg: Config, level: real, now: real)
    requires s.alive
    ensures var s' := Moved(s, cfg, level, now);
      var p := Add(s.position, s'.velocity);
      && s'.velocity == Scale(Heading(s.angle, cfg.num), level * cfg.moveSpeed)
      && s'.angle == s.angle
      && (FirstCollision(cfg.walls, p).None? ==>
            s'.alive && s'.position == p && s'.trail == s.trail + [p]
            && s'.lifespan == s.lifespan && s'.collisionColor == s.collisionColor)
      && (FirstCollision(cfg.walls, p).Some? ==>
            && !s'.alive && s'.position == s.position && s'.trail == s.trail
            && s'.visited == s.visited && s'.fitness == s.fitness
            && s'.lifespan == now - cfg.startTime
            && s'.collisionColor == cfg.walls[FirstCollision(cfg.walls, p).value].tag
            && exists i :: 0 <= i < |cfg.walls| && Collides(cfg.walls[i], p)
                 && s'.collisionColor == cfg.walls[i].tag
                 && forall j :: 0 <= j < i ==> !Collides(cfg.walls[j], p))
  {
    var s' := Moved(s, cfg, level, now);
    var p := Add(s.position, s'.velocity);
    var hit := FirstCollision(cfg.walls, p);
    if hit.Some? {
      var i := hit.value;
      assert Collides(cfg.walls[i], p) && forall j :: 0 <= j < i ==> !Collides(cfg.walls[j], p);
    }
  }

  /**
   * On a committed move fitness grows by exactly one iff the new cell was
   * not visited before, and the visited set gains exactly that cell.
   */
  lemma ExploredCountsNewCells(s: AgentState, p: Point)
    ensures var s' := Explored(s, p);
      && s'.visited == s.visited + {CellOf(p)}
      && (CellOf(p) !in s.visited <==> s'.fitness == s.fitness + 1)
      && (CellOf(p) in s.visited <==> s'.fitness == s.fitness)
  {
  }

  /** `fitness == len(visited_positions)`, as it is for a fresh agent. */
  predicate CountsCells(s: AgentState)
  {
    s.fitness == |s.visited|
  }

  lemma ExploredKeepsCount(s: AgentState, p: Point)
    requires CountsCells(s)
    ensures CountsCells(Explored(s, p))
  {
    var c := CellOf(p);
    if c !in s.visited {
      assert |s.visited + {c}| == |s.visited| + 1;
    } else {
      assert s.visited + {c} == s.visited;
    }
  }

  /** A move keeps the count and only ever grows what `Grows` names. */
  lemma AdvancedGrowsAndCounts(s: AgentState, cfg: Config, v: Point, now: real)
    ensures Grows(s, Advanced(s, cfg, v, now))
    ensures CountsCells(s) ==> CountsCells(Advanced(s, cfg, v, now))
  {
    var p := Add(s.position, v);
    if FirstCollision(cfg.walls, p).None? && CountsCells(s) {
      ExploredKeepsCount(s.(velocity := v, position := p), p);
    }
  }

  lemma MovedGrowsAndCounts(s: AgentState, cfg: Config, level: real, now: real)
    ensures Grows(s, Moved(s, cfg, level, now))
    ensures CountsCells(s) ==> CountsCells(Moved(s, cfg, level, now))
  {
    if s.alive {
      AdvancedGrowsAndCounts(s, cfg, Velocity(s.angle, cfg, level), now);
    }
  }

  lemma SteeredGrowsAndCounts(s: AgentState, cfg: Config, a: Actions, now: real)
    ensures Grows(s, Steered(s, cfg, a, now))
    ensures CountsCells(s) ==> CountsCells(Steered(s, cfg, a, now))
  {
    var s1 := MovedForward(s, cfg, a.thrustLevel, now);
    MovedGrowsAndCounts(s, cfg, a.thrustLevel, now);
    MovedGrowsAndCounts(s1, cfg, -a.brakeLevel, now);
  }

  lemma NeuralStepGrowsAndCounts(s: AgentState, cfg: Config, b: Brain, now: real)
    requires BrainFits(b, cfg)
    ensures Grows(s, NeuralStep(s, cfg, b, now))
    ensures CountsCells(s) ==> CountsCells(NeuralStep(s, cfg, b, now))
  {
    if s.alive {
      SteeredGrowsAndCounts(s, cfg, Decide(b, Inputs(s, cfg)), now);
    }
  }

  /** A move leaves the heading alone. */
  lemma MovedKeepsAngle(s: AgentState, cfg: Config, level: real, now: real)
    ensures Moved(s, cfg, level, now).angle == s.angle
  {
  }

  /**
   * The turn of a tick: whatever branch is taken, the heading changes by
   * `turning * rotate_speed` if the agent survived both moves, and not at
   * all otherwise.
   */
  lemma SteeredTurn(s: AgentState, cfg: Config, a: Actions, now: real)
    ensures var s' := Steered(s, cfg, a, now);
      s'.angle == s.angle + (if s'.alive then a.turning * cfg.rotateSpeed else 0.0)
  {
    var s1 := MovedForward(s, cfg, a.thrustLevel, now);
    var s2 := MovedBackward(s1, cfg, a.brakeLevel, now);
    MovedKeepsAngle(s, cfg, a.thrustLevel, now);
    MovedKeepsAngle(s1, cfg, -a.brakeLevel, now);
    TurnedAngle(s2, cfg, a.turning);
  }

  /**
   * Either branch of the turn changes the heading by `turning *
   * rotate_speed` for a live agent, and leaves a dead one alone.
   */
  lemma TurnedAngle(s: AgentState, cfg: Config, turning: real)
    ensures var s' := Turned(s, cfg, turning);
      && s' == s.(angle := s'.angle)
      && s'.angle == s.angle + (if s.alive then turning * cfg.rotateSpeed else 0.0)
  {
    if turning < 0.0 && s.alive {
      assert s.angle - (-turning) * cfg.rotateSpeed == s.angle + turning * cfg.rotateSpeed;
    }
  }

  /** The same for a tick of `neural_move`, with the turning the brain decides. */
  lemma NeuralStepTurn(s: AgentState, cfg: Config, b: Brain, now: real)
    requires BrainFits(b, cfg) && s.alive
    ensures var a := Decide(b, Inputs(s, cfg));
      var s' := NeuralStep(s, cfg, b, now);
      s'.angle == s.angle + (if s'.alive then a.turning * cfg.rotateSpeed else 0.0)
  {
    SteeredTurn(s, cfg, Decide(b, Inputs(s, cfg)), now);
  }

  // ---------------------------------------------------------------------
  // Sequences of calls
  // ---------------------------------------------------------------------

  /** A public call on an agent, with the clock reading it sees. */
  datatype Call =
    | MoveForward(thrustLevel: real, now: real)
    | MoveBackward(brakeLevel: real, now: real)
    | RotateLeft(turning: real)
    | RotateRight(turning: real)
    | Die
    | NeuralMove(now: real)
    | UpdateLifespan(now: real)

  function Step(s: AgentState, cfg: Config, b: Brain, c: Call): AgentState
    requires BrainFits(b, cfg)
  {
    match c
    case MoveForward(t, now) => MovedForward(s, cfg, t, now)
    case MoveBackward(l, now) => MovedBackward(s, cfg, l, now)
    case RotateLeft(t) => RotatedLeft(s, cfg, t)
    case RotateRight(t) => RotatedRight(s, cfg, t)
    case Die => Died(s)
    case NeuralMove(now) => NeuralStep(s, cfg, b, now)
    case UpdateLifespan(now) => LifespanChecked(s, cfg, now)
  }

  function Run(s: AgentState, cfg: Config, b: Brain, calls: seq<Call>): AgentState
    requires BrainFits(b, cfg)
    decreases |calls|
  {
    if calls == [] then s else Run(Step(s, cfg, b, calls[0]), cfg, b, calls[1..])
  }

  /**
   * What no call undoes: an agent that is alive afterwards was alive before,
   * fitness never drops, the visited set only grows, and the old trail
   * stays a prefix of the new.
   */
  predicate Grows(s: AgentState, s': AgentState)
  {
    && (s'.alive ==> s.alive)
    && s.fitness <= s'.fitness
    && s.visited <= s'.visited
    && s.trail <= s'.trail
  }

  lemma StepGrowsAndCounts(s: AgentState, cfg: Config, b: Brain, c: Call)
    requires BrainFits(b, cfg)
    ensures Grows(s, Step(s, cfg, b, c))
    ensures CountsCells(s) ==> CountsCells(Step(s, cfg, b, c))
  {
    match c
    case MoveForward(t, now) => MovedGrowsAndCounts(s, cfg, t, now);
    case MoveBackward(l, now) => MovedGrowsAndCounts(s, cfg, -l, now);
    case NeuralMove(now) => NeuralStepGrowsAndCounts(s, cfg, b, now);
    case RotateLeft(t) =>
    case RotateRight(t) =>
    case Die =>
    case UpdateLifespan(now) =>
  }

  /**
   * Over any sequence of calls, `fitness == len(visited_positions)` is kept,
   * fitness never drops, `alive` never returns to true, visited cells are
   * never forgotten and the trail is only ever extended.
   */
  lemma {:induction false} RunGrowsAndCounts(s: AgentState, cfg: Config, b: Brain, calls: seq<Call>)
    requires BrainFits(b, cfg)
    ensures Grows(s, Run(s, cfg, b, calls))
    ensures CountsCells(s) ==> CountsCells(Run(s, cfg, b, calls))
    decreases |calls|
  {
    if calls != [] {
      var s1 := Step(s, cfg, b, calls[0]);
      StepGrowsAndCounts(s, cfg, b, calls[0]);
      RunGrowsAndCounts(s1, cfg, b, calls[1..]);
    }
  }

  /** One tick of the main loop for one agent: `neural_move()`, then `update_lifespan()`. */
  function Ticked(s: AgentState, cfg: Config, b: Brain, now: real): AgentState
    requires BrainFits(b, cfg)
  {
    LifespanChecked(NeuralStep(s, cfg, b, now), cfg, now)
  }

  /** A tick is the two-call run `[NeuralMove(now), UpdateLifespan(now)]`, so it keeps what runs keep. */
  lemma TickedIsRun(s: AgentState, cfg: Config, b: Brain, now: real)
    requires BrainFits(b, cfg)
    ensures Ticked(s, cfg, b, now) == Run(s, cfg, b, [NeuralMove(now), UpdateLifespan(now)])
    ensures Grows(s, Ticked(s, cfg, b, now))
    ensures CountsCells(s) ==> CountsCells(Ticked(s, cfg, b, now))
  {
    var calls := [NeuralMove(now), UpdateLifespan(now)];
    var s1 := Step(s, cfg, b, NeuralMove(now));
    assert calls[1..] == [UpdateLifespan(now)] && calls[1..][1..] == [];
    assert Run(s1, cfg, b, [UpdateLifespan(now)]) == Run(Step(s1, cfg, b, UpdateLifespan(now)), cfg, b, []);
    RunGrowsAndCounts(s, cfg, b, calls);
  }

  /** Every agent, from construction on, has as much fitness as visited cells. */
  lemma FreshAgentCountsCells(position: Point, angle: real, cfg: Config, b: Brain, calls: seq<Call>)
    requires BrainFits(b, cfg)
    ensures CountsCells(Run(Fresh(position, angle), cfg, b, calls))
  {
    RunGrowsAndCounts(Fresh(position, angle), cfg, b, calls);
  }

  /** A dead agent is frozen: no sequence of `Call`s changes any of its fields. */
  lemma {:induction false} DeadAgentIsFrozen(s: AgentState, cfg: Config, b: Brain, calls: seq<Call>)
    requires BrainFits(b, cfg) && !s.alive
    ensures Run(s, cfg, b, calls) == s
    decreases |calls|
  {
    if calls != [] {
      assert Step(s, cfg, b, calls[0]) == s;
      DeadAgentIsFrozen(s, cfg, b, calls[1..]);
    }
  }

  /**
   * The position changes only by a committed move: if a move changes it,
   * the agent was and stays alive, the new position is the old plus the new
   * velocity, and no wall touches it.
   */
  lemma PositionChangesOnlyWithoutCollision(s: AgentState, cfg: Config, level: real, now: real)
    ensures var s' := Moved(s, cfg, level, now);
      s'.position != s.position ==>
        s.alive && s'.alive && s'.position == Add(s.position, s'.velocity)
        && FirstCollision(cfg.walls, s'.position).None?
  {
  }

  /**
   * A committed move enters the cell of its new position, and fitness rises
   * by one exactly when that cell had not been visited before.
   */
  lemma CommittedMoveCountsNewCell(s: AgentState, cfg: Config, level: real, now: real)
    requires s.alive
    ensures var s' := Moved(s, cfg, level, now);
      var p := Add(s.position, s'.velocity);
      FirstCollision(cfg.walls, p).None? ==>
        && s'.visited == s.visited + {CellOf(p)}
        && (s'.fitness == s.fitness + 1 <==> CellOf(p) !in s.visited)
        && (s'.fitness == s.fitness <==> CellOf(p) in s.visited)
  {
  }

  /** Without walls no move kills: the agent is still alive afterwards. */
  lemma NoWallsNoCollisionDeath(s: AgentState, cfg: Config, level: real, now: real)
    requires cfg.walls == [] && s.alive
    ensures Moved(s, cfg, level, now).alive
  {
  }

  /**
   * The same for a tick of steering: if it changes the position, the agent
   * was alive and ends at a position no wall touches (it may still have
   * died on the second move, which leaves it where the first one put it).
   */
  lemma SteeredMovesOnlyWithoutCollision(s: AgentState, cfg: Config, a: Actions, now: real)
    ensures var s' := Steered(s, cfg, a, now);
      s'.position != s.position ==> s.alive && FirstCollision(cfg.walls, s'.position).None?
  {
    var s1 := MovedForward(s, cfg, a.thrustLevel, now);
    PositionChangesOnlyWithoutCollision(s, cfg, a.thrustLevel, now);
    PositionChangesOnlyWithoutCollision(s1, cfg, -a.brakeLevel, now);
    MovedGrowsAndCounts(s1, cfg, -a.brakeLevel, now);
  }

  /** And for every call. */
  lemma StepMovesOnlyWithoutCollision(s: AgentState, cfg: Config, b: Brain, c: Call)
    requires BrainFits(b, cfg)
    ensures var s' := Step(s, cfg, b, c);
      s'.position != s.position ==> s.alive && FirstCollision(cfg.walls, s'.position).None?
  {
    match c
    case MoveForward(t, now) => PositionChangesOnlyWithoutCollision(s, cfg, t, now);
    case MoveBackward(l, now) => PositionChangesOnlyWithoutCollision(s, cfg, -l, now);
    case NeuralMove(now) =>
      if s.alive {
        SteeredMovesOnlyWithoutCollision(s, cfg, Decide(b, Inputs(s, cfg)), now);
      }
    case RotateLeft(t) =>
    case RotateRight(t) =>
    case Die =>
    case UpdateLifespan(now) =>
  }
}
