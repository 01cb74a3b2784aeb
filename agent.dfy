/**
 * The agent as the simulation holds it: an object whose methods update its
 * position, heading, velocity, liveness, lifespan, fitness, visited cells
 * and trail in place. Every method is proved to take the state to what the
 * matching function of `AgentSpec` gives.
 */
module Agents {
  import opened Common
  import opened Geometry
  import opened Perception
  import opened Brains
  import opened AgentSpec

  /** The defaults of `Agent(...)` for the parameters the simulation never passes. */
  const DefaultNumRays: nat := 7
  const DefaultRayLength := 600.0
  const DefaultMoveSpeed := 5.0

  /** `np.pi / 36`: five degrees per unit of turning. */
  function DefaultRotateSpeed(num: Numerics): real
  {
    num.pi / 36.0
  }

  /** The widths of the brain every agent builds: sensors, 8, 6, and the three controls. */
  function BrainSizes(numRays: nat): seq<nat>
  {
    [numRays + 5, 8, 6, 3]
  }

  const HiddenActivations: seq<string> := ["relu", "tanh", "relu"]
  const OutputActivations: seq<string> := ["sigmoid", "sigmoid", "tanh"]

  class Agent {
    const walls: seq<Wall>
    const color: Color
    const numRays: nat
    const rayLength: real
    const rayAngles: seq<real>
    const moveSpeed: real
    const rotateSpeed: real
    const startTime: real
    const num: Numerics

    var position: Point
    var angle: real
    var velocity: Point
    var alive: bool
    var lifespan: real
    var collisionColor: Color
    var fitness: nat
    var visitedPositions: set<Cell>
    var trail: seq<Point>
    var brain: Brain

    /** The fields the methods update, as one value. */
    function State(): AgentState
      reads this
    {
      AgentState(position, angle, velocity, alive, lifespan, collisionColor, fitness, visitedPositions, trail)
    }

    /** The fields fixed at construction, as one value. */
    function Cfg(): Config
    {
      Config(walls, rayLength, rayAngles, moveSpeed, rotateSpeed, startTime, num)
    }

    /** One ray per angle, and `fitness == len(visited_positions)`. */
    predicate Valid()
      reads this
    {
      |rayAngles| == numRays && CountsCells(State())
    }

    /**
     * `Agent(position, walls, color, angle, num_rays, ray_length,
     * move_speed, rotate_speed)`, constructed at time `now`. The brain's
     * random draws are `weightDraw` and `biasDraw`.
     */
    constructor(position: Point, walls: seq<Wall>, color: Color, angle: real, numRays: nat,
                rayLength: real, moveSpeed: real, rotateSpeed: real, now: real,
                weightDraw: (nat, nat, nat) -> real, biasDraw: (nat, nat) -> real, num: Numerics)
      ensures Valid()
      ensures State() == Fresh(position, angle)
      ensures this.walls == walls && this.color == color && this.numRays == numRays
      ensures this.rayLength == rayLength && this.moveSpeed == moveSpeed && this.rotateSpeed == rotateSpeed
      ensures rayAngles == Linspace(-num.pi / 4.0, num.pi / 4.0, numRays)
      ensures startTime == now && this.num == num
      ensures fresh(brain) && brain.Valid()
      ensures brain.layerSizes == BrainSizes(numRays)
      ensures brain.activationFunctions == HiddenActivations && brain.outputActivations == OutputActivations
      ensures forall i :: 0 <= i < |brain.weights| ==>
                Drawn(brain.weights[i], brain.biases[i], i, brain.layerSizes[i], brain.layerSizes[i + 1],
                      weightDraw, biasDraw, num)
      ensures BrainFits(brain, Cfg())
    {
      this.position := position;
      this.angle := angle;
      this.numRays := numRays;
      this.rayLength := rayLength;
      this.rayAngles := Linspace(-num.pi / 4.0, num.pi / 4.0, numRays);
      this.moveSpeed := moveSpeed;
      this.rotateSpeed := rotateSpeed;
      this.walls := walls;
      this.color := color;
      this.alive := true;
      this.startTime := now;
      this.lifespan := 0.0;
      this.collisionColor := Black;
      this.velocity := Point(0.0, 0.0);
      this.fitness := 0;
      this.visitedPositions := {};
      this.trail := [];
      this.num := num;
      this.brain := new Brain(BrainSizes(numRays), HiddenActivations, OutputActivations, weightDraw, biasDraw, num);
    }

    /**
     * `check_collision(new_position)`: scans the walls in order and stops at
     * the first one the body at `p` touches, recording the time alive and
     * that wall's colour.
     */
    method CheckCollision(p: Point, now: real) returns (hit: bool)
      modifies this
      ensures hit <==> FirstCollision(walls, p).Some?
      ensures State() == Collided(old(State()), Cfg(), p, now)
      ensures brain == old(brain)
    {
      var i := 0;
      while i < |walls|
        invariant 0 <= i <= |walls|
        invariant FirstCollisionFrom(walls, p, 0) == FirstCollisionFrom(walls, p, i)
        invariant State() == old(State()) && brain == old(brain)
      {
        if Collides(walls[i], p) {
          lifespan := now - startTime;
          collisionColor := walls[i].tag;
          return true;
        }
        i := i + 1;
      }
      return false;
    }

    method Die()
      modifies this
      ensures State() == Died(old(State()))
      ensures brain == old(brain)
    {
      alive := false;
    }

    /** `update_fitness_and_trail(new_position)`, called once `position` is already `p`. */
    method UpdateFitnessAndTrail(p: Point)
      modifies this
      ensures State() == Explored(old(State()), p)
      ensures brain == old(brain)
    {
      var cell := CellOf(p);
      if cell !in visitedPositions {
        visitedPositions := visitedPositions + {cell};
        fitness := fitness + 1;
      }
      trail := trail + [position];
    }

    /** The body shared by `move_forward` and `move_backward`, with signed factor `level`. */
    method Move(level: real, now: real)
      requires Valid()
      modifies this
      ensures Valid()
      ensures State() == Moved(old(State()), Cfg(), level, now)
      ensures brain == old(brain)
    {
      MovedGrowsAndCounts(State(), Cfg(), level, now);
      if alive {
        velocity := Velocity(angle, Cfg(), level);
        var newPosition := Add(position, velocity);
        var collided := CheckCollision(newPosition, now);
        if !collided {
          position := newPosition;
          UpdateFitnessAndTrail(newPosition);
        } else {
          Die();
        }
      }
    }

    method MoveForward(thrustLevel: real, now: real)
      requires Valid()
      modifies this
      ensures Valid()
      ensures State() == MovedForward(old(State()), Cfg(), thrustLevel, now)
      ensures brain == old(brain)
    {
      Move(thrustLevel, now);
    }

    method MoveBackward(brakeLevel: real, now: real)
      requires Valid()
      modifies this
      ensures Valid()
      ensures State() == MovedBackward(old(State()), Cfg(), brakeLevel, now)
      ensures brain == old(brain)
    {
      Move(-brakeLevel, now);
    }

    method RotateLeft(turning: real)
      requires Valid()
      modifies this
      ensures Valid()
      ensures State() == RotatedLeft(old(State()), Cfg(), turning)
      ensures brain == old(brain)
    {
      if alive {
        angle := angle - turning * rotateSpeed;
      }
    }

    method RotateRight(turning: real)
      requires Valid()
      modifies this
      ensures Valid()
      ensures State() == RotatedRight(old(State()), Cfg(), turning)
      ensures brain == old(brain)
    {
      if alive {
        angle := angle + turning * rotateSpeed;
      }
    }

    /**
     * `find_closest_intersection(ray_dir)`: the nearest wall hit by the ray
     * of length `ray_length` along `rayDir`. `NoHit` stands for the
     * `(None, inf, RED)` that agent.py returns when no wall is hit.
     */
    method FindClosestIntersection(rayDir: Point) returns (closest: Sighting)
      ensures closest == ClosestUpTo(walls, position, Scale(rayDir, rayLength), |walls|)
    {
      var dir := Scale(rayDir, rayLength);
      closest := NoHit;
      var i := 0;
      while i < |walls|
        invariant 0 <= i <= |walls|
        invariant closest == ClosestUpTo(walls, position, dir, i)
      {
        var intersection := RayIntersect(position, dir, walls[i].start, walls[i].end);
        if intersection.Some? {
          var dist := Dist2(intersection.value, position);
          if closest.NoHit? || dist < closest.dist2 {
            closest := Hit(intersection.value, dist, walls[i].tag, i);
          }
        }
        i := i + 1;
      }
    }

    /** `get_inputs()`: one reading per ray, then position, velocity and heading. */
    method GetInputs() returns (inputs: seq<real>)
      ensures inputs == Inputs(State(), Cfg())
    {
      var readings := [];
      var i := 0;
      while i < |rayAngles|
        invariant 0 <= i <= |rayAngles|
        invariant readings == Readings(walls, rayAngles[..i], rayLength, num, position, angle)
      {
        var rayDir := Heading(angle + rayAngles[i], num);
        var closest := FindClosestIntersection(rayDir);
        ReadingsSnoc(walls, rayAngles[..i], rayLength, num, position, angle, rayAngles[i]);
        assert rayAngles[..i + 1] == rayAngles[..i] + [rayAngles[i]];
        readings := readings + [Reading(closest, rayLength, num)];
        i := i + 1;
      }
      assert rayAngles[..i] == rayAngles;
      inputs := readings + [position.x, position.y, velocity.x, velocity.y, angle];
    }

    /** The acting half of `neural_move()`: thrust, brake, then turn by the decided controls. */
    method Steer(actions: Actions, now: real)
      requires Valid()
      modifies this
      ensures Valid()
      ensures State() == Steered(old(State()), Cfg(), actions, now)
      ensures brain == old(brain)
    {
      MoveForward(actions.thrustLevel, now);
      MoveBackward(actions.brakeLevel, now);
      if actions.turning < 0.0 {
        RotateLeft(-actions.turning);
      } else {
        RotateRight(actions.turning);
      }
    }

    /** `neural_move()`: sense, decide, and act on the decision while alive. */
    method NeuralMove(now: real)
      requires Valid() && BrainFits(brain, Cfg())
      modifies this
      ensures brain == old(brain)
      ensures Valid()
      ensures State() == NeuralStep(old(State()), Cfg(), brain, now)
    {
      if alive {
        var inputs := GetInputs();
        var actions, _ := brain.DecideAction(inputs);
        Steer(actions, now);
      }
    }

    /** `update_lifespan()`: death by timeout. */
    method UpdateLifespan(now: real)
      requires Valid()
      modifies this
      ensures Valid()
      ensures State() == LifespanChecked(old(State()), Cfg(), now)
      ensures brain == old(brain)
    {
      if alive && now - startTime > MaxLifespan {
        Die();
      }
    }
  }
}
