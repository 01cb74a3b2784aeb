# Pathfinders: a verified model of the maze agents

Pathfinders is a small neuro-evolution demo. Eight agents start at a
fixed point of an S-shaped labyrinth of twelve walls. Each tick, every
agent:

- senses the walls with a fan of seven rays;
- feeds the distances, its position, its velocity and its heading to a
  small feedforward network;
- moves forward by the network's thrust, backward by its brake, and turns
  by its turning output.

A move whose new position the collision test flags kills the agent
instead. The test flags a position when the foot of the perpendicular from
the centre onto a wall's line lies on the wall and within radius 10 of the
centre. Fitness is the number of distinct
300 x 300 grid cells the agent has entered. Every ten seconds the population
is replaced by fresh random agents. The exception is the first slot: it is a
fresh agent that reuses the brain of the fittest agent of the old
generation.

The model is written in Dafny. Numbers are mathematical reals. `cos`,
`sin`, `sqrt`, the logistic sigmoid, `tanh` and pi are left uninterpreted:
they are fields of the `Numerics` record, so every property holds whatever
they are.

| file | module | models |
|---|---|---|
| `common.dfy` | `Common` | `Option`, the `Numerics` record |
| `geometry.dfy` | `Geometry` | `ray_intersect` and `line_intersect_circle` as pure functions, and what they decide |
| `geometry_examples.dfy` | `GeometryExamples` | the two wall tests on concrete coordinates |
| `perception.dfy` | `Perception` | `np.linspace` of the ray fan, the closest-hit scan, the sensor vector |
| `brain.dfy` | `Brains` | activations, the forward pass as functions, and the class `Brain` with `__init__`, `forward`, `decide_action` |
| `agent_spec.dfy` | `AgentSpec` | the agent's state as a value, one function per method, lifecycle, fitness and trail invariants over any sequence of calls |
| `agent.dfy` | `Agents` | the class `Agent`; each method is proved to produce what its `AgentSpec` function gives |
| `scheduler.dfy` | `Scheduler` | the constants of `ray.py`, `spawn_new_generation`, the best-agent selection, the generation timer and the per-tick loop |

The imperative parts keep their form:

- The agent is a class whose methods update its fields.
- The loops of `check_collision`, `find_closest_intersection`,
  `get_inputs`, `Brain.__init__`, `forward`, `spawn_new_generation` and the
  tick loop are `while` loops with invariants.
- Each method's `ensures` ties the new state (or the result) to a
  specification function. The lemmas are stated about those functions.

Behaviour of the code worth knowing:

- `update_fitness_and_trail` appends `self.position` after `position` has
  been assigned, so the trail gains the *new* position, not the pre-move
  one.
- `line_intersect_circle` does not clamp the foot of the perpendicular onto
  the segment. It rejects any foot outside the wall's bounding box, so a
  contact with the end of a wall can go unnoticed (`EndOfWallContactMissed`).
- `rotate_left` / `rotate_right` do nothing on a dead agent.
- A zero-length wall is not guarded against. In numpy, 0 / 0 gives NaN and
  every comparison with NaN is false, so such a wall never collides. The
  model returns `false` there.
- `update_lifespan` kills a timed-out agent without setting `lifespan`, so
  an agent that dies of old age keeps lifespan 0 (only a collision, which
  also kills, records one).

## Model

| member | source | states |
|---|---|---|
| Geometry.RayIntersect | agent.py:170-187 | `ray_intersect`: parallel ray and wall give None; a returned point is the wall's point at a parameter in [0, 1], reached at a positive ray parameter |
| Geometry.RayIntersectSound | agent.py:170-187 | Parallel ray and wall (`denom == 0`) give None. A returned point is `wall_start + t * (wall_end - wall_start)` with `0 <= t <= 1`, the equation's `u` is positive, and the point is also `origin + u * dir` |
| Geometry.HitIsOnRay | agent.py:176-184 | The solved parameters put the wall point and the ray point at the same place (Cramer's rule) |
| Geometry.RayIntersectComplete | agent.py:176-187 | Conversely, every non-parallel crossing (`denom != 0`) at a wall parameter in [0, 1] and any positive ray parameter is reported; there is no upper bound on `u` |
| GeometryExamples.RayExample | agent.py:170-187 | Concrete hit: the ray from (50, -50) along (0, 600) meets the wall (0, 0)-(100, 0) at (50, 0) |
| GeometryExamples.RayHitBeyondLength | agent.py:183-185 | Concrete hit 1000 units away from a ray of nominal length 600 |
| Geometry.FootIsPerpendicular | agent.py:194-199 | `(c - e) . (b - a) == 0` for the projected point `e` |
| Geometry.FootIsNearestOnLine | agent.py:194-200 | The projected point is the point of the wall's line nearest to the centre |
| Geometry.InBoxIffOnSegment | agent.py:201 | A point of the wall's line is in the wall's bounding box iff its parameter is in [0, 1] |
| Geometry.LineIntersectCircle | agent.py:189-201 | `line_intersect_circle`: the contact test on the unclamped foot of the perpendicular; its meaning is stated by `LineIntersectCircleMeaning` |
| Geometry.LineIntersectCircleMeaning | agent.py:189-201 | The collision test holds iff the wall has positive length, the foot's parameter is in [0, 1], `radius >= 0` and the foot is within `radius` of the centre (squared, sqrt-free) |
| Geometry.CollisionIsSound | agent.py:189-201 | A reported collision has a point of the segment within `radius` of the centre |
| Geometry.NoCollisionBeforeStart | agent.py:197-201 | A foot before the start of the wall means no collision |
| Geometry.CollisionOnSegment | agent.py:194-201 | A foot on the segment within `radius` of the centre means a collision |
| GeometryExamples.EndOfWallContactMissed | agent.py:197-201 | The end (0, 0) of a wall lies 5 from a centre of radius 10, yet no collision is reported, because the foot is not clamped |
| Perception.Linspace | agent.py:26 | `n` values, the first `lo` and the last `hi` |
| Perception.LinspaceEvenlySpaced | agent.py:26 | Consecutive ray angles are `(hi - lo) / (n - 1)` apart |
| Perception.ClosestUpTo | agent.py:159-168 | The scan of `find_closest_intersection`: a found hit is the hit of the wall at its index, with that wall's colour and its squared distance to the origin |
| Perception.ClosestUpToIsNearest | agent.py:154-168 | NoHit iff no wall is hit. Otherwise the result is some wall's hit with its tag, its squared distance to the origin, no farther than any other hit and strictly nearer than every earlier hit (first wall wins on ties) |
| Perception.SensorVectorLayout | agent.py:203-210 | `num_rays + 5` values. A ray with no hit reads `ray_length`; otherwise it reads the distance to the nearest hit. Then `x, y, vx, vy, angle` in that order |
| Agents.Agent.FindClosestIntersection | agent.py:154-168 | The loop's result is the closest-hit scan over all walls along `ray_dir * ray_length` |
| Agents.Agent.GetInputs | agent.py:203-210 | The loop builds exactly the sensor vector of the agent's current state |
| Brains.Relu | brain.py:25-26 | `relu(x) >= 0`, `>= x`, and is `x` or 0 |
| Brains.Activate | brain.py:28-34 | A value iff the name is `sigmoid`, `tanh` or `relu`, and then the matching function; any other name falls through to None |
| Brains.ActivateAll | brain.py:39 | A hidden activation is applied to every unit, keeps the length, and relu layers are non-negative |
| Brains.Layer | brain.py:39 | A hidden layer maps a vector of width `sizes[i]` to one of width `sizes[i + 1]` |
| Brains.Hidden | brain.py:37-40 | The activation list after `k` hidden layers has `k + 1` vectors, starts with the input, and vector `i` has width `sizes[i]` |
| Brains.HiddenStep | brain.py:38-40 | Activation `i + 1` is hidden layer `i` with `activation_functions[i]` applied to activation `i` |
| Brains.OutputLayer | brain.py:44-46 | Output unit `j` is `activate(z[j], output_activations[j])` |
| Brains.FinalInput | brain.py:43 | The output pre-activation has width `layer_sizes[-1]` |
| Brains.ForwardPassShape | brain.py:36-49 | `forward` returns `len(weights) + 1` vectors: the input, each hidden layer, and an output of width `layer_sizes[-1]` whose unit `j` passes `z[j]` through `output_activations[j]` |
| Brains.OnlyLeadingHiddenActivationsUsed | brain.py:38-39 | Only the first `len(weights) - 1` hidden activation names matter: with three matrices the third name is never used |
| Brains.Brain.constructor | brain.py:6-17 | `len(layer_sizes) - 1` matrices. Matrix `i` is `layer_sizes[i] x layer_sizes[i + 1]`, with entries the drawn samples scaled by `sqrt(2 / layer_sizes[i])`. Bias `i` has `layer_sizes[i + 1]` drawn entries |
| Brains.Brain.Forward | brain.py:36-49 | The two loops compute the forward pass |
| Brains.Brain.HiddenLayers | brain.py:37-40 | The hidden-layer loop yields the input followed by every hidden layer's activations, each layer fed by the one before |
| Brains.Brain.OutputUnits | brain.py:44-46 | The output loop passes unit `j` of the final affine map through `output_activations[j]`, for every unit |
| Brains.Brain.DecideAction | brain.py:51-59 | Outputs 0, 1, 2 become thrust, brake, turning, and the whole activation list is returned |
| Brains.Decide | brain.py:51-59 | Each control is the output activation of its pre-activation unit |
| AgentSpec.CellContains | agent.py:93-95 | The cell `(x // 300, y // 300)` is the 300 x 300 square containing the point |
| AgentSpec.Fresh | agent.py:32-40 | A new agent is alive with fitness 0, no visited cells, an empty trail and zero velocity |
| AgentSpec.FirstCollisionFrom | agent.py:80-86 | The first wall in list order that the body touches, and None iff no wall touches it |
| AgentSpec.MoveCommitsOrKills | agent.py:52-70 | The velocity becomes `level * move_speed * (cos, sin)`. Without collision the agent moves to `position + velocity` and the trail gains exactly that point. Otherwise the position, trail and fitness are unchanged, the agent is dead, the lifespan is the time since construction, and the collision colour is that of the first wall touched |
| AgentSpec.ExploredCountsNewCells | agent.py:91-99 | On a committed move the cell joins the visited set, and fitness grows by 1 iff the cell is new |
| AgentSpec.ExploredKeepsCount | agent.py:96-98 | `fitness == len(visited_positions)` is kept by the update |
| AgentSpec.AdvancedGrowsAndCounts | agent.py:55-60 | Once the velocity is set, the step keeps the count and only grows what `Grows` names (alive never returns, fitness, visited cells and trail never shrink) |
| AgentSpec.MovedGrowsAndCounts | agent.py:52-70 | A move keeps the count; `alive` never turns true, fitness never drops, the visited cells only grow, and the trail is only extended |
| AgentSpec.MovedKeepsAngle | agent.py:52-70 | A move does not change the heading |
| AgentSpec.SteeredGrowsAndCounts | agent.py:216-221 | Thrust, brake and turn keep the count, never lower fitness, and only grow |
| AgentSpec.NeuralStepGrowsAndCounts | agent.py:212-221 | So does `neural_move`: the count is kept and fitness never drops |
| AgentSpec.SteeredTurn | agent.py:216-221 | In both turn branches the heading changes by `turning * rotate_speed` when the agent survived both moves, and not at all otherwise |
| AgentSpec.TurnedAngle | agent.py:218-221 | Both branches of the turn change only the heading, by `turning * rotate_speed` for a live agent, and leave a dead one as it was |
| AgentSpec.NeuralStepTurn | agent.py:212-221 | The same, with the turning the brain decides |
| AgentSpec.StepGrowsAndCounts | agent.py:52-99 | Every call of `Call` (the moves, the rotations, `die`, `neural_move`, `update_lifespan`) keeps the count, never lowers fitness, and only grows |
| AgentSpec.RunGrowsAndCounts | agent.py:52-225 | Over any sequence of `Call`s the count is kept, fitness never drops, `alive` goes only from true to false, visited cells are never forgotten and the old trail stays a prefix |
| AgentSpec.FreshAgentCountsCells | agent.py:38-39 | From construction on, after any calls, `fitness == len(visited_positions)` |
| AgentSpec.DeadAgentIsFrozen | agent.py:53 | A dead agent is unchanged by every sequence of `Call`s (the moves, the rotations, `die`, `neural_move`, `update_lifespan`) |
| AgentSpec.CommittedMoveCountsNewCell | agent.py:55-58 | A move that commits adds the new position's cell to the visited set; fitness rises by one iff that cell is new, and stays put iff it was visited |
| AgentSpec.NoWallsNoCollisionDeath | agent.py:55-60 | With no walls, a live agent survives every move |
| AgentSpec.PositionChangesOnlyWithoutCollision | agent.py:55-60 | A move that changes the position was alive, stays alive, lands on `position + velocity`, and no wall touches that point |
| AgentSpec.SteeredMovesOnlyWithoutCollision | agent.py:216-221 | A tick of steering that changes the position was alive and ends where no wall touches |
| AgentSpec.StepMovesOnlyWithoutCollision | agent.py:52-225 | Any call that changes the position was alive and ends where no wall touches |
| AgentSpec.TickedIsRun | ray.py:130-131 | One tick (neural move, then lifespan check) is the run of those two calls, so it keeps the count, never lowers fitness (it is non-decreasing across a tick), and only grows |
| Agents.Agent.constructor | agent.py:21-49 | Fresh state; the ray fan is `linspace(-pi/4, pi/4, num_rays)`; the start time is the clock reading; and a new brain `[num_rays + 5, 8, 6, 3]` with `relu, tanh, relu` and `sigmoid, sigmoid, tanh`, which takes the agent's sensor vector |
| Agents.Agent.CheckCollision | agent.py:80-86 | True iff some wall touches the body. On the first such wall it records the lifespan and that wall's colour; nothing else changes |
| Agents.Agent.Die | agent.py:88-89 | Only `alive` becomes false |
| Agents.Agent.UpdateFitnessAndTrail | agent.py:91-99 | The new state is the fitness-and-trail update of the old one |
| Agents.Agent.Move | agent.py:52-70 | The new state is the move of the old one; the count invariant is kept |
| Agents.Agent.MoveForward | agent.py:52-60 | A move by `thrust_level` |
| Agents.Agent.MoveBackward | agent.py:62-70 | A move by `-brake_level` |
| Agents.Agent.RotateLeft | agent.py:72-74 | While alive, the heading decreases by `turning * rotate_speed`; nothing else changes |
| Agents.Agent.RotateRight | agent.py:76-78 | While alive, the heading increases by `turning * rotate_speed`; nothing else changes |
| Agents.Agent.Steer | agent.py:216-221 | Thrust, brake, then turn left by `-turning` when it is negative and right otherwise |
| Agents.Agent.NeuralMove | agent.py:212-221 | While alive, senses, asks the brain and steers; the brain itself is not changed |
| Agents.Agent.UpdateLifespan | agent.py:223-225 | An alive agent dies once more than 10 seconds have passed since construction |
| Scheduler.Simulation.Best | ray.py:93 | `max(agents, key=lambda agent: agent.fitness)`: an agent of the population whose fitness no agent exceeds, and the first such in list order |
| Scheduler.FirstMax | ray.py:93 | An index of maximum fitness, and the first one in list order among equal maxima |
| Scheduler.SpawnNewGeneration | ray.py:68-75 | Exactly `len(AGENT_COLORS)` distinct new agents, all fresh at the start position (the elite included, whose old fitness is not carried). Every agent has the default seven-ray fan `linspace(-pi/4, pi/4, 7)`. Slot `i` has colour `AGENT_COLORS[i]` and a new `[12, 8, 6, 3]` brain with the agent's activation lists, drawn from construction `i`'s samples, except that with a best agent slot 0 has the best agent's colour and the very same brain object |
| Scheduler.NewAgent | ray.py:71 | `Agent(position=start_position, walls=walls, color=color)`: a new agent with new brain, fresh at the start position with every default, the given colour, and a brain built from the given draws that fits its sensor vector |
| Scheduler.NewElite | ray.py:73-74 | The rebuilt slot 0: a new agent, fresh at the start position with every default and the best agent's colour, holding the very same brain object as the best agent |
| Scheduler.Simulation.constructor | ray.py:65-66 | The first generation is one fresh agent per colour; the generation timer starts at its own clock reading (ray.py line 87) |
| Scheduler.Simulation.MaybeReplace | ray.py:90-96 | Before 10 seconds nothing changes. Once `now - start_time >= 10`, the population is replaced by a spawned generation around the first fittest agent's colour and brain, the other seven agents get newly built brains, no old agent is modified, and the timer restarts at `now` |
| Scheduler.Simulation.StepAgents | ray.py:128-131 | Every agent gets one tick at `now`; its brain is untouched and the population invariant is kept |
| Scheduler.Tick | ray.py:130-131 | Agent `i`'s `neural_move()` followed by its `update_lifespan()` takes it to the ticked state and leaves every other agent of the list as it was |

## Left out

- Rendering and input: `Agent.draw*`, `whiten_color` and `trail_color` in
  agent.py; the window, surfaces, events, camera and drawing in ray.py;
  `draw_text` and `main` in brain.py. None of it feeds back into the
  simulation.
- newbrain.py (a standalone demo) and biome.py (terrain drawing) are not
  part of this model.
- Randomness. `np.random.randn` becomes the draw functions passed to the
  `Brain` constructor. The population takes one pair of draws per agent
  construction; construction `k` of a generation uses draw `k`, and the
  elite's rebuild is construction 8.
- The clock. Every `time.time()` becomes a `now` parameter. One tick passes
  one reading to every agent, whereas agent.py reads the clock again in
  each `check_collision` and `update_lifespan`. Likewise every agent of a
  generation gets the replacement's own reading `now` as its start time,
  whereas `Agent.__init__` reads the clock itself, once per agent and after
  the main loop's `current_time`.
- Floating point. Reals replace IEEE doubles, so there is no rounding,
  overflow, infinity or NaN. `cos`, `sin`, `sqrt`, sigmoid, `tanh` and pi
  are uninterpreted.
- Perception.ClosestUpTo: it compares squared distances, while agent.py
  compares `np.linalg.norm` values. The two orders agree because `sqrt` is
  monotone, which the uninterpreted `sqrt` does not state.
- Agents.Agent.FindClosestIntersection: it returns `NoHit` in place of the
  `(None, inf, RED)` triple of agent.py. A hit carries the squared distance;
  the reading is its `sqrt`.
- Geometry.LineIntersectCircle: the zero-length wall is modelled by its
  NaN outcome (no collision) and is not checked against numpy's warning.
- Brains.Brain.constructor: it requires every layer feeding another layer
  to be at least one unit wide, because `np.sqrt(2.0 / 0)` divides by
  zero in brain.py.
- Brains.Brain.Forward: it requires known activation names, at least one
  matrix and inputs of the first layer's width. An unknown hidden name, a
  shape mismatch or an empty weight list makes brain.py raise (`np.dot` on
  None, `np.dot` itself, `weights[-1]`). An unknown output name does not
  raise: numpy stores the `None` as NaN in that output unit and `forward`
  returns, so the failure comes later, in `int(nan // 300)` of agent.py.
  Reals cannot represent NaN, which is why `NetworkReady` and
  `OutputUnits` require a known name for every output unit too.
  `Agent.__init__` always passes known names.
- Brains.Brain.DecideAction: it requires at least three outputs, because
  `outputs[2]` raises otherwise.
- Agents.Agent.NeuralMove: it requires a brain that fits the sensor vector
  (`num_rays + 5` inputs). Otherwise `np.dot` in `forward` raises.
  The constructor and the population invariant provide this.
- `Call` leaves out `check_collision` and `update_fitness_and_trail`. Neither
  checks `alive`, but the code calls them only from the moves, on a live
  agent, so the lemmas over `Call` sequences do not cover direct calls.
- Agents.Agent.Move: `move_forward` and `move_backward` have identical bodies
  up to the sign of the speed factor, so both call one method.
- Scheduler.Simulation.StepAgents: it states each agent's tick but not the
  order of the ticks. Agents do not interact (the walls are constant and a
  shared brain is never modified), so the order cannot be observed.
- The main loop's other work, the `running` flag and `clock.tick(30)`, is
  not modelled; `MaybeReplace` and `StepAgents` are its simulation steps.
