/**
 * The main loop's simulation logic: the fixed maze, the population of
 * eight agents, the replacement of the population every ten seconds by a
 * fresh one whose first agent inherits the fittest agent's colour and
 * brain, and the per-tick update of every agent.
 */
module Scheduler {
  import opened Common
  import opened Geometry
  import opened Perception
  import opened Brains
  import opened AgentSpec
  import opened Agents

  /** One colour per agent of a generation: red, green, blue, yellow, magenta, cyan, orange, purple. */
  const AgentColors: seq<Color> := [
    Color(255, 0, 0), Color(0, 255, 0), Color(0, 0, 255), Color(255, 255, 0),
    Color(255, 0, 255), Color(0, 255, 255), Color(255, 165, 0), Color(128, 0, 128)]

  /** The S-shaped labyrinth: four red outer walls, then eight green inner ones. */
  const Walls: seq<Wall> := [
    Wall(Point(100.0, 100.0), Point(1900.0, 100.0), Red),
    Wall(Point(1900.0, 100.0), Point(1900.0, 1400.0), Red),
    Wall(Point(1900.0, 1400.0), Point(100.0, 1400.0), Red),
    Wall(Point(100.0, 1400.0), Point(100.0, 100.0), Red),
    Wall(Point(100.0, 400.0), Point(1600.0, 400.0), Green),
    Wall(Point(1600.0, 400.0), Point(1600.0, 1100.0), Green),
    Wall(Point(1600.0, 1100.0), Point(600.0, 1100.0), Green),
    Wall(Point(600.0, 1100.0), Point(600.0, 600.0), Green),
    Wall(Point(600.0, 600.0), Point(1300.0, 600.0), Green),
    Wall(Point(1300.0, 600.0), Point(1300.0, 900.0), Green),
    Wall(Point(1300.0, 900.0), Point(300.0, 900.0), Green),
    Wall(Point(300.0, 900.0), Point(300.0, 1200.0), Green)]

  const StartPosition := Point(200.0, 200.0)
  /** Seconds per generation. */
  const GenerationTime := 10.0

  /**
   * `max(range(len(fs)), key=lambda i: fs[i])`: an index of a greatest
   * value, and the first such index, since a later value replaces the best
   * so far only when strictly greater.
   */
  function FirstMax(fs: seq<int>): (i: nat)
    requires |fs| > 0
    ensures i < |fs|
    ensures forall j :: 0 <= j < |fs| ==> fs[j] <= fs[i]
    ensures forall j :: 0 <= j < i ==> fs[j] < fs[i]
    decreases |fs|
  {
    if |fs| == 1 then 0
    else
      var k := FirstMax(fs[..|fs| - 1]);
      if fs[|fs| - 1] > fs[k] then |fs| - 1 else k
  }

  function Fitnesses(agents: seq<Agent>): (fs: seq<int>)
    reads set a | a in agents
    ensures |fs| == |agents| && forall i :: 0 <= i < |agents| ==> fs[i] == agents[i].fitness
  {
    seq(|agents|, i requires 0 <= i < |agents| reads set a | a in agents => agents[i].fitness)
  }

  /**
   * `Agent(position=start_position, walls=walls, color=...)` at time `now`:
   * every parameter but the colour at its default, and the state fresh.
   */
  ghost predicate Spawned(a: Agent, now: real, num: Numerics)
    reads a
  {
    && a.Valid()
    && a.State() == Fresh(StartPosition, 0.0)
    && a.walls == Walls && a.numRays == DefaultNumRays && a.rayLength == DefaultRayLength
    && a.rayAngles == Linspace(-num.pi / 4.0, num.pi / 4.0, DefaultNumRays)
    && a.moveSpeed == DefaultMoveSpeed && a.rotateSpeed == DefaultRotateSpeed(num)
    && a.startTime == now && a.num == num
  }

  /**
   * The brain `Agent.__init__` builds from the draws `weightDraw` and
   * `biasDraw`: layers `[num_rays + 5, 8, 6, 3]`, the agent's activation
   * lists, and every layer drawn from those samples.
   */
  predicate BrainBuilt(b: Brain, numRays: nat, weightDraw: (nat, nat, nat) -> real,
                       biasDraw: (nat, nat) -> real, num: Numerics)
  {
    && b.Valid()
    && b.layerSizes == BrainSizes(numRays)
    && b.activationFunctions == HiddenActivations && b.outputActivations == OutputActivations
    && forall i :: 0 <= i < |b.weights| ==>
         Drawn(b.weights[i], b.biases[i], i, b.layerSizes[i], b.layerSizes[i + 1], weightDraw, biasDraw, num)
  }

  /**
   * Slot `k` of a new generation, as the loop of `spawn_new_generation`
   * builds it: spawned at `now` with colour `AGENT_COLORS[k]`, and a brain
   * drawn from construction `k`'s samples.
   */
  ghost predicate BuiltSlot(a: Agent, k: nat, now: real, weightDraws: nat -> (nat, nat, nat) -> real,
                            biasDraws: nat -> (nat, nat) -> real, num: Numerics)
    requires k < |AgentColors|
    reads a
  {
    && Spawned(a, now, num)
    && a.color == AgentColors[k]
    && BrainBuilt(a.brain, DefaultNumRays, weightDraws(k), biasDraws(k), num)
    && BrainFits(a.brain, a.Cfg())
  }

  /**
   * `spawn_new_generation(best_agent)` at time `now`: one fresh agent per
   * colour; with a best agent, slot 0 is rebuilt with the best agent's
   * colour and then handed the best agent's brain. Construction number `k`
   * draws its brain's weights from `weightDraws(k)` and `biasDraws(k)`.
   */
  method SpawnNewGeneration(best: Agent?, now: real, weightDraws: nat -> (nat, nat, nat) -> real,
                            biasDraws: nat -> (nat, nat) -> real, num: Numerics)
    returns (newAgents: seq<Agent>)
    ensures |newAgents| == |AgentColors|
    ensures forall i :: 0 <= i < |newAgents| ==> fresh(newAgents[i]) && Spawned(newAgents[i], now, num)
    ensures forall i, j :: 0 <= i < j < |newAgents| ==> newAgents[i] != newAgents[j]
    ensures forall i :: 0 <= i < |newAgents| && (i > 0 || best == null) ==>
              fresh(newAgents[i].brain) && BuiltSlot(newAgents[i], i, now, weightDraws, biasDraws, num)
    ensures best != null ==> newAgents[0].color == best.color && newAgents[0].brain == best.brain
  {
    newAgents := [];
    var i := 0;
    while i < |AgentColors|
      invariant 0 <= i <= |AgentColors|
      invariant |newAgents| == i
      invariant forall k :: 0 <= k < i ==>
                  && fresh(newAgents[k]) && fresh(newAgents[k].brain)
                  && BuiltSlot(newAgents[k], k, now, weightDraws, biasDraws, num)
      invariant forall k, j :: 0 <= k < j < i ==> newAgents[k] != newAgents[j]
    {
      var a := NewAgent(AgentColors[i], now, weightDraws(i), biasDraws(i), num);
      newAgents := newAgents + [a];
      i := i + 1;
    }
    if best != null {
      var elite := NewElite(best, now, weightDraws(|AgentColors|), biasDraws(|AgentColors|), num);
      newAgents := newAgents[0 := elite];
    }
  }

  /**
   * `Agent(position=start_position, walls=walls, color=color)` at time
   * `now`, its brain drawn from `weightDraw` and `biasDraw`.
   */
  method NewAgent(color: Color, now: real, weightDraw: (nat, nat, nat) -> real,
                  biasDraw: (nat, nat) -> real, num: Numerics) returns (a: Agent)
    ensures fresh(a) && fresh(a.brain)
    ensures Spawned(a, now, num) && a.color == color
    ensures BrainBuilt(a.brain, DefaultNumRays, weightDraw, biasDraw, num)
    ensures BrainFits(a.brain, a.Cfg())
  {
    a := new Agent(StartPosition, Walls, color, 0.0, DefaultNumRays, DefaultRayLength,
                   DefaultMoveSpeed, DefaultRotateSpeed(num), now, weightDraw, biasDraw, num);
  }

  /**
   * The rebuilt slot 0: a new agent with the best agent's colour, then
   * handed the best agent's brain object.
   */
  method NewElite(best: Agent, now: real, weightDraw: (nat, nat, nat) -> real,
                  biasDraw: (nat, nat) -> real, num: Numerics) returns (elite: Agent)
    ensures fresh(elite) && Spawned(elite, now, num)
    ensures elite.color == best.color && elite.brain == best.brain
  {
    elite := NewAgent(best.color, now, weightDraw, biasDraw, num);
    elite.brain := best.brain;
  }

  /** The population and the time the current generation started. */
  class Simulation {
    var agents: seq<Agent>
    var startTime: real
    const num: Numerics

    /**
     * Eight distinct agents, each with the default seven rays, keeping its
     * fitness count, and with a brain that takes its sensor vector.
     */
    predicate Valid()
      reads this, set a | a in agents
    {
      && |agents| == |AgentColors|
      && (forall i, j :: 0 <= i < j < |agents| ==> agents[i] != agents[j])
      && forall i :: 0 <= i < |agents| ==>
           && agents[i].Valid()
           && agents[i].numRays == DefaultNumRays
           && BrainFits(agents[i].brain, agents[i].Cfg())
    }

    /** The agent `max(agents, key=lambda agent: agent.fitness)` selects. */
    function Best(): (a: Agent)
      requires Valid()
      reads this, set a | a in agents
      ensures a in agents
      ensures forall j :: 0 <= j < |agents| ==> agents[j].fitness <= a.fitness
      ensures exists i :: 0 <= i < |agents| && agents[i] == a &&
                forall j :: 0 <= j < i ==> agents[j].fitness < a.fitness
    {
      var i := FirstMax(Fitnesses(agents));
      assert agents[i] in agents;
      agents[i]
    }

    /**
     * The first generation, built at time `created`, and the generation
     * timer, started at the later time `started`.
     */
    constructor(created: real, started: real, weightDraws: nat -> (nat, nat, nat) -> real,
                biasDraws: nat -> (nat, nat) -> real, num: Numerics)
      ensures Valid()
      ensures startTime == started && this.num == num
      ensures forall i :: 0 <= i < |agents| ==>
                Spawned(agents[i], created, num) && agents[i].color == AgentColors[i]
    {
      var initial := SpawnNewGeneration(null, created, weightDraws, biasDraws, num);
      agents := initial;
      startTime := started;
      this.num := num;
    }

    /**
     * The generation check at the top of the main loop at time `now`: once
     * `now - start_time >= generation_time`, the best agent is selected, a
     * new generation replaces the population, and the timer restarts at
     * `now`; otherwise nothing changes. No agent of the old population is
     * modified.
     */
    method MaybeReplace(now: real, weightDraws: nat -> (nat, nat, nat) -> real,
                        biasDraws: nat -> (nat, nat) -> real)
      requires Valid()
      modifies this
      ensures Valid()
      ensures old(now - startTime) < GenerationTime ==>
                agents == old(agents) && startTime == old(startTime)
      ensures old(now - startTime) >= GenerationTime ==>
                && startTime == now
                && (forall i :: 0 <= i < |agents| ==> Spawned(agents[i], now, num) && agents[i] !in old(agents))
                && agents[0].color == old(Best().color)
                && agents[0].brain == old(Best().brain)
                && (forall i :: 1 <= i < |agents| ==> agents[i].color == AgentColors[i] && fresh(agents[i].brain))
    {
      if now - startTime >= GenerationTime {
        var best := Best();
        var newAgents := SpawnNewGeneration(best, now, weightDraws, biasDraws, num);
        assert BrainFits(newAgents[0].brain, newAgents[0].Cfg());
        agents := newAgents;
        startTime := now;
      }
    }

    /**
     * The per-tick loop: every agent, in list order, gets `neural_move()`
     * and then `update_lifespan()` at time `now`.
     */
    method StepAgents(now: real)
      requires Valid()
      modifies set a | a in agents
      ensures Valid()
      ensures forall i :: 0 <= i < |agents| ==>
                && agents[i].brain == old(agents[i].brain)
                && agents[i].State() == Ticked(old(agents[i].State()), agents[i].Cfg(), agents[i].brain, now)
    {
      ghost var before := States(agents);
      ghost var after := TickedStates(agents, now);
      var i := 0;
      while i < |agents|
        invariant 0 <= i <= |agents|
        invariant forall k :: 0 <= k < |agents| ==>
                    && agents[k].brain == old(agents[k].brain) && agents[k].Valid()
                    && BrainFits(agents[k].brain, agents[k].Cfg())
        invariant forall k :: 0 <= k < |agents| ==>
                    agents[k].State() == if k < i then after[k] else before[k]
      {
        Tick(agents, i, now);
        i := i + 1;
      }
    }
  }

  ghost function States(agents: seq<Agent>): (r: seq<AgentState>)
    reads set a | a in agents
    ensures |r| == |agents| && forall k :: 0 <= k < |agents| ==> r[k] == agents[k].State()
  {
    seq(|agents|, k requires 0 <= k < |agents| reads set a | a in agents => agents[k].State())
  }

  /** The state every agent of `agents` reaches by one tick at time `now`. */
  ghost function TickedStates(agents: seq<Agent>, now: real): (r: seq<AgentState>)
    requires forall k :: 0 <= k < |agents| ==> BrainFits(agents[k].brain, agents[k].Cfg())
    reads set a | a in agents
    ensures |r| == |agents|
    ensures forall k :: 0 <= k < |agents| ==>
              r[k] == Ticked(agents[k].State(), agents[k].Cfg(), agents[k].brain, now)
  {
    seq(|agents|, k requires 0 <= k < |agents| && BrainFits(agents[k].brain, agents[k].Cfg())
                    reads set a | a in agents =>
          Ticked(agents[k].State(), agents[k].Cfg(), agents[k].brain, now))
  }

  /**
   * Agent `i`'s turn in the per-tick loop: its `neural_move()` and then its
   * `update_lifespan()`. No other agent of the list changes.
   */
  method Tick(agents: seq<Agent>, i: nat, now: real)
    requires i < |agents| && forall k :: 0 <= k < |agents| && k != i ==> agents[k] != agents[i]
    requires agents[i].Valid() && BrainFits(agents[i].brain, agents[i].Cfg())
    modifies agents[i]
    ensures agents[i].Valid() && agents[i].brain == old(agents[i].brain)
    ensures agents[i].State() == Ticked(old(agents[i].State()), agents[i].Cfg(), agents[i].brain, now)
    ensures forall k :: 0 <= k < |agents| && k != i ==>
              agents[k].State() == old(agents[k].State()) && agents[k].brain == old(agents[k].brain)
  {
    var a := agents[i];
    a.NeuralMove(now);
    a.UpdateLifespan(now);
  }
}
