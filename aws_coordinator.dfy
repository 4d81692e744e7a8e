/**
 * The AWS Strands coordinator: a registry of four agents, each registered
 * "ready" with its capabilities, and a fixed three-task POSCAR workflow run
 * through the dependency loop of the Workflow module with simulated task
 * results.
 */
module AwsCoordinator {
  import opened Values
  import opened Workflow
  import SC = StrandsCoordinator

  datatype AgentConfig = AgentConfig(name: string, kind: string, capabilities: seq<string>)

  /** The agents `initialize_agents` registers, in order. */
  const AgentConfigs: seq<AgentConfig> := [
    AgentConfig("supervisor", "orchestrator", ["workflow_management", "validation"]),
    AgentConfig(SC.StructureMatcher, "specialist", ["pymatgen_analysis", "structure_comparison"]),
    AgentConfig(SC.DftExtractor, "specialist", ["parameter_extraction", "dft_analysis"]),
    AgentConfig(SC.QuantumSimulator, "generator", ["qiskit_code", "hamiltonian_construction"])
  ]

  /** The registry entry of an agent. */
  function Entry(c: AgentConfig): Value
  {
    Dict(map["status" := Str("ready"), "capabilities" := SC.StrList(c.capabilities), "type" := Str(c.kind)])
  }

  /** The registry after registering `cs` in order; a later registration of a name replaces the earlier. */
  function Registry(cs: seq<AgentConfig>): (m: map<string, Value>)
    ensures forall a :: a in m <==> exists k :: 0 <= k < |cs| && cs[k].name == a
    decreases |cs|
  {
    if cs == [] then map[]
    else
      var n := |cs| - 1;
      assert forall k :: 0 <= k < n ==> cs[..n][k] == cs[k];
      Registry(cs[..n])[cs[n].name := Entry(cs[n])]
  }

  /** Registering one more agent on top of an earlier registry. */
  lemma RegistryStep(base: map<string, Value>, cs: seq<AgentConfig>)
    requires cs != []
    ensures base + Registry(cs) == (base + Registry(cs[..|cs| - 1]))[cs[|cs| - 1].name := Entry(cs[|cs| - 1])]
  {
    var n := |cs| - 1;
    UnionUpdate(base, Registry(cs[..n]), cs[n].name, Entry(cs[n]));
  }

  /** Updating the right operand of a union updates the union. */
  lemma UnionUpdate(base: map<string, Value>, m: map<string, Value>, k: string, v: Value)
    ensures base + m[k := v] == (base + m)[k := v]
  {
    var l := base + m[k := v];
    var r := (base + m)[k := v];
    assert l.Keys == r.Keys;
    forall a | a in l ensures l[a] == r[a] {
    }
  }

  /** The registry of the four configured agents, entry by entry. */
  lemma RegistryOfConfigs()
    ensures Registry(AgentConfigs) ==
              map["supervisor" := Entry(AgentConfigs[0]), SC.StructureMatcher := Entry(AgentConfigs[1]),
                  SC.DftExtractor := Entry(AgentConfigs[2]), SC.QuantumSimulator := Entry(AgentConfigs[3])]
  {
    var cs := AgentConfigs;
    assert cs[..1][..0] == [];
    assert cs[..2][..1] == cs[..1];
    assert cs[..3][..2] == cs[..2];
    assert cs[..4] == cs;
    assert Registry(cs[..1]) == map["supervisor" := Entry(cs[0])];
    assert Registry(cs[..2]) == Registry(cs[..1])[SC.StructureMatcher := Entry(cs[1])];
    assert Registry(cs[..3]) == Registry(cs[..2])[SC.DftExtractor := Entry(cs[2])];
  }

  /** A registered agent's entry is its last registration. */
  lemma {:induction false} RegistryLookup(cs: seq<AgentConfig>, i: nat)
    requires i < |cs|
    requires forall j :: i < j < |cs| ==> cs[j].name != cs[i].name
    ensures cs[i].name in Registry(cs) && Registry(cs)[cs[i].name] == Entry(cs[i])
    decreases |cs|
  {
    var n := |cs| - 1;
    if i < n {
      RegistryLookup(cs[..n], i);
    }
  }

  /** The four configured names are distinct. */
  lemma ConfigNamesDistinct()
    ensures forall i, j :: 0 <= i < j < |AgentConfigs| ==> AgentConfigs[i].name != AgentConfigs[j].name
  {
  }

  /** Initialisation registers exactly four agents. */
  lemma FourAgents()
    ensures Registry(AgentConfigs).Keys == {"supervisor", SC.StructureMatcher, SC.DftExtractor, SC.QuantumSimulator}
    ensures |Registry(AgentConfigs)| == 4
  {
    RegistryOfConfigs();
    NamesDiffer();
  }

  /** The four agent names differ from each other. */
  lemma NamesDiffer()
    ensures |{"supervisor", SC.StructureMatcher, SC.DftExtractor, SC.QuantumSimulator}| == 4
    ensures |{SC.StructureMatcher, SC.DftExtractor, SC.QuantumSimulator}| == 3
  {
    assert SC.StructureMatcher[0] == 's' && SC.DftExtractor[0] == 'd' && SC.QuantumSimulator[0] == 'q';
    assert |"supervisor"| == 10 && |SC.StructureMatcher| == 17;
  }

  /** Each registered agent is "ready", with its configured capabilities and type. */
  lemma AgentsReady()
    ensures forall k :: 0 <= k < |AgentConfigs| ==>
              Registry(AgentConfigs)[AgentConfigs[k].name] ==
                Dict(map["status" := Str("ready"), "capabilities" := SC.StrList(AgentConfigs[k].capabilities),
                         "type" := Str(AgentConfigs[k].kind)])
  {
    ConfigNamesDistinct();
    forall k | 0 <= k < |AgentConfigs|
      ensures Registry(AgentConfigs)[AgentConfigs[k].name] == Entry(AgentConfigs[k])
    {
      RegistryLookup(AgentConfigs, k);
    }
  }

  // ---------------------------------------------------------------- the POSCAR workflow

  /** The POSCAR workflow's tasks: the canonical three, with the formula fixed to "Si". */
  function PoscarTasks(poscar: string): seq<Task>
  {
    SC.CanonicalTasks(poscar, "Si")
  }

  /** The dependencies: none for the structure match, the match for the DFT extraction, both for the simulation. */
  lemma PoscarTaskDependencies(poscar: string)
    ensures |PoscarTasks(poscar)| == 3
    ensures PoscarTasks(poscar)[0].agent == SC.StructureMatcher && PoscarTasks(poscar)[0].deps == []
    ensures PoscarTasks(poscar)[1].agent == SC.DftExtractor && PoscarTasks(poscar)[1].deps == [SC.StructureMatcher]
    ensures PoscarTasks(poscar)[2].agent == SC.QuantumSimulator &&
            PoscarTasks(poscar)[2].deps == [SC.StructureMatcher, SC.DftExtractor]
  {
  }

  const StructureResult: Record := map[
    "material_id" := Str("mp-149"), "match_score" := Num(0.95),
    "mp_data" := Dict(map["formula" := Str("Si"), "band_gap" := Num(0.61), "formation_energy" := Num(0.0)])]

  const DftResult: Record := map[
    "parameters" := Dict(map["t_hopping" := Num(2.8), "U_interaction" := Num(0.5), "source" := Str("DFT_derived")])]

  const QuantumResult: Record := map[
    "code" := Str("# Realistic Si quantum simulation with DFT parameters"),
    "hamiltonian_terms" := Int(12), "qubits" := Int(4)]

  /** `_execute_task`: the simulated result of each agent, whatever the earlier results. */
  function SimulatedTask(task: Task, context: map<string, Record>): (r: Record)
    ensures task.agent == SC.StructureMatcher ==> r == StructureResult
    ensures task.agent == SC.DftExtractor ==> r == DftResult
    ensures task.agent == SC.QuantumSimulator ==> r == QuantumResult
    ensures task.agent !in {SC.StructureMatcher, SC.DftExtractor, SC.QuantumSimulator} ==> r == map["status" := Str("completed")]
  {
    if task.agent == SC.StructureMatcher then StructureResult
    else if task.agent == SC.DftExtractor then DftResult
    else if task.agent == SC.QuantumSimulator then QuantumResult
    else map["status" := Str("completed")]
  }

  function Simulated(): (Task, map<string, Record>) -> Record
  {
    (t: Task, context: map<string, Record>) => SimulatedTask(t, context)
  }

  /** The results of the POSCAR workflow, by agent name. */
  const PoscarResults: map<string, Record> :=
    map[SC.StructureMatcher := StructureResult, SC.DftExtractor := DftResult, SC.QuantumSimulator := QuantumResult]

  /** The state after the structure match, the DFT extraction and the simulation, in that order. */
  function AfterPoscarTasks(poscar: string): State
  {
    var tasks := PoscarTasks(poscar);
    Step(Step(Step(Start, tasks[0], Simulated()), tasks[1], Simulated()), tasks[2], Simulated())
  }

  /** The first pass runs all three tasks. */
  lemma PoscarPass(poscar: string)
    ensures RoundFrom(PoscarTasks(poscar), 0, Start, Simulated()) == AfterPoscarTasks(poscar)
  {
    var tasks := PoscarTasks(poscar);
    var exec := Simulated();
    var s1 := Step(Start, tasks[0], exec);
    var s2 := Step(s1, tasks[1], exec);
    assert Ready(tasks[0], Start);
    assert Ready(tasks[1], s1);
    assert Ready(tasks[2], s2);
    assert RoundFrom(tasks, 2, s2, exec) == AfterPoscarTasks(poscar);
    assert RoundFrom(tasks, 1, s1, exec) == AfterPoscarTasks(poscar);
  }

  /** After the pass: three agents completed, in task order, with their simulated results. */
  lemma AfterPoscarShape(poscar: string)
    ensures AfterPoscarTasks(poscar).done == {SC.StructureMatcher, SC.DftExtractor, SC.QuantumSimulator}
    ensures |AfterPoscarTasks(poscar).done| == 3
    ensures AfterPoscarTasks(poscar).trace == PoscarTasks(poscar)
    ensures AfterPoscarTasks(poscar).results == PoscarResults
  {
    NamesDiffer();
  }

  /** The loop runs the three tasks in one pass, in order, and records each simulated result. */
  lemma PoscarWorkflowFinishes(poscar: string)
    ensures Schedule(PoscarTasks(poscar), Start, Simulated()).Finished?
    ensures Schedule(PoscarTasks(poscar), Start, Simulated()).state.trace == PoscarTasks(poscar)
    ensures Schedule(PoscarTasks(poscar), Start, Simulated()).state.results == PoscarResults
  {
    var tasks := PoscarTasks(poscar);
    var s3 := AfterPoscarTasks(poscar);
    PoscarPass(poscar);
    AfterPoscarShape(poscar);
    StartValid(tasks);
    ScheduleRound(tasks, Start, Simulated());
    ScheduleDone(tasks, s3, Simulated());
  }

  /** The coordinator with its agent registry. */
  class Coordinator {
    var config: Value
    var agents: map<string, Value>
    var workflowState: map<string, Value>

    constructor(config: Value)
      ensures this.config == config && agents == map[] && workflowState == map[]
    {
      this.config := config;
      agents := map[];
      workflowState := map[];
    }

    /** `_register_agent` */
    method RegisterAgent(c: AgentConfig)
      modifies this
      ensures agents == old(agents)[c.name := Entry(c)]
      ensures config == old(config) && workflowState == old(workflowState)
    {
      agents := agents[c.name := Entry(c)];
    }

    /** `initialize_agents`: every configured agent is registered, and it reports success. */
    method InitializeAgents() returns (ok: bool)
      modifies this
      ensures ok
      ensures agents.Keys == old(agents).Keys + Registry(AgentConfigs).Keys
      ensures forall a :: a in Registry(AgentConfigs) ==> agents[a] == Registry(AgentConfigs)[a]
      ensures forall a :: a in old(agents) && a !in Registry(AgentConfigs) ==> agents[a] == old(agents)[a]
      ensures config == old(config) && workflowState == old(workflowState)
    {
      for i := 0 to |AgentConfigs|
        invariant agents == old(agents) + Registry(AgentConfigs[..i])
        invariant config == old(config) && workflowState == old(workflowState)
      {
        assert AgentConfigs[..i + 1][..i] == AgentConfigs[..i];
        RegistryStep(old(agents), AgentConfigs[..i + 1]);
        RegisterAgent(AgentConfigs[i]);
      }
      assert AgentConfigs[..|AgentConfigs|] == AgentConfigs;
      return true;
    }

    /** `_execute_workflow`: the loop over the workflow's tasks with the simulated executor. */
    method ExecuteWorkflow(tasks: seq<Task>) returns (o: Outcome)
      ensures o == Schedule(tasks, Start, Simulated())
    {
      o := Workflow.ExecuteWorkflow(tasks, Simulated());
    }

    /** `execute_poscar_workflow`: the three simulated results, by agent name. */
    method ExecutePoscarWorkflow(poscar: string) returns (results: map<string, Record>)
      ensures results == PoscarResults
    {
      var o := ExecuteWorkflow(PoscarTasks(poscar));
      PoscarWorkflowFinishes(poscar);
      results := o.state.results;
    }
  }
}
