/**
 * The dependency-driven task loop both coordinators run: while fewer tasks
 * have completed than there are tasks, go through the task list in order and
 * run every task that has not completed and whose dependencies all have,
 * recording its result under its agent name. The loop as written never ends
 * when a round makes no progress; the model reports that state as `Stuck`.
 * `exec` is the task executor, given the results recorded so far.
 */
module Workflow {
  import opened Values

  /** A task result, a dict. */
  type Record = map<string, Value>

  datatype Task = Task(agent: string, action: string, inputs: seq<(string, Value)>, deps: seq<string>)

  /** The agent names of `ts`. */
  function AgentsOf(ts: seq<Task>): set<string>
  {
    set k | 0 <= k < |ts| :: ts[k].agent
  }

  /** Appending a task adds its agent name. */
  lemma AgentsOfAppend(ts: seq<Task>, t: Task)
    ensures AgentsOf(ts + [t]) == AgentsOf(ts) + {t.agent}
  {
    var u := ts + [t];
    forall a | a in AgentsOf(u) ensures a in AgentsOf(ts) + {t.agent} {
      var k :| 0 <= k < |u| && u[k].agent == a;
      if k < |ts| { assert ts[k] == u[k]; }
    }
    forall a | a in AgentsOf(ts) + {t.agent} ensures a in AgentsOf(u) {
      if a == t.agent { assert u[|ts|].agent == a; }
      else { var k :| 0 <= k < |ts| && ts[k].agent == a; assert u[k] == ts[k]; }
    }
  }

  /** A subset has no more elements. */
  lemma {:induction false} SubsetCard(a: set<string>, b: set<string>)
    requires a <= b
    ensures |a| <= |b|
    decreases |b|
  {
    if b != {} {
      var x :| x in b;
      if x in a {
        SubsetCard(a - {x}, b - {x});
      } else {
        SubsetCard(a, b - {x});
      }
    }
  }

  /** `all(dep in completed_tasks for dep in task["dependencies"])` */
  predicate DepsMet(t: Task, done: set<string>)
  {
    forall d :: d in t.deps ==> d in done
  }

  /** The dependencies of `ts[k]` are agents of the entries before it. */
  predicate DepsBefore(ts: seq<Task>, k: nat)
    requires k < |ts|
  {
    DepsMet(ts[k], AgentsOf(ts[..k]))
  }

  /** No two tasks share an agent name. */
  predicate DistinctAgents(ts: seq<Task>)
  {
    forall j, k :: 0 <= j < k < |ts| ==> ts[j].agent != ts[k].agent
  }

  /**
   * The loop's state: the completed agent names, the results by agent name
   * and the completed tasks in the order they ran (the order of the
   * "Task completed" log lines).
   */
  datatype State = State(done: set<string>, results: map<string, Record>, trace: seq<Task>)

  const Start: State := State({}, map[], [])

  /** What the loop keeps true: every completed task is a listed task that ran once, after its dependencies. */
  predicate Valid(tasks: seq<Task>, s: State)
  {
    && s.done <= AgentsOf(tasks)
    && s.results.Keys == s.done
    && AgentsOf(s.trace) == s.done
    && (forall k :: 0 <= k < |s.trace| ==> s.trace[k] in tasks)
    && DistinctAgents(s.trace)
    && (forall k :: 0 <= k < |s.trace| ==> DepsBefore(s.trace, k))
  }

  /** The task runs in this state: it has not completed and its dependencies have. */
  predicate Ready(t: Task, s: State)
  {
    t.agent !in s.done && DepsMet(t, s.done)
  }

  /** Running one task: its result is recorded under its agent name. */
  function Step(s: State, t: Task, exec: (Task, map<string, Record>) -> Record): (s2: State)
    ensures s2.done == s.done + {t.agent}
    ensures s2.results == s.results[t.agent := exec(t, s.results)]
    ensures s2.trace == s.trace + [t]
  {
    State(s.done + {t.agent}, s.results[t.agent := exec(t, s.results)], s.trace + [t])
  }

  /** The rest of one pass of `for task in tasks:`, from position `i`. */
  function RoundFrom(tasks: seq<Task>, i: nat, s: State, exec: (Task, map<string, Record>) -> Record): State
    requires i <= |tasks|
    decreases |tasks| - i
  {
    if i == |tasks| then s
    else if Ready(tasks[i], s) then RoundFrom(tasks, i + 1, Step(s, tasks[i], exec), exec)
    else RoundFrom(tasks, i + 1, s, exec)
  }

  /** Running a ready listed task keeps the state valid. */
  lemma StepValid(tasks: seq<Task>, s: State, t: Task, exec: (Task, map<string, Record>) -> Record)
    requires Valid(tasks, s) && t in tasks && Ready(t, s)
    ensures Valid(tasks, Step(s, t, exec))
  {
    var s2 := Step(s, t, exec);
    var n := |s.trace|;
    assert s2.trace[..n] == s.trace;
    AgentsOfAppend(s.trace, t);
    forall k | 0 <= k < |s2.trace|
      ensures DepsBefore(s2.trace, k)
    {
      if k < n {
        assert DepsBefore(s.trace, k);
        assert s2.trace[..k] == s.trace[..k];
      }
    }
  }

  /** A pass keeps the state valid, only adds completions, and adds nothing when no task is ready. */
  lemma {:induction false} RoundValid(tasks: seq<Task>, i: nat, s: State, exec: (Task, map<string, Record>) -> Record)
    requires i <= |tasks| && Valid(tasks, s)
    ensures Valid(tasks, RoundFrom(tasks, i, s, exec))
    ensures s.done <= RoundFrom(tasks, i, s, exec).done
    ensures RoundFrom(tasks, i, s, exec).done == s.done ==> RoundFrom(tasks, i, s, exec) == s
    decreases |tasks| - i
  {
    if i < |tasks| {
      if Ready(tasks[i], s) {
        StepValid(tasks, s, tasks[i], exec);
        RoundValid(tasks, i + 1, Step(s, tasks[i], exec), exec);
      } else {
        RoundValid(tasks, i + 1, s, exec);
      }
    }
  }

  /** How the loop ends: every task completed, or a round without progress (where the source spins forever). */
  datatype Outcome = Finished(state: State) | Stuck(state: State)

  /** A strictly larger completed set inside the agent names leaves fewer names to complete. */
  lemma FewerLeft(all: set<string>, a: set<string>, b: set<string>)
    requires a < b <= all
    ensures |all - b| < |all - a|
  {
    var x :| x in b && x !in a;
    assert x in all - a;
    SubsetCard(all - b, (all - a) - {x});
  }

  /** The `while len(completed_tasks) < len(tasks)` loop, round by round. */
  function Schedule(tasks: seq<Task>, s: State, exec: (Task, map<string, Record>) -> Record): (o: Outcome)
    requires Valid(tasks, s)
    ensures Valid(tasks, o.state)
    ensures o.Finished? <==> |o.state.done| >= |tasks|
    ensures o.Stuck? ==> RoundFrom(tasks, 0, o.state, exec) == o.state
    decreases |AgentsOf(tasks) - s.done|
  {
    if |s.done| >= |tasks| then Finished(s)
    else
      var s2 := RoundFrom(tasks, 0, s, exec);
      RoundValid(tasks, 0, s, exec);
      if s2.done == s.done then Stuck(s)
      else
        FewerLeft(AgentsOf(tasks), s.done, s2.done);
        Schedule(tasks, s2, exec)
  }

  /** One pass of the task list with the early-outs of the loop body. */
  method RunRound(tasks: seq<Task>, s: State, exec: (Task, map<string, Record>) -> Record) returns (s2: State)
    ensures s2 == RoundFrom(tasks, 0, s, exec)
  {
    s2 := s;
    for i := 0 to |tasks|
      invariant RoundFrom(tasks, i, s2, exec) == RoundFrom(tasks, 0, s, exec)
    {
      var task := tasks[i];
      if task.agent in s2.done {
        continue;
      }
      if forall d :: d in task.deps ==> d in s2.done {
        s2 := State(s2.done + {task.agent}, s2.results[task.agent := exec(task, s2.results)], s2.trace + [task]);
      }
    }
  }

  /** No task has run at the start. */
  lemma StartValid(tasks: seq<Task>)
    ensures Valid(tasks, Start)
  {
  }

  /** One turn of the loop: a round without progress is stuck, otherwise the loop goes on from the round's state. */
  lemma ScheduleRound(tasks: seq<Task>, s: State, exec: (Task, map<string, Record>) -> Record)
    requires Valid(tasks, s) && |s.done| < |tasks|
    ensures Valid(tasks, RoundFrom(tasks, 0, s, exec))
    ensures RoundFrom(tasks, 0, s, exec).done == s.done ==> Schedule(tasks, s, exec) == Stuck(s)
    ensures RoundFrom(tasks, 0, s, exec).done != s.done ==>
              s.done < RoundFrom(tasks, 0, s, exec).done &&
              Schedule(tasks, s, exec) == Schedule(tasks, RoundFrom(tasks, 0, s, exec), exec)
  {
    RoundValid(tasks, 0, s, exec);
  }

  /** `_execute_workflow`'s loop. */
  method ExecuteWorkflow(tasks: seq<Task>, exec: (Task, map<string, Record>) -> Record) returns (o: Outcome)
    ensures o == Schedule(tasks, Start, exec)
  {
    var s := Start;
    StartValid(tasks);
    while |s.done| < |tasks|
      invariant Valid(tasks, s)
      invariant Schedule(tasks, s, exec) == Schedule(tasks, Start, exec)
      decreases |AgentsOf(tasks) - s.done|
    {
      var s2 := RunRound(tasks, s, exec);
      ScheduleRound(tasks, s, exec);
      if s2.done == s.done {
        return Stuck(s);
      }
      FewerLeft(AgentsOf(tasks), s.done, s2.done);
      s := s2;
    }
    return Finished(s);
  }

  // ---------------------------------------------------------------- what the loop guarantees

  /** In a list of distinct agents, the last agent is not among the earlier ones. */
  lemma LastIsNew(ts: seq<Task>)
    requires DistinctAgents(ts) && ts != []
    ensures ts[|ts| - 1].agent !in AgentsOf(ts[..|ts| - 1])
  {
  }

  /** A sequence of distinct agent names has as many names as tasks. */
  lemma {:induction false} DistinctCount(ts: seq<Task>)
    requires DistinctAgents(ts)
    ensures |AgentsOf(ts)| == |ts|
  {
    if ts != [] {
      var n := |ts| - 1;
      assert DistinctAgents(ts[..n]);
      DistinctCount(ts[..n]);
      LastIsNew(ts);
      AgentsOfAppend(ts[..n], ts[n]);
      assert ts[..n] + [ts[n]] == ts;
    }
  }

  /** There are never more agent names than tasks, and as many only when the names are distinct. */
  lemma {:induction false} AgentCount(ts: seq<Task>)
    ensures |AgentsOf(ts)| <= |ts|
    ensures |AgentsOf(ts)| == |ts| ==> DistinctAgents(ts)
  {
    if ts != [] {
      var n := |ts| - 1;
      var init := ts[..n];
      AgentCount(init);
      AgentsOfAppend(init, ts[n]);
      assert init + [ts[n]] == ts;
      if |AgentsOf(ts)| == |ts| {
        assert ts[n].agent !in AgentsOf(init);
        assert |AgentsOf(init)| == n;
        forall j, k | 0 <= j < k < |ts|
          ensures ts[j].agent != ts[k].agent
        {
          assert init[j] == ts[j];
          if k < n {
            assert init[k] == ts[k];
          }
        }
      }
    }
  }

  /** A proper subset has fewer elements. */
  lemma ProperSubsetCard(a: set<string>, b: set<string>)
    requires a < b
    ensures |a| < |b|
  {
    var x :| x in b && x !in a;
    SubsetCard(a, b - {x});
  }

  /** Once as many agents completed as there are tasks, the loop stops with that state. */
  lemma ScheduleDone(tasks: seq<Task>, s: State, exec: (Task, map<string, Record>) -> Record)
    requires Valid(tasks, s) && |s.done| >= |tasks|
    ensures Schedule(tasks, s, exec) == Finished(s)
  {
  }

  /** A valid state with as many completions as tasks has run every task once. */
  lemma CompleteState(tasks: seq<Task>, s: State)
    requires Valid(tasks, s) && |s.done| >= |tasks|
    ensures DistinctAgents(tasks)
    ensures s.done == AgentsOf(tasks)
    ensures |s.trace| == |tasks|
    ensures forall t :: t in tasks ==> t in s.trace
  {
    AgentCount(tasks);
    if s.done != AgentsOf(tasks) {
      ProperSubsetCard(s.done, AgentsOf(tasks));
    }
    DistinctCount(s.trace);
    forall t | t in tasks
      ensures t in s.trace
    {
      var i :| 0 <= i < |tasks| && tasks[i] == t;
      assert t.agent in AgentsOf(s.trace);
      var k :| 0 <= k < |s.trace| && s.trace[k].agent == t.agent;
      var j :| 0 <= j < |tasks| && tasks[j] == s.trace[k];
      assert j == i;
    }
  }

  /** In a valid state every dependency of a completed task has completed. */
  lemma CompletedDeps(tasks: seq<Task>, s: State, k: nat)
    requires Valid(tasks, s) && k < |s.trace|
    ensures forall d :: d in s.trace[k].deps ==> d in s.done
  {
    assert DepsBefore(s.trace, k);
    forall a | a in AgentsOf(s.trace[..k]) ensures a in AgentsOf(s.trace) {
      var m :| 0 <= m < k && s.trace[..k][m].agent == a;
      assert s.trace[m].agent == a;
    }
  }

  /**
   * When the loop finishes, every listed task ran exactly once, after all of
   * its dependencies: the tasks have distinct agents, every agent has a
   * result, and each task appears in the run order after the tasks it
   * depends on.
   */
  lemma FinishedRunsEveryTask(tasks: seq<Task>, exec: (Task, map<string, Record>) -> Record)
    requires Schedule(tasks, Start, exec).Finished?
    ensures var s := Schedule(tasks, Start, exec).state;
            && DistinctAgents(tasks)
            && s.done == AgentsOf(tasks) && s.results.Keys == AgentsOf(tasks)
            && |s.trace| == |tasks|
            && (forall t :: t in tasks ==> t in s.trace)
            && (forall k :: 0 <= k < |s.trace| ==> DepsBefore(s.trace, k))
  {
    StartValid(tasks);
    CompleteState(tasks, Schedule(tasks, Start, exec).state);
  }

  /** The loop finishes only when every dependency names a listed task. */
  lemma FinishedDepsListed(tasks: seq<Task>, exec: (Task, map<string, Record>) -> Record)
    requires Schedule(tasks, Start, exec).Finished?
    ensures forall t, d :: t in tasks && d in t.deps ==> d in AgentsOf(tasks)
  {
    StartValid(tasks);
    var s := Schedule(tasks, Start, exec).state;
    CompleteState(tasks, s);
    forall t, d | t in tasks && d in t.deps
      ensures d in AgentsOf(tasks)
    {
      var k :| 0 <= k < |s.trace| && s.trace[k] == t;
      CompletedDeps(tasks, s, k);
    }
  }

  /** A task whose dependency names no listed task keeps the loop from finishing. */
  lemma UnlistedDependencyIsStuck(tasks: seq<Task>, exec: (Task, map<string, Record>) -> Record, i: nat, d: string)
    requires i < |tasks| && d in tasks[i].deps && d !in AgentsOf(tasks)
    ensures Schedule(tasks, Start, exec).Stuck?
  {
    if Schedule(tasks, Start, exec).Finished? {
      FinishedDepsListed(tasks, exec);
    }
  }

  /** Every dependency names an earlier task of the list. */
  predicate DepsEarlier(tasks: seq<Task>)
  {
    forall i :: 0 <= i < |tasks| ==> DepsBefore(tasks, i)
  }

  /** With distinct agents and dependencies on earlier tasks only, one pass runs every task in list order. */
  lemma {:induction false} OrderedPass(tasks: seq<Task>, i: nat, s: State, exec: (Task, map<string, Record>) -> Record)
    requires i <= |tasks| && DistinctAgents(tasks) && DepsEarlier(tasks)
    requires s.done == AgentsOf(tasks[..i])
    ensures RoundFrom(tasks, i, s, exec).done == AgentsOf(tasks)
    ensures RoundFrom(tasks, i, s, exec).trace == s.trace + tasks[i..]
    decreases |tasks| - i
  {
    if i == |tasks| {
      assert tasks[..i] == tasks;
    } else {
      assert tasks[..i + 1][..i] == tasks[..i];
      assert DistinctAgents(tasks[..i + 1]);
      LastIsNew(tasks[..i + 1]);
      assert DepsBefore(tasks, i);
      assert Ready(tasks[i], s);
      OrderedPass(tasks, i + 1, Step(s, tasks[i], exec), exec);
      assert s.trace + [tasks[i]] + tasks[i + 1..] == s.trace + tasks[i..];
    }
  }

  /** The coordinators' own task lists: distinct agents, dependencies on earlier tasks. Such a list finishes, in list order. */
  lemma OrderedFinishes(tasks: seq<Task>, exec: (Task, map<string, Record>) -> Record)
    requires DistinctAgents(tasks) && DepsEarlier(tasks)
    ensures Schedule(tasks, Start, exec).Finished?
    ensures Schedule(tasks, Start, exec).state.trace == tasks
  {
    DistinctCount(tasks);
    StartValid(tasks);
    if tasks == [] {
      ScheduleDone(tasks, Start, exec);
    } else {
      assert tasks[..0] == [];
      OrderedPass(tasks, 0, Start, exec);
      var s1 := RoundFrom(tasks, 0, Start, exec);
      assert tasks[0].agent in s1.done;
      ScheduleRound(tasks, Start, exec);
      ScheduleDone(tasks, s1, exec);
      assert [] + tasks[0..] == tasks;
    }
  }
}
