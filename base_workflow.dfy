/**
 * `BaseWorkflow` (`app/workflows/base_workflow.py`): the agents of a workflow
 * and its append-only execution history, with the summary derived from it.
 *
 * A timestamp is an abstract number of seconds given by the caller; the
 * ISO text `datetime.now().isoformat()` produces and its parsing back are not
 * modelled, and the success rate is an exact ratio rather than a float.
 */
module BaseWorkflow {
  import opened Wrappers
  import opened Runtime
  import opened BaseAgent

  /** One entry of `execution_history`. */
  datatype Step = Step(step: string, timestamp: int, success: bool, result: Option<string>, error: Option<string>)

  /** The dictionary `get_execution_summary` returns. */
  datatype Summary = Summary(totalSteps: nat, successfulSteps: nat, successRate: real,
                             executionTime: Option<int>, history: seq<Step>)

  /** The number of successful entries. */
  function SuccessfulSteps(history: seq<Step>): (n: nat)
    ensures n <= |history|
  {
    if history == [] then 0
    else SuccessfulSteps(history[..|history| - 1]) + (if history[|history| - 1].success then 1 else 0)
  }

  /** One more entry adds one to the count exactly when it succeeded. */
  lemma SuccessfulStepsAppend(history: seq<Step>, s: Step)
    ensures SuccessfulSteps(history + [s]) == SuccessfulSteps(history) + (if s.success then 1 else 0)
  {
    assert (history + [s])[..|history|] == history;
  }

  /** A history of successes only counts every entry. */
  lemma {:induction false} AllSuccessful(history: seq<Step>)
    requires forall i :: 0 <= i < |history| ==> history[i].success
    ensures SuccessfulSteps(history) == |history|
  {
    if history != [] {
      AllSuccessful(history[..|history| - 1]);
    }
  }

  /** `success_rate`: zero for an empty history, else the share of successes, within [0, 1]. */
  function SuccessRate(history: seq<Step>): (rate: real)
    ensures history == [] ==> rate == 0.0
    ensures 0.0 <= rate <= 1.0
    ensures history != [] ==> rate * (|history| as real) == SuccessfulSteps(history) as real
  {
    if |history| > 0 then
      var s := SuccessfulSteps(history) as real;
      var t := |history| as real;
      assert s <= t;
      assert s / t <= 1.0 by {
        assert s / t * t == s;
      }
      s / t
    else 0.0
  }

  /** `_calculate_execution_time`: none below two entries, else the last timestamp minus the first. */
  function ExecutionTime(history: seq<Step>): (t: Option<int>)
    ensures t.None? <==> |history| < 2
    ensures t.Some? ==> t.value == history[|history| - 1].timestamp - history[0].timestamp
  {
    if |history| < 2 then None
    else Some(history[|history| - 1].timestamp - history[0].timestamp)
  }

  /** `get_execution_summary`. */
  function ExecutionSummary(history: seq<Step>): (s: Summary)
    ensures s.totalSteps == |history| && s.successfulSteps <= s.totalSteps && s.history == history
    ensures s.successRate == SuccessRate(history) && s.executionTime == ExecutionTime(history)
  {
    Summary(|history|, SuccessfulSteps(history), SuccessRate(history), ExecutionTime(history), history)
  }

  /** The entry `log_step` appends: the value is the result on success and the error otherwise. */
  function LoggedStep(stepName: string, result: string, success: bool, now: int): (s: Step)
    ensures s.step == stepName && s.timestamp == now && s.success == success
    ensures s.result.Some? <==> success
    ensures s.error.Some? <==> !success
    ensures s.result.Some? ==> s.result.value == result
    ensures s.error.Some? ==> s.error.value == result
  {
    Step(stepName, now, success, if success then Some(result) else None, if !success then Some(result) else None)
  }

  class Workflow {
    const agents: seq<RevampAgent>
    var history: seq<Step>

    constructor (agents: seq<RevampAgent>)
      ensures this.agents == agents && history == []
    {
      this.agents := agents;
      history := [];
    }

    /** `log_step`: exactly one entry, at the end. */
    method LogStep(stepName: string, result: string, success: bool, now: int)
      modifies this
      ensures history == old(history) + [LoggedStep(stepName, result, success, now)]
    {
      history := history + [LoggedStep(stepName, result, success, now)];
    }

    /** `get_agent_by_type`: the first agent of the role, in list order. */
    method GetAgentByType(role: AgentRole) returns (r: Option<RevampAgent>)
      ensures r == FirstOfRole(agents, role)
    {
      var i := 0;
      while i < |agents|
        invariant 0 <= i <= |agents|
        invariant FirstOfRole(agents, role) == FirstOfRole(agents[i..], role)
      {
        FirstOfRoleFrom(agents, role, i);
        if agents[i].role == role {
          return Some(agents[i]);
        }
        i := i + 1;
      }
      return None;
    }
  }
}
