/**
 * What the wiring of langgraph_interface/graph.py does with the updates of
 * the nodes in langgraph_interface/nodes.py when a round goes wrong: the
 * planning and execution edges are unconditional, so a stop requested by
 * planning or execution is only looked at after validation has run.
 */
module GraphProps {
  import opened PyStrings
  import opened PyValues
  import opened Tools
  import opened GraphState
  import opened Nodes
  import opened NodesProps
  import opened Graph

  /** A planner failure on a round with no plan yet never reaches the
      response node: planning stops with "Planning failed: ...", the edge to
      execution is followed anyway, execution overwrites that message with
      "No instructions to execute", and validation then raises on the missing
      plan with an `AttributeError` for `'NoneType'` and `get`, which
      `execute_request` reports as a graph failure: the planner's message is
      lost. */
  lemma FirstPlanFailureCrashesValidation(env: Env, run: StepRunner, log: seq<PortEvent>, later: seq<PortEvent>, s: State, m: string)
    requires s.currentInstructions == VNone
    requires s.stepCount == 0 ==> env.tools(log, ScreenshotAttempt).Completed?
    requires env.planner(log + (if s.stepCount == 0 then [ToolEvent(ScreenshotAttempt)] else []),
                         PlanRequest(s.userRequest, s.stepCount)) == PlanError(m)
    ensures PlanningRun(env, log, s).result == Next(Stop("Planning failed: " + m))
    ensures var s1 := Merge(s, Stop("Planning failed: " + m));
      && ErrorSet(s1) && s1.isComplete
      && Follow(GraphEdges, Planning, s1) == Some(Execution)
      && ExecutionRun(run, later, s1) == NodeRun([], Next(Stop(NoInstructions)))
    ensures var s2 := Merge(Merge(s, Stop("Planning failed: " + m)), Stop(NoInstructions));
      && s2.errorMessage == Some(NoInstructions)
      && Follow(GraphEdges, Execution, s2) == Some(Validation)
      && ValidationNode(s2) == Crash(AttributeError("NoneType", "get"))
  {
    PlanningOutcomes(env, log, s);
    var s1 := Merge(s, Stop("Planning failed: " + m));
    Routing(s1);
    Routing(Merge(s1, Stop(NoInstructions)));
  }

  /** A planner failure on a later round leaves the previous round's plan in
      the state, so execution runs the previous round's steps again, exactly
      as it ran them before, and the failure is only reported after them. */
  lemma FailedReplanRepeatsSteps(env: Env, run: StepRunner, log: seq<PortEvent>, later: seq<PortEvent>, s: State, m: string)
    requires s.stepCount != 0
    requires env.planner(log, PlanRequest(s.userRequest, s.stepCount)) == PlanError(m)
    ensures PlanningRun(env, log, s).result == Next(Stop("Planning failed: " + m))
    ensures var s1 := Merge(s, Stop("Planning failed: " + m));
      && s1.currentInstructions == s.currentInstructions
      && ErrorSet(s1) && s1.isComplete
      && Follow(GraphEdges, Planning, s1) == Some(Execution)
      && ExecutionRun(run, later, s1) == ExecutionRun(run, later, s)
  {
    assert log + [] == log;
    PlanningOutcomes(env, log, s);
    var s1 := Merge(s, Stop("Planning failed: " + m));
    Routing(s1);
    ExecutionReadsPlan(run, later, s1, s);
  }

  /** `execution_node` reads only the plan, the interrupt flag and the step
      count, so two states that agree on those run the same round. */
  lemma ExecutionReadsPlan(run: StepRunner, log: seq<PortEvent>, s: State, t: State)
    requires s.currentInstructions == t.currentInstructions
    requires s.interruptRequested == t.interruptRequested && s.stepCount == t.stepCount
    ensures ExecutionRun(run, log, s) == ExecutionRun(run, log, t)
  {
  }

  /** Once a round that completes its steps follows a failed re-plan, the
      error is still set after validation, so the run goes to the response
      node, which reports it, unless validation replaced it because the
      step budget ran out. */
  lemma ErrorSurvivesValidation(s: State)
    requires ErrorSet(s) && ValidationNode(s).Next?
    ensures var s' := Merge(s, ValidationNode(s).update);
      && ErrorSet(s')
      && Follow(GraphEdges, Validation, s') == Some(Response)
      && (!Truthy(Get(s.currentInstructions.entries, "done")) && s.stepCount >= s.maxSteps ==>
            s'.errorMessage == Some(MaximumStepsExceeded))
      && (Truthy(Get(s.currentInstructions.entries, "done")) || s.stepCount < s.maxSteps ==>
            s'.errorMessage == s.errorMessage)
      && ResponseNode(s').Next?
      && ResponseNode(s').update.messages == [AIMessage(VStr("Task completed with error: " + s'.errorMessage.value))]
  {
    var s' := Merge(s, ValidationNode(s).update);
    MergeFields(s, ValidationNode(s).update);
    Routing(s');
  }

  /** A plan that declares the task done but lists no steps ends as an
      error: execution stops with "No instructions to execute", validation
      accepts a "done" text that a message can hold, and the response node
      reports the error instead of that text. A "done" value that a message
      cannot hold makes validation raise instead. */
  lemma DoneWithoutStepsReportsError(run: StepRunner, log: seq<PortEvent>, s: State)
    requires s.currentInstructions.VDict?
    requires Truthy(Get(s.currentInstructions.entries, "done"))
    requires !Truthy(Get(s.currentInstructions.entries, "steps"))
    ensures var e := ExecutionRun(run, log, s);
      && e == NodeRun([], Next(Stop(NoInstructions)))
      && var s1 := Merge(s, e.result.update);
      && Follow(GraphEdges, Execution, s1) == Some(Validation)
      && (!MessageContent(Get(s.currentInstructions.entries, "done")) ==>
            ValidationNode(s1) == Crash(ValidationError("AIMessage")))
      && (MessageContent(Get(s.currentInstructions.entries, "done")) ==>
            && ValidationNode(s1).Next?
            && var s2 := Merge(s1, ValidationNode(s1).update);
            && Follow(GraphEdges, Validation, s2) == Some(Response)
            && ResponseNode(s2).Next?
            && ResponseNode(s2).update.messages
                 == [AIMessage(VStr("Task completed with error: " + NoInstructions))])
  {
    var s1 := Merge(s, Stop(NoInstructions));
    Routing(s1);
    if ValidationNode(s1).Next? {
      var s2 := Merge(s1, ValidationNode(s1).update);
      Routing(s2);
    }
  }
}
