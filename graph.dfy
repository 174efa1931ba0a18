/**
 * langgraph_interface/graph.py: the wiring of the five nodes, the routing
 * decision after validation, the initial state of a run, and the run
 * itself as a loop that executes one node at a time, merges its update
 * into the state record and follows the edge table.
 */
module Graph {
  import opened PyStrings
  import opened PyValues
  import opened GraphState
  import opened Nodes
  import opened NodesProps

  datatype NodeName = Start | Planning | Execution | Validation | Screenshot | Response | ToolNode | End

  /** The two answers of `_should_continue`. */
  datatype Route = Continue | Complete

  /** A plain edge, or the conditional edge whose target `_should_continue`
      picks. */
  datatype Edge =
    | Edge(from: NodeName, to: NodeName)
    | Branch(from: NodeName, onContinue: NodeName, onComplete: NodeName)

  /** What `compile` keeps of the builder: the registered nodes and the edges. */
  datatype Compiled = Compiled(nodes: seq<NodeName>, edges: seq<Edge>)

  const GraphNodes: seq<NodeName> := [Planning, Execution, Validation, Screenshot, Response, ToolNode]

  const GraphEdges: seq<Edge> := [
    Edge(Start, Planning),
    Edge(Planning, Execution),
    Edge(Execution, Validation),
    Branch(Validation, Screenshot, Response),
    Edge(Screenshot, Planning),
    Edge(Response, End)]

  // ---------------------------------------------------------------------
  // `_build_graph`

  /** LangGraph's `StateGraph` builder, as far as `_build_graph` uses it. */
  class StateGraph {
    var nodes: seq<NodeName>
    var edges: seq<Edge>

    constructor ()
      ensures nodes == [] && edges == []
    {
      nodes := [];
      edges := [];
    }

    method AddNode(n: NodeName)
      modifies this
      ensures nodes == old(nodes) + [n] && edges == old(edges)
    {
      nodes := nodes + [n];
    }

    method AddEdge(from: NodeName, to: NodeName)
      modifies this
      ensures edges == old(edges) + [Edge(from, to)] && nodes == old(nodes)
    {
      edges := edges + [Edge(from, to)];
    }

    method AddConditionalEdges(from: NodeName, onContinue: NodeName, onComplete: NodeName)
      modifies this
      ensures edges == old(edges) + [Branch(from, onContinue, onComplete)] && nodes == old(nodes)
    {
      edges := edges + [Branch(from, onContinue, onComplete)];
    }

    method Compile() returns (g: Compiled)
      ensures g == Compiled(nodes, edges)
    {
      g := Compiled(nodes, edges);
    }
  }

  /** `_build_graph`: registers the five nodes and the tools node, then wires
      START to planning, planning to execution, execution to validation,
      validation to screenshot or response, screenshot back to planning and
      response to END. */
  method BuildGraph() returns (g: Compiled)
    ensures g == Compiled(GraphNodes, GraphEdges)
  {
    var builder := new StateGraph();
    builder.AddNode(Planning);
    builder.AddNode(Execution);
    builder.AddNode(Validation);
    builder.AddNode(Screenshot);
    builder.AddNode(Response);
    builder.AddNode(ToolNode);
    builder.AddEdge(Start, Planning);
    builder.AddEdge(Planning, Execution);
    builder.AddEdge(Execution, Validation);
    builder.AddConditionalEdges(Validation, Screenshot, Response);
    builder.AddEdge(Screenshot, Planning);
    builder.AddEdge(Response, End);
    g := builder.Compile();
  }

  // ---------------------------------------------------------------------
  // Routing

  /** `_should_continue`. */
  function ShouldContinue(s: State): Route {
    if s.isComplete then Complete
    else if ErrorSet(s) then Complete
    else if s.interruptRequested then Complete
    else Continue
  }

  /** Where the graph goes after `n` once its update is merged into `s`: the
      first edge leaving `n`, or nowhere. */
  function Follow(edges: seq<Edge>, n: NodeName, s: State): Option<NodeName>
    decreases |edges|
  {
    if edges == [] then None
    else if edges[0].from != n then Follow(edges[1..], n, s)
    else
      match edges[0]
      case Edge(_, to) => Some(to)
      case Branch(_, onContinue, onComplete) =>
        Some(if ShouldContinue(s) == Continue then onContinue else onComplete)
  }

  function Targets(e: Edge): set<NodeName> {
    match e
    case Edge(_, to) => {to}
    case Branch(_, onContinue, onComplete) => {onContinue, onComplete}
  }

  /** Every node an edge of `edges` leads to from `n`, whatever the route. */
  function Successors(edges: seq<Edge>, n: NodeName): set<NodeName>
    decreases |edges|
  {
    if edges == [] then {}
    else (if edges[0].from == n then Targets(edges[0]) else {}) + Successors(edges[1..], n)
  }

  /** Following an edge always lands on one of its node's successors. */
  lemma {:induction false} FollowIsSuccessor(edges: seq<Edge>, n: NodeName, s: State)
    ensures Follow(edges, n, s).Some? ==> Follow(edges, n, s).value in Successors(edges, n)
    decreases |edges|
  {
    if edges != [] && edges[0].from != n {
      FollowIsSuccessor(edges[1..], n, s);
    }
  }

  /** The wiring: each node has exactly the one way out the builder gave it;
      validation goes to response exactly when `_should_continue` says
      "complete", which is when the run is complete, has an error, or was
      interrupted. END and the tools node lead nowhere. */
  lemma Routing(s: State)
    ensures Follow(GraphEdges, Start, s) == Some(Planning)
    ensures Follow(GraphEdges, Planning, s) == Some(Execution)
    ensures Follow(GraphEdges, Execution, s) == Some(Validation)
    ensures Follow(GraphEdges, Validation, s) == Some(Response) <==> (s.isComplete || ErrorSet(s) || s.interruptRequested)
    ensures Follow(GraphEdges, Validation, s) == Some(Screenshot) <==> !(s.isComplete || ErrorSet(s) || s.interruptRequested)
    ensures Follow(GraphEdges, Screenshot, s) == Some(Planning)
    ensures Follow(GraphEdges, Response, s) == Some(End)
    ensures Follow(GraphEdges, End, s).None? && Follow(GraphEdges, ToolNode, s).None?
  {
  }

  /** The tools node is registered but no edge leads to it, so a run never
      reaches it. */
  lemma ToolNodeUnreachable(n: NodeName, s: State)
    ensures ToolNode in GraphNodes
    ensures ToolNode !in Successors(GraphEdges, n)
    ensures Follow(GraphEdges, n, s) != Some(ToolNode)
  {
    FollowIsSuccessor(GraphEdges, n, s);
  }

  // ---------------------------------------------------------------------
  // Runs

  /** The state `execute_request` and `stream_execution` start from; the
      settings supply the model name, the API key and the custom
      instructions. */
  function InitialState(userRequest: string, maxSteps: int, settings: seq<Entry>): State {
    State(
      messages := [],
      userRequest := userRequest,
      stepCount := 0,
      maxSteps := maxSteps,
      currentInstructions := VNone,
      executionResults := [],
      screenshotData := None,
      isComplete := false,
      errorMessage := None,
      interruptRequested := false,
      modelName := GetOr(settings, "model", VStr("gemini-1.5-flash")),
      apiKey := GetOr(settings, "api_key", VStr("")),
      customInstructions := GetOr(settings, "custom_llm_instructions", VStr("")))
  }

  /** A fresh run has made no step, has no plan, no results, no error, is not
      complete and not interrupted, so validation would let it continue. */
  lemma InitialStateFresh(userRequest: string, maxSteps: int, settings: seq<Entry>)
    ensures var s := InitialState(userRequest, maxSteps, settings);
      && s.stepCount == 0 && s.maxSteps == maxSteps && s.userRequest == userRequest
      && !Truthy(s.currentInstructions) && s.executionResults == [] && s.messages == []
      && !ErrorSet(s) && !s.isComplete && !s.interruptRequested
      && ShouldContinue(s) == Continue
      && (Has(settings, "model") ==> s.modelName == Get(settings, "model"))
      && (!Has(settings, "model") ==> s.modelName == VStr("gemini-1.5-flash"))
  {
  }

  /** How `graph.invoke` ends: with the final state, or with the exception a
      node raised. */
  datatype RunOutcome = Finished(state: State) | Failed(error: PyError)

  /** What `execute_request` returns: the final state, or the two-key dict it
      builds from an exception. */
  datatype RequestResult = FinalState(state: State) | GraphFailure(errorMessage: string, isComplete: bool)

  /** What `stream_execution` yields: one `{node: update}` per node run, or
      the error dict. */
  datatype Chunk = NodeChunk(node: NodeName, update: Update) | ErrorChunk(errorMessage: string, isComplete: bool)

  const GraphFailed := "Graph execution failed: "

  /** The state after merging the update of every node chunk, in order. */
  function MergeAll(s: State, chunks: seq<Chunk>): State
    decreases |chunks|
  {
    if chunks == [] then s
    else
      var before := MergeAll(s, chunks[..|chunks| - 1]);
      match chunks[|chunks| - 1]
      case NodeChunk(_, u) => Merge(before, u)
      case ErrorChunk(_, _) => before
  }

  /** Merging node updates never changes the request, the step budget, the
      interrupt flag or the settings: no node returns those keys. */
  lemma {:induction false} MergeAllKeeps(s: State, chunks: seq<Chunk>)
    ensures var r := MergeAll(s, chunks);
      && r.userRequest == s.userRequest && r.maxSteps == s.maxSteps
      && r.interruptRequested == s.interruptRequested
      && r.modelName == s.modelName && r.apiKey == s.apiKey && r.customInstructions == s.customInstructions
    decreases |chunks|
  {
    if chunks != [] {
      MergeAllKeeps(s, chunks[..|chunks| - 1]);
    }
  }

  lemma MergeAllSnoc(s: State, chunks: seq<Chunk>, c: Chunk)
    requires c.NodeChunk?
    ensures MergeAll(s, chunks + [c]) == Merge(MergeAll(s, chunks), c.update)
  {
    assert (chunks + [c])[..|chunks|] == chunks;
  }

  /** The node chunks of a run walk the graph: the first is planning's, and
      each later node is a successor of the one before. */
  ghost predicate Walk(chunks: seq<Chunk>) {
    && (forall i :: 0 <= i < |chunks| ==> chunks[i].NodeChunk?)
    && (chunks != [] ==> chunks[0].node == Planning)
    && (forall i :: 0 < i < |chunks| ==> chunks[i].node in Successors(GraphEdges, chunks[i - 1].node))
  }

  /** The nodes a run executes. */
  predicate Runs(n: NodeName) {
    n.Planning? || n.Execution? || n.Validation? || n.Screenshot? || n.Response?
  }

  /** Node `n` on state `s` after the requests `log`. */
  function NodeRunOf(env: Env, log: seq<PortEvent>, n: NodeName, s: State): NodeRun
    requires Runs(n)
  {
    match n
    case Planning => PlanningRun(env, log, s)
    case Execution => ExecutionRun(Dispatcher(env), log, s)
    case Validation => NodeRun([], ValidationNode(s))
    case Screenshot => ScreenshotRun(env, log, s)
    case Response => NodeRun([], ResponseNode(s))
  }

  // ---------------------------------------------------------------------
  // The step budget

  /** The planning calls a run from `s0` may make: the steps left, and at
      least one. */
  function Budget(s0: State): nat {
    if s0.maxSteps - s0.stepCount >= 1 then s0.maxSteps - s0.stepCount else 1
  }

  function Left(s: State): nat {
    if s.maxSteps - s.stepCount >= 0 then s.maxSteps - s.stepCount else 0
  }

  /** An upper bound on the node runs still to come before END. Four per
      round left while no error is set; once one is, the run goes at most
      through planning, execution, validation and response. */
  function Remaining(n: NodeName, s: State): nat {
    var l := Left(s);
    var lp := if l == 0 then 1 else l;
    if ErrorSet(s) then
      (match n
       case Planning => 4
       case Execution => 3
       case Validation => 2
       case Screenshot => 5
       case Response => 1
       case _ => 0)
    else
      (match n
       case Planning => 4 * lp
       case Execution => 4 * lp - 1
       case Validation => 4 * l + 2
       case Screenshot => 4 * l + 1
       case Response => 1
       case _ => 0)
  }

  /** Planning leaves the step count alone and keeps an error set. */
  lemma RemainingAfterPlanning(s: State, s': State)
    requires s'.maxSteps == s.maxSteps && s'.stepCount == s.stepCount
    requires ErrorSet(s) ==> ErrorSet(s')
    ensures Remaining(Execution, s') < Remaining(Planning, s)
  {
  }

  /** Execution either sets an error or adds one step. */
  lemma RemainingAfterExecution(s: State, s': State)
    requires s'.maxSteps == s.maxSteps
    requires ErrorSet(s) ==> ErrorSet(s')
    requires !ErrorSet(s') ==> s'.stepCount == s.stepCount + 1
    ensures Remaining(Validation, s') < Remaining(Execution, s)
  {
  }

  /** The screenshot runs only with a step left, or after an error. */
  lemma RemainingAfterScreenshot(s: State, s': State)
    requires s'.maxSteps == s.maxSteps && s'.stepCount == s.stepCount
    requires ErrorSet(s) ==> ErrorSet(s')
    requires !ErrorSet(s) ==> s.stepCount < s.maxSteps
    ensures Remaining(Planning, s') < Remaining(Screenshot, s)
  {
  }

  /** What holds each time the run of a graph started on `s0` is about to
      execute node `n` on state `s`, having asked the planner `calls` times:
      the step count rose by one per completed round, each round asked the
      planner once, and an error, once set, stays set. */
  ghost predicate Inv(s0: State, n: NodeName, s: State, calls: nat) {
    && (Runs(n) || n.End?)
    && s.maxSteps == s0.maxSteps && s.interruptRequested == s0.interruptRequested
    && s.stepCount >= s0.stepCount
    && calls <= Budget(s0)
    && (ErrorSet(s0) ==> ErrorSet(s) && (if n.Planning? then calls == 0 else calls <= 1))
    && (n.Planning? ==> calls == s.stepCount - s0.stepCount && (calls == 0 || s.stepCount < s.maxSteps))
    && (n.Execution? ==> calls == s.stepCount - s0.stepCount + 1 && (calls == 1 || s.stepCount < s.maxSteps))
    && (n.Validation? && !ErrorSet(s) ==>
          calls == s.stepCount - s0.stepCount && calls >= 1 && (calls == 1 || s.stepCount <= s.maxSteps))
    && (n.Screenshot? ==> calls == s.stepCount - s0.stepCount && s.stepCount < s.maxSteps && !ErrorSet(s))
    && (n.End? ==> s.isComplete)
  }

  /** An environment in which the screenshot call always completes and the
      planner always answers with a runnable plan that is never done. */
  ghost predicate Cooperative(env: Env) {
    && (forall log :: env.tools(log, ScreenshotAttempt).Completed?)
    && (forall log, request :: env.planner(log, request).Plan? && RunnablePlan(env.planner(log, request).instructions))
  }

  /** A run that can only end by exhausting its steps. */
  ghost predicate Good(env: Env, s0: State) {
    Cooperative(env) && !ErrorSet(s0) && !s0.interruptRequested
  }

  /** What else holds in a good run: no error before validation gives up,
      a runnable plan in hand from planning on, and at the end exactly the
      budgeted planning calls and "Maximum steps exceeded". */
  ghost predicate GoodInv(s0: State, n: NodeName, s: State, calls: nat) {
    && (n.Planning? || n.Execution? || n.Validation? || n.Screenshot? ==> !ErrorSet(s))
    && (n.Execution? || n.Validation? || n.Screenshot? ==> RunnablePlan(s.currentInstructions))
    && (n.Response? || n.End? ==> calls == Budget(s0) && s.errorMessage == Some(MaximumStepsExceeded))
  }

  /** A node at `n` on `s` that ran as `run` kept the run invariant and
      brought END strictly closer; in a good run (`good`) it did not crash
      and kept the good-run invariant; if it crashed, it had not asked the
      planner. */
  ghost predicate Keeps(s0: State, n: NodeName, s: State, calls: nat, run: NodeRun, good: bool) {
    && (good && GoodInv(s0, n, s, calls) ==> run.result.Next?)
    && (run.result.Crash? ==> PlanCount(run.events) == 0)
    && (run.result.Next? ==>
          var s' := Merge(s, run.result.update);
          && Follow(GraphEdges, n, s').Some?
          && var next := Follow(GraphEdges, n, s').value;
          && Inv(s0, next, s', calls + PlanCount(run.events))
          && Remaining(next, s') < Remaining(n, s)
          && (good && GoodInv(s0, n, s, calls) ==> GoodInv(s0, next, s', calls + PlanCount(run.events))))
  }

  /** Planning asks the planner once, or crashes before asking; in a good
      run it gets a runnable plan. */
  lemma AdvancePlanning(env: Env, log: seq<PortEvent>, s0: State, s: State, calls: nat)
    requires Inv(s0, Planning, s, calls)
    ensures Keeps(s0, Planning, s, calls, PlanningRun(env, log, s), Good(env, s0))
  {
    var run := PlanningRun(env, log, s);
    PlanningOutcomes(env, log, s);
    if Good(env, s0) {
      var first := if s.stepCount == 0 then [ToolEvent(ScreenshotAttempt)] else [];
      assert env.tools(log, ScreenshotAttempt).Completed?;
      var reply := env.planner(log + first, PlanRequest(s.userRequest, s.stepCount));
      assert reply.Plan? && RunnablePlan(reply.instructions);
    }
    if run.result.Next? {
      MergeFields(s, run.result.update);
      Routing(Merge(s, run.result.update));
      RemainingAfterPlanning(s, Merge(s, run.result.update));
    }
  }

  /** Execution never asks the planner, and adds one step unless it stops;
      in a good run it completes its steps. */
  lemma AdvanceExecution(env: Env, log: seq<PortEvent>, s0: State, s: State, calls: nat)
    requires Inv(s0, Execution, s, calls)
    ensures Keeps(s0, Execution, s, calls, ExecutionRun(Dispatcher(env), log, s), Good(env, s0))
  {
    assert PlanCount(ExecutionRun(Dispatcher(env), log, s).events) == 0 by {
      DispatcherAsksNoPlanner(env);
      ExecutionAsksNoPlanner(Dispatcher(env), log, s);
    }
    if Good(env, s0) && GoodInv(s0, Execution, s, calls) {
      ExecutionCompletes(env, log, s);
    }
    ExecutionKeeps(Dispatcher(env), log, s0, s, calls, Good(env, s0));
  }

  /** Execution with any step runner that asks no planner keeps the run,
      provided that in a good run its round completes. */
  lemma ExecutionKeeps(run: StepRunner, log: seq<PortEvent>, s0: State, s: State, calls: nat, good: bool)
    requires Inv(s0, Execution, s, calls)
    requires PlanCount(ExecutionRun(run, log, s).events) == 0
    requires good && GoodInv(s0, Execution, s, calls) ==>
      var r := ExecutionRun(run, log, s);
      r.result.Next? && r.result.update.errorMessage.None? && r.result.update.stepCount == Some(s.stepCount + 1)
    ensures Keeps(s0, Execution, s, calls, ExecutionRun(run, log, s), good)
  {
    var r := ExecutionRun(run, log, s);
    if r.result.Next? {
      ExecutionUpdate(run, log, s);
      MergeFields(s, r.result.update);
      Routing(Merge(s, r.result.update));
      RemainingAfterExecution(s, Merge(s, r.result.update));
    }
  }

  /** Validation routes on its own update. */
  lemma AdvanceValidation(s0: State, s: State, calls: nat, good: bool)
    requires Inv(s0, Validation, s, calls)
    requires good ==> !ErrorSet(s0) && !s0.interruptRequested
    ensures Keeps(s0, Validation, s, calls, NodeRun([], ValidationNode(s)), good)
  {
    ValidationDecides(s);
    if ValidationNode(s).Next? {
      var u := ValidationNode(s).update;
      MergeFields(s, u);
      Routing(Merge(s, u));
    }
  }

  /** The screenshot node never crashes and leads back to planning. */
  lemma AdvanceScreenshot(env: Env, log: seq<PortEvent>, s0: State, s: State, calls: nat)
    requires Inv(s0, Screenshot, s, calls)
    ensures Keeps(s0, Screenshot, s, calls, ScreenshotRun(env, log, s), Good(env, s0))
  {
    var run := ScreenshotRun(env, log, s);
    ScreenshotOutcomes(env, log, s);
    MergeFields(s, run.result.update);
    Routing(Merge(s, run.result.update));
    RemainingAfterScreenshot(s, Merge(s, run.result.update));
  }

  /** The response node leads to END. */
  lemma AdvanceResponse(s0: State, s: State, calls: nat, good: bool)
    requires Inv(s0, Response, s, calls)
    ensures Keeps(s0, Response, s, calls, NodeRun([], ResponseNode(s)), good)
  {
    ResponseOutcomes(s);
    if ResponseNode(s).Next? {
      MergeFields(s, ResponseNode(s).update);
      Routing(Merge(s, ResponseNode(s).update));
    }
  }

  /** One node run keeps the run invariant, brings END closer, and in a good
      run neither crashes nor breaks the good-run invariant. */
  lemma Advance(env: Env, log: seq<PortEvent>, s0: State, n: NodeName, s: State, calls: nat)
    requires Inv(s0, n, s, calls) && Runs(n)
    ensures Keeps(s0, n, s, calls, NodeRunOf(env, log, n, s), Good(env, s0))
  {
    match n
    case Planning => AdvancePlanning(env, log, s0, s, calls);
    case Execution => AdvanceExecution(env, log, s0, s, calls);
    case Validation => AdvanceValidation(s0, s, calls, Good(env, s0));
    case Screenshot => AdvanceScreenshot(env, log, s0, s, calls);
    case Response => AdvanceResponse(s0, s, calls, Good(env, s0));
  }

  /** Everything a run keeps while it is about to execute node `n` on state
      `s`, having produced `chunks` and asked the planner `calls` times.
      The body is bound to `holds` so that the loop of `Loop` carries it as
      one fact rather than conjunct by conjunct. */
  ghost predicate RunState(env: Env, s0: State, n: NodeName, s: State, chunks: seq<Chunk>, calls: nat) {
    var holds :=
      && Inv(s0, n, s, calls)
      && (Good(env, s0) ==> GoodInv(s0, n, s, calls))
      && s == MergeAll(s0, chunks)
      && Walk(chunks)
      && (if chunks == [] then n == Planning else n in Successors(GraphEdges, chunks[|chunks| - 1].node))
      && (n.End? ==> chunks != [] && chunks[|chunks| - 1].node == Response);
    holds
  }

  /** A run starts in a run state: at planning, with no chunk and no call. */
  lemma RunStateStart(env: Env, s0: State)
    ensures RunState(env, s0, Planning, s0, [], 0)
  {
  }

  /** What a run state promises at any point of a run, and once END is
      reached. */
  lemma RunStateBounds(env: Env, s0: State, n: NodeName, s: State, chunks: seq<Chunk>, calls: nat)
    requires RunState(env, s0, n, s, chunks, calls)
    ensures calls <= Budget(s0) && (ErrorSet(s0) ==> calls <= 1) && Walk(chunks)
    ensures n == End ==>
      && s == MergeAll(s0, chunks) && s.isComplete
      && chunks != [] && chunks[|chunks| - 1].node == Response
      && (ErrorSet(s0) ==> ErrorSet(s))
    ensures n == End && Good(env, s0) ==> s.errorMessage == Some(MaximumStepsExceeded) && calls == Budget(s0)
  {
  }

  /** A node run that returned `u` and moved the run invariants on to the
      next node keeps the whole run state. */
  lemma RunStateStep(env: Env, s0: State, n: NodeName, s: State, chunks: seq<Chunk>, calls: nat, u: Update, more: nat)
    requires RunState(env, s0, n, s, chunks, calls) && Runs(n)
    requires Follow(GraphEdges, n, Merge(s, u)).Some?
    requires Inv(s0, Follow(GraphEdges, n, Merge(s, u)).value, Merge(s, u), calls + more)
    requires Good(env, s0) && GoodInv(s0, n, s, calls) ==>
      GoodInv(s0, Follow(GraphEdges, n, Merge(s, u)).value, Merge(s, u), calls + more)
    ensures RunState(env, s0, Follow(GraphEdges, n, Merge(s, u)).value, Merge(s, u), chunks + [NodeChunk(n, u)], calls + more)
  {
    var next := Follow(GraphEdges, n, Merge(s, u)).value;
    assert Merge(s, u) == MergeAll(s0, chunks + [NodeChunk(n, u)]) by {
      MergeAllSnoc(s0, chunks, NodeChunk(n, u));
    }
    assert next in Successors(GraphEdges, n) && (next.End? ==> n == Response) by {
      FollowIsSuccessor(GraphEdges, n, Merge(s, u));
      Routing(Merge(s, u));
    }
    WalkSnoc(chunks, n, u);
  }

  /** Running the node at `n` from a run state leads to the run state at
      the node the edge table picks next, strictly closer to END; a good run
      does not crash there, and a crash asks no planner. */
  lemma RunStateAdvance(env: Env, log: seq<PortEvent>, s0: State, n: NodeName, s: State, chunks: seq<Chunk>, calls: nat)
    requires RunState(env, s0, n, s, chunks, calls) && Runs(n)
    ensures Good(env, s0) ==> NodeRunOf(env, log, n, s).result.Next?
    ensures NodeRunOf(env, log, n, s).result.Crash? ==> PlanCount(NodeRunOf(env, log, n, s).events) == 0
    ensures var run := NodeRunOf(env, log, n, s);
      run.result.Next? ==>
        && Follow(GraphEdges, n, Merge(s, run.result.update)).Some?
        && var next := Follow(GraphEdges, n, Merge(s, run.result.update)).value;
        && RunState(env, s0, next, Merge(s, run.result.update), chunks + [NodeChunk(n, run.result.update)], calls + PlanCount(run.events))
        && Remaining(next, Merge(s, run.result.update)) < Remaining(n, s)
  {
    var run := NodeRunOf(env, log, n, s);
    Advance(env, log, s0, n, s, calls);
    if run.result.Next? {
      RunStateStep(env, s0, n, s, chunks, calls, run.result.update, PlanCount(run.events));
    }
  }

  /** A walk stays a walk when it goes on to a node the graph allows next. */
  lemma WalkSnoc(chunks: seq<Chunk>, n: NodeName, u: Update)
    requires Walk(chunks)
    requires if chunks == [] then n == Planning else n in Successors(GraphEdges, chunks[|chunks| - 1].node)
    ensures Walk(chunks + [NodeChunk(n, u)])
  {
    var chunks' := chunks + [NodeChunk(n, u)];
    forall i | 0 < i < |chunks'| ensures chunks'[i].node in Successors(GraphEdges, chunks'[i - 1].node) {
      if i < |chunks| {
        assert chunks'[i] == chunks[i] && chunks'[i - 1] == chunks[i - 1];
      }
    }
  }

  // ---------------------------------------------------------------------
  // `OpenInterfaceGraph`

  class OpenInterfaceGraph {
    const nodes: OpenInterfaceNodes
    const graph: Compiled

    predicate Valid() {
      graph == Compiled(GraphNodes, GraphEdges)
    }

    constructor (env: Env, settings: seq<Entry>)
      ensures Valid() && fresh(nodes) && nodes.env == env && nodes.settings == settings && nodes.log == []
    {
      nodes := new OpenInterfaceNodes(env, settings);
      var g := BuildGraph();
      graph := g;
    }

    /** Calls the node registered under `n`. */
    method RunNode(n: NodeName, s: State) returns (r: NodeResult)
      requires Runs(n)
      modifies nodes
      ensures nodes.log == old(nodes.log) + NodeRunOf(nodes.env, old(nodes.log), n, s).events
      ensures r == NodeRunOf(nodes.env, old(nodes.log), n, s).result
    {
      match n
      case Planning =>
        r := nodes.PlanningNode(s);
      case Execution =>
        r := nodes.ExecutionNode(s);
      case Validation =>
        r := ValidationNode(s);
      case Screenshot =>
        r := nodes.ScreenshotNode(s);
      case Response =>
        r := ResponseNode(s);
    }

    /** The superstep loop of `self.graph.invoke(state)` /
        `self.graph.stream(state)`: runs nodes from planning on, merging each
        update, until END or until a node raises (`failed` then holds what it
        raised). It ends in a state of the run, and a good run does not
        crash. */
    method Loop(s0: State) returns (failed: Option<PyError>, n: NodeName, s: State, chunks: seq<Chunk>, ghost asked: seq<PortEvent>)
      requires Valid()
      modifies nodes
      ensures nodes.log == old(nodes.log) + asked
      ensures RunState(nodes.env, s0, n, s, chunks, PlanCount(asked))
      ensures failed.None? ==> n == End
      ensures Good(nodes.env, s0) ==> failed.None?
    {
      n := Planning;
      s := s0;
      chunks := [];
      asked := [];
      RunStateStart(nodes.env, s0);
      while n != End
        invariant nodes.log == old(nodes.log) + asked
        invariant RunState(nodes.env, s0, n, s, chunks, PlanCount(asked))
        decreases Remaining(n, s)
      {
        ghost var calls := PlanCount(asked);
        ghost var log := nodes.log;
        var r := RunNode(n, s);
        ghost var events := NodeRunOf(nodes.env, log, n, s).events;
        RunStateAdvance(nodes.env, log, s0, n, s, chunks, calls);
        PlanCountAppend(asked, events);
        AppendAssoc(old(nodes.log), asked, events);
        asked := asked + events;
        if r.Crash? {
          assert PlanCount(asked) == calls;
          return Some(r.error), n, s, chunks, asked;
        }
        assert PlanCount(asked) == calls + PlanCount(events);
        chunks := chunks + [NodeChunk(n, r.update)];
        s := Merge(s, r.update);
        assert graph.edges == GraphEdges;
        n := Follow(graph.edges, n, s).value;
      }
      failed := None;
    }

    /** `self.graph.invoke(state)` / `self.graph.stream(state)`: the planner
        is asked at most once per step of the budget (at most once in all when
        an error is already set), the node chunks walk the edge table, a
        finished run is complete and holds every update, and in a good run the
        run ends exactly by exhausting its steps. */
    method Run(s0: State) returns (outcome: RunOutcome, chunks: seq<Chunk>, ghost asked: seq<PortEvent>)
      requires Valid()
      modifies nodes
      ensures nodes.log == old(nodes.log) + asked
      ensures PlanCount(asked) <= Budget(s0)
      ensures ErrorSet(s0) ==> PlanCount(asked) <= 1
      ensures Walk(chunks)
      ensures outcome.Finished? ==>
        && outcome.state == MergeAll(s0, chunks)
        && outcome.state.isComplete
        && chunks != [] && chunks[|chunks| - 1].node == Response
        && (ErrorSet(s0) ==> ErrorSet(outcome.state))
      ensures Good(nodes.env, s0) ==>
        && outcome.Finished?
        && outcome.state.errorMessage == Some(MaximumStepsExceeded)
        && PlanCount(asked) == Budget(s0)
    {
      var failed, n, s;
      failed, n, s, chunks, asked := Loop(s0);
      RunStateBounds(nodes.env, s0, n, s, chunks, PlanCount(asked));
      if failed.Some? {
        outcome := Failed(failed.value);
      } else {
        outcome := Finished(s);
      }
    }

    /** `execute_request`: runs the graph from the initial state and never
        raises; an exception becomes "Graph execution failed: ..." with the
        run marked complete. */
    method ExecuteRequest(userRequest: string, maxSteps: int := 10) returns (res: RequestResult, ghost asked: seq<PortEvent>)
      requires Valid()
      modifies nodes
      ensures nodes.log == old(nodes.log) + asked
      ensures PlanCount(asked) <= Budget(InitialState(userRequest, maxSteps, nodes.settings))
      ensures Cooperative(nodes.env) ==> PlanCount(asked) == Budget(InitialState(userRequest, maxSteps, nodes.settings))
      ensures res.GraphFailure? ==> res.isComplete && StartsWith(res.errorMessage, GraphFailed)
      ensures res.FinalState? ==> res.state.isComplete && res.state.userRequest == userRequest && res.state.maxSteps == maxSteps
      ensures Cooperative(nodes.env) ==> res.FinalState? && res.state.errorMessage == Some(MaximumStepsExceeded)
    {
      var s0 := InitialState(userRequest, maxSteps, nodes.settings);
      var outcome, chunks;
      outcome, chunks, asked := Run(s0);
      match outcome
      case Finished(s) =>
        MergeAllKeeps(s0, chunks);
        res := FinalState(s);
      case Failed(e) =>
        res := GraphFailure(GraphFailed + Describe(e), true);
    }

    /** `stream_execution`: yields each node's update as it runs; if a node
        raises, the last chunk is the error dict instead of an exception. The
        node chunks walk the edge table from planning, and a stream that ends
        at response merges into the complete state `execute_request` would
        return. */
    method StreamExecution(userRequest: string, maxSteps: int := 10) returns (chunks: seq<Chunk>, ghost asked: seq<PortEvent>)
      requires Valid()
      modifies nodes
      ensures nodes.log == old(nodes.log) + asked
      ensures PlanCount(asked) <= Budget(InitialState(userRequest, maxSteps, nodes.settings))
      ensures chunks != []
      ensures Walk(chunks[..|chunks| - 1])
      ensures chunks[|chunks| - 1].ErrorChunk? ==>
        chunks[|chunks| - 1].isComplete && StartsWith(chunks[|chunks| - 1].errorMessage, GraphFailed)
      ensures chunks[|chunks| - 1].NodeChunk? ==>
        && Walk(chunks)
        && chunks[|chunks| - 1].node == Response
        && MergeAll(InitialState(userRequest, maxSteps, nodes.settings), chunks).isComplete
      ensures Cooperative(nodes.env) ==>
        && PlanCount(asked) == Budget(InitialState(userRequest, maxSteps, nodes.settings))
        && chunks[|chunks| - 1].NodeChunk?
        && MergeAll(InitialState(userRequest, maxSteps, nodes.settings), chunks).errorMessage == Some(MaximumStepsExceeded)
    {
      var s0 := InitialState(userRequest, maxSteps, nodes.settings);
      var outcome, updates;
      outcome, updates, asked := Run(s0);
      match outcome
      case Finished(_) =>
        chunks := updates;
        assert chunks[..|chunks| - 1] == updates[..|updates| - 1];
      case Failed(e) =>
        chunks := updates + [ErrorChunk(GraphFailed + Describe(e), true)];
        assert chunks[..|chunks| - 1] == updates;
    }
  }
}
