# Open Interface: the action dispatchers and the control loop, in Dafny

Open Interface turns a natural-language request into mouse and keyboard
actions. A planning model returns a plan, a list of descriptors
`{function, parameters, human_readable_justification}`, and a dispatcher
turns each descriptor into pyautogui calls. This project models the two
places where that happens, and proves what they do.

- **The descriptor interpreter** (`app/interpreter.py`, modules `Interpreter`
  and `InterpreterProps`). Before every command, `execute_function` issues a
  warm-up tap and a short delay. It then strips a `pyautogui.` or `time.`
  qualifier, resolves the `sleep`, `write`, `press`, `hotkey` and `click`
  aliases, and passes any other name pyautogui has straight through.
  `process_command` puts the justification on the status queue and catches
  exceptions. `process_commands` stops at the first command that fails.
  The class `Interpreter.Interpreter` keeps one trace: the status messages
  and the device calls, in the order an observer sees them. Its methods are
  proved equal to specification functions (`ScriptFor`, `Perform`,
  `Execution`, `CommandRun`, `ProcessAll`), and the lemmas state what
  those functions promise.
- **The LangGraph control loop** (`langgraph_interface/nodes.py`,
  `graph.py`, `state.py`, and the tool order of `tools.py`; modules `Tools`,
  `GraphState`, `Nodes`, `NodesProps`, `Graph`, `GraphProps`).
  - `OpenInterfaceNodes` is a class whose `log` records every request to
    the tools and to the planner. Its methods are proved equal to functions
    of that log, so tools and planner are oracles whose answers may depend
    on everything asked before.
  - `_execute_step` is `Nodes.ExecuteStepRun`, and `execution_node`'s loop
    is `RunStepsLoop`, proved against `RunSteps`.
  - The graph is built by a `StateGraph` builder class. `graph.invoke` is
    modelled as an explicit loop over the edge table
    (`OpenInterfaceGraph.Loop`, wrapped by `OpenInterfaceGraph.Run`).
    - Its termination measure is `Remaining`.
    - Its invariant is `RunState`.
    - It proves the planning budget, that the chunks walk the graph, and
      that a complete, cooperative run ends with exactly max(`max_steps`, 1)
      planning calls (`Budget`) and "Maximum steps exceeded". That last
      outcome holds in the model only, which has no recursion limit (see
      "## Left out"): at the default `max_steps = 10` the real run stops
      first with "Graph execution failed: Recursion limit of 25 reached ...".
  - `execute_request` and `stream_execution` wrap that loop. They turn a
    node's exception into "Graph execution failed: ...".
- **Both dispatchers side by side** (`DispatchProps`): they read the same
  descriptors but disagree on some of them.

Helpers shared by all of it:

- `PyStrings` models `startswith`, `replace`, `in` and ASCII `lower`.
- `PyValues` holds the JSON-like values and dict lookups, and models
  Python truthiness and `str(e)` of the exceptions that can occur.

Behaviour of the code that a reader may not expect, each stated by a
lemma:

- **A failed plan does not end the run.** `planning_node` only sets
  `error_message` and `is_complete` (nodes.py:82-86), and the edge from
  planning to execution is unconditional (graph.py:51). On the first round
  no plan is stored yet, so execution overwrites the message with "No
  instructions to execute", and validation then raises on the missing plan
  (`GraphProps.FirstPlanFailureCrashesValidation`).
- **A failed re-plan repeats the previous round.** On a later round the
  previous plan is still stored, so execution runs that plan's steps again
  and leaves "Planning failed: ..." in place
  (`GraphProps.FailedReplanRepeatsSteps`).
- **A plan that is "done" but has no steps ends as an error.** It does not
  end with its done text (`GraphProps.DoneWithoutStepsReportsError`).
- **A `done` value must fit in a chat message.** `validation_node` and
  `response_node` wrap it in an `AIMessage`, whose content must be a string
  or a list of strings and dicts. Any other value makes the node raise, and
  the run fails (`NodesProps.ValidationDecides`, `NodesProps.ResponseOutcomes`).
- **The "screenshot" is a sleep.** The planning and screenshot nodes call
  position 4 of the tool list, which holds the sleep tool
  (`NodesProps.ScreenshotAttemptSleeps`).
- **Unknown names are not failures.** In the interpreter, an unknown name
  makes no call and the command succeeds. In `_execute_step`, it gives
  "Unknown function: ...", which counts as a success unless the name
  contains "failed" (`NodesProps.UnknownNameSucceeds`).
- **A failed warm-up fails the command.** The warm-up is inside
  `process_command`'s `try`, so if it raises, the command fails
  (`InterpreterProps.WarmupFirst`).
- **An interrupt is reported as an error.** It sets "Execution interrupted
  by user" as the error, and the response node reports it as one.
- **The write intervals differ.** The default is 0.1 in the interpreter and
  0.05 in `_execute_step`.

## Model

| member | source | states |
|---|---|---|
| PyValues.Iterate | langgraph_interface/nodes.py:99 | `for x in v` visits a list's items, a dict's keys or a string's characters; it is defined exactly for those, and visits nothing exactly when `v` is falsy |
| Interpreter.NormaliseName | app/interpreter.py:63-67 | definition of the name cleaning; properties in `InterpreterProps.NormalisePyautogui`, `NormaliseTime`, `NormaliseStripsOneKind`, `NormaliseUnqualified` |
| Interpreter.ScriptFor | app/interpreter.py:69-121 | definition of the calls a descriptor makes after the warm-up; properties in the `InterpreterProps` alias lemmas, `GenericPassThrough` and `ScriptErrors` |
| Interpreter.Perform | app/interpreter.py:57-119 | definition of a run of pyautogui calls that stops at the first one that raises; properties in `PerformAttemptsPrefix`, `PerformLastRaised`, `PerformEarlierReturned`, `PerformStopsAfterFailure` |
| Interpreter.Execution | app/interpreter.py:51-121 | definition of `execute_function`; properties in `ExecutionHasNoStatuses`, `InterpreterProps.WarmupFirst`, `InterpreterProps.ExecutionFollowsScript` |
| Interpreter.ReadCommand | app/interpreter.py:34-36 | definition of reading `function`, `parameters` (default `{}`) and the justification; properties in `CommandRunShape` |
| Interpreter.CommandRun | app/interpreter.py:27-49 | definition of `process_command`; properties in `CommandRunShape`, `StatusesOfCommand` |
| Interpreter.ProcessAll | app/interpreter.py:15-25 | definition of `process_commands`; properties in `ProcessAllReport`, `ProcessAllSnoc`, `ProcessAllStopsAtFailure` |
| Interpreter.PressEach | app/interpreter.py:87-90 | one press per key, in key order, each with the same presses and interval |
| Interpreter.PerformAttemptsPrefix | app/interpreter.py:87-93 | issuing calls until one raises attempts a prefix of them in order, and all of them when none raised |
| Interpreter.PerformLastRaised | app/interpreter.py:87-93 | when the calls did not all return, the last one attempted raised, after all the earlier ones |
| Interpreter.PerformEarlierReturned | app/interpreter.py:87-93 | every call attempted before the last returned, each with all the earlier ones in the history |
| Interpreter.PerformStopsAfterFailure | app/interpreter.py:87-93 | once a call has raised, later calls are never made |
| Interpreter.ExecutionHasNoStatuses | app/interpreter.py:51-121 | `execute_function` puts nothing on the status queue |
| Interpreter.CommandRunShape | app/interpreter.py:27-49 | a command without `function` raises before doing anything; any other first puts its justification on the queue and succeeds exactly when its execution returns |
| Interpreter.StatusesOfCommand | app/interpreter.py:34-38 | a command that is read puts exactly its justification on the queue |
| Interpreter.ProcessAllReport | app/interpreter.py:15-25 | commands are reached in list order with one status each; True only after reaching all of them; an exception only at a command without `function` |
| Interpreter.ProcessAllSnoc | app/interpreter.py:21-25 | one more command after a list that succeeded runs after the others' effects, and the longer list succeeds exactly when that command does |
| Interpreter.ProcessAllStopsAtFailure | app/interpreter.py:21-24 | fail-fast: after a command fails or raises, the commands after it are never looked at |
| Interpreter.Interpreter.constructor | app/interpreter.py:10-13 | the interpreter starts with the given status queue and device |
| Interpreter.Interpreter.Issue | app/interpreter.py:58 | one device call is appended to the trace, and reports whether it raised |
| Interpreter.Interpreter.WarmUp | app/interpreter.py:57-61 | the tap on "command", then the delay unless the tap raised, as `Perform` of those two calls |
| Interpreter.Interpreter.PressKeys | app/interpreter.py:87-90 | the key loop of `press` makes one call per key until one raises, as `Perform` of `PressEach` |
| Interpreter.Interpreter.Dispatch | app/interpreter.py:63-121 | name resolution and aliases: a code error changes nothing and fails; otherwise the calls of `ScriptFor` are issued until one raises |
| Interpreter.Interpreter.ExecuteFunction | app/interpreter.py:51-121 | the warm-up and then the script, with exactly the trace and result of `Execution` |
| Interpreter.Interpreter.ProcessCommand | app/interpreter.py:27-49 | the status, then the execution, as `CommandRun` |
| Interpreter.Interpreter.ProcessCommands | app/interpreter.py:15-25 | the commands in order until one fails, as `ProcessAll` |
| InterpreterProps.NormalisePyautogui | app/interpreter.py:64-65 | a name that starts with `pyautogui.` loses every copy of it: `pyautogui.` + a + `pyautogui.` + b + ... becomes a + b + ..., for any number of parts free of the qualifier |
| InterpreterProps.NormaliseTime | app/interpreter.py:66-67 | a name that starts with `time.` (so not with `pyautogui.`) loses every copy of `time.`, for any number of parts |
| PyStrings.RemoveAllQualified | app/interpreter.py:65 | `replace(p, "")` on copies of `p` joined with `p`-free parts gives the parts joined, when the last character of `p` is unique in it (true of `pyautogui.` and `time.`, `QualifiersLastCharUnique`) |
| InterpreterProps.NormaliseStripsOneKind | app/interpreter.py:64-67 | for every name `t` without either qualifier inside, `pyautogui.time.` + `t` keeps its `time.` qualifier, although `time.` + `t` alone loses it: only one kind is dropped |
| InterpreterProps.NormaliseUnqualified | app/interpreter.py:64-67 | an unqualified name is unchanged |
| InterpreterProps.SleepAlias | app/interpreter.py:69-71 | `sleep` with a truthy `secs` or `seconds` sleeps once, for `secs` if truthy and otherwise `seconds` |
| InterpreterProps.SleepWithoutDuration | app/interpreter.py:69-72 | `sleep` without a duration falls through to pyautogui's own `sleep`, or to nothing |
| InterpreterProps.WriteAlias | app/interpreter.py:77-81 | `write` with a `string`, `text` or `message` key takes `string`, then `text`, then `message`, with interval 0.1 unless given (without those keys it is the plain call of `GenericPassThrough`) |
| InterpreterProps.PressExpansion | app/interpreter.py:82-93 | `press` with a list presses each key in order, otherwise once; presses 1 and interval 0.2 by default |
| InterpreterProps.HotkeyCombination | app/interpreter.py:94-106 | `hotkey` is one combined call: the `keys` list, a single key, or all parameter values in order |
| InterpreterProps.ClickGuard | app/interpreter.py:107-116 | `click` clicks once at (x, y) with `clicks` (default 1) exactly when both coordinates are present, and otherwise calls nothing |
| InterpreterProps.GenericPassThrough | app/interpreter.py:69-119 | a name pyautogui has gets the parameters unchanged exactly when it is not `hotkey` or `click`, not `sleep` with a duration, not `write` with a text key and not `press` with a key: `write` and `press` without those keys fall through to the plain call |
| InterpreterProps.ScriptErrors | app/interpreter.py:64-121 | a non-string name is an error, and so are non-dict parameters for `sleep` or for any name pyautogui has; a name pyautogui lacks does nothing |
| InterpreterProps.WarmupAttempt | app/interpreter.py:58-61 | the tap, then the delay unless the tap raised |
| InterpreterProps.WarmupFirst | app/interpreter.py:57-61 | every command starts with the warm-up tap and delay, and fails right there if either raises |
| InterpreterProps.ExecutionFollowsScript | app/interpreter.py:51-121 | after a warm-up that returned, a command succeeds exactly when every call of its script returns |
| InterpreterProps.UnsupportedNameSucceeds | app/interpreter.py:120-121 | a name pyautogui lacks performs only the warm-up and still succeeds |
| Tools.FailurePrefix | langgraph_interface/tools.py:19-72 | definition of each wrapper's failure text prefix (none for sleep); properties in `PrefixSaysFailed` |
| Tools.Outcome | langgraph_interface/tools.py:19-72 | definition of what a tool returns or raises for a device result; properties in `WrappedFailureSaysFailed` |
| Tools.PrefixSaysFailed | langgraph_interface/tools.py:25-72 | every wrapper's failure text contains "failed" once lower-cased |
| Tools.WrappedFailureSaysFailed | langgraph_interface/tools.py:19-72 | a device failure comes back as text containing "failed" from every tool but sleep, which raises it |
| GraphState.Merge | langgraph_interface/state.py:10-32 | definition of merging a node's update: `messages` appended by `add_messages`, every other returned key overwritten; properties in `MergeFields` |
| GraphState.MessageContent | langgraph_interface/nodes.py:133-137 | definition of the values an `AIMessage` accepts as content; used by `ValidationNode` and `ResponseNode` |
| GraphState.MergeFields | langgraph_interface/state.py:10-32 | a node's update appends its messages and overwrites exactly the keys it returns (plan, results, step count, completion, screenshot data, error), keeping the others; the request, budget, interrupt flag and settings never change; an error once set stays set under updates that keep errors |
| Nodes.StepPlan | langgraph_interface/nodes.py:188-244 | definition of the tool table lookup after dropping `pyautogui.`, and the tool input; properties in `NodesProps.UnknownNameCallsNothing` and the mapping lemmas |
| Nodes.ToolInput | langgraph_interface/nodes.py:211-242 | definition of the parameter mapping per name; properties in `NodesProps.WriteMapping`, `PressMapping`, `HotkeyMapping`, `SleepMapping`, `PassThroughMapping` |
| Nodes.ExecuteStepRun | langgraph_interface/nodes.py:185-247 | definition of `_execute_step`; properties in `NodesProps.FailuresAreRecordedAsFailures`, `DispatcherRaisesOnlyOnNames`, `DispatcherAsksNoPlanner`, `UnknownNameSucceeds`; the method `ExecuteStep` equals it |
| Nodes.Succeeded | langgraph_interface/nodes.py:120 | definition of the success flag, "failed" not in the lower-cased text; properties in `NodesProps.ExecutionFailedSaysFailed`, `UnknownNameSucceeds` |
| Nodes.ReadStep | langgraph_interface/nodes.py:106-108 | definition of reading a step's fields with their defaults; properties in `RunStepsSnoc`, `NodesProps.RunStepsRecordsEachStep` |
| Nodes.RunSteps | langgraph_interface/nodes.py:99-121 | definition of the step loop; properties in `RunStepsSnoc`, `NodesProps.RunStepsRecordsEachStep`, `InterruptStopsFirst`, `RunStepsCompletes`, `RunStepsAsksNoPlanner`; the method `RunStepsLoop` equals it |
| Nodes.ExecutionRun | langgraph_interface/nodes.py:88-126 | definition of `execution_node`; properties in `ExecutionRunRound`, `NodesProps.ExecutionStops`, `ExecutionUpdate`, `ExecutionCompletes` |
| Nodes.PlanningRun | langgraph_interface/nodes.py:49-86 | definition of `planning_node`; properties in `NodesProps.PlanningOutcomes` |
| Nodes.ValidationNode | langgraph_interface/nodes.py:128-147 | definition of `validation_node`; properties in `NodesProps.ValidationDecides` |
| Nodes.ScreenshotRun | langgraph_interface/nodes.py:149-156 | definition of `screenshot_node`; properties in `NodesProps.ScreenshotOutcomes` |
| Nodes.ResponseNode | langgraph_interface/nodes.py:158-169 | definition of `response_node`; properties in `NodesProps.ResponseOutcomes` |
| Nodes.ExecutionRunRound | langgraph_interface/nodes.py:99-126 | once there are steps, the node's requests are the round's, and its update is the results plus one step, the interrupt stop, or the step's exception |
| Nodes.RunStepsSnoc | langgraph_interface/nodes.py:99-121 | one more step: the interrupt flag stops it first, a non-dict step crashes it, and otherwise its result is appended |
| Nodes.OpenInterfaceNodes.constructor | langgraph_interface/nodes.py:29-33 | the nodes start with the given tools, planner and settings, and no requests |
| Nodes.OpenInterfaceNodes.CallTool | langgraph_interface/nodes.py:244-245 | one tool call is recorded, and its outcome is the wrapper's |
| Nodes.OpenInterfaceNodes.ExecuteStep | langgraph_interface/nodes.py:185-247 | `_execute_step`, with exactly the requests and result of `ExecuteStepRun` |
| Nodes.OpenInterfaceNodes.PlanningNode | langgraph_interface/nodes.py:49-86 | `planning_node`, with exactly the requests and result of `PlanningRun` |
| Nodes.OpenInterfaceNodes.ExecutionNode | langgraph_interface/nodes.py:88-126 | `execution_node`, with exactly the requests and result of `ExecutionRun` |
| Nodes.OpenInterfaceNodes.RunStepsLoop | langgraph_interface/nodes.py:99-121 | the step loop, with exactly the requests and outcome of `RunSteps` |
| Nodes.OpenInterfaceNodes.RunStep | langgraph_interface/nodes.py:99-121 | one pass of the step loop: either the round stops there, with exactly the requests and outcome of `RunSteps` over all the steps, or one more result is recorded, as `RunSteps` over one more step |
| Nodes.OpenInterfaceNodes.ScreenshotNode | langgraph_interface/nodes.py:149-156 | `screenshot_node`, with exactly the request and result of `ScreenshotRun` |
| NodesProps.StripPyautoguiEvery | langgraph_interface/nodes.py:201-202 | a step name that starts with `pyautogui.` loses every copy of it before the table lookup, for any number of qualifier-free parts |
| NodesProps.UnknownNameCallsNothing | langgraph_interface/nodes.py:204-206 | a name outside the table answers "Unknown function: name" and calls no tool |
| NodesProps.WriteMapping | langgraph_interface/nodes.py:212-217 | `write` and `type_text` with `text` become `{text, interval}` (0.05 by default), otherwise pass through |
| NodesProps.PressMapping | langgraph_interface/nodes.py:218-223 | `press` and `press_key` with `keys` become `{key, presses}` (1 by default) without any interval, otherwise pass through |
| NodesProps.HotkeyMapping | langgraph_interface/nodes.py:224-231 | `hotkey` with a list `keys` spreads them into one call, otherwise passes the parameters through |
| NodesProps.SleepMapping | langgraph_interface/nodes.py:232-240 | `sleep` takes `seconds`, then `secs`, and otherwise 1 |
| NodesProps.PassThroughMapping | langgraph_interface/nodes.py:241-244 | `click` and `take_screenshot` get the parameters unchanged |
| NodesProps.ExecutionFailedSaysFailed | langgraph_interface/nodes.py:246-247 | "Execution failed: ..." is always recorded as a failure |
| NodesProps.WriteIndexesNonDict | langgraph_interface/nodes.py:212-247 | `write` with a list or string of parameters holding "text" records "Execution failed: list indices must be integers or slices, not str" or "... string indices must be integers, not 'str'", CPython's texts, and calls no tool |
| NodesProps.FailuresAreRecordedAsFailures | langgraph_interface/nodes.py:208-247 | a parameter error, a refused input or a device failure after a tool was chosen is recorded as a failure, never raised |
| NodesProps.UnknownNameSucceeds | langgraph_interface/nodes.py:204-206 | an unknown name counts as a success exactly when the name itself does not contain "failed" |
| NodesProps.RunStepsRecordsEachStep | langgraph_interface/nodes.py:99-121 | a completed round has one result per step, in order, each with the step's fields and whether its text reads as a success |
| NodesProps.InterruptStopsFirst | langgraph_interface/nodes.py:99-104 | with the interrupt flag set, a non-empty round stops before its first step and calls nothing |
| NodesProps.DispatcherAsksNoPlanner | langgraph_interface/nodes.py:185-247 | `_execute_step` never asks the planner |
| NodesProps.RunStepsAsksNoPlanner | langgraph_interface/nodes.py:99-121 | a round never asks the planner |
| NodesProps.DispatcherRaisesOnlyOnNames | langgraph_interface/nodes.py:201-247 | `_execute_step` raises exactly when the name is not a string |
| NodesProps.RunStepsCompletes | langgraph_interface/nodes.py:99-121 | a round of dict steps with string names runs to the end when not interrupted |
| NodesProps.ExecutionStops | langgraph_interface/nodes.py:91-104 | no instructions or no steps stops with "No instructions to execute"; an interrupt before a non-empty list stops with the interrupt error; neither calls anything |
| NodesProps.ExecutionAsksNoPlanner | langgraph_interface/nodes.py:88-126 | `execution_node` never asks the planner |
| NodesProps.ExecutionUpdate | langgraph_interface/nodes.py:88-126 | either an error that completes the run and leaves results and step count alone, or one result per step and the step count plus one |
| NodesProps.ExecutionCompletes | langgraph_interface/nodes.py:88-126 | with a runnable plan and no interrupt, a round completes and adds one step |
| NodesProps.PlanningOutcomes | langgraph_interface/nodes.py:49-86 | planning crashes only when the first-round screenshot call raises; otherwise it asks the planner once and stores the plan with two messages, or stops with "Planning failed: ..." |
| NodesProps.ValidationDecides | langgraph_interface/nodes.py:128-147 | crashes exactly on a non-dict plan or a truthy `done` that a message cannot hold (a validation error); otherwise `done`, then the step budget ("Maximum steps exceeded"), otherwise continue |
| NodesProps.ScreenshotOutcomes | langgraph_interface/nodes.py:149-156 | one call of tool 4; a completed call's text is stored as `screenshot_data`, any other answer sets "Screenshot failed: " + its message without completing the run, and no other key is returned, so messages, plan and results are untouched |
| NodesProps.ScreenshotAttemptSleeps | langgraph_interface/nodes.py:53-55 | the screenshot call goes to position 4, the sleep tool, whose failures are raised |
| NodesProps.ResponseOutcomes | langgraph_interface/nodes.py:158-169 | the error when one is set, otherwise the plan's `done` or "Task completed successfully", completing the run; it crashes exactly when no error is set and the plan is not a dict or its `done` is a value a message cannot hold |
| Graph.StateGraph.constructor | langgraph_interface/graph.py:34 | an empty builder |
| Graph.StateGraph.AddNode | langgraph_interface/graph.py:37-45 | appends one node |
| Graph.StateGraph.AddEdge | langgraph_interface/graph.py:48-70 | appends one unconditional edge |
| Graph.StateGraph.AddConditionalEdges | langgraph_interface/graph.py:57-64 | appends one routed edge |
| Graph.StateGraph.Compile | langgraph_interface/graph.py:73 | the compiled graph has the builder's nodes and edges |
| Graph.ShouldContinue | langgraph_interface/graph.py:75-87 | definition of `_should_continue`; properties in `Routing` |
| Graph.Follow | langgraph_interface/graph.py:47-70 | definition of the next node along the edge table; properties in `FollowIsSuccessor`, `Routing` |
| Graph.InitialState | langgraph_interface/graph.py:93-107 | definition of the initial state of `execute_request`; properties in `InitialStateFresh` |
| Graph.NodeRunOf | langgraph_interface/graph.py:37-41 | definition of which node function runs under each name; the method `OpenInterfaceGraph.RunNode` equals it, and `Advance` states what each keeps |
| Graph.BuildGraph | langgraph_interface/graph.py:30-73 | `_build_graph` adds six nodes and six edges, in order |
| Graph.FollowIsSuccessor | langgraph_interface/graph.py:47-70 | the node a run goes to next is a target of an edge leaving the current one |
| Graph.Routing | langgraph_interface/graph.py:48-87 | the routes: start, planning, execution, validation to response exactly when complete, errored or interrupted and to screenshot otherwise, screenshot to planning, response to end |
| Graph.ToolNodeUnreachable | langgraph_interface/graph.py:43-70 | the tool node is added but no edge leads to it |
| Graph.InitialStateFresh | langgraph_interface/graph.py:93-107 | a fresh run has made no step, has no plan, error or results, continues, and takes the model from the settings or "gemini-1.5-flash" |
| Graph.MergeAllKeeps | langgraph_interface/graph.py:109-112 | the request, the budget, the interrupt flag and the settings are the same at the end of a run |
| Graph.AdvancePlanning | langgraph_interface/nodes.py:49-86 | planning either crashes before asking the planner, or asks it once and leads to execution with the run invariant kept and the end closer; in a good run it gets a runnable plan |
| Graph.ExecutionKeeps | langgraph_interface/nodes.py:88-126 | an execution round that asks no planner leads to validation with the run invariant kept (an error set, or one step added) and the end closer; in a good run, when its round completes |
| Graph.AdvanceExecution | langgraph_interface/nodes.py:88-126 | `execution_node` never asks the planner, keeps the run invariant and, in a good run, completes its round and adds one step |
| Graph.AdvanceValidation | langgraph_interface/graph.py:54-64 | validation keeps the run invariant and routes on its update: to response when the run is over, to screenshot with a step left otherwise; in a good run it never crashes |
| Graph.AdvanceScreenshot | langgraph_interface/graph.py:66-67 | the screenshot leads back to planning with the step count unchanged, and never crashes in a good run |
| Graph.AdvanceResponse | langgraph_interface/graph.py:69-70 | the response leads to the end with the run complete and the run invariant kept, and does not crash in a good run |
| Graph.Advance | langgraph_interface/graph.py:47-73 | any node run keeps the run invariant, brings the end strictly closer, never crashes in a good run, and asks no planner when it crashes |
| Graph.RunStateStart | langgraph_interface/graph.py:93-111 | a run starts at planning, with no chunk, no planner call and the initial state, in a run state |
| Graph.RunStateBounds | langgraph_interface/graph.py:111 | in any run state the planner calls stay within the budget (one at most once an error is set) and the chunks walk the graph; at the end the state is complete, holds every update, was reached from response and keeps an error; a good run ends with "Maximum steps exceeded" after exactly the budgeted calls |
| Graph.RunStateStep | langgraph_interface/graph.py:47-73 | a node run that keeps the invariants keeps the whole run state: the chunks still walk the edges and hold every update |
| Graph.RunStateAdvance | langgraph_interface/graph.py:47-73 | running the current node from a run state leads to the run state at the node the edges pick next, strictly closer to the end; no crash in a good run, and a crash asks no planner |
| Graph.OpenInterfaceGraph.constructor | langgraph_interface/graph.py:25-28 | the graph holds the nodes and the compiled graph of `_build_graph` |
| Graph.OpenInterfaceGraph.RunNode | langgraph_interface/graph.py:37-41 | runs the node registered under each name |
| Graph.OpenInterfaceGraph.Loop | langgraph_interface/graph.py:111 | the superstep loop stops, in a run state, either at the end or at the node that raised; a good run does not raise |
| Graph.OpenInterfaceGraph.Run | langgraph_interface/graph.py:111 | in the model, which has no recursion limit, `graph.invoke` stops; the planner is asked at most once per step left (once in all when an error is set); the chunks walk the graph; a finished run is complete, ends at response and holds every update; a good run ends with "Maximum steps exceeded" after exactly `Budget` = max(`max_steps` - `step_count`, 1) planning calls |
| Graph.OpenInterfaceGraph.ExecuteRequest | langgraph_interface/graph.py:89-117 | `execute_request` never raises: a final state that is complete and keeps the request and budget, or "Graph execution failed: ..." marked complete; with a cooperative planner, exactly max(`max_steps`, 1) planning calls and "Maximum steps exceeded" (a claim of the model: the real run hits the recursion limit first when `max_steps` is over 6, the default 10 included) |
| Graph.OpenInterfaceGraph.StreamExecution | langgraph_interface/graph.py:119-146 | `stream_execution` asks the planner at most max(`max_steps`, 1) times; its node chunks walk the edge table from planning; it either ends at response, and then the updates merge into a complete state, or with one "Graph execution failed: ..." chunk marked complete; with a cooperative planner it ends at response with "Maximum steps exceeded" after exactly the budgeted planning calls (in the model, as for `ExecuteRequest`) |
| GraphProps.FirstPlanFailureCrashesValidation | langgraph_interface/nodes.py:82-147 | a planner failure with no plan yet goes on to execution, which overwrites the error with "No instructions to execute", and validation then raises on `None.get` |
| GraphProps.FailedReplanRepeatsSteps | langgraph_interface/nodes.py:82-99 | a planner failure on a later round keeps the previous plan, so execution runs the previous round's steps again exactly as before |
| GraphProps.ExecutionReadsPlan | langgraph_interface/nodes.py:88-126 | execution depends only on the plan, the interrupt flag and the step count |
| GraphProps.ErrorSurvivesValidation | langgraph_interface/nodes.py:128-169 | an error set before validation survives it (replaced only by "Maximum steps exceeded"), routes to response and is reported there |
| GraphProps.DoneWithoutStepsReportsError | langgraph_interface/nodes.py:91-169 | a plan that is done but has no steps ends with "Task completed with error: No instructions to execute" |
| DispatchProps.SleepKeysDisagree | langgraph_interface/nodes.py:232-237 | given both `secs` and `seconds`, the interpreter sleeps for `secs` while `_execute_step` passes `seconds` |
| DispatchProps.TimeQualifierOnlyInInterpreter | langgraph_interface/nodes.py:200-206 | `time.sleep` sleeps in the interpreter but is an unknown function to `_execute_step`, which calls nothing |

## Left out

- The user interface (`simple_ui.py`), threads and the status queue's cross-process delivery: the status queue is a sequence in the interpreter's trace.
- The planning model, its prompt text and the settings file: the planner is a function of the requests made so far, and the settings are a parameter of the node collection.
- The system and user prompt texts: messages keep only the fields they are built from.
- The screen, pyautogui and the clock: every device call is answered by an oracle that may depend on the earlier calls. Durations, floats and the success texts of the tool wrappers are passed through, not interpreted.
- LangGraph's runtime (`compile`, `invoke`, `stream`) is modelled as a loop over the edge table, taking the first edge that leaves a node. Its recursion limit (25 supersteps by default, graph.py:111 and :140 pass no other) is not modelled. Every round that continues runs four nodes (planning, execution, validation, screenshot), so a cooperative run takes 4 × max(`max_steps`, 1) supersteps: 40 at the default `max_steps = 10`. LangGraph raises there, and the real `execute_request` returns "Graph execution failed: Recursion limit of 25 reached ..." instead of the "Maximum steps exceeded" the model proves; every cooperative-run claim about `Run`, `ExecuteRequest` and `StreamExecution` holds for the model only, and for the real program only while `max_steps` is at most 6.
- The tool node is added to the graph but unreachable, so its behaviour is not modelled.
- The tool framework's argument validation: a refused input is one outcome the device oracle may give.
- `planning_node` writes the screenshot text into the state it was given. This in-place write is treated as local to the node, because what the runtime does with a mutated input state is not visible.
- `interrupt_requested` is an input of the run. Nothing in the code sets it during a run.
- ValidationNode / NodesProps.ValidationDecides / ResponseNode / NodesProps.ResponseOutcomes: the content check follows langchain_core on pydantic 2, where a number or a bool is refused; with pydantic 1 those would be turned into text instead. The error's text is shortened to "validation error for AIMessage", without pydantic's count and field details.
- `Lower` lower-cases ASCII letters only. Python's `lower()` covers all of Unicode.
- The `print` logging of the interpreter.
- `str(e)` for exceptions raised by the device is whatever text the oracle gives. Only the texts built by the code itself are fixed.
- PyValues.Describe: the texts of Python's own exceptions follow CPython 3.11 and later; CPython 3.10 and earlier word the string-indexing error as "string indices must be integers".
