/**
 * The node bodies of langgraph_interface/nodes.py and its own dispatcher
 * `_execute_step`. Each node reads the state and returns a partial update;
 * the tools and the planner are reached through an environment whose
 * answers may depend on everything asked of it before.
 */
module Nodes {
  import opened PyStrings
  import opened PyValues
  import opened Tools
  import opened GraphState

  /** `get_instructions_for_objective(user_request, step_count)`. */
  datatype PlanRequest = PlanRequest(userRequest: string, stepCount: int)

  /** The planner's answer: the decoded instructions, or the text of the
      exception it raised. */
  datatype PlanReply = Plan(instructions: Value) | PlanError(message: string)

  /** One request to the outside world, in the order made. */
  datatype PortEvent = ToolEvent(call: ToolCall) | PlanEvent(request: PlanRequest)

  /** The device behind the tools and the planning model. */
  datatype Env = Env(
    tools: (seq<PortEvent>, ToolCall) -> DeviceResult,
    planner: (seq<PortEvent>, PlanRequest) -> PlanReply)

  /** A node either returns an update or raises out of the graph. */
  datatype NodeResult = Next(update: Update) | Crash(error: PyError)

  /** What one node run asks of the environment, and how it ends. */
  datatype NodeRun = NodeRun(events: seq<PortEvent>, result: NodeResult)

  const NoInstructions := "No instructions to execute"
  const InterruptedByUser := "Execution interrupted by user"
  const MaximumStepsExceeded := "Maximum steps exceeded"

  /** `self.tools[4].invoke({})`, which the planning and screenshot nodes use
      to take a screenshot; position 4 holds the sleep tool. */
  const ScreenshotAttempt := Invoke(SleepTool, VDict([]))

  // ---------------------------------------------------------------------
  // `_execute_step`

  /** `tool_mapping`. */
  function ToolFor(name: string): Option<ToolIndex> {
    if name == "click" then Some(ClickTool)
    else if name == "type_text" || name == "write" then Some(TypeTextTool)
    else if name == "press_key" || name == "press" then Some(PressKeyTool)
    else if name == "hotkey" then Some(HotkeyTool)
    else if name == "sleep" then Some(SleepTool)
    else if name == "take_screenshot" then Some(ScreenshotTool)
    else None
  }

  /** Only a leading `pyautogui.` is recognised; every copy of it is then
      removed. */
  function StripPyautogui(name: string): string {
    if StartsWith(name, "pyautogui.") then RemoveAll(name, "pyautogui.") else name
  }

  /** What `_execute_step` decides before calling a tool: it raises (a name
      that is not a string), answers without a tool (unknown name), fails
      inside its `try` while mapping the parameters, or makes one tool call. */
  datatype StepAction =
    | NameError(error: PyError)
    | Unknown(name: string)
    | ParamError(error: PyError)
    | Use(call: ToolCall)

  /** The parameter mapping for tool `t`, by the name it was reached under. */
  function ToolInput(name: string, t: ToolIndex, parameters: Value): StepAction {
    if name == "write" || name == "type_text" then
      match In("text", parameters)
      case Err(e) => ParamError(e)
      case Ok(false) => Use(Invoke(t, parameters))
      case Ok(true) =>
        (match Index(parameters, "text")
         case Err(e) => ParamError(e)
         case Ok(text) =>
           Use(Invoke(t, VDict([Entry("text", text), Entry("interval", GetOr(parameters.entries, "interval", VFloat(0.05)))]))))
    else if name == "press" || name == "press_key" then
      match In("keys", parameters)
      case Err(e) => ParamError(e)
      case Ok(false) => Use(Invoke(t, parameters))
      case Ok(true) =>
        (match Index(parameters, "keys")
         case Err(e) => ParamError(e)
         case Ok(keys) =>
           Use(Invoke(t, VDict([Entry("key", keys), Entry("presses", GetOr(parameters.entries, "presses", VInt(1)))]))))
    else if name == "hotkey" then
      match In("keys", parameters)
      case Err(e) => ParamError(e)
      case Ok(false) => Use(Invoke(t, parameters))
      case Ok(true) =>
        (match Index(parameters, "keys")
         case Err(e) => ParamError(e)
         case Ok(keys) => if keys.VList? then Use(Spread(t, keys.items)) else Use(Invoke(t, parameters)))
    else if name == "sleep" then
      match In("seconds", parameters)
      case Err(e) => ParamError(e)
      case Ok(true) =>
        (match Index(parameters, "seconds")
         case Err(e) => ParamError(e)
         case Ok(v) => Use(Invoke(t, VDict([Entry("seconds", v)]))))
      case Ok(false) =>
        (match In("secs", parameters)
         case Err(e) => ParamError(e)
         case Ok(true) =>
           (match Index(parameters, "secs")
            case Err(e) => ParamError(e)
            case Ok(v) => Use(Invoke(t, VDict([Entry("seconds", v)]))))
         case Ok(false) => Use(Invoke(t, VDict([Entry("seconds", VInt(1))]))))
    else Use(Invoke(t, parameters))
  }

  /** The branching of `_execute_step`. */
  function StepPlan(fname: Value, parameters: Value): StepAction {
    if !fname.VStr? then NameError(AttributeError(TypeName(fname), "startswith"))
    else
      var name := StripPyautogui(fname.s);
      match ToolFor(name)
      case None => Unknown(name)
      case Some(t) => ToolInput(name, t, parameters)
  }

  /** The string a tool call gives `_execute_step`: the tool's own text, or
      the exception it raised, caught and reported. */
  function ResultText(o: ToolOutcome): string {
    match o
    case Returned(text) => text
    case Raised(m) => "Execution failed: " + m
  }

  datatype StepRun = StepRun(events: seq<PortEvent>, result: Result<string>)

  /** `_execute_step(function_name, parameters)` after the requests `log`. */
  function ExecuteStepRun(env: Env, log: seq<PortEvent>, fname: Value, parameters: Value): StepRun {
    match StepPlan(fname, parameters)
    case NameError(e) => StepRun([], Err(e))
    case Unknown(name) => StepRun([], Ok("Unknown function: " + name))
    case ParamError(e) => StepRun([], Ok("Execution failed: " + Describe(e)))
    case Use(call) => StepRun([ToolEvent(call)], Ok(ResultText(Outcome(call.tool, env.tools(log, call)))))
  }

  // ---------------------------------------------------------------------
  // `execution_node`

  /** `"failed" not in result.lower()`. */
  predicate Succeeded(result: string) {
    !Contains(Lower(result), "failed")
  }

  /** The three keys `execution_node` reads from a step, with their defaults. */
  datatype StepFields = StepFields(fname: Value, parameters: Value, justification: Value)

  function ReadStep(step: Value): Result<StepFields> {
    if !step.VDict? then Err(AttributeError(TypeName(step), "get"))
    else
      Ok(StepFields(
        GetOr(step.entries, "function", VStr("")),
        GetOr(step.entries, "parameters", VDict([])),
        GetOr(step.entries, "human_readable_justification", VStr(""))))
  }

  datatype StepsOutcome = AllRan(results: seq<ExecResult>) | Interrupted | StepCrash(error: PyError)

  datatype StepsRun = StepsRun(events: seq<PortEvent>, outcome: StepsOutcome)

  /** Runs one step's `function` and `parameters` after the given requests. */
  type StepRunner = (seq<PortEvent>, Value, Value) -> StepRun

  /** `_execute_step` of the environment `env`, as a step runner. */
  function Dispatcher(env: Env): StepRunner {
    (log, fname, parameters) => ExecuteStepRun(env, log, fname, parameters)
  }

  /** The loop of `execution_node` over `steps`, after the requests `log`:
      the interrupt flag is checked before every step, and `run` runs it. */
  function RunSteps(run: StepRunner, log: seq<PortEvent>, steps: seq<Value>, interrupt: bool): StepsRun
    decreases |steps|
  {
    if steps == [] then StepsRun([], AllRan([]))
    else
      var before := RunSteps(run, log, steps[..|steps| - 1], interrupt);
      if !before.outcome.AllRan? then before
      else if interrupt then StepsRun(before.events, Interrupted)
      else
        match ReadStep(steps[|steps| - 1])
        case Err(e) => StepsRun(before.events, StepCrash(e))
        case Ok(f) =>
          var r := run(log + before.events, f.fname, f.parameters);
          match r.result
          case Err(e) => StepsRun(before.events + r.events, StepCrash(e))
          case Ok(text) =>
            StepsRun(before.events + r.events,
              AllRan(before.outcome.results + [ExecResult(f.fname, f.parameters, f.justification, text, Succeeded(text))]))
  }

  /** `execution_node(state)` after the requests `log`, with `run` running
      each step. */
  function ExecutionRun(run: StepRunner, log: seq<PortEvent>, s: State): NodeRun {
    var instr := s.currentInstructions;
    if !Truthy(instr) then NodeRun([], Next(Stop(NoInstructions)))
    else if !instr.VDict? then NodeRun([], Crash(AttributeError(TypeName(instr), "get")))
    else
      var steps := Get(instr.entries, "steps");
      if !Truthy(steps) then NodeRun([], Next(Stop(NoInstructions)))
      else
        match Iterate(steps)
        case None => NodeRun([], Crash(NotIterable(TypeName(steps))))
        case Some(items) =>
          var r := RunSteps(run, log, items, s.interruptRequested);
          match r.outcome
          case AllRan(results) =>
            NodeRun(r.events, Next(NoUpdate.(executionResults := Some(results), stepCount := Some(s.stepCount + 1))))
          case Interrupted => NodeRun(r.events, Next(Stop(InterruptedByUser)))
          case StepCrash(e) => NodeRun(r.events, Crash(e))
  }

  // ---------------------------------------------------------------------
  // `planning_node`, `validation_node`, `screenshot_node`, `response_node`

  function SystemMessage(s: State): Message {
    SystemPrompt(s.modelName, if Truthy(s.customInstructions) then Some(s.customInstructions) else None)
  }

  function UserMessage(s: State, screenshot: Option<string>): Message {
    UserPrompt(
      s.userRequest,
      if screenshot.Some? && screenshot.value != "" then screenshot else None,
      if s.stepCount > 0 then
        Some(Progress(s.stepCount, if s.executionResults != [] then Some(s.executionResults[|s.executionResults| - 1]) else None))
      else None)
  }

  /** `planning_node(state)` after the requests `log`. On round 0 it first
      "takes a screenshot", whose text only feeds the user prompt; an
      exception there is outside the `try`. */
  function PlanningRun(env: Env, log: seq<PortEvent>, s: State): NodeRun {
    var first := if s.stepCount == 0 then [ToolEvent(ScreenshotAttempt)] else [];
    var probe := Outcome(SleepTool, env.tools(log, ScreenshotAttempt));
    if s.stepCount == 0 && probe.Raised? then NodeRun(first, Crash(PortError(probe.message)))
    else
      var shot := if s.stepCount == 0 then Some(probe.text) else s.screenshotData;
      var request := PlanRequest(s.userRequest, s.stepCount);
      var events := first + [PlanEvent(request)];
      match env.planner(log + first, request)
      case Plan(v) =>
        NodeRun(events, Next(NoUpdate.(currentInstructions := Some(v), messages := [SystemMessage(s), UserMessage(s, shot)])))
      case PlanError(m) => NodeRun(events, Next(Stop("Planning failed: " + m)))
  }

  /** `validation_node(state)`. */
  function ValidationNode(s: State): NodeResult {
    var instr := s.currentInstructions;
    if !instr.VDict? then Crash(AttributeError(TypeName(instr), "get"))
    else if Truthy(Get(instr.entries, "done")) then
      if !MessageContent(Get(instr.entries, "done")) then Crash(ValidationError("AIMessage"))
      else Next(NoUpdate.(isComplete := Some(true), messages := [AIMessage(Get(instr.entries, "done"))]))
    else if s.stepCount >= s.maxSteps then
      Next(NoUpdate.(isComplete := Some(true), errorMessage := Some(MaximumStepsExceeded)))
    else Next(NoUpdate.(isComplete := Some(false)))
  }

  /** `screenshot_node(state)` after the requests `log`. */
  function ScreenshotRun(env: Env, log: seq<PortEvent>, s: State): NodeRun {
    NodeRun([ToolEvent(ScreenshotAttempt)],
      match Outcome(SleepTool, env.tools(log, ScreenshotAttempt))
      case Returned(text) => Next(NoUpdate.(screenshotData := Some(text)))
      case Raised(m) => Next(NoUpdate.(errorMessage := Some("Screenshot failed: " + m))))
  }

  /** `response_node(state)`. */
  function ResponseNode(s: State): NodeResult {
    if ErrorSet(s) then
      Next(NoUpdate.(messages := [AIMessage(VStr("Task completed with error: " + s.errorMessage.value))], isComplete := Some(true)))
    else if !s.currentInstructions.VDict? then Crash(AttributeError(TypeName(s.currentInstructions), "get"))
    else if !MessageContent(GetOr(s.currentInstructions.entries, "done", VStr("Task completed successfully"))) then
      Crash(ValidationError("AIMessage"))
    else
      Next(NoUpdate.(
        messages := [AIMessage(GetOr(s.currentInstructions.entries, "done", VStr("Task completed successfully")))],
        isComplete := Some(true)))
  }

  /** How many planner requests `events` holds. */
  function PlanCount(events: seq<PortEvent>): nat
    decreases |events|
  {
    if events == [] then 0
    else (if events[0].PlanEvent? then 1 else 0) + PlanCount(events[1..])
  }

  lemma {:induction false} PlanCountAppend(a: seq<PortEvent>, b: seq<PortEvent>)
    ensures PlanCount(a + b) == PlanCount(a) + PlanCount(b)
    decreases |a|
  {
    if a == [] {
      assert a + b == b;
    } else {
      assert (a + b)[0] == a[0] && (a + b)[1..] == a[1..] + b;
      PlanCountAppend(a[1..], b);
    }
  }

  // ---------------------------------------------------------------------
  // The node collection

  /** A run of `RunSteps` that stopped stays stopped whatever steps follow. */
  lemma {:induction false} RunStepsStops(run: StepRunner, log: seq<PortEvent>, steps: seq<Value>, more: seq<Value>, interrupt: bool)
    requires !RunSteps(run, log, steps, interrupt).outcome.AllRan?
    ensures RunSteps(run, log, steps + more, interrupt) == RunSteps(run, log, steps, interrupt)
    decreases |more|
  {
    if more == [] {
      assert steps + more == steps;
    } else {
      var init := more[..|more| - 1];
      RunStepsStops(run, log, steps, init, interrupt);
      assert (steps + more)[..|steps + more| - 1] == steps + init;
    }
  }

  /** A round whose first `k` steps stopped it ends as those steps did. */
  lemma RunStepsStopsAt(run: StepRunner, log: seq<PortEvent>, all: seq<Value>, k: nat, interrupt: bool)
    requires k <= |all|
    requires !RunSteps(run, log, all[..k], interrupt).outcome.AllRan?
    ensures RunSteps(run, log, all, interrupt) == RunSteps(run, log, all[..k], interrupt)
  {
    RunStepsStops(run, log, all[..k], all[k..], interrupt);
    SplitJoin(all, k);
  }

  /** One more step after a round that has run so far: the interrupt flag
      stops it first, a step that is not a dict crashes it, and otherwise the
      runner's requests are appended and its result recorded or raised. */
  lemma RunStepsSnoc(run: StepRunner, log: seq<PortEvent>, steps: seq<Value>, interrupt: bool)
    requires steps != []
    requires RunSteps(run, log, steps[..|steps| - 1], interrupt).outcome.AllRan?
    ensures var before := RunSteps(run, log, steps[..|steps| - 1], interrupt);
      var after := RunSteps(run, log, steps, interrupt);
      var x := steps[|steps| - 1];
      && (interrupt ==> after == StepsRun(before.events, Interrupted))
      && (!interrupt && ReadStep(x).Err? ==> after == StepsRun(before.events, StepCrash(ReadStep(x).error)))
      && (!interrupt && ReadStep(x).Ok? ==>
            var f := ReadStep(x).value;
            var r := run(log + before.events, f.fname, f.parameters);
            && after.events == before.events + r.events
            && (r.result.Err? ==> after.outcome == StepCrash(r.result.error))
            && (r.result.Ok? ==>
                  after.outcome == AllRan(before.outcome.results + [ExecResult(f.fname, f.parameters, f.justification, r.result.value, Succeeded(r.result.value))])))
  {
  }

  /** Once `execution_node` has steps to run, its requests are the round's
      and its result follows how the round ended. */
  lemma ExecutionRunRound(run: StepRunner, log: seq<PortEvent>, s: State, items: seq<Value>)
    requires Truthy(s.currentInstructions) && s.currentInstructions.VDict?
    requires Truthy(Get(s.currentInstructions.entries, "steps"))
    requires Iterate(Get(s.currentInstructions.entries, "steps")) == Some(items)
    ensures var round := RunSteps(run, log, items, s.interruptRequested);
      var r := ExecutionRun(run, log, s);
      && r.events == round.events
      && (round.outcome.AllRan? ==>
            r.result == Next(NoUpdate.(executionResults := Some(round.outcome.results), stepCount := Some(s.stepCount + 1))))
      && (round.outcome.Interrupted? ==> r.result == Next(Stop(InterruptedByUser)))
      && (round.outcome.StepCrash? ==> r.result == Crash(round.outcome.error))
  {
  }

  /** `OpenInterfaceNodes`: the environment it talks to and the requests made
      of it so far. */
  class OpenInterfaceNodes {
    const env: Env
    /** `settings_dict`, the user's saved settings. */
    const settings: seq<Entry>
    var log: seq<PortEvent>

    constructor (env: Env, settings: seq<Entry>)
      ensures this.env == env && this.settings == settings && log == []
    {
      this.env := env;
      this.settings := settings;
      log := [];
    }

    /** One call of tool `call.tool`. */
    method CallTool(call: ToolCall) returns (o: ToolOutcome)
      modifies this
      ensures log == old(log) + [ToolEvent(call)]
      ensures o == Outcome(call.tool, env.tools(old(log), call))
    {
      o := Outcome(call.tool, env.tools(log, call));
      log := log + [ToolEvent(call)];
    }

    /** `_execute_step`; an `Err` is an exception that escapes it. */
    method ExecuteStep(fname: Value, parameters: Value) returns (r: Result<string>)
      modifies this
      ensures log == old(log) + Dispatcher(env)(old(log), fname, parameters).events
      ensures r == Dispatcher(env)(old(log), fname, parameters).result
    {
      assert Dispatcher(env)(log, fname, parameters) == ExecuteStepRun(env, log, fname, parameters);
      var action := StepPlan(fname, parameters);
      match action
      case NameError(e) =>
        r := Err(e);
      case Unknown(name) =>
        r := Ok("Unknown function: " + name);
      case ParamError(e) =>
        r := Ok("Execution failed: " + Describe(e));
      case Use(call) =>
        var o := CallTool(call);
        r := Ok(ResultText(o));
    }

    method PlanningNode(s: State) returns (r: NodeResult)
      modifies this
      ensures log == old(log) + PlanningRun(env, old(log), s).events
      ensures r == PlanningRun(env, old(log), s).result
    {
      var shot := s.screenshotData;
      if s.stepCount == 0 {
        var probe := CallTool(ScreenshotAttempt);
        if probe.Raised? {
          return Crash(PortError(probe.message));
        }
        shot := Some(probe.text);
      }
      ghost var asked := log;
      assert asked == old(log) + (if s.stepCount == 0 then [ToolEvent(ScreenshotAttempt)] else []);
      var request := PlanRequest(s.userRequest, s.stepCount);
      var reply := env.planner(log, request);
      log := log + [PlanEvent(request)];
      assert log == old(log) + (asked[|old(log)|..] + [PlanEvent(request)]);
      match reply
      case Plan(v) =>
        r := Next(NoUpdate.(currentInstructions := Some(v), messages := [SystemMessage(s), UserMessage(s, shot)]));
      case PlanError(m) =>
        r := Next(Stop("Planning failed: " + m));
    }

    method ExecutionNode(s: State) returns (r: NodeResult)
      modifies this
      ensures log == old(log) + ExecutionRun(Dispatcher(env), old(log), s).events
      ensures r == ExecutionRun(Dispatcher(env), old(log), s).result
    {
      var instr := s.currentInstructions;
      if !Truthy(instr) {
        return Next(Stop(NoInstructions));
      }
      if !instr.VDict? {
        return Crash(AttributeError(TypeName(instr), "get"));
      }
      var steps := Get(instr.entries, "steps");
      if !Truthy(steps) {
        return Next(Stop(NoInstructions));
      }
      var items := Iterate(steps);
      if items.None? {
        return Crash(NotIterable(TypeName(steps)));
      }
      var outcome := RunStepsLoop(items.value, s.interruptRequested);
      ExecutionRunRound(Dispatcher(env), old(log), s, items.value);
      match outcome
      case AllRan(results) =>
        r := Next(NoUpdate.(executionResults := Some(results), stepCount := Some(s.stepCount + 1)));
      case Interrupted =>
        r := Next(Stop(InterruptedByUser));
      case StepCrash(e) =>
        r := Crash(e);
    }

    /** The `for step in ...` loop of `execution_node`, with the results it
        appends. */
    method RunStepsLoop(all: seq<Value>, interrupt: bool) returns (outcome: StepsOutcome)
      modifies this
      ensures log == old(log) + RunSteps(Dispatcher(env), old(log), all, interrupt).events
      ensures outcome == RunSteps(Dispatcher(env), old(log), all, interrupt).outcome
    {
      var results: seq<ExecResult> := [];
      var i := 0;
      while i < |all|
        invariant 0 <= i <= |all|
        invariant RunSteps(Dispatcher(env), old(log), all[..i], interrupt).outcome == AllRan(results)
        invariant log == old(log) + RunSteps(Dispatcher(env), old(log), all[..i], interrupt).events
      {
        var stop, entry;
        stop, outcome, entry := RunStep(old(log), all, i, interrupt, results);
        if stop {
          return;
        }
        results := results + [entry];
        i := i + 1;
      }
      assert all[..i] == all;
      outcome := AllRan(results);
    }

    /** One pass of that loop, at step `i` of a round that started after the
        requests `start` and has run its first `i` steps: it stops the round
        (interrupt, a step that is not a dict, or an exception from
        `_execute_step`) or records one more result. */
    method RunStep(ghost start: seq<PortEvent>, all: seq<Value>, i: nat, interrupt: bool, results: seq<ExecResult>)
      returns (stop: bool, outcome: StepsOutcome, entry: ExecResult)
      requires i < |all|
      requires RunSteps(Dispatcher(env), start, all[..i], interrupt).outcome == AllRan(results)
      requires log == start + RunSteps(Dispatcher(env), start, all[..i], interrupt).events
      modifies this
      ensures stop ==>
        && log == start + RunSteps(Dispatcher(env), start, all, interrupt).events
        && outcome == RunSteps(Dispatcher(env), start, all, interrupt).outcome
      ensures !stop ==>
        && log == start + RunSteps(Dispatcher(env), start, all[..i + 1], interrupt).events
        && RunSteps(Dispatcher(env), start, all[..i + 1], interrupt).outcome == AllRan(results + [entry])
    {
      assert all[..i + 1][..i] == all[..i];
      RunStepsSnoc(Dispatcher(env), start, all[..i + 1], interrupt);
      entry := ExecResult(VNone, VNone, VNone, "", false);
      if interrupt {
        RunStepsStopsAt(Dispatcher(env), start, all, i + 1, true);
        return true, Interrupted, entry;
      }
      var step := all[i];
      if !step.VDict? {
        RunStepsStopsAt(Dispatcher(env), start, all, i + 1, false);
        return true, StepCrash(AttributeError(TypeName(step), "get")), entry;
      }
      var fname := GetOr(step.entries, "function", VStr(""));
      var parameters := GetOr(step.entries, "parameters", VDict([]));
      var justification := GetOr(step.entries, "human_readable_justification", VStr(""));
      ghost var before := RunSteps(Dispatcher(env), start, all[..i], interrupt);
      ghost var mid := log;
      var result := ExecuteStep(fname, parameters);
      ghost var one := Dispatcher(env)(mid, fname, parameters);
      assert ReadStep(all[i]) == Ok(StepFields(fname, parameters, justification));
      assert log == start + (before.events + one.events);
      if result.Err? {
        RunStepsStopsAt(Dispatcher(env), start, all, i + 1, false);
        return true, StepCrash(result.error), entry;
      }
      entry := ExecResult(fname, parameters, justification, result.value, Succeeded(result.value));
      stop, outcome := false, AllRan(results + [entry]);
    }

    method ScreenshotNode(s: State) returns (r: NodeResult)
      modifies this
      ensures log == old(log) + ScreenshotRun(env, old(log), s).events
      ensures r == ScreenshotRun(env, old(log), s).result
    {
      var shot := CallTool(ScreenshotAttempt);
      match shot
      case Returned(text) =>
        r := Next(NoUpdate.(screenshotData := Some(text)));
      case Raised(m) =>
        r := Next(NoUpdate.(errorMessage := Some("Screenshot failed: " + m)));
    }
  }
}
