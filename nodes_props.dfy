/**
 * What langgraph_interface/nodes.py promises: how `_execute_step` maps names
 * and parameters onto tools, how `execution_node` records a round, and how
 * the validation, screenshot, planning and response nodes decide.
 */
module NodesProps {
  import opened PyStrings
  import opened PyValues
  import opened Tools
  import opened GraphState
  import opened Nodes

  // ---------------------------------------------------------------------
  // `_execute_step`

  /** A name that starts with `pyautogui.` loses every copy of it before the
      table lookup. */
  lemma StripPyautoguiEvery(parts: seq<string>)
    requires parts != []
    requires forall i :: 0 <= i < |parts| ==> !Contains(parts[i], "pyautogui.")
    ensures StripPyautogui(Qualified("pyautogui.", parts)) == Concat(parts)
  {
    QualifiersLastCharUnique();
    RemoveAllQualified("pyautogui.", parts);
  }

  /** `write` with a list or a string of parameters that holds "text":
      the `in` test passes, the indexing raises, and the step records
      CPython's message for indexing that type with a string. */
  lemma WriteIndexesNonDict(env: Env, log: seq<PortEvent>, ps: Value)
    requires (ps.VList? && VStr("text") in ps.items) || (ps.VStr? && Contains(ps.s, "text"))
    ensures ExecuteStepRun(env, log, VStr("write"), ps) == StepRun([], Ok("Execution failed: " +
      if ps.VList? then "list indices must be integers or slices, not str"
      else "string indices must be integers, not 'str'"))
  {
    assert !StartsWith("write", "pyautogui.");
  }

  /** A name outside the table answers "Unknown function: <name>" without
      calling any tool. */
  lemma UnknownNameCallsNothing(env: Env, log: seq<PortEvent>, fname: Value, parameters: Value)
    requires fname.VStr? && ToolFor(StripPyautogui(fname.s)).None?
    ensures ExecuteStepRun(env, log, fname, parameters)
      == StepRun([], Ok("Unknown function: " + StripPyautogui(fname.s)))
  {
  }

  /** `write` / `type_text` with a `text` key become `{text, interval}` with
      an interval of 0.05 unless one is given; without it, the parameters
      pass through unchanged. */
  lemma WriteMapping(name: string, ps: seq<Entry>)
    requires name == "write" || name == "type_text"
    ensures Has(ps, "text") ==>
      StepPlan(VStr(name), VDict(ps)) == Use(Invoke(TypeTextTool, VDict([Entry("text", Get(ps, "text")), Entry("interval", GetOr(ps, "interval", VFloat(0.05)))])))
    ensures !Has(ps, "text") ==> StepPlan(VStr(name), VDict(ps)) == Use(Invoke(TypeTextTool, VDict(ps)))
  {
    assert !StartsWith(name, "pyautogui.");
  }

  /** `press` / `press_key` with `keys` become `{key: keys, presses}`, with one
      press unless `presses` is given; any `interval` is dropped. */
  lemma PressMapping(name: string, ps: seq<Entry>)
    requires name == "press" || name == "press_key"
    ensures Has(ps, "keys") ==>
      var input := VDict([Entry("key", Get(ps, "keys")), Entry("presses", GetOr(ps, "presses", VInt(1)))]);
      StepPlan(VStr(name), VDict(ps)) == Use(Invoke(PressKeyTool, input)) && !Has(input.entries, "interval")
    ensures !Has(ps, "keys") ==> StepPlan(VStr(name), VDict(ps)) == Use(Invoke(PressKeyTool, VDict(ps)))
  {
    assert !StartsWith(name, "pyautogui.");
  }

  /** `hotkey` with a list `keys` calls the hotkey function once with the keys
      spread in order; otherwise the parameters go to the tool unchanged. */
  lemma HotkeyMapping(ps: seq<Entry>)
    ensures Has(ps, "keys") && Get(ps, "keys").VList? ==>
      StepPlan(VStr("hotkey"), VDict(ps)) == Use(Spread(HotkeyTool, Get(ps, "keys").items))
    ensures !(Has(ps, "keys") && Get(ps, "keys").VList?) ==>
      StepPlan(VStr("hotkey"), VDict(ps)) == Use(Invoke(HotkeyTool, VDict(ps)))
  {
    assert !StartsWith("hotkey", "pyautogui.");
  }

  /** `sleep` takes `seconds` first, then `secs`, and otherwise sleeps for 1. */
  lemma SleepMapping(ps: seq<Entry>)
    ensures var input := StepPlan(VStr("sleep"), VDict(ps));
      && (Has(ps, "seconds") ==> input == Use(Invoke(SleepTool, VDict([Entry("seconds", Get(ps, "seconds"))]))))
      && (!Has(ps, "seconds") && Has(ps, "secs") ==> input == Use(Invoke(SleepTool, VDict([Entry("seconds", Get(ps, "secs"))]))))
      && (!Has(ps, "seconds") && !Has(ps, "secs") ==> input == Use(Invoke(SleepTool, VDict([Entry("seconds", VInt(1))]))))
  {
    assert !StartsWith("sleep", "pyautogui.");
  }

  /** `click` and `take_screenshot` get the parameters unchanged. */
  lemma PassThroughMapping(name: string, parameters: Value)
    requires name == "click" || name == "take_screenshot"
    ensures StepPlan(VStr(name), parameters) == Use(Invoke(ToolFor(name).value, parameters))
  {
    assert name[0] != 'p';
    assert !StartsWith(name, "pyautogui.");
  }

  /** "Execution failed: ..." always reads as a failure. */
  lemma ExecutionFailedSaysFailed(m: string)
    ensures !Succeeded("Execution failed: " + m)
  {
    var p := "Execution failed: ";
    assert p[10..16] == "failed";
    LowerOccurrence(p, "failed", 10);
    LowerAppend(p, m);
    ContainsAppend(Lower(p), Lower(m), "failed");
  }

  /** Whatever goes wrong once a tool was chosen, whether the parameters
      cannot be mapped, the tool refuses its input, or the device fails
      inside it, the step's result reads as a failure. */
  lemma FailuresAreRecordedAsFailures(env: Env, log: seq<PortEvent>, fname: Value, parameters: Value)
    requires var a := StepPlan(fname, parameters);
      a.ParamError? || (a.Use? && !env.tools(log, a.call).Completed?)
    ensures var r := ExecuteStepRun(env, log, fname, parameters);
      r.result.Ok? && !Succeeded(r.result.value)
  {
    match StepPlan(fname, parameters)
    case ParamError(e) =>
      ExecutionFailedSaysFailed(Describe(e));
    case Use(call) =>
      match env.tools(log, call)
      case DeviceError(m) =>
        WrappedFailureSaysFailed(call.tool, m);
        if call.tool == SleepTool {
          ExecutionFailedSaysFailed(m);
        }
      case InputRejected(m) =>
        ExecutionFailedSaysFailed(m);
  }

  /** The unknown-function prefix, lower-cased, does not contain "failed". */
  lemma UnknownPrefixLower()
    ensures Lower("Unknown function: ") == "unknown function: "
    ensures !Contains("unknown function: ", "failed")
  {
    var u := "unknown function: ";
    forall i | 0 <= i <= |u| - 6 ensures !OccursAt(u, "failed", i) {
      assert i == 0 || i == 1 || i == 2 || i == 3 || i == 4 || i == 5 || i == 6
        || i == 7 || i == 8 || i == 9 || i == 10 || i == 11 || i == 12;
      assert u[i..i + 6][0] == u[i] && u[i..i + 6][1] == u[i + 1];
    }
  }

  /** An unknown name is recorded as a success exactly when the name, lower
      cased, does not itself contain "failed". */
  lemma UnknownNameSucceeds(name: string)
    ensures Succeeded("Unknown function: " + name) <==> !Contains(Lower(name), "failed")
  {
    var p := "Unknown function: ";
    UnknownPrefixLower();
    LowerAppend(p, name);
    if Contains(Lower(name), "failed") {
      ContainsAppend(Lower(p), Lower(name), "failed");
    } else {
      NotContainsAppend(Lower(p), Lower(name), "failed");
    }
  }

  // ---------------------------------------------------------------------
  // `execution_node`

  /** `r` is the entry `execution_node` appends for `step`: the step's
      fields, and whether the result text reads as a success. */
  predicate RecordsStep(step: Value, r: ExecResult) {
    && ReadStep(step).Ok?
    && r.fname == ReadStep(step).value.fname
    && r.parameters == ReadStep(step).value.parameters
    && r.justification == ReadStep(step).value.justification
    && r.success == Succeeded(r.result)
  }

  /** `results` holds one entry per step of `steps`, in step order, each
      recording its step. */
  predicate RecordsSteps(steps: seq<Value>, results: seq<ExecResult>) {
    |results| == |steps| && forall i :: 0 <= i < |steps| ==> RecordsStep(steps[i], results[i])
  }

  lemma RecordsStepsSnoc(steps: seq<Value>, results: seq<ExecResult>)
    requires steps != [] && |results| == |steps|
    requires RecordsSteps(steps[..|steps| - 1], results[..|results| - 1])
    requires RecordsStep(steps[|steps| - 1], results[|results| - 1])
    ensures RecordsSteps(steps, results)
  {
    var n := |steps| - 1;
    forall i | 0 <= i < |steps| ensures RecordsStep(steps[i], results[i]) {
      if i < n {
        assert steps[..n][i] == steps[i] && results[..n][i] == results[i];
      }
    }
  }

  /** A round that ran to the end recorded exactly one result per step, in
      step order, each holding the step's fields and whether its text reads
      as a success. */
  lemma {:induction false} RunStepsRecordsEachStep(run: StepRunner, log: seq<PortEvent>, steps: seq<Value>, interrupt: bool)
    requires RunSteps(run, log, steps, interrupt).outcome.AllRan?
    ensures RecordsSteps(steps, RunSteps(run, log, steps, interrupt).outcome.results)
    decreases |steps|
  {
    if steps != [] {
      var results := RunSteps(run, log, steps, interrupt).outcome.results;
      assert |results| == |steps|
        && RecordsSteps(steps[..|steps| - 1], results[..|results| - 1])
        && RecordsStep(steps[|steps| - 1], results[|results| - 1]) by {
        RunStepsRecordsLast(run, log, steps, interrupt);
        RunStepsRecordsEachStep(run, log, steps[..|steps| - 1], interrupt);
      }
      RecordsStepsSnoc(steps, results);
    }
  }

  /** The last step of a round that ran to the end added one entry, which
      records that step. */
  lemma RunStepsRecordsLast(run: StepRunner, log: seq<PortEvent>, steps: seq<Value>, interrupt: bool)
    requires steps != []
    requires RunSteps(run, log, steps, interrupt).outcome.AllRan?
    ensures RunSteps(run, log, steps[..|steps| - 1], interrupt).outcome.AllRan?
    ensures var results := RunSteps(run, log, steps, interrupt).outcome.results;
      && results[..|results| - 1] == RunSteps(run, log, steps[..|steps| - 1], interrupt).outcome.results
      && RecordsStep(steps[|steps| - 1], results[|results| - 1])
  {
    RunStepsSnoc(run, log, steps, interrupt);
  }

  /** With the interrupt flag set, a non-empty round stops before its first
      step, calling nothing. */
  lemma {:induction false} InterruptStopsFirst(run: StepRunner, log: seq<PortEvent>, steps: seq<Value>)
    requires steps != []
    ensures RunSteps(run, log, steps, true) == StepsRun([], Interrupted)
    decreases |steps|
  {
    var init := steps[..|steps| - 1];
    if init != [] {
      InterruptStopsFirst(run, log, init);
    }
  }

  /** A step runner that never asks the planner. */
  ghost predicate AsksNoPlanner(run: StepRunner) {
    forall log, fname, parameters :: PlanCount(run(log, fname, parameters).events) == 0
  }

  /** `_execute_step` makes at most one tool call and never asks the planner. */
  lemma DispatcherAsksNoPlanner(env: Env)
    ensures AsksNoPlanner(Dispatcher(env))
  {
    forall log, fname, parameters ensures PlanCount(Dispatcher(env)(log, fname, parameters).events) == 0 {
      var r := ExecuteStepRun(env, log, fname, parameters);
      if r.events != [] {
        assert r.events[1..] == [];
      }
    }
  }

  /** Running steps never asks the planner. */
  lemma {:induction false} RunStepsAsksNoPlanner(run: StepRunner, log: seq<PortEvent>, steps: seq<Value>, interrupt: bool)
    requires AsksNoPlanner(run)
    ensures PlanCount(RunSteps(run, log, steps, interrupt).events) == 0
    decreases |steps|
  {
    if steps != [] {
      var init := steps[..|steps| - 1];
      var before := RunSteps(run, log, init, interrupt);
      RunStepsAsksNoPlanner(run, log, init, interrupt);
      if before.outcome.AllRan? && !interrupt && ReadStep(steps[|steps| - 1]).Ok? {
        var f := ReadStep(steps[|steps| - 1]).value;
        var r := run(log + before.events, f.fname, f.parameters);
        PlanCountAppend(before.events, r.events);
      }
    }
  }

  /** A step the round can always run: a dict whose `function`, if given, is
      a string. */
  predicate RunnableStep(step: Value) {
    step.VDict? && GetOr(step.entries, "function", VStr("")).VStr?
  }

  /** `_execute_step` raises only for a name that is not a string. */
  lemma DispatcherRaisesOnlyOnNames(env: Env, log: seq<PortEvent>, fname: Value, parameters: Value)
    ensures Dispatcher(env)(log, fname, parameters).result.Err? <==> !fname.VStr?
  {
  }

  /** Without an interrupt, a round of runnable steps runs to the end. */
  lemma {:induction false} RunStepsCompletes(env: Env, log: seq<PortEvent>, steps: seq<Value>)
    requires forall i :: 0 <= i < |steps| ==> RunnableStep(steps[i])
    ensures RunSteps(Dispatcher(env), log, steps, false).outcome.AllRan?
    decreases |steps|
  {
    if steps != [] {
      var init := steps[..|steps| - 1];
      forall i | 0 <= i < |init| ensures RunnableStep(init[i]) {
        assert init[i] == steps[i];
      }
      RunStepsCompletes(env, log, init);
      var before := RunSteps(Dispatcher(env), log, init, false);
      var f := ReadStep(steps[|steps| - 1]).value;
      DispatcherRaisesOnlyOnNames(env, log + before.events, f.fname, f.parameters);
    }
  }

  /** `execution_node` without instructions or steps stops with "No
      instructions to execute" and runs nothing; interrupted before a
      non-empty list of steps, it stops with the interrupt error and runs
      nothing. */
  lemma ExecutionStops(run: StepRunner, log: seq<PortEvent>, s: State)
    ensures var r := ExecutionRun(run, log, s);
      var instr := s.currentInstructions;
      && ((!Truthy(instr) || (instr.VDict? && !Truthy(Get(instr.entries, "steps"))))
            ==> r == NodeRun([], Next(Stop(NoInstructions))))
      && ((instr.VDict? && Get(instr.entries, "steps").VList? && Get(instr.entries, "steps").items != [] && s.interruptRequested)
            ==> r == NodeRun([], Next(Stop(InterruptedByUser))))
  {
    var instr := s.currentInstructions;
    if instr.VDict? && Get(instr.entries, "steps").VList? && Get(instr.entries, "steps").items != [] && s.interruptRequested {
      InterruptStopsFirst(run, log, Get(instr.entries, "steps").items);
    }
  }

  /** `execution_node` asks the planner only if a step does. */
  lemma ExecutionAsksNoPlanner(run: StepRunner, log: seq<PortEvent>, s: State)
    requires AsksNoPlanner(run)
    ensures PlanCount(ExecutionRun(run, log, s).events) == 0
  {
    var instr := s.currentInstructions;
    if Truthy(instr) && instr.VDict? && Truthy(Get(instr.entries, "steps")) {
      var steps := Get(instr.entries, "steps");
      if Iterate(steps).Some? {
        RunStepsAsksNoPlanner(run, log, Iterate(steps).value, s.interruptRequested);
      }
    }
  }

  /** What `execution_node` returns: never messages or instructions; either
      an error that completes the run and leaves the step count and results
      alone, or one result per step and a step count one higher. Every error
      it sets is non-empty. */
  lemma ExecutionUpdate(run: StepRunner, log: seq<PortEvent>, s: State)
    ensures var r := ExecutionRun(run, log, s);
      r.result.Next? ==>
        var u := r.result.update;
        && KeepsErrors(u) && u.messages == [] && u.currentInstructions.None?
        && (u.errorMessage.None? ==>
              && u.stepCount == Some(s.stepCount + 1) && u.executionResults.Some?
              && |u.executionResults.value| == |Iterate(Get(s.currentInstructions.entries, "steps")).value|)
        && (u.errorMessage.Some? ==> u.stepCount.None? && u.executionResults.None? && u.isComplete == Some(true))
  {
    var instr := s.currentInstructions;
    if Truthy(instr) && instr.VDict? && Truthy(Get(instr.entries, "steps")) {
      var steps := Get(instr.entries, "steps");
      if Iterate(steps).Some? {
        var items := Iterate(steps).value;
        var rs := RunSteps(run, log, items, s.interruptRequested);
        if rs.outcome.AllRan? {
          RunStepsRecordsEachStep(run, log, items, s.interruptRequested);
          assert |rs.outcome.results| == |items|;
        }
      }
    }
  }

  /** Plans a cooperative planner returns: a dict, not done, with a non-empty
      list of runnable steps. */
  predicate RunnablePlan(v: Value) {
    && v.VDict?
    && !Truthy(Get(v.entries, "done"))
    && Get(v.entries, "steps").VList?
    && Get(v.entries, "steps").items != []
    && forall i :: 0 <= i < |Get(v.entries, "steps").items| ==> RunnableStep(Get(v.entries, "steps").items[i])
  }

  /** With a runnable plan and no interrupt, a round always completes: no
      error, and one more step. */
  lemma ExecutionCompletes(env: Env, log: seq<PortEvent>, s: State)
    requires RunnablePlan(s.currentInstructions) && !s.interruptRequested
    ensures var r := ExecutionRun(Dispatcher(env), log, s);
      r.result.Next? && r.result.update.errorMessage.None? && r.result.update.stepCount == Some(s.stepCount + 1)
  {
    var items := Get(s.currentInstructions.entries, "steps").items;
    assert RunSteps(Dispatcher(env), log, items, false).outcome.AllRan? by {
      RunStepsCompletes(env, log, items);
    }
    ExecutionRunRound(Dispatcher(env), log, s, items);
  }

  // ---------------------------------------------------------------------
  // `planning_node`, `validation_node`, `screenshot_node`, `response_node`

  /** `planning_node` asks the planner exactly once unless round 0's
      screenshot call raised, which crashes the node before asking. A
      planner failure stops the run with "Planning failed: ..." and leaves
      `current_instructions` as it was; success replaces them and adds the
      system and user prompts. It never touches `step_count`. */
  lemma PlanningOutcomes(env: Env, log: seq<PortEvent>, s: State)
    ensures var r := PlanningRun(env, log, s);
      && (r.result.Crash? <==> s.stepCount == 0 && !env.tools(log, ScreenshotAttempt).Completed?)
      && PlanCount(r.events) == (if r.result.Crash? then 0 else 1)
      && (s.stepCount == 0 ==> r.events[0] == ToolEvent(ScreenshotAttempt))
      && (r.result.Next? ==>
            var u := r.result.update;
            var first := if s.stepCount == 0 then [ToolEvent(ScreenshotAttempt)] else [];
            var reply := env.planner(log + first, PlanRequest(s.userRequest, s.stepCount));
            && KeepsErrors(u) && u.stepCount.None? && u.executionResults.None?
            && (reply.PlanError? ==> u == Stop("Planning failed: " + reply.message))
            && (reply.Plan? ==>
                  u.currentInstructions == Some(reply.instructions)
                  && u.errorMessage.None? && |u.messages| == 2 && u.messages[0].SystemPrompt?))
  {
    var r := PlanningRun(env, log, s);
    var first := if s.stepCount == 0 then [ToolEvent(ScreenshotAttempt)] else [];
    if r.result.Next? {
      PlanCountAppend(first, [PlanEvent(PlanRequest(s.userRequest, s.stepCount))]);
    }
  }

  /** `validation_node` checks `done` first, then the step budget, and
      otherwise lets the run continue; it crashes on instructions that are
      not a dict, such as the None left by a failed first plan, and on a
      truthy `done` that a message cannot hold. */
  lemma ValidationDecides(s: State)
    ensures var r := ValidationNode(s);
      var instr := s.currentInstructions;
      && (r.Crash? <==> !instr.VDict? || (Truthy(Get(instr.entries, "done")) && !MessageContent(Get(instr.entries, "done"))))
      && (instr.VDict? && Truthy(Get(instr.entries, "done")) && !MessageContent(Get(instr.entries, "done")) ==>
            r == Crash(ValidationError("AIMessage")))
      && (instr.VDict? && Truthy(Get(instr.entries, "done")) && MessageContent(Get(instr.entries, "done")) ==>
            r == Next(NoUpdate.(isComplete := Some(true), messages := [AIMessage(Get(instr.entries, "done"))])))
      && (instr.VDict? && !Truthy(Get(instr.entries, "done")) && s.stepCount >= s.maxSteps ==>
            r == Next(Stop(MaximumStepsExceeded)))
      && (r.Next? ==> (r.update.isComplete == Some(false) <==> !Truthy(Get(instr.entries, "done")) && s.stepCount < s.maxSteps))
      && (r.Next? ==> r.update.stepCount.None? && r.update.isComplete.Some? && KeepsErrors(r.update))
      && (r.Next? ==> r.update.currentInstructions.None?)
  {
  }

  /** `screenshot_node` makes one call of tool 4 and stores its text, or sets
      "Screenshot failed: ..." without completing the run; it returns no
      other key, so messages, plan and results are left as they were. */
  lemma ScreenshotOutcomes(env: Env, log: seq<PortEvent>, s: State)
    ensures var r := ScreenshotRun(env, log, s);
      && r.events == [ToolEvent(ScreenshotAttempt)] && PlanCount(r.events) == 0
      && (env.tools(log, ScreenshotAttempt).Completed? ==>
            r.result == Next(NoUpdate.(screenshotData := Some(env.tools(log, ScreenshotAttempt).text))))
      && (!env.tools(log, ScreenshotAttempt).Completed? ==>
            r.result == Next(NoUpdate.(errorMessage := Some("Screenshot failed: " + env.tools(log, ScreenshotAttempt).message))))
      && r.result.Next? && KeepsErrors(r.result.update)
      && r.result.update.stepCount.None? && r.result.update.isComplete.None?
      && r.result.update.currentInstructions.None?
      && (r.result.update.errorMessage.None? <==> env.tools(log, ScreenshotAttempt).Completed?)
  {
    assert [ToolEvent(ScreenshotAttempt)][1..] == [];
  }

  /** The call the planning and screenshot nodes make to "take a screenshot"
      goes to position 4 of the tool list, which is the sleep tool; the
      screenshot tool sits at position 5. Since the sleep tool catches
      nothing, a device failure there is raised rather than returned as
      "Screenshot failed: ...". */
  lemma ScreenshotAttemptSleeps(m: string)
    ensures ToolNames[ScreenshotAttempt.tool] == "sleep"
    ensures ToolNames[ScreenshotTool] == "take_screenshot"
    ensures ScreenshotAttempt.tool != ScreenshotTool
    ensures Outcome(ScreenshotAttempt.tool, DeviceError(m)) == Raised(m)
  {
  }

  /** `response_node` reports the error when one is set, and otherwise the
      plan's `done` value or "Task completed successfully"; it completes the
      run unless there is no error and the plan is not a dict or its `done`
      is a value a message cannot hold. */
  lemma ResponseOutcomes(s: State)
    ensures var r := ResponseNode(s);
      && (ErrorSet(s) ==> r.Next? && r.update.messages == [AIMessage(VStr("Task completed with error: " + s.errorMessage.value))])
      && (!ErrorSet(s) && s.currentInstructions.VDict? && MessageContent(GetOr(s.currentInstructions.entries, "done", VStr("Task completed successfully"))) ==>
            r.Next? && r.update.messages == [AIMessage(GetOr(s.currentInstructions.entries, "done", VStr("Task completed successfully")))])
      && (!ErrorSet(s) && s.currentInstructions.VDict? && !MessageContent(GetOr(s.currentInstructions.entries, "done", VStr("Task completed successfully"))) ==>
            r == Crash(ValidationError("AIMessage")))
      && (r.Crash? <==> !ErrorSet(s) && (!s.currentInstructions.VDict? || !MessageContent(GetOr(s.currentInstructions.entries, "done", VStr("Task completed successfully")))))
      && (r.Next? ==> r.update.isComplete == Some(true) && r.update.errorMessage.None? && r.update.stepCount.None?)
  {
  }
}
