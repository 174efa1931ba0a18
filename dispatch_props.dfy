/**
 * The two dispatchers side by side: `execute_function` of app/interpreter.py
 * and `_execute_step` of langgraph_interface/nodes.py read the same planner
 * descriptors, but they do not agree on every one of them.
 */
module DispatchProps {
  import opened PyStrings
  import opened PyValues
  import opened Tools
  import opened Interpreter
  import opened InterpreterProps
  import opened Nodes

  /** Given both `secs` and `seconds`, the interpreter sleeps for `secs`
      whenever it is truthy, while `_execute_step` passes `seconds` on to the
      sleep tool whenever it is present. */
  lemma SleepKeysDisagree(env: Env, log: seq<PortEvent>, ps: seq<Entry>, supports: string -> bool)
    requires Has(ps, "secs") && Has(ps, "seconds") && Truthy(Get(ps, "secs"))
    ensures ScriptFor(VStr("sleep"), VDict(ps), supports) == Issue([Sleep(Get(ps, "secs"))])
    ensures StepPlan(VStr("sleep"), VDict(ps)) == Use(Invoke(SleepTool, VDict([Entry("seconds", Get(ps, "seconds"))])))
    ensures ExecuteStepRun(env, log, VStr("sleep"), VDict(ps)).events
      == [ToolEvent(Invoke(SleepTool, VDict([Entry("seconds", Get(ps, "seconds"))])))]
  {
    assert !StartsWith("sleep", "time.") by {
      assert "sleep"[..5][0] != "time."[0];
    }
    NormaliseUnqualified("sleep");
  }

  /** A `time.` qualifier is dropped by the interpreter only: `time.sleep`
      with a duration sleeps there, and is an unknown function to
      `_execute_step`, which calls no tool for it. */
  lemma TimeQualifierOnlyInInterpreter(env: Env, log: seq<PortEvent>, ps: seq<Entry>, supports: string -> bool)
    requires Truthy(Get(ps, "secs")) || Truthy(Get(ps, "seconds"))
    ensures ScriptFor(VStr("time.sleep"), VDict(ps), supports) == Issue([Sleep(Or(Get(ps, "secs"), Get(ps, "seconds")))])
    ensures StepPlan(VStr("time.sleep"), VDict(ps)) == Unknown("time.sleep")
    ensures ExecuteStepRun(env, log, VStr("time.sleep"), VDict(ps)).events == []
  {
    assert !Contains("sleep", "time.") by {
      assert !OccursAt("sleep", "time.", 0) by {
        assert "sleep"[0] != "time."[0];
      }
    }
    assert "time." + "sleep" == "time.sleep";
    QualifiedOnce("time.", "sleep");
    NormaliseTime(["sleep"]);
    assert !StartsWith("time.sleep", "pyautogui.") by {
      assert "time.sleep"[..10][0] != "pyautogui."[0];
    }
    assert StripPyautogui("time.sleep") == "time.sleep";
    assert ToolFor("time.sleep").None?;
  }
}
