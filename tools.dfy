/**
 * The tool list of langgraph_interface/tools.py, seen from the nodes that
 * index into it: its order, and what each wrapper turns a device failure
 * into. The wrappers' own success texts come from the device port.
 */
module Tools {
  import opened PyStrings
  import opened PyValues

  /** A position in the list `create_pyautogui_tools` returns. */
  type ToolIndex = i: int | 0 <= i < 6

  const ClickTool: ToolIndex := 0
  const TypeTextTool: ToolIndex := 1
  const PressKeyTool: ToolIndex := 2
  const HotkeyTool: ToolIndex := 3
  const SleepTool: ToolIndex := 4
  const ScreenshotTool: ToolIndex := 5

  /** The registered tool names, in list order. */
  const ToolNames: seq<string> := ["click", "type_text", "press_key", "hotkey", "sleep", "take_screenshot"]

  /** How a node reaches a tool: `tools[i].invoke(input)` with a dict input,
      or `tools[i].func(*args)` with positional arguments. */
  datatype ToolCall = Invoke(tool: ToolIndex, input: Value) | Spread(tool: ToolIndex, args: seq<Value>)

  /** What the device side of a tool does with a call: it completes with the
      wrapper's success text, the pyautogui or screen call inside the wrapper
      raises, or the tool framework refuses the input before the wrapper
      runs. The oracle may answer any of the three to any call, which is more
      than the tools can do: a `Spread` call goes to `hotkey(*keys)` directly,
      which accepts any arguments and so is never refused. Lemmas about all
      oracles therefore also cover the real ones. */
  datatype DeviceResult = Completed(text: string) | DeviceError(message: string) | InputRejected(message: string)

  /** What the caller of a tool sees: a string, or an exception. */
  datatype ToolOutcome = Returned(text: string) | Raised(message: string)

  /** The text each wrapper puts before the message of an exception it
      catches. The sleep tool catches nothing. */
  function FailurePrefix(tool: ToolIndex): Option<string> {
    if tool == ClickTool then Some("Click failed: ")
    else if tool == TypeTextTool then Some("Type failed: ")
    else if tool == PressKeyTool then Some("Key press failed: ")
    else if tool == HotkeyTool then Some("Hotkey failed: ")
    else if tool == SleepTool then None
    else Some("Screenshot failed: ")
  }

  /** Every wrapper but sleep catches a device failure and returns it as text;
      a refused input and a failure of the sleep tool are raised. */
  function Outcome(tool: ToolIndex, r: DeviceResult): ToolOutcome {
    match r
    case Completed(text) => Returned(text)
    case DeviceError(m) =>
      (match FailurePrefix(tool)
       case Some(p) => Returned(p + m)
       case None => Raised(m))
    case InputRejected(m) => Raised(m)
  }

  /** `w` occurs in the lower-cased `s` at `i` when it already occurs there
      and is itself lower case. */
  lemma LowerOccurrence(s: string, w: string, i: nat)
    requires OccursAt(s, w, i)
    requires forall k :: 0 <= k < |w| ==> !('A' <= w[k] <= 'Z')
    ensures Contains(Lower(s), w)
  {
    assert Lower(s)[i..i + |w|] == w by {
      forall k | 0 <= k < |w| ensures Lower(s)[i + k] == w[k] {
        assert s[i + k] == s[i..i + |w|][k];
      }
    }
    assert OccursAt(Lower(s), w, i);
  }

  /** Each wrapper's failure prefix says "failed", whatever its case. */
  lemma PrefixSaysFailed(tool: ToolIndex)
    requires FailurePrefix(tool).Some?
    ensures Contains(Lower(FailurePrefix(tool).value), "failed")
  {
    var p := FailurePrefix(tool).value;
    if tool == ClickTool {
      assert p[6..12] == "failed";
      LowerOccurrence(p, "failed", 6);
    } else if tool == TypeTextTool {
      assert p[5..11] == "failed";
      LowerOccurrence(p, "failed", 5);
    } else if tool == PressKeyTool {
      assert p[10..16] == "failed";
      LowerOccurrence(p, "failed", 10);
    } else if tool == HotkeyTool {
      assert p[7..13] == "failed";
      LowerOccurrence(p, "failed", 7);
    } else {
      assert p[11..17] == "failed";
      LowerOccurrence(p, "failed", 11);
    }
  }

  /** A device failure inside any wrapper but sleep comes back as a string
      whose lower-cased form contains "failed"; in sleep it is raised. */
  lemma WrappedFailureSaysFailed(tool: ToolIndex, m: string)
    ensures tool != SleepTool ==>
      Outcome(tool, DeviceError(m)).Returned? && Contains(Lower(Outcome(tool, DeviceError(m)).text), "failed")
    ensures tool == SleepTool ==> Outcome(tool, DeviceError(m)) == Raised(m)
  {
    if tool != SleepTool {
      var p := FailurePrefix(tool).value;
      PrefixSaysFailed(tool);
      LowerAppend(p, m);
      ContainsAppend(Lower(p), Lower(m), "failed");
    }
  }
}
