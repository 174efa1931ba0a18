/**
 * The descriptor interpreter of app/interpreter.py: each planner command
 * `{function, parameters, human_readable_justification}` becomes a status
 * message followed by primitive pyautogui / time calls, and a command list
 * stops at its first failing command.
 */
module Interpreter {
  import opened PyValues
  import opened PyStrings

  /** A primitive call on the automation backend. */
  datatype Call =
    | Press(key: Value, presses: Option<Value>, interval: Value)  // presses is None when the caller leaves it to pyautogui
    | Write(text: Value, interval: Value)
    | Hotkey(keys: seq<Value>)                                   // one simultaneous combination
    | Click(x: Value, y: Value, clicks: Value)
    | Sleep(secs: Value)                                         // time.sleep
    | Generic(name: string, kwargs: seq<Entry>)                  // getattr(pyautogui, name)(**parameters)

  /** What an observer sees, in order: messages put on the status queue and
      calls made on the device. */
  datatype Effect = Status(message: Value) | Primitive(call: Call)

  /** The backend: which names pyautogui has (`hasattr`), and whether a call
      raises, which may depend on everything that happened before it. */
  datatype Device = Device(supports: string -> bool, raises: (seq<Effect>, Call) -> bool)

  /** The warm-up tap and the settling delay issued before every command. */
  const WarmupPress := Press(VStr("command"), None, VFloat(0.2))
  const SettleSleep := Sleep(VFloat(0.1))

  /** Drops the module qualifier: every occurrence of `pyautogui.` when the name
      starts with it, otherwise every occurrence of `time.` when it starts with
      that, otherwise nothing. */
  function NormaliseName(name: string): string {
    if StartsWith(name, "pyautogui.") then RemoveAll(name, "pyautogui.")
    else if StartsWith(name, "time.") then RemoveAll(name, "time.")
    else name
  }

  /** What `execute_function` does after the warm-up: the primitive calls it
      makes in order, or `CodeError` when its own code raises before any. */
  datatype Script = Issue(calls: seq<Call>) | CodeError

  /** One press per key, in order, all with the same presses and interval. */
  function PressEach(keys: seq<Value>, presses: Value, interval: Value): (r: seq<Call>)
    ensures |r| == |keys|
    ensures forall i :: 0 <= i < |keys| ==> r[i] == Press(keys[i], Some(presses), interval)
  {
    seq(|keys|, i requires 0 <= i < |keys| => Press(keys[i], Some(presses), interval))
  }

  function WriteCall(ps: seq<Entry>): Call {
    Write(Or(Or(Get(ps, "string"), Get(ps, "text")), Get(ps, "message")), GetOr(ps, "interval", VFloat(0.1)))
  }

  function PressCalls(ps: seq<Entry>): seq<Call> {
    var keys := Or(Get(ps, "keys"), Get(ps, "key"));
    var presses := GetOr(ps, "presses", VInt(1));
    var interval := GetOr(ps, "interval", VFloat(0.2));
    if keys.VList? then PressEach(keys.items, presses, interval)
    else [Press(keys, Some(presses), interval)]
  }

  function HotkeyCall(ps: seq<Entry>): Call {
    if Has(ps, "keys") then
      var keys := Get(ps, "keys");
      if keys.VList? then Hotkey(keys.items) else Hotkey([keys])
    else Hotkey(Values(ps))
  }

  function ClickCalls(ps: seq<Entry>): seq<Call> {
    var x := Get(ps, "x");
    var y := Get(ps, "y");
    if x != VNone && y != VNone then [Click(x, y, GetOr(ps, "clicks", VInt(1)))] else []
  }

  predicate SleepRequested(ps: seq<Entry>) {
    Truthy(Get(ps, "secs")) || Truthy(Get(ps, "seconds"))
  }

  predicate WriteHasText(ps: seq<Entry>) {
    Has(ps, "string") || Has(ps, "text") || Has(ps, "message")
  }

  predicate PressHasKeys(ps: seq<Entry>) {
    Has(ps, "keys") || Has(ps, "key")
  }

  /** The branching of `execute_function` after the warm-up. A `function` that
      is not a string fails at `startswith`; `parameters` that are not a dict
      fail at the first dict operation, but only on the paths that reach one. */
  function ScriptFor(fname: Value, parameters: Value, supports: string -> bool): Script {
    if !fname.VStr? then CodeError
    else
      var name := NormaliseName(fname.s);
      if name == "sleep" && !parameters.VDict? then CodeError
      else if name == "sleep" && SleepRequested(parameters.entries) then
        Issue([Sleep(Or(Get(parameters.entries, "secs"), Get(parameters.entries, "seconds")))])
      else if !supports(name) then Issue([])
      else if !parameters.VDict? then CodeError
      else
        var ps := parameters.entries;
        if name == "write" && WriteHasText(ps) then Issue([WriteCall(ps)])
        else if name == "press" && PressHasKeys(ps) then Issue(PressCalls(ps))
        else if name == "hotkey" then Issue([HotkeyCall(ps)])
        else if name == "click" then Issue(ClickCalls(ps))
        else Issue([Generic(name, ps)])
  }

  /** The calls a run attempted and whether all of them returned. */
  datatype Attempt = Attempt(effects: seq<Effect>, ok: bool)

  function Prims(cs: seq<Call>): (r: seq<Effect>)
    ensures |r| == |cs|
    ensures forall i :: 0 <= i < |cs| ==> r[i] == Primitive(cs[i])
  {
    seq(|cs|, i requires 0 <= i < |cs| => Primitive(cs[i]))
  }

  /** Makes the calls `cs` in order after history `h`, stopping right after the
      first call that raises. */
  function Perform(d: Device, h: seq<Effect>, cs: seq<Call>): Attempt
    decreases |cs|
  {
    if cs == [] then Attempt([], true)
    else if d.raises(h, cs[0]) then Attempt([Primitive(cs[0])], false)
    else
      var rest := Perform(d, h + [Primitive(cs[0])], cs[1..]);
      Attempt([Primitive(cs[0])] + rest.effects, rest.ok)
  }

  /** `Perform` attempts a prefix of the calls, in order, and attempts all of
      them when it returns. */
  lemma {:induction false} PerformAttemptsPrefix(d: Device, h: seq<Effect>, cs: seq<Call>)
    ensures var r := Perform(d, h, cs);
      && |r.effects| <= |cs|
      && r.effects == Prims(cs[..|r.effects|])
      && (r.ok ==> |r.effects| == |cs|)
      && (!r.ok ==> |r.effects| > 0)
    decreases |cs|
  {
    if cs != [] {
      assert cs[..1] == [cs[0]];
      if !d.raises(h, cs[0]) {
        var rest := Perform(d, h + [Primitive(cs[0])], cs[1..]);
        PerformAttemptsPrefix(d, h + [Primitive(cs[0])], cs[1..]);
        assert cs[..|rest.effects| + 1] == [cs[0]] + cs[1..][..|rest.effects|];
      }
    }
  }

  /** When `Perform` does not return, the last call it attempted raised, with
      all the earlier ones in the history. */
  lemma {:induction false} PerformLastRaised(d: Device, h: seq<Effect>, cs: seq<Call>)
    ensures var r := Perform(d, h, cs);
      !r.ok ==> 0 < |r.effects| <= |cs| && d.raises(h + Prims(cs[..|r.effects| - 1]), cs[|r.effects| - 1])
    decreases |cs|
  {
    if cs != [] {
      if d.raises(h, cs[0]) {
        assert cs[..0] == [] && h + Prims([]) == h;
      } else {
        var h1 := h + [Primitive(cs[0])];
        var rest := Perform(d, h1, cs[1..]);
        PerformLastRaised(d, h1, cs[1..]);
        if !rest.ok {
          var n := |rest.effects|;
          assert cs[..n] == [cs[0]] + cs[1..][..n - 1];
          assert h + Prims(cs[..n]) == h1 + Prims(cs[1..][..n - 1]);
        }
      }
    }
  }

  /** Every call `Perform` attempted before the last one returned, with all
      the earlier ones in the history; when it returns, all of them did. */
  lemma {:induction false} PerformEarlierReturned(d: Device, h: seq<Effect>, cs: seq<Call>, i: nat)
    requires var r := Perform(d, h, cs);
      i < |r.effects| && i < |cs| && (r.ok || i < |r.effects| - 1)
    ensures !d.raises(h + Prims(cs[..i]), cs[i])
    decreases i
  {
    assert cs != [];
    if i == 0 {
      assert cs[..0] == [] && h + Prims([]) == h;
    } else {
      var h1 := h + [Primitive(cs[0])];
      assert !d.raises(h, cs[0]);
      PerformEarlierReturned(d, h1, cs[1..], i - 1);
      assert cs[..i] == [cs[0]] + cs[1..][..i - 1];
      assert h + Prims(cs[..i]) == h1 + Prims(cs[1..][..i - 1]);
    }
  }

  /** Extending a run that returned by one more call. */
  lemma {:induction false} PerformSnoc(d: Device, h: seq<Effect>, cs: seq<Call>, c: Call)
    requires Perform(d, h, cs).ok
    ensures var a := Perform(d, h, cs);
      Perform(d, h, cs + [c]) == Attempt(a.effects + [Primitive(c)], !d.raises(h + a.effects, c))
    decreases |cs|
  {
    if cs == [] {
      assert cs + [c] == [c] && [c][1..] == [];
      assert h + [] == h;
    } else {
      assert (cs + [c])[0] == cs[0] && (cs + [c])[1..] == cs[1..] + [c];
      var h1 := h + [Primitive(cs[0])];
      PerformSnoc(d, h1, cs[1..], c);
      assert h1 + Perform(d, h1, cs[1..]).effects == h + Perform(d, h, cs).effects;
    }
  }

  /** Once a call has raised, the calls after it are never made. */
  lemma {:induction false} PerformStopsAfterFailure(d: Device, h: seq<Effect>, cs: seq<Call>, more: seq<Call>)
    requires !Perform(d, h, cs).ok
    ensures Perform(d, h, cs + more) == Perform(d, h, cs)
    decreases |cs|
  {
    assert (cs + more)[0] == cs[0];
    if !d.raises(h, cs[0]) {
      assert (cs + more)[1..] == cs[1..] + more;
      PerformStopsAfterFailure(d, h + [Primitive(cs[0])], cs[1..], more);
    }
  }

  /** `execute_function(function, parameters)` after history `h`: the warm-up
      tap and delay, then the script; `ok` is false exactly when it raised. */
  function Execution(d: Device, h: seq<Effect>, fname: Value, parameters: Value): Attempt {
    var warm := Perform(d, h, [WarmupPress, SettleSleep]);
    if !warm.ok then warm
    else
      match ScriptFor(fname, parameters, d.supports)
      case CodeError => Attempt(warm.effects, false)
      case Issue(cs) =>
        var rest := Perform(d, h + warm.effects, cs);
        Attempt(warm.effects + rest.effects, rest.ok)
  }

  /** The three fields `process_command` reads from a command. */
  datatype Descriptor = Descriptor(fname: Value, parameters: Value, justification: Value)

  /** `json_command['function']` raises unless the command is a dict with that
      key; `parameters` defaults to an empty dict, the justification to None. */
  function ReadCommand(command: Value): Option<Descriptor> {
    if command.VDict? && Has(command.entries, "function") then
      Some(Descriptor(
        Get(command.entries, "function"),
        GetOr(command.entries, "parameters", VDict([])),
        Get(command.entries, "human_readable_justification")))
    else None
  }

  /** How `process_command` / `process_commands` end: a boolean, or an
      exception that escapes them. */
  datatype Outcome = Returns(success: bool) | Raises

  datatype Batch = Batch(effects: seq<Effect>, outcome: Outcome)

  /** `process_command(command)` after history `h`: the justification is put
      on the status queue before anything else, and the command succeeds
      exactly when `execute_function` returns. */
  function CommandRun(d: Device, h: seq<Effect>, command: Value): Batch {
    match ReadCommand(command)
    case None => Batch([], Raises)
    case Some(c) =>
      var e := Execution(d, h + [Status(c.justification)], c.fname, c.parameters);
      Batch([Status(c.justification)] + e.effects, Returns(e.ok))
  }

  /** Runs `commands` in order after history `h` with `run`, stopping at the
      first one whose outcome is not `Returns(true)`. */
  function RunAll(run: (seq<Effect>, Value) -> Batch, h: seq<Effect>, commands: seq<Value>): Batch
    decreases |commands|
  {
    if commands == [] then Batch([], Returns(true))
    else
      var first := run(h, commands[0]);
      if first.outcome != Returns(true) then first
      else
        var rest := RunAll(run, h + first.effects, commands[1..]);
        Batch(first.effects + rest.effects, rest.outcome)
  }

  /** `process_commands(commands)` after history `h`: commands in list order,
      stopping at the first one that fails or raises. */
  function ProcessAll(d: Device, h: seq<Effect>, commands: seq<Value>): Batch {
    RunAll((h', c) => CommandRun(d, h', c), h, commands)
  }

  /** The status messages among `effects`, in order. */
  function Statuses(effects: seq<Effect>): seq<Value> {
    if effects == [] then []
    else (if effects[0].Status? then [effects[0].message] else []) + Statuses(effects[1..])
  }

  lemma {:induction false} StatusesAppend(a: seq<Effect>, b: seq<Effect>)
    ensures Statuses(a + b) == Statuses(a) + Statuses(b)
    decreases |a|
  {
    if a == [] {
      assert a + b == b;
    } else {
      assert (a + b)[0] == a[0];
      assert (a + b)[1..] == a[1..] + b;
      StatusesAppend(a[1..], b);
    }
  }

  lemma {:induction false} NoStatuses(effects: seq<Effect>)
    requires forall i :: 0 <= i < |effects| ==> effects[i].Primitive?
    ensures Statuses(effects) == []
    decreases |effects|
  {
    if effects != [] {
      NoStatuses(effects[1..]);
    }
  }

  lemma PerformHasNoStatuses(d: Device, h: seq<Effect>, cs: seq<Call>)
    ensures Statuses(Perform(d, h, cs).effects) == []
  {
    PerformAttemptsPrefix(d, h, cs);
    NoStatuses(Perform(d, h, cs).effects);
  }

  lemma ExecutionHasNoStatuses(d: Device, h: seq<Effect>, fname: Value, parameters: Value)
    ensures Statuses(Execution(d, h, fname, parameters).effects) == []
  {
    var warm := Perform(d, h, [WarmupPress, SettleSleep]);
    PerformHasNoStatuses(d, h, [WarmupPress, SettleSleep]);
    if warm.ok {
      match ScriptFor(fname, parameters, d.supports)
      case CodeError =>
      case Issue(cs) =>
        PerformHasNoStatuses(d, h + warm.effects, cs);
        StatusesAppend(warm.effects, Perform(d, h + warm.effects, cs).effects);
    }
  }

  /** A command without `function` raises before doing anything; any other
      command first puts its justification on the status queue, and succeeds
      exactly when its execution returns. */
  lemma CommandRunShape(d: Device, h: seq<Effect>, command: Value)
    ensures var r := CommandRun(d, h, command);
      && (r.outcome == Raises <==> ReadCommand(command).None?)
      && (r.outcome == Raises ==> r.effects == [])
      && (r.outcome != Raises ==>
        var c := ReadCommand(command).value;
        && |r.effects| > 0
        && r.effects[0] == Status(c.justification)
        && r.outcome == Returns(Execution(d, h + [Status(c.justification)], c.fname, c.parameters).ok))
  {
  }

  /** A command that is read puts exactly its justification on the queue. */
  lemma StatusesOfCommand(d: Device, h: seq<Effect>, command: Value)
    ensures var r := CommandRun(d, h, command);
      r.outcome != Raises ==> Statuses(r.effects) == [ReadCommand(command).value.justification]
  {
    var r := CommandRun(d, h, command);
    if r.outcome != Raises {
      var c := ReadCommand(command).value;
      var e := Execution(d, h + [Status(c.justification)], c.fname, c.parameters);
      ExecutionHasNoStatuses(d, h + [Status(c.justification)], c.fname, c.parameters);
      StatusesAppend([Status(c.justification)], e.effects);
    }
  }

  /** `process_commands` reaches a prefix of the list in order, putting one
      status message per command it reaches; it returns True only after
      reaching every command, and raises only at a command without
      `function`. */
  lemma {:induction false} ProcessAllReport(d: Device, h: seq<Effect>, commands: seq<Value>)
    ensures var r := ProcessAll(d, h, commands);
      var n := |Statuses(r.effects)|;
      && n <= |commands|
      && (forall i :: 0 <= i < n ==> ReadCommand(commands[i]).Some? && Statuses(r.effects)[i] == ReadCommand(commands[i]).value.justification)
      && (r.outcome == Returns(true) ==> n == |commands|)
      && (r.outcome == Raises ==> n < |commands| && ReadCommand(commands[n]).None?)
      && (r.outcome == Returns(false) ==> n > 0)
    decreases |commands|
  {
    if commands != [] {
      var first := CommandRun(d, h, commands[0]);
      StatusesOfCommand(d, h, commands[0]);
      if first.outcome == Returns(true) {
        var rest := ProcessAll(d, h + first.effects, commands[1..]);
        ProcessAllReport(d, h + first.effects, commands[1..]);
        StatusesAppend(first.effects, rest.effects);
      }
    }
  }

  /** The interpreter. `trace` stands for the two things it acts on: the
      status queue it was built with and the device. */
  class Interpreter {
    var trace: seq<Effect>
    const device: Device

    constructor (statusQueue: seq<Value>, device: Device)
      ensures trace == seq(|statusQueue|, i requires 0 <= i < |statusQueue| => Status(statusQueue[i]))
      ensures this.device == device
    {
      trace := seq(|statusQueue|, i requires 0 <= i < |statusQueue| => Status(statusQueue[i]));
      this.device := device;
    }

    /** One primitive call on the device; `ok` is false when it raised. */
    method Issue(c: Call) returns (ok: bool)
      modifies this
      ensures trace == old(trace) + [Primitive(c)]
      ensures ok == !device.raises(old(trace), c)
    {
      ok := !device.raises(trace, c);
      trace := trace + [Primitive(c)];
    }

    /** The key loop of `press`: one press per key, stopping when one raises. */
    method PressKeys(keys: seq<Value>, presses: Value, interval: Value) returns (ok: bool)
      modifies this
      ensures trace == old(trace) + Perform(device, old(trace), PressEach(keys, presses, interval)).effects
      ensures ok == Perform(device, old(trace), PressEach(keys, presses, interval)).ok
    {
      ghost var cs := PressEach(keys, presses, interval);
      var i := 0;
      while i < |keys|
        invariant 0 <= i <= |keys|
        invariant Perform(device, old(trace), cs[..i]).ok
        invariant trace == old(trace) + Perform(device, old(trace), cs[..i]).effects
      {
        PerformSnoc(device, old(trace), cs[..i], cs[i]);
        assert cs[..i] + [cs[i]] == cs[..i + 1];
        ok := Issue(Press(keys[i], Some(presses), interval));
        if !ok {
          PerformStopsAfterFailure(device, old(trace), cs[..i + 1], cs[i + 1..]);
          assert cs[..i + 1] + cs[i + 1..] == cs;
          return;
        }
        i := i + 1;
      }
      assert cs[..i] == cs;
      ok := true;
    }

    /** The name resolution and alias handling of `execute_function`. */
    method Dispatch(fname: Value, parameters: Value) returns (ok: bool)
      modifies this
      ensures ScriptFor(fname, parameters, device.supports).CodeError? ==> trace == old(trace) && !ok
      ensures ScriptFor(fname, parameters, device.supports).Issue? ==>
        var cs := ScriptFor(fname, parameters, device.supports).calls;
        trace == old(trace) + Perform(device, old(trace), cs).effects && ok == Perform(device, old(trace), cs).ok
    {
      if !fname.VStr? {
        return false;  // `startswith` on a non-string raises
      }
      var name := NormaliseName(fname.s);
      if name == "sleep" && !parameters.VDict? {
        return false;  // `parameters.get` on a non-dict raises
      }
      if name == "sleep" && SleepRequested(parameters.entries) {
        ok := Issue(Sleep(Or(Get(parameters.entries, "secs"), Get(parameters.entries, "seconds"))));
      } else if !device.supports(name) {
        ok := true;  // no such function: nothing happens
      } else if !parameters.VDict? {
        ok := false;  // every remaining path applies a dict operation first
      } else {
        var ps := parameters.entries;
        if name == "write" && WriteHasText(ps) {
          ok := Issue(WriteCall(ps));
        } else if name == "press" && PressHasKeys(ps) {
          var keys := Or(Get(ps, "keys"), Get(ps, "key"));
          var presses := GetOr(ps, "presses", VInt(1));
          var interval := GetOr(ps, "interval", VFloat(0.2));
          if keys.VList? {
            ok := PressKeys(keys.items, presses, interval);
          } else {
            ok := Issue(Press(keys, Some(presses), interval));
          }
        } else if name == "hotkey" {
          ok := Issue(HotkeyCall(ps));
        } else if name == "click" {
          var x := Get(ps, "x");
          var y := Get(ps, "y");
          if x != VNone && y != VNone {
            ok := Issue(Click(x, y, GetOr(ps, "clicks", VInt(1))));
          } else {
            ok := true;  // invalid click parameters: nothing happens
          }
        } else {
          ok := Issue(Generic(name, ps));
        }
      }
    }

    /** The warm-up tap on "command" and the short delay that open
        `execute_function`; the delay is skipped when the tap raised. */
    method WarmUp() returns (ok: bool)
      modifies this
      ensures trace == old(trace) + Perform(device, old(trace), [WarmupPress, SettleSleep]).effects
      ensures ok == Perform(device, old(trace), [WarmupPress, SettleSleep]).ok
    {
      PerformSnoc(device, trace, [], WarmupPress);
      assert [] + [WarmupPress] == [WarmupPress] && trace + [] == trace;
      ghost var one := Perform(device, trace, [WarmupPress]);
      assert one.effects == [Primitive(WarmupPress)] && one.ok == !device.raises(trace, WarmupPress);
      ok := Issue(WarmupPress);
      if !ok {
        PerformStopsAfterFailure(device, old(trace), [WarmupPress], [SettleSleep]);
        assert [WarmupPress] + [SettleSleep] == [WarmupPress, SettleSleep];
        return;
      }
      PerformSnoc(device, old(trace), [WarmupPress], SettleSleep);
      assert [WarmupPress] + [SettleSleep] == [WarmupPress, SettleSleep];
      ok := Issue(SettleSleep);
    }

    /** `execute_function`; `ok` is false when it raised. */
    method ExecuteFunction(fname: Value, parameters: Value) returns (ok: bool)
      modifies this
      ensures trace == old(trace) + Execution(device, old(trace), fname, parameters).effects
      ensures ok == Execution(device, old(trace), fname, parameters).ok
    {
      ghost var warm := Perform(device, trace, [WarmupPress, SettleSleep]);
      ok := WarmUp();
      if !ok {
        return;
      }
      ghost var h1 := trace;
      ok := Dispatch(fname, parameters);
      match ScriptFor(fname, parameters, device.supports)
      case CodeError =>
      case Issue(cs) =>
        AppendAssoc(old(trace), warm.effects, Perform(device, h1, cs).effects);
    }

    /** `process_command`: reading `function` raises out of it; otherwise the
        justification goes on the status queue, then the command runs. */
    method ProcessCommand(command: Value) returns (r: Outcome)
      modifies this
      ensures trace == old(trace) + CommandRun(device, old(trace), command).effects
      ensures r == CommandRun(device, old(trace), command).outcome
    {
      if !command.VDict? || !Has(command.entries, "function") {
        return Raises;  // json_command['function']
      }
      var fname := Get(command.entries, "function");
      var parameters := GetOr(command.entries, "parameters", VDict([]));
      var justification := Get(command.entries, "human_readable_justification");
      trace := trace + [Status(justification)];
      var ok := ExecuteFunction(fname, parameters);
      r := Returns(ok);
    }

    /** `process_commands`: stops at the first command that does not succeed. */
    method ProcessCommands(commands: seq<Value>) returns (r: Outcome)
      modifies this
      ensures trace == old(trace) + ProcessAll(device, old(trace), commands).effects
      ensures r == ProcessAll(device, old(trace), commands).outcome
    {
      var i := 0;
      while i < |commands|
        invariant 0 <= i <= |commands|
        invariant ProcessAll(device, old(trace), commands[..i]).outcome == Returns(true)
        invariant trace == old(trace) + ProcessAll(device, old(trace), commands[..i]).effects
      {
        ghost var done := ProcessAll(device, old(trace), commands[..i]);
        r := ProcessCommand(commands[i]);
        ghost var last := CommandRun(device, old(trace) + done.effects, commands[i]);
        assert ProcessAll(device, old(trace), commands[..i + 1]) == Batch(done.effects + last.effects, last.outcome) by {
          TakeSnoc(commands, i);
          ProcessAllSnoc(device, old(trace), commands[..i], commands[i]);
        }
        AppendAssoc(old(trace), done.effects, last.effects);
        if r != Returns(true) {
          assert ProcessAll(device, old(trace), commands) == ProcessAll(device, old(trace), commands[..i + 1]) by {
            ProcessAllStopsAtFailure(device, old(trace), commands[..i + 1], commands[i + 1..]);
            SplitJoin(commands, i + 1);
          }
          return;
        }
        i := i + 1;
      }
      assert commands[..i] == commands;
      r := Returns(true);
    }
  }

  lemma {:induction false} RunAllSnoc(run: (seq<Effect>, Value) -> Batch, h: seq<Effect>, commands: seq<Value>, c: Value)
    requires RunAll(run, h, commands).outcome == Returns(true)
    ensures var a := RunAll(run, h, commands);
      var b := run(h + a.effects, c);
      RunAll(run, h, commands + [c]) == Batch(a.effects + b.effects, b.outcome)
    decreases |commands|
  {
    if commands == [] {
      assert commands + [c] == [c] && [c][1..] == [];
      assert h + [] == h;
      assert run(h, c).effects + [] == run(h, c).effects;
    } else {
      var first := run(h, commands[0]);
      var h1 := h + first.effects;
      var rest := RunAll(run, h1, commands[1..]);
      RunAllSnoc(run, h1, commands[1..], c);
      assert (commands + [c])[0] == commands[0];
      assert (commands + [c])[1..] == commands[1..] + [c];
      assert h1 + rest.effects == h + (first.effects + rest.effects);
      assert first.effects + (rest.effects + run(h1 + rest.effects, c).effects)
        == (first.effects + rest.effects) + run(h1 + rest.effects, c).effects;
    }
  }

  lemma {:induction false} RunAllStopsAtFailure(run: (seq<Effect>, Value) -> Batch, h: seq<Effect>, commands: seq<Value>, more: seq<Value>)
    requires RunAll(run, h, commands).outcome != Returns(true)
    ensures RunAll(run, h, commands + more) == RunAll(run, h, commands)
    decreases |commands|
  {
    assert (commands + more)[0] == commands[0];
    var first := run(h, commands[0]);
    if first.outcome == Returns(true) {
      assert (commands + more)[1..] == commands[1..] + more;
      RunAllStopsAtFailure(run, h + first.effects, commands[1..], more);
    }
  }

  /** Appending one command to a list that succeeded runs it after the others'
      effects, and the longer list succeeds exactly when that command does. */
  lemma ProcessAllSnoc(d: Device, h: seq<Effect>, commands: seq<Value>, c: Value)
    requires ProcessAll(d, h, commands).outcome == Returns(true)
    ensures var a := ProcessAll(d, h, commands);
      var b := CommandRun(d, h + a.effects, c);
      ProcessAll(d, h, commands + [c]) == Batch(a.effects + b.effects, b.outcome)
  {
    RunAllSnoc((h', c') => CommandRun(d, h', c'), h, commands, c);
  }

  /** Fail-fast: once a prefix of the list has failed or raised, the commands
      after it are never looked at. */
  lemma ProcessAllStopsAtFailure(d: Device, h: seq<Effect>, commands: seq<Value>, more: seq<Value>)
    requires ProcessAll(d, h, commands).outcome != Returns(true)
    ensures ProcessAll(d, h, commands + more) == ProcessAll(d, h, commands)
  {
    RunAllStopsAtFailure((h', c') => CommandRun(d, h', c'), h, commands, more);
  }
}
