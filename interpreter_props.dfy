/**
 * What app/interpreter.py promises about one descriptor: how names are
 * normalised, which alias wins, how keys are expanded, when a click is
 * skipped, and that the warm-up comes before anything else.
 */
module InterpreterProps {
  import opened PyStrings
  import opened PyValues
  import opened Interpreter

  /** A name that starts with `pyautogui.` loses every copy of it: split at
      the copies, the qualifier-free parts are joined. */
  lemma NormalisePyautogui(parts: seq<string>)
    requires parts != []
    requires forall i :: 0 <= i < |parts| ==> !Contains(parts[i], "pyautogui.")
    ensures NormaliseName(Qualified("pyautogui.", parts)) == Concat(parts)
  {
    QualifiersLastCharUnique();
    RemoveAllQualified("pyautogui.", parts);
  }

  /** A name that starts with `time.` (and so not with `pyautogui.`) loses
      every copy of `time.`. */
  lemma NormaliseTime(parts: seq<string>)
    requires parts != []
    requires forall i :: 0 <= i < |parts| ==> !Contains(parts[i], "time.")
    ensures NormaliseName(Qualified("time.", parts)) == Concat(parts)
  {
    var name := Qualified("time.", parts);
    assert name[0] == 't';
    assert !StartsWith(name, "pyautogui.");
    QualifiersLastCharUnique();
    RemoveAllQualified("time.", parts);
  }

  /** One qualifier in front of a name without it. */
  lemma QualifiedOnce(p: string, t: string)
    ensures Qualified(p, [t]) == p + t && Concat([t]) == t
  {
    assert [t][1..] == [];
  }

  /** Only one kind of qualifier is dropped per name: after `pyautogui.` a
      `time.` qualifier stays (so `pyautogui.time.sleep` is `time.sleep`, not
      the sleep alias), although on its own it would have been dropped. */
  lemma NormaliseStripsOneKind(t: string)
    requires !Contains(t, "pyautogui.") && !Contains(t, "time.")
    ensures NormaliseName("pyautogui.time." + t) == "time." + t
    ensures NormaliseName("time." + t) == t
  {
    assert "pyautogui.time." + t == "pyautogui." + ("time." + t);
    NotContainsPrefixed("time.", t, "pyautogui.");
    QualifiedOnce("pyautogui.", "time." + t);
    NormalisePyautogui(["time." + t]);
    QualifiedOnce("time.", t);
    NormaliseTime([t]);
  }

  /** A name without either qualifier is looked up as it is. */
  lemma NormaliseUnqualified(name: string)
    requires !StartsWith(name, "pyautogui.") && !StartsWith(name, "time.")
    ensures NormaliseName(name) == name
  {
  }

  /** The calls a script makes after the warm-up; none for a code error. */
  function Calls(sc: Script): seq<Call> {
    if sc.Issue? then sc.calls else []
  }

  /** `sleep` with `secs` or `seconds` truthy makes one sleep call, on `secs`
      when that is truthy and on `seconds` otherwise; the duration it passes is
      therefore never falsy. */
  lemma SleepAlias(fname: Value, ps: seq<Entry>, supports: string -> bool)
    requires fname.VStr? && NormaliseName(fname.s) == "sleep"
    requires SleepRequested(ps)
    ensures var secs := Get(ps, "secs");
      ScriptFor(fname, VDict(ps), supports)
        == Issue([Sleep(if Truthy(secs) then secs else Get(ps, "seconds"))])
    ensures Truthy(Calls(ScriptFor(fname, VDict(ps), supports))[0].secs)
  {
  }

  /** Without a truthy `secs` or `seconds`, `sleep` is treated like any other
      name: pyautogui's own `sleep` is called with the parameters as given. */
  lemma SleepWithoutDuration(fname: Value, ps: seq<Entry>, supports: string -> bool)
    requires fname.VStr? && NormaliseName(fname.s) == "sleep"
    requires !SleepRequested(ps)
    ensures ScriptFor(fname, VDict(ps), supports)
      == (if supports("sleep") then Issue([Generic("sleep", ps)]) else Issue([]))
  {
  }

  /** `write` picks the first truthy of `string`, `text`, `message` (falling
      back to `message`), and an interval of 0.1 unless one is given. */
  lemma WriteAlias(fname: Value, ps: seq<Entry>, supports: string -> bool)
    requires fname.VStr? && NormaliseName(fname.s) == "write" && supports("write")
    requires WriteHasText(ps)
    ensures var sc := ScriptFor(fname, VDict(ps), supports);
      && sc.Issue? && |sc.calls| == 1 && sc.calls[0].Write?
      && var w := sc.calls[0];
      && (Truthy(Get(ps, "string")) ==> w.text == Get(ps, "string"))
      && (!Truthy(Get(ps, "string")) && Truthy(Get(ps, "text")) ==> w.text == Get(ps, "text"))
      && (!Truthy(Get(ps, "string")) && !Truthy(Get(ps, "text")) ==> w.text == Get(ps, "message"))
      && (Has(ps, "interval") ==> w.interval == Get(ps, "interval"))
      && (!Has(ps, "interval") ==> w.interval == VFloat(0.1))
  {
  }

  /** `press` with a list of keys makes one press per key, in list order, each
      with the same `presses` (default 1) and `interval` (default 0.2); with a
      single key it makes exactly one press. A truthy `keys` wins over `key`. */
  lemma PressExpansion(fname: Value, ps: seq<Entry>, supports: string -> bool)
    requires fname.VStr? && NormaliseName(fname.s) == "press" && supports("press")
    requires PressHasKeys(ps)
    ensures var sc := ScriptFor(fname, VDict(ps), supports);
      var keys := if Truthy(Get(ps, "keys")) then Get(ps, "keys") else Get(ps, "key");
      var presses := if Has(ps, "presses") then Get(ps, "presses") else VInt(1);
      var interval := if Has(ps, "interval") then Get(ps, "interval") else VFloat(0.2);
      && sc.Issue?
      && (keys.VList? ==>
            |sc.calls| == |keys.items|
            && forall i :: 0 <= i < |keys.items| ==> sc.calls[i] == Press(keys.items[i], Some(presses), interval))
      && (!keys.VList? ==> sc.calls == [Press(keys, Some(presses), interval)])
  {
  }

  /** `hotkey` makes exactly one combination call: on the `keys` list in
      order, on a scalar `keys` alone, or, without `keys`, on every parameter
      value in insertion order. */
  lemma HotkeyCombination(fname: Value, ps: seq<Entry>, supports: string -> bool)
    requires fname.VStr? && NormaliseName(fname.s) == "hotkey" && supports("hotkey")
    ensures var sc := ScriptFor(fname, VDict(ps), supports);
      && sc.Issue? && |sc.calls| == 1 && sc.calls[0].Hotkey?
      && var combo := sc.calls[0].keys;
      && (Has(ps, "keys") && Get(ps, "keys").VList? ==> combo == Get(ps, "keys").items)
      && (Has(ps, "keys") && !Get(ps, "keys").VList? ==> combo == [Get(ps, "keys")])
      && (!Has(ps, "keys") ==> |combo| == |ps| && forall i :: 0 <= i < |ps| ==> combo[i] == ps[i].val)
  {
  }

  /** `click` calls the primitive exactly once, on `(x, y, clicks)` with
      `clicks` defaulting to 1, when both coordinates are present and not None,
      and otherwise calls nothing and does not fail. */
  lemma ClickGuard(fname: Value, ps: seq<Entry>, supports: string -> bool)
    requires fname.VStr? && NormaliseName(fname.s) == "click" && supports("click")
    ensures var sc := ScriptFor(fname, VDict(ps), supports);
      var x := Get(ps, "x");
      var y := Get(ps, "y");
      && sc.Issue?
      && (sc.calls == [] <==> x == VNone || y == VNone)
      && (x != VNone && y != VNone ==>
            sc.calls == [Click(x, y, if Has(ps, "clicks") then Get(ps, "clicks") else VInt(1))])
  {
  }

  /** A name that pyautogui has gets its parameters unchanged exactly when no
      special case applies: it is neither `hotkey` nor `click`, and it is not
      `sleep` with a duration, `write` with a text key or `press` with a key.
      So `write` without `string`, `text` and `message`, and `press` without
      `keys` and `key`, fall through to the plain call. */
  lemma GenericPassThrough(fname: Value, ps: seq<Entry>, supports: string -> bool)
    requires fname.VStr? && supports(NormaliseName(fname.s))
    ensures var name := NormaliseName(fname.s);
      ScriptFor(fname, VDict(ps), supports) == Issue([Generic(name, ps)])
      <==>
      && name != "hotkey" && name != "click"
      && (name == "sleep" ==> !SleepRequested(ps))
      && (name == "write" ==> !WriteHasText(ps))
      && (name == "press" ==> !PressHasKeys(ps))
  {
    var name := NormaliseName(fname.s);
    if name == "press" && PressHasKeys(ps) {
      var calls := PressCalls(ps);
      assert calls == [] || calls[0].Press?;
    }
  }

  /** A name that is not a string, or `parameters` that are not a dict on a
      path that reads them, make the command fail with no call after the
      warm-up (`sleep` reads them whether or not pyautogui has it); a name
      pyautogui does not have makes no call and does not fail. */
  lemma ScriptErrors(fname: Value, parameters: Value, supports: string -> bool)
    ensures !fname.VStr? ==> ScriptFor(fname, parameters, supports) == CodeError
    ensures fname.VStr? && !parameters.VDict?
      && (supports(NormaliseName(fname.s)) || NormaliseName(fname.s) == "sleep")
      ==> ScriptFor(fname, parameters, supports) == CodeError
    ensures fname.VStr? && NormaliseName(fname.s) != "sleep" && !supports(NormaliseName(fname.s))
      ==> ScriptFor(fname, parameters, supports) == Issue([])
  {
  }

  /** The warm-up after history `h`: the tap, then the delay unless the tap
      raised. */
  lemma WarmupAttempt(d: Device, h: seq<Effect>)
    ensures Perform(d, h, [WarmupPress, SettleSleep])
      == if d.raises(h, WarmupPress) then Attempt([Primitive(WarmupPress)], false)
         else Attempt([Primitive(WarmupPress), Primitive(SettleSleep)], !d.raises(h + [Primitive(WarmupPress)], SettleSleep))
  {
    var h1 := h + [Primitive(WarmupPress)];
    assert [WarmupPress, SettleSleep][1..] == [SettleSleep];
    assert [SettleSleep][1..] == [];
    var last := Perform(d, h1, [SettleSleep]);
    if !d.raises(h1, SettleSleep) {
      assert Perform(d, h1 + [Primitive(SettleSleep)], []) == Attempt([], true);
      assert [Primitive(SettleSleep)] + [] == [Primitive(SettleSleep)];
    }
    assert last.effects == [Primitive(SettleSleep)];
    assert [Primitive(WarmupPress)] + [Primitive(SettleSleep)] == [Primitive(WarmupPress), Primitive(SettleSleep)];
  }

  /** Every command starts with the warm-up tap and then the settling delay;
      if either raises, the command fails right there. */
  lemma WarmupFirst(d: Device, h: seq<Effect>, fname: Value, parameters: Value)
    ensures var e := Execution(d, h, fname, parameters);
      && |e.effects| >= 1 && e.effects[0] == Primitive(WarmupPress)
      && (d.raises(h, WarmupPress) ==> e == Attempt([Primitive(WarmupPress)], false))
      && (!d.raises(h, WarmupPress) ==> |e.effects| >= 2 && e.effects[1] == Primitive(SettleSleep))
      && ((!d.raises(h, WarmupPress) && d.raises(h + [Primitive(WarmupPress)], SettleSleep))
            ==> e == Attempt([Primitive(WarmupPress), Primitive(SettleSleep)], false))
  {
    WarmupAttempt(d, h);
  }

  /** After a warm-up that returned, a command succeeds exactly when every
      call of its script returns; a code error always fails it. */
  lemma ExecutionFollowsScript(d: Device, h: seq<Effect>, fname: Value, parameters: Value)
    requires Perform(d, h, [WarmupPress, SettleSleep]).ok
    ensures var warm := Perform(d, h, [WarmupPress, SettleSleep]);
      var e := Execution(d, h, fname, parameters);
      match ScriptFor(fname, parameters, d.supports)
      case CodeError => e == Attempt(warm.effects, false)
      case Issue(cs) =>
        && e.effects == warm.effects + Perform(d, h + warm.effects, cs).effects
        && (e.ok <==> forall i :: 0 <= i < |cs| ==> !d.raises(h + warm.effects + Prims(cs[..i]), cs[i]))
  {
    var warm := Perform(d, h, [WarmupPress, SettleSleep]);
    match ScriptFor(fname, parameters, d.supports)
    case CodeError =>
    case Issue(cs) =>
      var h1 := h + warm.effects;
      var r := Perform(d, h1, cs);
      PerformAttemptsPrefix(d, h1, cs);
      PerformLastRaised(d, h1, cs);
      if r.ok {
        forall i | 0 <= i < |cs| ensures !d.raises(h1 + Prims(cs[..i]), cs[i]) {
          PerformEarlierReturned(d, h1, cs, i);
        }
      }
  }

  /** A name pyautogui lacks (other than the sleep alias) still counts as a
      success: only the warm-up is performed. */
  lemma UnsupportedNameSucceeds(d: Device, h: seq<Effect>, fname: Value, parameters: Value)
    requires Perform(d, h, [WarmupPress, SettleSleep]).ok
    requires fname.VStr? && NormaliseName(fname.s) != "sleep" && !d.supports(NormaliseName(fname.s))
    ensures Execution(d, h, fname, parameters) == Perform(d, h, [WarmupPress, SettleSleep])
  {
    var warm := Perform(d, h, [WarmupPress, SettleSleep]);
    assert warm.effects + [] == warm.effects;
  }
}
