/**
 * The state record of langgraph_interface/state.py and how a node's partial
 * update is merged into it: a key a node returns overwrites the field,
 * except `messages`, whose reducer appends.
 */
module GraphState {
  import opened PyValues

  /** One entry of an execution round's `execution_results`. */
  datatype ExecResult = ExecResult(fname: Value, parameters: Value, justification: Value, result: string, success: bool)

  /** Where the user prompt says the run is, from round 1 on: the step count
      and the last result of the previous round, if there was one. */
  datatype Progress = Progress(step: int, previous: Option<ExecResult>)

  /** The chat messages the nodes add. Only what the prompts are built from is
      kept; their wording is not part of this model. */
  datatype Message =
    | SystemPrompt(modelName: Value, customInstructions: Option<Value>)
    | UserPrompt(request: string, screenshot: Option<string>, progress: Option<Progress>)
    | AIMessage(content: Value)

  /** What langchain's message classes accept as `content`: a string, or a
      list of strings and dicts. Any other value makes the constructor raise
      a validation error. */
  predicate MessageContent(v: Value) {
    v.VStr? || (v.VList? && forall i :: 0 <= i < |v.items| ==> v.items[i].VStr? || v.items[i].VDict?)
  }

  /** `OpenInterfaceState`. `currentInstructions` is the planner's value, VNone
      when there is none yet. */
  datatype State = State(
    messages: seq<Message>,
    userRequest: string,
    stepCount: int,
    maxSteps: int,
    currentInstructions: Value,
    executionResults: seq<ExecResult>,
    screenshotData: Option<string>,
    isComplete: bool,
    errorMessage: Option<string>,
    interruptRequested: bool,
    modelName: Value,
    apiKey: Value,
    customInstructions: Value)

  /** The dict a node returns: for each key it may return, the new value or
      None when it leaves the key out; `messages` are the ones to append. */
  datatype Update = Update(
    messages: seq<Message>,
    currentInstructions: Option<Value>,
    executionResults: Option<seq<ExecResult>>,
    stepCount: Option<int>,
    screenshotData: Option<string>,
    isComplete: Option<bool>,
    errorMessage: Option<string>)

  const NoUpdate := Update([], None, None, None, None, None, None)

  /** `{"error_message": m, "is_complete": True}`, the nodes' way to stop. */
  function Stop(m: string): Update {
    NoUpdate.(errorMessage := Some(m), isComplete := Some(true))
  }

  function Merge(s: State, u: Update): State {
    s.(
      messages := s.messages + u.messages,
      currentInstructions := u.currentInstructions.GetOr(s.currentInstructions),
      executionResults := u.executionResults.GetOr(s.executionResults),
      stepCount := u.stepCount.GetOr(s.stepCount),
      screenshotData := if u.screenshotData.Some? then u.screenshotData else s.screenshotData,
      isComplete := u.isComplete.GetOr(s.isComplete),
      errorMessage := if u.errorMessage.Some? then u.errorMessage else s.errorMessage)
  }

  /** `state.get("error_message")` is truthy. */
  predicate ErrorSet(s: State) {
    s.errorMessage.Some? && s.errorMessage.value != ""
  }

  /** An update that sets an error sets a non-empty one. */
  predicate KeepsErrors(u: Update) {
    u.errorMessage.Some? ==> u.errorMessage.value != ""
  }

  /** Merging appends the update's messages, overwrites exactly the keys the
      update returns, and keeps every other field, so the fields no node
      returns (request, budget, interrupt flag, settings) never change. An
      error, once set, stays set under any update that keeps errors. */
  lemma MergeFields(s: State, u: Update)
    ensures var r := Merge(s, u);
      && r.messages == s.messages + u.messages
      && (u.currentInstructions.Some? ==> r.currentInstructions == u.currentInstructions.value)
      && (u.currentInstructions.None? ==> r.currentInstructions == s.currentInstructions)
      && (u.executionResults.Some? ==> r.executionResults == u.executionResults.value)
      && (u.executionResults.None? ==> r.executionResults == s.executionResults)
      && (u.stepCount.Some? ==> r.stepCount == u.stepCount.value)
      && (u.stepCount.None? ==> r.stepCount == s.stepCount)
      && (u.isComplete.Some? ==> r.isComplete == u.isComplete.value)
      && (u.isComplete.None? ==> r.isComplete == s.isComplete)
      && (u.screenshotData.Some? ==> r.screenshotData == u.screenshotData)
      && (u.screenshotData.None? ==> r.screenshotData == s.screenshotData)
      && (u.errorMessage.None? ==> r.errorMessage == s.errorMessage)
      && (u.errorMessage.Some? ==> r.errorMessage == u.errorMessage)
      && r.userRequest == s.userRequest && r.maxSteps == s.maxSteps
      && r.interruptRequested == s.interruptRequested
      && r.modelName == s.modelName && r.apiKey == s.apiKey && r.customInstructions == s.customInstructions
      && (ErrorSet(s) && KeepsErrors(u) ==> ErrorSet(r))
      && (ErrorSet(r) <==> (if u.errorMessage.Some? then u.errorMessage.value != "" else ErrorSet(s)))
  {
  }
}
