/** The events eve streams, the events a drain yields, and what a drain builds up from them. */
module TurnEvents {
  import opened Prelude
  import opened Text
  import Reasoning

  // ----- What eve sends (one JSON object per line, fields already read out of it) -----

  /** The message of a turn: the text eve echoes, and the model its directive names, if any. */
  datatype Sent = Sent(text: string, directive: Option<string>)

  /** `runtime.modelId` of `session.started`; `dynamic` when it carries the `dynamic:` prefix. */
  datatype RuntimeModel = RuntimeModel(id: string, dynamic: bool)

  datatype ActionRequest = ActionRequest(toolName: string, summary: Option<string>, input: string,
      callId: Option<string>)

  datatype Output = Output(json: string, exitCode: Option<int>)

  datatype Failure = Failure(message: string, code: Option<string>, details: Option<string>) {
    function Text(): string {
      Join([message] + (if code.Some? then ["Code: " + code.value] else [])
                     + (if details.Some? then ["Details: " + details.value] else []), "\n")
    }
  }

  datatype InputRequest = InputRequest(requestId: string, prompt: string)

  datatype StepUsage = StepUsage(name: Option<string>, tokensIn: Option<int>, tokensOut: Option<int>)

  datatype Payload =
    | SessionStarted(runtime: Option<RuntimeModel>)
    | MessageReceived(echo: Option<string>)
    | StepStarted
    | ActionsRequested(requests: seq<ActionRequest>)
    | ActionResult(callId: Option<string>, output: Option<Output>, failed: bool)
    | ReasoningSaid(reasoning: Reasoning.ReasoningEvent)
    | MessageAppended(soFar: Option<string>)
    | MessageCompleted(text: Option<string>)
    | StepCompleted(usage: StepUsage)
    | StepFailed(usage: StepUsage, failure: Failure, modelRef: Option<string>)
    | InputRequested(asks: seq<InputRequest>)
    | TurnFailed(failure: Failure, modelRef: Option<string>)
    | SessionFailed(failure: Failure, modelRef: Option<string>)
    | TurnCompleted
    | SessionWaiting
    | Unhandled

  datatype Event = Event(turnId: Option<string>, sequence: int, at: int, payload: Payload)

  // ----- What a drain yields before its final `done` -----

  datatype TalkEvent =
    | Progress(streamIndex: nat, raw: Event)
    | Turn(turnId: string)
    | Model(modelId: string)
    | Thinking
    | Action(toolName: string, summary: Option<string>)
    | Text(text: string)
    | ReasoningText(text: string)
    /** The step object itself, named by its place in the turn's step list. */
    | StepDone(step: nat)
    | Input(asks: seq<InputRequest>)

  // ----- What a drain accumulates -----

  /** A tool call, completed in place when its result arrives. */
  datatype ActionRecord = ActionRecord(toolName: string, summary: Option<string>, input: string,
    output: Option<string>, exitCode: Option<int>, isError: Option<bool>)

  /**
   * A finished step. `actions` is a reference, not a copy: it names the sequence whose action array
   * the step shares, so results (and actions) arriving later are visible through the step.
   */
  datatype TurnStep = TurnStep(usage: StepUsage, durationMs: Option<int>, failure: Option<Failure>,
    toolName: Option<string>, summary: Option<string>, actions: Option<int>)

  datatype Message = Message(afterStepIndex: nat, text: string)

  predicate AllBelow(ids: seq<nat>, n: nat) {
    forall k :: 0 <= k < |ids| ==> ids[k] < n
  }

  datatype Carry = Carry(
    steps: seq<TurnStep>,
    messages: seq<Message>,
    completedMessages: seq<string>,
    inputRequests: seq<InputRequest>,
    reasoning: Reasoning.Accumulated,
    lastTextSent: Option<string>,
    reply: Option<string>,
    lastStepFailure: Option<string>,
    errorModelId: Option<string>,
    modelId: Option<string>,
    stepStarts: map<int, int>,
    /** Every action record, in the order of the requests; the arrays below hold places in it. */
    records: seq<ActionRecord>,
    actionsBySeq: map<int, seq<nat>>,
    actionByCallId: map<string, nat>)
  {
    /** The arrays and the call ids only name records that exist. */
    ghost predicate Valid() {
      (forall id <- actionByCallId :: actionByCallId[id] < |records|) &&
      (forall q <- actionsBySeq :: AllBelow(actionsBySeq[q], |records|)) &&
      (forall step <- steps :: step.actions.Some? ==> step.actions.value in actionsBySeq)
    }

    /** A step's action list, read through the shared array. */
    ghost function ActionsOf(step: TurnStep): Option<seq<ActionRecord>>
      requires Valid() && step in steps
    {
      if step.actions.None? then None
      else
        var q := step.actions.value;
        var ids := actionsBySeq[q];
        Some(Pick(records, ids))
    }
  }

  function Pick(records: seq<ActionRecord>, ids: seq<nat>): (r: seq<ActionRecord>)
    requires AllBelow(ids, |records|)
    ensures |r| == |ids| && forall k :: 0 <= k < |ids| ==> r[k] == records[ids[k]]
  {
    if ids == [] then [] else [records[ids[0]]] + Pick(records, ids[1..])
  }

  const NEW_CARRY := Carry([], [], [], [], Reasoning.EMPTY, None, None, None, None, None, map[], [], map[], map[])
}
