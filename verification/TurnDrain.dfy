/**
 * Consuming one turn's event stream (app/agent/talk.server.ts, `drainTurnStream`): first the fold
 * the stream means, as functions, then the drain itself, which updates its carry object and its
 * locals in place and is proved to compute that fold.
 */
module TurnDrain {
  import opened Prelude
  import opened Text
  import opened TurnEvents

  /** Where a drain opens the stream and how it tells its own turn apart. */
  datatype DrainInput = DrainInput(
    startIndex: nat,
    /** Live path: the sent message whose echo marks our turn; `None` adopts or follows a turn. */
    matchMessage: Option<Sent>,
    postedAt: int,
    initialTurnId: Option<string>,
    modelText: Option<Sent>)

  datatype DrainState = DrainState(
    carry: Carry,
    streamIndex: nat,
    ourTurnId: Option<string>,
    turnAnnounced: bool,
    error: Option<string>,
    settled: bool,
    yielded: seq<TalkEvent>)

  function Opened(input: DrainInput, carry: Carry): DrainState {
    DrainState(carry, input.startIndex, input.initialTurnId, false, None, false, [])
  }

  // ----- The events of our own turn -----

  /** What an event of our turn does to the carry, and what it makes the drain yield. */
  datatype Folded = Folded(carry: Carry, out: seq<TalkEvent>)

  function Live(c: Carry, text: string): Folded {
    if c.lastTextSent == Some(text) then Folded(c, [])
    else Folded(c.(lastTextSent := Some(text)), [Text(text)])
  }

  function NewRecord(a: ActionRequest): ActionRecord {
    ActionRecord(a.toolName, a.summary, a.input, None, None, None)
  }

  /** A requested call goes to the end of the sequence's array, which is created on first use. */
  function RequestAction(c: Carry, sequence: int, a: ActionRequest): Folded {
    var list := if sequence in c.actionsBySeq then c.actionsBySeq[sequence] else [];
    Folded(c.(records := c.records + [NewRecord(a)],
              actionsBySeq := c.actionsBySeq[sequence := list + [|c.records|]],
              actionByCallId := if a.callId.None? then c.actionByCallId
                                else c.actionByCallId[a.callId.value := |c.records|]),
           [Action(a.toolName, a.summary)])
  }

  function RequestActions(c: Carry, sequence: int, requests: seq<ActionRequest>): Folded
    decreases |requests|
  {
    if requests == [] then
      var list := if sequence in c.actionsBySeq then c.actionsBySeq[sequence] else [];
      Folded(c.(actionsBySeq := c.actionsBySeq[sequence := list]), [])
    else
      var first := RequestAction(c, sequence, requests[0]);
      var rest := RequestActions(first.carry, sequence, requests[1..]);
      Folded(rest.carry, first.out + rest.out)
  }

  lemma RequestFirst(s: DrainState, sequence: int, requests: seq<ActionRequest>)
    requires requests != []
    ensures After(s, RequestActions(s.carry, sequence, requests))
         == (var s' := After(s, RequestAction(s.carry, sequence, requests[0]));
             After(s', RequestActions(s'.carry, sequence, requests[1..])))
  {
    var first := RequestAction(s.carry, sequence, requests[0]);
    var rest := RequestActions(first.carry, sequence, requests[1..]);
    assert s.yielded + (first.out + rest.out) == s.yielded + first.out + rest.out;
  }

  function WithResult(r: ActionRecord, output: Option<Output>, failed: bool): ActionRecord {
    var r1 := if output.None? then r
              else r.(output := Some(output.value.json), exitCode := output.value.exitCode.Or(r.exitCode));
    r1.(isError := Some(failed || (r1.exitCode.Some? && r1.exitCode.value != 0)))
  }

  function FinishStep(c: Carry, e: Event, usage: StepUsage, failure: Option<Failure>): Folded {
    var ids := if e.sequence in c.actionsBySeq then c.actionsBySeq[e.sequence] else [];
    var step := TurnStep(
      usage,
      if e.sequence in c.stepStarts then Some(Max(0, e.at - c.stepStarts[e.sequence])) else None,
      failure,
      if ids == [] || ids[0] >= |c.records| then None else Some(c.records[ids[0]].toolName),
      if ids == [] || ids[0] >= |c.records| then None else c.records[ids[0]].summary,
      if ids == [] then None else Some(e.sequence));
    Folded(c.(steps := c.steps + [step]), [StepDone(|c.steps|)])
  }

  function FailStep(c: Carry, e: Event, usage: StepUsage, failure: Failure, modelRef: Option<string>): Folded {
    FinishStep(c.(lastStepFailure := Some(failure.Text()), errorModelId := modelRef), e, usage, Some(failure))
  }

  function Ask(c: Carry, asks: seq<InputRequest>): Folded {
    if asks == [] then Folded(c, [])
    else Folded(c.(inputRequests := c.inputRequests + asks), [Input(asks)])
  }

  function CompleteAction(c: Carry, callId: Option<string>, output: Option<Output>, failed: bool): Folded {
    if callId.None? || callId.value !in c.actionByCallId then Folded(c, [])
    else
      var id := c.actionByCallId[callId.value];
      if id >= |c.records| then Folded(c, [])
      else Folded(c.(records := c.records[id := WithResult(c.records[id], output, failed)]), [])
  }

  function Reason(c: Carry, r: Reasoning.ReasoningEvent): Folded {
    var before := Reasoning.VisibleText(c.reasoning);
    var next := Reasoning.Step(c.reasoning, r);
    var after := Reasoning.VisibleText(next);
    Folded(c.(reasoning := next), if after != before && after.Some? then [ReasoningText(after.value)] else [])
  }

  function CompleteMessage(c: Carry, text: Option<string>): Folded {
    if text.None? || text.value == "" then Folded(c, [])
    else
      var all := c.completedMessages + [text.value];
      Live(c.(completedMessages := all,
              messages := c.messages + [Message(|c.steps|, text.value)],
              reply := Some(Join(all, "\n\n"))),
           Join(all, "\n\n"))
  }

  function Fold(c: Carry, e: Event): Folded {
    match e.payload
    case StepStarted =>
      Folded(c.(stepStarts := c.stepStarts[e.sequence := e.at]), [Thinking])
    case ActionsRequested(requests) =>
      RequestActions(c, e.sequence, requests)
    case ActionResult(callId, output, failed) =>
      CompleteAction(c, callId, output, failed)
    case ReasoningSaid(r) =>
      Reason(c, r)
    case MessageAppended(soFar) =>
      if soFar.None? then Folded(c, []) else Live(c, Join(c.completedMessages + [soFar.value], "\n\n"))
    case StepCompleted(usage) =>
      FinishStep(c, e, usage, None)
    case StepFailed(usage, failure, modelRef) =>
      FailStep(c, e, usage, failure, modelRef)
    case MessageCompleted(text) =>
      CompleteMessage(c, text)
    case InputRequested(asks) =>
      Ask(c, asks)
    case _ => Folded(c, [])
  }

  predicate IsWork(p: Payload) {
    p.StepStarted? || p.ActionsRequested? || p.ActionResult? || p.StepCompleted? || p.StepFailed?
  }

  function After(s: DrainState, f: Folded): DrainState {
    s.(carry := f.carry, yielded := s.yielded + f.out)
  }

  // ----- One event -----

  predicate Echoes(input: DrainInput, e: Event) {
    e.payload.MessageReceived? && input.matchMessage.Some? &&
    e.payload.echo == Some(input.matchMessage.value.text) && e.at >= input.postedAt
  }

  function EffectiveModel(runtime: RuntimeModel, sent: Option<Sent>): string {
    if runtime.dynamic && sent.Some? && sent.value.directive.Some? then sent.value.directive.value
    else runtime.id
  }

  function FailureReport(c: Carry, f: Failure): string {
    if f.code.Some? || f.details.Some? || c.lastStepFailure.None? then f.Text()
    else if Includes(c.lastStepFailure.value, f.message) then c.lastStepFailure.value
    else f.Text() + "\nStep: " + c.lastStepFailure.value
  }

  function Announce(s: DrainState, turnId: string): DrainState {
    s.(turnAnnounced := true, yielded := s.yielded + [Turn(turnId)])
  }

  /** With nothing to match, the first turn past the cursor is the one being followed. */
  function Adopt(input: DrainInput, s: DrainState, e: Event): DrainState {
    if input.matchMessage.None? && s.ourTurnId.None? && e.turnId.Some?
    then Announce(s.(ourTurnId := e.turnId), e.turnId.value)
    else s
  }

  predicate Ours(s: DrainState, e: Event) {
    s.ourTurnId.Some? && e.turnId == s.ourTurnId
  }

  function Fail(s: DrainState, f: Failure, modelRef: Option<string>): DrainState {
    s.(carry := s.carry.(errorModelId := modelRef.Or(s.carry.errorModelId)),
       error := Some(FailureReport(s.carry, f)), settled := true)
  }

  /** A follow slice keeps the model an earlier slice of the turn resolved. */
  function ReportModel(input: DrainInput, s: DrainState, runtime: Option<RuntimeModel>): DrainState {
    if (input.matchMessage.None? && s.carry.modelId.Some?) || runtime.None? then s
    else
      var model := EffectiveModel(runtime.value, input.matchMessage.Or(input.modelText));
      s.(carry := s.carry.(modelId := Some(model)), yielded := s.yielded + [Model(model)])
  }

  function Recognise(input: DrainInput, s: DrainState, e: Event): DrainState {
    if !Echoes(input, e) then s
    else if e.turnId.Some? && !s.turnAnnounced then Announce(s.(ourTurnId := e.turnId), e.turnId.value)
    else s.(ourTurnId := e.turnId)
  }

  /** A waiting marker counts only once our turn has replied, asked or failed a step. */
  function Wait(s: DrainState): DrainState {
    if s.ourTurnId.None? then s
    else if s.carry.reply.None? && s.carry.inputRequests == [] && s.carry.lastStepFailure.Some? then
      s.(error := s.carry.lastStepFailure, settled := true)
    else if s.carry.reply.Some? || s.error.Some? || s.carry.inputRequests != [] then s.(settled := true)
    else s
  }

  /** The events whose reading does not depend on how the drain was opened. */
  function Proceed(s: DrainState, e: Event): DrainState {
    match e.payload
    case TurnFailed(f, modelRef) => if Ours(s, e) then Fail(s, f, modelRef) else s
    case SessionFailed(f, modelRef) => Fail(s, f, modelRef)
    case TurnCompleted => if Ours(s, e) then s.(settled := true) else s
    case SessionWaiting => Wait(s)
    case _ => if Ours(s, e) then After(s, Fold(s.carry, e)) else s
  }

  function Dispatch(input: DrainInput, s: DrainState, e: Event): DrainState {
    match e.payload
    case SessionStarted(runtime) => ReportModel(input, s, runtime)
    case MessageReceived(_) => Recognise(input, s, e)
    case _ => Proceed(s, e)
  }

  function Step(input: DrainInput, s: DrainState, e: Event): DrainState {
    Dispatch(input, Adopt(input, Counted(s, e), e), e)
  }

  function Counted(s: DrainState, e: Event): DrainState {
    s.(streamIndex := s.streamIndex + 1, yielded := s.yielded + [Progress(s.streamIndex + 1, e)])
  }

  // ----- A stream -----

  /** Every event of a chunk is handled, also those after the one that settled the turn. */
  function Consume(input: DrainInput, s: DrainState, events: seq<Event>): DrainState
    decreases |events|
  {
    if events == [] then s else Consume(input, Step(input, s, events[0]), events[1..])
  }

  /** Chunks are read until the turn settles. */
  function ReadChunks(input: DrainInput, s: DrainState, chunks: seq<seq<Event>>): DrainState
    decreases |chunks|
  {
    if s.settled || chunks == [] then s
    else ReadChunks(input, Consume(input, s, chunks[0]), chunks[1..])
  }

  /** How the reads stop when nothing settles the turn first. */
  datatype Ending =
    | EndOfStream
    /** A read threw or went idle; `stopped` when the caller's signal was aborted. */
    | ReadFailed(message: string, stopped: bool)

  /** One stream request: no answer, a refusal, or chunks of events and then an ending. */
  datatype Connection =
    | NoResponse(message: string, stopped: bool)
    | Refused(refusal: int, stopped: bool)
    | Streaming(status: int, chunks: seq<seq<Event>>, ending: Ending)
  {
    function StreamStatus(): Option<int> {
      match this
      case NoResponse(_, _) => None
      case Refused(refusal, _) => Some(refusal)
      case Streaming(status, _, _) => Some(status)
    }

    function Chunks(): seq<seq<Event>> {
      if Streaming? then chunks else []
    }

    /** How the read phase fails or ends. */
    function Outcome(): Ending {
      match this
      case NoResponse(message, stopped) => ReadFailed(message, stopped)
      case Refused(_, stopped) => ReadFailed("stream refused", stopped)
      case Streaming(_, _, ending) => ending
    }
  }

  /** The `done` a drain ends with; `ok` is the absence of an error. */
  datatype TurnResult = TurnResult(carry: Carry, streamIndex: nat, turnId: Option<string>,
    error: Option<string>, streamLost: bool)

  function Conclude(s: DrainState, ending: Ending): TurnResult {
    var result := TurnResult(s.carry, s.streamIndex, s.ourTurnId, s.error, false);
    var asked := s.carry.inputRequests != [];
    if s.settled || ending.EndOfStream? then
      if s.carry.reply.None? && !asked && s.error.None? && s.carry.lastStepFailure.Some? then
        result.(error := s.carry.lastStepFailure)
      else if !s.settled && !asked && s.error.None? then
        result.(error := Some(if s.carry.reply.None? then "The Eve stream ended before the turn completed."
                              else "The Eve stream ended before the turn completed (the reply so far may be partial)."),
                streamLost := true)
      else result
    else if asked && !ending.stopped then result
    else result.(error := Some("Couldn't read the reply stream: " + ending.message), streamLost := !ending.stopped)
  }

  datatype Drained = Drained(yielded: seq<TalkEvent>, result: TurnResult)

  function Drain(input: DrainInput, carry: Carry, connection: Connection): Drained {
    var s := ReadChunks(input, Opened(input, carry), connection.Chunks());
    Drained(s.yielded, Conclude(s, connection.Outcome()))
  }

  // ----- The drain as it runs -----

  /**
   * What survives a slice. The source copies five of the scalars into locals and writes them back on
   * every way out; here they are updated where they live.
   */
  class DrainCarry {
    var steps: seq<TurnStep>
    var messages: seq<Message>
    var completedMessages: seq<string>
    var inputRequests: seq<InputRequest>
    const reasoning: Reasoning.ReasoningAccumulator
    var lastTextSent: Option<string>
    var reply: Option<string>
    var lastStepFailure: Option<string>
    var errorModelId: Option<string>
    var modelId: Option<string>
    var stepStarts: map<int, int>
    var records: seq<ActionRecord>
    var actionsBySeq: map<int, seq<nat>>
    var actionByCallId: map<string, nat>
    var streamStatus: Option<int>

    ghost predicate Valid() reads reasoning {
      reasoning.Valid()
    }

    function Value(): Carry
      reads this, reasoning
      requires reasoning.Valid()
    {
      Carry(steps, messages, completedMessages, inputRequests, reasoning.Value(), lastTextSent, reply,
            lastStepFailure, errorModelId, modelId, stepStarts, records, actionsBySeq, actionByCallId)
    }

    constructor ()
      ensures Valid() && Value() == NEW_CARRY && fresh(reasoning)
    {
      steps, messages, completedMessages, inputRequests := [], [], [], [];
      reasoning := new Reasoning.ReasoningAccumulator();
      lastTextSent, reply, lastStepFailure, errorModelId, modelId := None, None, None, None, None;
      stepStarts, records, actionsBySeq, actionByCallId := map[], [], map[], map[];
      streamStatus := None;
    }
  }

  /** One `drainTurnStream` call: its input, the carry it continues from, and its locals. */
  class TurnReader {
    const input: DrainInput
    const carry: DrainCarry
    var streamIndex: nat
    var ourTurnId: Option<string>
    var turnAnnounced: bool
    var error: Option<string>
    var settled: bool
    var yielded: seq<TalkEvent>

    ghost predicate Valid() reads carry.reasoning {
      carry.reasoning.Valid()
    }

    function State(): DrainState
      reads this, carry, carry.reasoning
      requires carry.reasoning.Valid()
    {
      DrainState(carry.Value(), streamIndex, ourTurnId, turnAnnounced, error, settled, yielded)
    }

    constructor (input: DrainInput, carry: DrainCarry)
      requires carry.Valid()
      ensures this.input == input && this.carry == carry
      ensures Valid() && State() == Opened(input, carry.Value())
    {
      this.input, this.carry := input, carry;
      streamIndex := input.startIndex;
      ourTurnId, turnAnnounced := input.initialTurnId, false;
      error, settled, yielded := None, false, [];
    }

    method SendText(text: string)
      requires Valid()
      modifies carry`lastTextSent, this`yielded
      ensures Valid()
      ensures State() == After(old(State()), Live(old(State().carry), text))
    {
      assert old(yielded) + [] == old(yielded);
      if carry.lastTextSent != Some(text) {
        carry.lastTextSent := Some(text);
        yielded := yielded + [Text(text)];
      }
    }

    method OnActionsRequested(sequence: int, requests: seq<ActionRequest>)
      requires Valid()
      modifies this`yielded, carry`records, carry`actionsBySeq, carry`actionByCallId
      ensures Valid()
      ensures State() == After(old(State()), RequestActions(old(State().carry), sequence, requests))
    {
      ghost var start := State();
      for i := 0 to |requests|
        invariant After(start, RequestActions(start.carry, sequence, requests))
               == After(State(), RequestActions(State().carry, sequence, requests[i..]))
      {
        RequestFirst(State(), sequence, requests[i..]);
        assert requests[i..][1..] == requests[i + 1..];
        OnActionRequested(sequence, requests[i]);
      }
      carry.actionsBySeq :=
          carry.actionsBySeq[sequence := if sequence in carry.actionsBySeq then carry.actionsBySeq[sequence] else []];
      assert yielded + [] == yielded;
    }

    method OnActionRequested(sequence: int, a: ActionRequest)
      requires Valid()
      modifies this`yielded, carry`records, carry`actionsBySeq, carry`actionByCallId
      ensures Valid() && State() == After(old(State()), RequestAction(old(State().carry), sequence, a))
    {
      var list := if sequence in carry.actionsBySeq then carry.actionsBySeq[sequence] else [];
      carry.actionsBySeq := carry.actionsBySeq[sequence := list + [|carry.records|]];
      if a.callId.Some? {
        carry.actionByCallId := carry.actionByCallId[a.callId.value := |carry.records|];
      }
      carry.records := carry.records + [NewRecord(a)];
      yielded := yielded + [Action(a.toolName, a.summary)];
    }

    method OnActionResult(callId: Option<string>, output: Option<Output>, failed: bool)
      requires Valid()
      modifies carry`records
      ensures Valid()
      ensures State() == After(old(State()), CompleteAction(old(State().carry), callId, output, failed))
    {
      assert old(yielded) + [] == old(yielded);
      if callId.Some? && callId.value in carry.actionByCallId {
        var id := carry.actionByCallId[callId.value];
        if id >= |carry.records| { return; }
        var record := carry.records[id];
        if output.Some? {
          record := record.(output := Some(output.value.json));
          if output.value.exitCode.Some? { record := record.(exitCode := output.value.exitCode); }
        }
        record := record.(isError := Some(failed || (record.exitCode.Some? && record.exitCode.value != 0)));
        carry.records := carry.records[id := record];
      }
    }

    method OnStepDone(e: Event, usage: StepUsage, failure: Option<Failure>)
      requires Valid()
      modifies this`yielded, carry`steps
      ensures Valid()
      ensures State() == After(old(State()), FinishStep(old(State().carry), e, usage, failure))
    {
      var ids: seq<nat> := if e.sequence in carry.actionsBySeq then carry.actionsBySeq[e.sequence] else [];
      var duration: Option<int> := None;
      if e.sequence in carry.stepStarts { duration := Some(Max(0, e.at - carry.stepStarts[e.sequence])); }
      var toolName: Option<string>, summary: Option<string>, actions: Option<int> := None, None, None;
      if |ids| > 0 && ids[0] < |carry.records| {
        toolName := Some(carry.records[ids[0]].toolName);
        summary := carry.records[ids[0]].summary;
      }
      if |ids| > 0 { actions := Some(e.sequence); }
      yielded := yielded + [StepDone(|carry.steps|)];
      carry.steps := carry.steps + [TurnStep(usage, duration, failure, toolName, summary, actions)];
    }

    method OnStepFailed(e: Event, usage: StepUsage, failure: Failure, modelRef: Option<string>)
      requires Valid()
      modifies this`yielded, carry`steps, carry`lastStepFailure, carry`errorModelId
      ensures Valid()
      ensures State() == After(old(State()), FailStep(old(State().carry), e, usage, failure, modelRef))
    {
      carry.lastStepFailure := Some(failure.Text());
      carry.errorModelId := modelRef;
      OnStepDone(e, usage, Some(failure));
    }

    method OnInputRequested(asks: seq<InputRequest>)
      requires Valid()
      modifies this`yielded, carry`inputRequests
      ensures Valid() && State() == After(old(State()), Ask(old(State().carry), asks))
    {
      assert old(yielded) + [] == old(yielded);
      if asks != [] {
        carry.inputRequests := carry.inputRequests + asks;
        yielded := yielded + [Input(asks)];
      }
    }

    method OnReasoning(r: Reasoning.ReasoningEvent)
      requires Valid()
      modifies this`yielded, carry.reasoning
      ensures Valid()
      ensures State() == After(old(State()), Reason(old(State().carry), r))
    {
      var changed := carry.reasoning.Apply(r);
      if changed {
        var text := carry.reasoning.Visible();
        if text.Some? { yielded := yielded + [ReasoningText(text.value)]; }
      }
      assert old(yielded) + [] == old(yielded);
    }

    method OnMessageCompleted(text: Option<string>)
      requires Valid()
      modifies this`yielded, carry`reply, carry`lastTextSent, carry`completedMessages, carry`messages
      ensures Valid()
      ensures State() == After(old(State()), CompleteMessage(old(State().carry), text))
    {
      if text.Some? && text.value != "" {
        carry.completedMessages := carry.completedMessages + [text.value];
        carry.messages := carry.messages + [Message(|carry.steps|, text.value)];
        carry.reply := Some(Join(carry.completedMessages, "\n\n"));
        SendText(carry.reply.value);
      }
      assert old(yielded) + [] == old(yielded);
    }

    /** The cases that only concern our own turn: the steps and their tool calls. */
    method OnWork(e: Event)
      requires Valid() && IsWork(e.payload)
      modifies this`yielded, carry
      ensures carry.streamStatus == old(carry.streamStatus)
      ensures Valid() && State() == After(old(State()), Fold(old(State().carry), e))
    {
      match e.payload {
        case StepStarted =>
          carry.stepStarts := carry.stepStarts[e.sequence := e.at];
          yielded := yielded + [Thinking];
        case ActionsRequested(requests) => OnActionsRequested(e.sequence, requests);
        case ActionResult(callId, output, failed) => OnActionResult(callId, output, failed);
        case StepCompleted(usage) => OnStepDone(e, usage, None);
        case StepFailed(usage, failure, modelRef) => OnStepFailed(e, usage, failure, modelRef);
      }
    }

    /** The cases that only concern our own turn: what it says and asks. */
    method OnWords(e: Event)
      requires Valid() && !IsWork(e.payload)
      modifies this`yielded, carry, carry.reasoning
      ensures carry.streamStatus == old(carry.streamStatus)
      ensures Valid() && State() == After(old(State()), Fold(old(State().carry), e))
    {
      assert old(yielded) + [] == old(yielded);
      match e.payload {
        case ReasoningSaid(r) => OnReasoning(r);
        case MessageAppended(soFar) =>
          if soFar.Some? { SendText(Join(carry.completedMessages + [soFar.value], "\n\n")); }
        case MessageCompleted(text) => OnMessageCompleted(text);
        case InputRequested(asks) => OnInputRequested(asks);
        case _ =>
      }
    }

    method OnOurs(e: Event)
      requires Valid()
      modifies this`yielded, carry, carry.reasoning
      ensures carry.streamStatus == old(carry.streamStatus)
      ensures Valid() && State() == After(old(State()), Fold(old(State().carry), e))
    {
      if IsWork(e.payload) { OnWork(e); } else { OnWords(e); }
    }

    method AdoptTurn(e: Event)
      requires Valid()
      modifies this`ourTurnId, this`turnAnnounced, this`yielded
      ensures Valid() && State() == Adopt(input, old(State()), e)
    {
      if input.matchMessage.None? && ourTurnId.None? && e.turnId.Some? {
        ourTurnId := e.turnId;
        turnAnnounced := true;
        yielded := yielded + [Turn(e.turnId.value)];
      }
    }

    method OnSessionStarted(runtime: Option<RuntimeModel>)
      requires Valid()
      modifies carry`modelId, this`yielded
      ensures Valid() && State() == ReportModel(input, old(State()), runtime)
    {
      if input.matchMessage.None? && carry.modelId.Some? { return; }
      if runtime.Some? {
        var model := EffectiveModel(runtime.value, input.matchMessage.Or(input.modelText));
        carry.modelId := Some(model);
        yielded := yielded + [Model(model)];
      }
    }

    method OnMessageReceived(e: Event)
      requires Valid() && e.payload.MessageReceived?
      modifies this`ourTurnId, this`turnAnnounced, this`yielded
      ensures Valid() && State() == Recognise(input, old(State()), e)
    {
      if input.matchMessage.Some? && e.payload.echo == Some(input.matchMessage.value.text) && e.at >= input.postedAt {
        ourTurnId := e.turnId;
        if e.turnId.Some? && !turnAnnounced {
          turnAnnounced := true;
          yielded := yielded + [Turn(e.turnId.value)];
        }
      }
    }

    method OnSessionWaiting()
      requires Valid()
      modifies this`error, this`settled
      ensures Valid() && State() == Wait(old(State()))
    {
      if ourTurnId.Some? && (carry.reply.Some? || error.Some? || carry.inputRequests != []) {
        settled := true;
      }
      if ourTurnId.Some? && carry.reply.None? && carry.inputRequests == [] && carry.lastStepFailure.Some? {
        error := carry.lastStepFailure;
        settled := true;
      }
    }

    method OnEvent(e: Event)
      requires Valid()
      modifies this, carry, carry.reasoning
      ensures Valid() && State() == Dispatch(input, old(State()), e)
      ensures carry.streamStatus == old(carry.streamStatus)
    {
      match e.payload {
        case SessionStarted(runtime) => OnSessionStarted(runtime);
        case MessageReceived(_) => OnMessageReceived(e);
        case _ => OnTurnEvent(e);
      }
    }

    method OnTurnEvent(e: Event)
      requires Valid()
      modifies this, carry, carry.reasoning
      ensures Valid() && State() == Proceed(old(State()), e)
      ensures carry.streamStatus == old(carry.streamStatus)
    {
      var ours := ourTurnId.Some? && e.turnId == ourTurnId;
      match e.payload {
        case TurnFailed(f, modelRef) => if ours { OnFailure(f, modelRef); }
        case SessionFailed(f, modelRef) => OnFailure(f, modelRef);
        case TurnCompleted => if ours { settled := true; }
        case SessionWaiting => OnSessionWaiting();
        case _ => if ours { OnOurs(e); }
      }
    }

    /** One line of the stream. */
    method Process(e: Event)
      requires Valid()
      modifies this, carry, carry.reasoning
      ensures Valid() && State() == Step(input, old(State()), e)
      ensures carry.streamStatus == old(carry.streamStatus)
    {
      Count(e);
      AdoptTurn(e);
      OnEvent(e);
    }

    method Count(e: Event)
      requires Valid()
      modifies this`streamIndex, this`yielded
      ensures Valid() && State() == Counted(old(State()), e)
    {
      streamIndex := streamIndex + 1;
      yielded := yielded + [Progress(streamIndex, e)];
    }

    method OnFailure(f: Failure, modelRef: Option<string>)
      requires Valid()
      modifies carry`errorModelId, this`error, this`settled
      ensures Valid() && State() == Fail(old(State()), f, modelRef)
    {
      carry.errorModelId := modelRef.Or(carry.errorModelId);
      if f.code.Some? || f.details.Some? || carry.lastStepFailure.None? {
        error := Some(f.Text());
      } else if Includes(carry.lastStepFailure.value, f.message) {
        error := carry.lastStepFailure;
      } else {
        error := Some(f.Text() + "\nStep: " + carry.lastStepFailure.value);
      }
      settled := true;
    }

    /** Reads chunks until the turn settles. */
    method ReadAll(chunks: seq<seq<Event>>)
      requires Valid()
      modifies this, carry, carry.reasoning
      ensures Valid() && carry.streamStatus == old(carry.streamStatus)
      ensures State() == ReadChunks(input, old(State()), chunks)
    {
      ghost var start := State();
      var next := 0;
      while !settled && next < |chunks|
        invariant 0 <= next <= |chunks| && Valid()
        invariant carry.streamStatus == old(carry.streamStatus)
        invariant ReadChunks(input, start, chunks) == ReadChunks(input, State(), chunks[next..])
      {
        ReadChunk(chunks[next]);
        assert chunks[next..][1..] == chunks[next + 1..];
        next := next + 1;
      }
    }

    method ReadChunk(chunk: seq<Event>)
      requires Valid()
      modifies this, carry, carry.reasoning
      ensures Valid() && carry.streamStatus == old(carry.streamStatus)
      ensures State() == Consume(input, old(State()), chunk)
    {
      ghost var start := State();
      for i := 0 to |chunk|
        invariant Valid() && carry.streamStatus == old(carry.streamStatus)
        invariant Consume(input, start, chunk) == Consume(input, State(), chunk[i..])
      {
        assert chunk[i..][1..] == chunk[i + 1..];
        Process(chunk[i]);
      }
    }

    /** What the end of the reads makes of the turn. */
    method Close(ending: Ending) returns (result: TurnResult)
      requires Valid()
      modifies this`error
      ensures result == Conclude(old(State()), ending)
    {
      var streamLost := false;
      var asked := carry.inputRequests != [];
      if settled || ending.EndOfStream? {
        if carry.reply.None? && !asked && error.None? && carry.lastStepFailure.Some? { error := carry.lastStepFailure; }
        if !settled && !asked && error.None? {
          error := Some(if carry.reply.None? then "The Eve stream ended before the turn completed."
                        else "The Eve stream ended before the turn completed (the reply so far may be partial).");
          streamLost := true;
        }
      } else if !asked || ending.stopped {
        error := Some("Couldn't read the reply stream: " + ending.message);
        streamLost := !ending.stopped;
      }
      result := TurnResult(carry.Value(), streamIndex, ourTurnId, error, streamLost);
    }
  }

  /** `drainTurnStream`: one stream request, read to its end, continuing the carry it was given. */
  method DrainTurnStream(input: DrainInput, carry: DrainCarry, connection: Connection)
    returns (yielded: seq<TalkEvent>, result: TurnResult)
    requires carry.Valid()
    modifies carry, carry.reasoning
    ensures carry.Valid() && carry.streamStatus == connection.StreamStatus()
    ensures Drained(yielded, result) == Drain(input, old(carry.Value()), connection)
    ensures result.carry == carry.Value()
  {
    carry.streamStatus := connection.StreamStatus();
    var reader := new TurnReader(input, carry);
    reader.ReadAll(connection.Chunks());
    yielded := reader.yielded;
    result := reader.Close(connection.Outcome());
  }
}
