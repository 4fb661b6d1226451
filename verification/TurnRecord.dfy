/**
 * What a viewer was shown is what the turn records (app/agent/talk.server.ts): the steps, questions, text,
 * model, reasoning and tool calls yielded along the way are those of the final result, across every reattach.
 */
module TurnRecord {
  import opened Prelude
  import opened Text
  import opened TurnEvents
  import opened TurnDrain
  import opened TurnFollow

  // ----- A viewer -----

  /** What a viewer has after some events; `inOrder` while the steps came as number 0, 1, 2, ... */
  datatype Shown = Shown(steps: nat, inOrder: bool, asks: seq<InputRequest>, text: Option<string>,
    model: Option<string>, reasoning: Option<string>, tools: seq<string>)

  const BLANK := Shown(0, true, [], None, None, None, [])

  function See(v: Shown, e: TalkEvent): Shown {
    match e
    case Model(modelId) => v.(model := Some(modelId))
    case Action(toolName, _) => v.(tools := v.tools + [toolName])
    case Text(text) => v.(text := Some(text))
    case ReasoningText(text) => v.(reasoning := Some(text))
    case StepDone(step) => v.(steps := v.steps + 1, inOrder := v.inOrder && step == v.steps)
    case Input(asks) => v.(asks := v.asks + asks)
    case Progress(_, _) => v
    case Turn(_) => v
    case Thinking => v
  }

  function SeeAll(v: Shown, events: seq<TalkEvent>): Shown
    decreases |events|
  {
    if events == [] then v else SeeAll(See(v, events[0]), events[1..])
  }

  lemma {:induction false} SeeAppend(v: Shown, a: seq<TalkEvent>, b: seq<TalkEvent>)
    ensures SeeAll(v, a + b) == SeeAll(SeeAll(v, a), b)
    decreases |a|
  {
    if a == [] {
      assert a + b == b;
    } else {
      assert (a + b)[1..] == a[1..] + b;
      SeeAppend(See(v, a[0]), a[1..], b);
    }
  }

  lemma SeeOne(v: Shown, e: TalkEvent)
    ensures SeeAll(v, [e]) == See(v, e)
  {
    assert [e][1..] == [];
  }

  // ----- What the turn records -----

  function ToolNames(records: seq<ActionRecord>): (r: seq<string>)
    ensures |r| == |records| && forall i :: 0 <= i < |records| ==> r[i] == records[i].toolName
  {
    if records == [] then [] else ToolNames(records[..|records| - 1]) + [records[|records| - 1].toolName]
  }

  /** The viewer has what the carry holds. */
  predicate Matches(v: Shown, c: Carry) {
    v.inOrder && v.steps == |c.steps| && v.asks == c.inputRequests && v.text == c.lastTextSent &&
    v.model == c.modelId && v.tools == ToolNames(c.records) &&
    (Reasoning.VisibleText(c.reasoning).Some? ==> v.reasoning == Reasoning.VisibleText(c.reasoning))
  }

  /** The reply is the completed messages, each placed after the steps done by then. */
  predicate Kept(c: Carry) {
    c.reply == (if c.completedMessages == [] then None else Some(Join(c.completedMessages, "\n\n"))) &&
    |c.messages| == |c.completedMessages| &&
    (forall i ::
        0 <= i < |c.messages| ==>
        c.messages[i].text == c.completedMessages[i] && c.messages[i].afterStepIndex <= |c.steps|) &&
    (forall i, j :: 0 <= i < j < |c.messages| ==> c.messages[i].afterStepIndex <= c.messages[j].afterStepIndex)
  }

  predicate Recorded(v: Shown, c: Carry) { Matches(v, c) && Kept(c) }

  // ----- One event of the turn -----

  lemma RequestRecorded(v: Shown, c: Carry, sequence: int, a: ActionRequest)
    requires Recorded(v, c)
    ensures var f := RequestAction(c, sequence, a); Recorded(SeeAll(v, f.out), f.carry)
  {
    SeeOne(v, Action(a.toolName, a.summary));
    var f := RequestAction(c, sequence, a);
    assert f.carry.records[..|c.records|] == c.records;
  }

  lemma {:induction false} RequestsRecorded(v: Shown, c: Carry, sequence: int, requests: seq<ActionRequest>)
    requires Recorded(v, c)
    ensures var f := RequestActions(c, sequence, requests); Recorded(SeeAll(v, f.out), f.carry)
    decreases |requests|
  {
    if requests != [] {
      var first := RequestAction(c, sequence, requests[0]);
      RequestRecorded(v, c, sequence, requests[0]);
      RequestsRecorded(SeeAll(v, first.out), first.carry, sequence, requests[1..]);
      SeeAppend(v, first.out, RequestActions(first.carry, sequence, requests[1..]).out);
    }
  }

  lemma ResultRecorded(v: Shown, c: Carry, callId: Option<string>, output: Option<Output>, failed: bool)
    requires Recorded(v, c)
    ensures var f := CompleteAction(c, callId, output, failed); f.out == [] && Recorded(v, f.carry)
  {
    var f := CompleteAction(c, callId, output, failed);
    assert ToolNames(f.carry.records) == ToolNames(c.records);
  }

  lemma StepRecorded(v: Shown, c: Carry, e: Event, usage: StepUsage, failure: Option<Failure>)
    requires Recorded(v, c)
    ensures var f := FinishStep(c, e, usage, failure); Recorded(SeeAll(v, f.out), f.carry)
  {
    SeeOne(v, StepDone(|c.steps|));
  }

  lemma LiveRecorded(v: Shown, c: Carry, text: string)
    requires Recorded(v, c)
    ensures var f := Live(c, text); Recorded(SeeAll(v, f.out), f.carry)
  {
    SeeOne(v, Text(text));
  }

  lemma MessageRecorded(v: Shown, c: Carry, text: Option<string>)
    requires Recorded(v, c)
    ensures var f := CompleteMessage(c, text); Recorded(SeeAll(v, f.out), f.carry)
  {
    if text.Some? && text.value != "" {
      var all := c.completedMessages + [text.value];
      LiveRecorded(v, c.(completedMessages := all, messages := c.messages + [Message(|c.steps|, text.value)],
                         reply := Some(Join(all, "\n\n"))), Join(all, "\n\n"));
    }
  }

  lemma AskRecorded(v: Shown, c: Carry, asks: seq<InputRequest>)
    requires Recorded(v, c)
    ensures var f := Ask(c, asks); Recorded(SeeAll(v, f.out), f.carry)
  {
    SeeOne(v, Input(asks));
  }

  lemma ReasonRecorded(v: Shown, c: Carry, r: Reasoning.ReasoningEvent)
    requires Recorded(v, c)
    ensures var f := TurnDrain.Reason(c, r); Recorded(SeeAll(v, f.out), f.carry)
  {
    var after := Reasoning.VisibleText(Reasoning.Step(c.reasoning, r));
    if after.Some? { SeeOne(v, ReasoningText(after.value)); }
  }

  lemma WorkRecorded(v: Shown, c: Carry, e: Event)
    requires Recorded(v, c) && IsWork(e.payload)
    ensures var f := Fold(c, e); Recorded(SeeAll(v, f.out), f.carry)
  {
    match e.payload {
      case StepStarted => SeeOne(v, Thinking);
      case ActionsRequested(requests) => RequestsRecorded(v, c, e.sequence, requests);
      case ActionResult(callId, output, failed) => ResultRecorded(v, c, callId, output, failed);
      case StepCompleted(usage) => StepRecorded(v, c, e, usage, None);
      case StepFailed(usage, failure, modelRef) =>
        StepRecorded(v, c.(lastStepFailure := Some(failure.Text()), errorModelId := modelRef), e, usage, Some(failure));
    }
  }

  lemma WordsRecorded(v: Shown, c: Carry, e: Event)
    requires Recorded(v, c) && !IsWork(e.payload)
    ensures var f := Fold(c, e); Recorded(SeeAll(v, f.out), f.carry)
  {
    if e.payload.ReasoningSaid? {
      ReasonRecorded(v, c, e.payload.reasoning);
    } else if e.payload.MessageAppended? && e.payload.soFar.Some? {
      LiveRecorded(v, c, Join(c.completedMessages + [e.payload.soFar.value], "\n\n"));
    } else if e.payload.MessageCompleted? {
      MessageRecorded(v, c, e.payload.text);
    } else if e.payload.InputRequested? {
      AskRecorded(v, c, e.payload.asks);
    }
  }

  lemma FoldRecorded(v: Shown, c: Carry, e: Event)
    requires Recorded(v, c)
    ensures var f := Fold(c, e); Recorded(SeeAll(v, f.out), f.carry)
  {
    if IsWork(e.payload) { WorkRecorded(v, c, e); } else { WordsRecorded(v, c, e); }
  }

  // ----- One event of the stream -----

  /** After what was shown before this slice, the slice's own events leave the viewer with its carry. */
  predicate ShownSo(v: Shown, s: DrainState) { Recorded(SeeAll(v, s.yielded), s.carry) }

  lemma QuietShown(v: Shown, s: DrainState, e: TalkEvent, s': DrainState)
    requires ShownSo(v, s) && (e.Progress? || e.Turn?) && s'.carry == s.carry && s'.yielded == s.yielded + [e]
    ensures ShownSo(v, s')
  {
    SeeAppend(v, s.yielded, [e]);
    SeeOne(SeeAll(v, s.yielded), e);
  }

  lemma CountedShown(v: Shown, input: DrainInput, s: DrainState, e: Event)
    requires ShownSo(v, s)
    ensures ShownSo(v, Adopt(input, Counted(s, e), e))
  {
    var u := Counted(s, e);
    QuietShown(v, s, Progress(s.streamIndex + 1, e), u);
    if Adopt(input, u, e) != u { QuietShown(v, u, Turn(e.turnId.value), Adopt(input, u, e)); }
  }

  lemma ModelShown(v: Shown, input: DrainInput, s: DrainState, runtime: Option<RuntimeModel>)
    requires ShownSo(v, s)
    ensures ShownSo(v, ReportModel(input, s, runtime))
  {
    var s' := ReportModel(input, s, runtime);
    if s' != s {
      SeeAppend(v, s.yielded, [Model(s'.carry.modelId.value)]);
      SeeOne(SeeAll(v, s.yielded), Model(s'.carry.modelId.value));
    }
  }

  lemma EchoShown(v: Shown, input: DrainInput, s: DrainState, e: Event)
    requires ShownSo(v, s)
    ensures ShownSo(v, Recognise(input, s, e))
  {
    var s' := Recognise(input, s, e);
    if s'.yielded != s.yielded { QuietShown(v, s, Turn(e.turnId.value), s'); }
  }

  /** Past its identification, an event folds into our turn or only ends it. */
  lemma ProceedFoldsOrEnds(s: DrainState, e: Event)
    ensures var s' := Proceed(s, e);
            s' == After(s, Fold(s.carry, e)) ||
            (s'.yielded == s.yielded && s'.carry == s.carry.(errorModelId := s'.carry.errorModelId))
  {
  }

  lemma FoldShown(v: Shown, s: DrainState, e: Event)
    requires ShownSo(v, s)
    ensures ShownSo(v, After(s, Fold(s.carry, e)))
  {
    FoldRecorded(SeeAll(v, s.yielded), s.carry, e);
    SeeAppend(v, s.yielded, Fold(s.carry, e).out);
  }

  lemma EndShown(v: Shown, s: DrainState, s': DrainState)
    requires ShownSo(v, s) && s'.yielded == s.yielded && s'.carry == s.carry.(errorModelId := s'.carry.errorModelId)
    ensures ShownSo(v, s')
  {
  }

  lemma ProceedShown(v: Shown, s: DrainState, e: Event)
    requires ShownSo(v, s)
    ensures ShownSo(v, Proceed(s, e))
  {
    ProceedFoldsOrEnds(s, e);
    FoldShown(v, s, e);
    if Proceed(s, e) != After(s, Fold(s.carry, e)) { EndShown(v, s, Proceed(s, e)); }
  }

  lemma StepShown(v: Shown, input: DrainInput, s: DrainState, e: Event)
    requires ShownSo(v, s)
    ensures ShownSo(v, Step(input, s, e))
  {
    CountedShown(v, input, s, e);
    var u := Adopt(input, Counted(s, e), e);
    if e.payload.SessionStarted? {
      ModelShown(v, input, u, e.payload.runtime);
    } else if e.payload.MessageReceived? {
      EchoShown(v, input, u, e);
    } else {
      ProceedShown(v, u, e);
    }
  }

  lemma {:induction false} ConsumeShown(v: Shown, input: DrainInput, s: DrainState, events: seq<Event>)
    requires ShownSo(v, s)
    ensures ShownSo(v, Consume(input, s, events))
    decreases |events|
  {
    if events != [] {
      StepShown(v, input, s, events[0]);
      ConsumeShown(v, input, Step(input, s, events[0]), events[1..]);
    }
  }

  lemma {:induction false} ReadShown(v: Shown, input: DrainInput, s: DrainState, chunks: seq<seq<Event>>)
    requires ShownSo(v, s)
    ensures ShownSo(v, ReadChunks(input, s, chunks))
    decreases |chunks|
  {
    if !s.settled && chunks != [] {
      ConsumeShown(v, input, s, chunks[0]);
      ReadShown(v, input, Consume(input, s, chunks[0]), chunks[1..]);
    }
  }

  lemma DrainShown(v: Shown, input: DrainInput, carry: Carry, connection: Connection)
    requires Recorded(v, carry)
    ensures var d := Drain(input, carry, connection); Recorded(SeeAll(v, d.yielded), d.result.carry)
  {
    ReadShown(v, input, Opened(input, carry), connection.Chunks());
  }

  // ----- A whole followed turn -----

  lemma SliceShown(first: DrainInput, policy: Option<Policy>, f: FollowState, a: Attempt)
    requires Recorded(SeeAll(BLANK, f.yielded), f.carry)
    ensures var verdict := FollowStep(first, policy, f, a);
            if verdict.Done? then Recorded(SeeAll(BLANK, verdict.yielded), verdict.result.carry)
            else Recorded(SeeAll(BLANK, verdict.next.yielded), verdict.next.carry)
  {
    DrainShown(SeeAll(BLANK, f.yielded), f.slice, f.carry, a.connection);
    SeeAppend(BLANK, f.yielded, Drain(f.slice, f.carry, a.connection).yielded);
  }

  lemma {:induction false} FollowShown(first: DrainInput, policy: Option<Policy>, f: FollowState,
      attempts: seq<Attempt>)
    requires Recorded(SeeAll(BLANK, f.yielded), f.carry)
    ensures var run := FollowRun(first, policy, f, attempts);
            if run.Done? then Recorded(SeeAll(BLANK, run.yielded), run.result.carry)
            else Recorded(SeeAll(BLANK, run.next.yielded), run.next.carry)
    decreases |attempts|
  {
    if attempts != [] {
      SliceShown(first, policy, f, attempts[0]);
      var verdict := FollowStep(first, policy, f, attempts[0]);
      if verdict.Following? { FollowShown(first, policy, verdict.next, attempts[1..]); }
    }
  }

  /**
   * Whatever is lost and reattached on the way, a watcher of the whole turn has seen each of its steps once and
   * in order, its questions, its tool calls, its last text, model and reasoning, exactly as the result records
   * them; and the reply is the turn's messages, each placed after the steps that came before it.
   */
  lemma ShownIsRecorded(first: DrainInput, policy: Option<Policy>, now: int, attempts: seq<Attempt>)
    requires FollowRun(first, policy, Begin(first, NEW_CARRY, now), attempts).Done?
    ensures var run := FollowRun(first, policy, Begin(first, NEW_CARRY, now), attempts);
            Recorded(SeeAll(BLANK, run.yielded), run.result.carry)
  {
    FollowShown(first, policy, Begin(first, NEW_CARRY, now), attempts);
  }
}
