/**
 * Sending one message and streaming its turn (app/agent/talk.server.ts, `streamTurn`): the POST and
 * all the ways it can be refused, then the followed drain.
 */
module TurnSend {
  import opened Prelude
  import opened TurnEvents
  import opened TurnDrain
  import opened TurnChunks
  import opened TurnFollow
  import opened TurnSlicing

  datatype SendInput = SendInput(
    message: Sent,
    hasFiles: bool,
    /** How many answers to pending requests ride along. */
    answers: nat,
    sessionId: Option<string>,
    continuationToken: Option<string>,
    /** A channel-homed session is reached through its own channel route. */
    deliverVia: bool,
    streamIndex: nat,
    postedAt: int)
  {
    predicate FollowUp() { sessionId.Some? && continuationToken.Some? }

    /** A first turn never goes through the channel: there is no session to resume. */
    predicate ViaChannel() { FollowUp() && deliverVia }
  }

  /** What the POST brought back; `refusalCode` is the channel route's failure code. */
  datatype Reply =
    | Unreachable
    | Refusal(status: int, refusalCode: Option<string>)
    | Accepted(headerSession: Option<string>, bodySession: Option<string>, bodyToken: Option<string>)

  datatype SendResult = SendResult(ok: bool, sessionId: Option<string>, continuationToken: Option<string>,
    streamIndex: nat, turnId: Option<string>, asked: bool, notDelivered: bool, resumeExpired: bool)

  datatype StreamEvent =
    | Session(sessionId: string, continuationToken: Option<string>)
    | Moved(sessionId: string, continuationToken: Option<string>, streamIndex: nat)
    | TurnSeen(turnId: string)
    | Shown
    | Finished(result: SendResult)

  function Failed(input: SendInput, sessionId: Option<string>, token: Option<string>, notDelivered: bool,
      resumeExpired: bool): StreamEvent {
    Finished(SendResult(false, sessionId, token, input.streamIndex, None, false, notDelivered, resumeExpired))
  }

  /** The `done` of a POST that did not start a stream, if it did not. */
  function PostFailure(input: SendInput, reply: Reply): Option<StreamEvent> {
    if input.ViaChannel() && input.answers == 0 then
      Some(Failed(input, input.sessionId, input.continuationToken, true, false))
    else match reply
      case Unreachable => Some(Failed(input, input.sessionId, input.continuationToken, input.answers > 0, false))
      case Refusal(status, code) =>
        if input.hasFiles then Some(Failed(input, input.sessionId, input.continuationToken, true, false))
        else if input.ViaChannel() then
          if status == 409 && code != Some("send_failed") then Some(Failed(input, None, None, false, true))
          else Some(Failed(input, input.sessionId, input.continuationToken, true, false))
        else Some(Failed(input, input.sessionId, input.continuationToken, input.answers > 0, false))
      case Accepted(header, body, token) =>
        if header.Or(body).Or(input.sessionId).None?
        then Some(Failed(input, None, token.Or(input.continuationToken), false, false))
        else None
  }

  function Relayed(id: string, token: Option<string>, event: TalkEvent): StreamEvent {
    match event
    case Progress(index, _) => Moved(id, token, index)
    case Turn(turnId) => TurnSeen(turnId)
    case _ => Shown
  }

  function RelayAll(id: string, token: Option<string>, events: seq<TalkEvent>): (r: seq<StreamEvent>)
    ensures |r| == |events| && forall i :: 0 <= i < |events| ==> r[i] == Relayed(id, token, events[i])
  {
    if events == [] then [] else [Relayed(id, token, events[0])] + RelayAll(id, token, events[1..])
  }

  function Settled(id: string, token: Option<string>, result: TurnResult): StreamEvent {
    Finished(SendResult(result.error.None?, Some(id), token, result.streamIndex, result.turnId,
                    result.carry.inputRequests != [], false, false))
  }

  function FirstSlice(input: SendInput): DrainInput {
    DrainInput(input.streamIndex, Some(input.message), input.postedAt, None, None)
  }

  /** The whole trace; without a `Finished` when the turn is still being followed. */
  function Trace(input: SendInput, reply: Reply, policy: Option<Policy>, now: int,
      attempts: seq<Attempt>): seq<StreamEvent> {
    var failure := PostFailure(input, reply);
    if failure.Some? then [failure.value]
    else
      var id := reply.headerSession.Or(reply.bodySession).Or(input.sessionId).value;
      var token := reply.bodyToken.Or(input.continuationToken);
      var run := FollowRun(FirstSlice(input), policy, Begin(FirstSlice(input), NEW_CARRY, now), attempts);
      [Session(id, token)] +
      RelayAll(id, token, if run.Done? then run.yielded else run.next.yielded) +
      (if run.Done? then [Settled(id, token, run.result)] else [])
  }

  method StreamTurn(input: SendInput, reply: Reply, policy: Option<Policy>, now: int, attempts: seq<Attempt>)
    returns (events: seq<StreamEvent>)
    ensures events == Trace(input, reply, policy, now, attempts)
  {
    var via := input.FollowUp() && input.deliverVia;
    // A channel resume is only ever an answer to a pending request.
    if via && input.answers == 0 {
      return [Failed(input, input.sessionId, input.continuationToken, true, false)];
    }
    var sessionId: Option<string> := None;
    var continuationToken: Option<string> := None;
    match reply {
      case Unreachable =>
        return [Failed(input, input.sessionId, input.continuationToken, input.answers > 0, false)];
      case Refusal(status, code) =>
        if input.hasFiles {
          return [Failed(input, input.sessionId, input.continuationToken, true, false)];
        }
        if via {
          if status == 409 && code != Some("send_failed") {
            return [Failed(input, None, None, false, true)];
          }
          return [Failed(input, input.sessionId, input.continuationToken, true, false)];
        }
        return [Failed(input, input.sessionId, input.continuationToken, input.answers > 0, false)];
      case Accepted(header, body, token) =>
        sessionId := header.Or(body).Or(input.sessionId);
        continuationToken := token.Or(input.continuationToken);
    }
    if sessionId.None? { return [Failed(input, None, continuationToken, false, false)]; }
    events := [Session(sessionId.value, continuationToken)];
    var carry := new DrainCarry();
    var verdict := FollowDrain(FirstSlice(input), policy, carry, now, attempts);
    if verdict.Done? {
      events := events + RelayAll(sessionId.value, continuationToken, verdict.yielded)
                       + [Settled(sessionId.value, continuationToken, verdict.result)];
    } else {
      events := events + RelayAll(sessionId.value, continuationToken, verdict.next.yielded);
      assert events == events + [];
    }
  }

  // ----- The cursor -----

  /** The progress events carry the indices `start + 1`, `start + 2`, ... up to `end`. */
  ghost predicate CountsUp(events: seq<TalkEvent>, start: nat, end: nat)
    decreases |events|
  {
    if events == [] then start == end
    else if events[|events| - 1].Progress? then
      end > 0 && events[|events| - 1].streamIndex == end && CountsUp(events[..|events| - 1], start, end - 1)
    else CountsUp(events[..|events| - 1], start, end)
  }

  predicate NoProgress(events: seq<TalkEvent>) {
    forall i :: 0 <= i < |events| ==> !events[i].Progress?
  }

  lemma {:induction false} CountsUpQuiet(a: seq<TalkEvent>, b: seq<TalkEvent>, start: nat, end: nat)
    requires CountsUp(a, start, end) && NoProgress(b)
    ensures CountsUp(a + b, start, end)
    decreases |b|
  {
    if b == [] {
      assert a + b == a;
    } else {
      assert (a + b)[..|a + b| - 1] == a + b[..|b| - 1];
      CountsUpQuiet(a, b[..|b| - 1], start, end);
    }
  }

  lemma {:induction false} CountsUpAppend(a: seq<TalkEvent>, b: seq<TalkEvent>, start: nat, mid: nat, end: nat)
    requires CountsUp(a, start, mid) && CountsUp(b, mid, end)
    ensures CountsUp(a + b, start, end)
    decreases |b|
  {
    if b == [] {
      assert a + b == a;
    } else {
      assert (a + b)[..|a + b| - 1] == a + b[..|b| - 1];
      CountsUpAppend(a, b[..|b| - 1], start, mid, if b[|b| - 1].Progress? then end - 1 else end);
    }
  }

  lemma {:induction false} ActionsMoveNothing(c: Carry, sequence: int, requests: seq<ActionRequest>)
    ensures NoProgress(RequestActions(c, sequence, requests).out)
    decreases |requests|
  {
    if requests != [] { ActionsMoveNothing(RequestAction(c, sequence, requests[0]).carry, sequence, requests[1..]); }
  }

  lemma FoldMovesNothing(c: Carry, e: Event)
    ensures NoProgress(Fold(c, e).out)
  {
    if e.payload.ActionsRequested? { ActionsMoveNothing(c, e.sequence, e.payload.requests); }
  }

  lemma DispatchMovesNothing(input: DrainInput, s: DrainState, e: Event, start: nat)
    requires CountsUp(s.yielded, start, s.streamIndex)
    ensures CountsUp(Dispatch(input, s, e).yielded, start, s.streamIndex)
  {
    FoldMovesNothing(s.carry, e);
    var s' := Dispatch(input, s, e);
    if !Identifies(e) {
      CountsUpQuiet(s.yielded, Fold(s.carry, e).out, start, s.streamIndex);
    } else if s'.yielded != s.yielded {
      assert s'.yielded[..|s.yielded|] == s.yielded;
    }
  }

  lemma AdoptCountsUp(input: DrainInput, s: DrainState, e: Event, start: nat)
    requires CountsUp(s.yielded, start, s.streamIndex)
    ensures var v := Adopt(input, Counted(s, e), e); CountsUp(v.yielded, start, v.streamIndex)
  {
    var u := Counted(s, e);
    assert u.yielded[..|s.yielded|] == s.yielded;
    var v := Adopt(input, u, e);
    if v != u { assert v.yielded[..|u.yielded|] == u.yielded; }
  }

  lemma {:induction false} EventsCountUp(input: DrainInput, s: DrainState, events: seq<Event>, start: nat)
    requires CountsUp(s.yielded, start, s.streamIndex)
    ensures CountsUp(Consume(input, s, events).yielded, start, Consume(input, s, events).streamIndex)
    decreases |events|
  {
    if events != [] {
      AdoptCountsUp(input, s, events[0], start);
      var v := Adopt(input, Counted(s, events[0]), events[0]);
      DispatchMovesNothing(input, v, events[0], start);
      StepKeepsSettled(input, s, events[0]);
      EventsCountUp(input, Step(input, s, events[0]), events[1..], start);
    }
  }

  lemma DrainCountsUp(input: DrainInput, carry: Carry, connection: Connection)
    ensures var d := Drain(input, carry, connection); CountsUp(d.yielded, input.startIndex, d.result.streamIndex)
  {
    var chunks := connection.Chunks();
    DrainIsFold(input, Opened(input, carry), chunks);
    EventsCountUp(input, Opened(input, carry), Flatten(chunks)[..Handled(input, Opened(input, carry), chunks)],
        input.startIndex);
  }

  /** Across every reattach the cursor counts the session's events one by one, and the result ends on it. */
  lemma {:induction false} FollowCountsUp(first: DrainInput, policy: Option<Policy>, f: FollowState,
      attempts: seq<Attempt>, start: nat)
    requires CountsUp(f.yielded, start, f.slice.startIndex)
    ensures var v := FollowRun(first, policy, f, attempts);
            if v.Done? then CountsUp(v.yielded, start, v.result.streamIndex)
            else CountsUp(v.next.yielded, start, v.next.slice.startIndex)
    decreases |attempts|
  {
    if attempts != [] {
      var d := Drain(f.slice, f.carry, attempts[0].connection);
      DrainCountsUp(f.slice, f.carry, attempts[0].connection);
      CountsUpAppend(f.yielded, d.yielded, start, f.slice.startIndex, d.result.streamIndex);
      var v := FollowStep(first, policy, f, attempts[0]);
      if v.Following? { FollowCountsUp(first, policy, v.next, attempts[1..], start); }
    }
  }

  // ----- The shape of every trace -----

  /** Cursor of the last event that moved it, `start` if none did. */
  function LastIndex(events: seq<StreamEvent>, start: nat): nat {
    if events == [] then start
    else if events[|events| - 1].Moved? then events[|events| - 1].streamIndex
    else LastIndex(events[..|events| - 1], start)
  }

  /** What lies between a session and its `done`: one session, one token, a cursor that only grows. */
  ghost predicate Body(id: string, token: Option<string>, events: seq<StreamEvent>, start: nat) {
    forall i :: 0 <= i < |events| ==>
      (events[i].TurnSeen? || events[i].Shown? ||
       (events[i].Moved? && events[i].sessionId == id && events[i].continuationToken == token &&
        events[i].streamIndex > LastIndex(events[..i], start)))
  }

  predicate BodyEvent(id: string, token: Option<string>, e: StreamEvent, above: nat) {
    e.TurnSeen? || e.Shown? || (e.Moved? && e.sessionId == id && e.continuationToken == token && e.streamIndex > above)
  }

  lemma BodySnoc(id: string, token: Option<string>, front: seq<StreamEvent>, e: StreamEvent, start: nat)
    requires Body(id, token, front, start) && BodyEvent(id, token, e, LastIndex(front, start))
    ensures Body(id, token, front + [e], start)
    ensures LastIndex(front + [e], start) == if e.Moved? then e.streamIndex else LastIndex(front, start)
  {
    var all := front + [e];
    forall i | 0 <= i < |all| ensures BodyEvent(id, token, all[i], LastIndex(all[..i], start)) {
      assert all[..i] == front[..i];
    }
    assert all[..|front|] == front;
  }

  lemma {:induction false} RelayBody(id: string, token: Option<string>, events: seq<TalkEvent>, start: nat, end: nat)
    requires CountsUp(events, start, end)
    ensures Body(id, token, RelayAll(id, token, events), start)
    ensures LastIndex(RelayAll(id, token, events), start) == end
    decreases |events|
  {
    if events != [] {
      var front := events[..|events| - 1];
      var last := events[|events| - 1];
      assert RelayAll(id, token, events) == RelayAll(id, token, front) + [Relayed(id, token, last)];
      RelayBody(id, token, front, start, if last.Progress? then end - 1 else end);
      BodySnoc(id, token, RelayAll(id, token, front), Relayed(id, token, last), start);
    }
  }

  /** What follows a session: its body and, once the turn is settled, a `done` on the last index. */
  ghost predicate Tail(id: string, token: Option<string>, events: seq<StreamEvent>, start: nat) {
    Body(id, token, events, start) ||
    (events != [] && events[|events| - 1].Finished? && Body(id, token, events[..|events| - 1], start) &&
     (var r := events[|events| - 1].result;
      r.sessionId == Some(id) && r.continuationToken == token && !r.notDelivered && !r.resumeExpired &&
      r.streamIndex == LastIndex(events[..|events| - 1], start)))
  }

  /** Every trace is a lone `done`, or one session and its tail. */
  ghost predicate Shape(trace: seq<StreamEvent>, start: nat) {
    (|trace| == 1 && trace[0].Finished?) ||
    (trace != [] && trace[0].Session? && Tail(trace[0].sessionId, trace[0].continuationToken, trace[1..], start))
  }

  lemma SettledTail(id: string, token: Option<string>, yielded: seq<TalkEvent>, start: nat, result: TurnResult)
    requires CountsUp(yielded, start, result.streamIndex)
    ensures Tail(id, token, RelayAll(id, token, yielded) + [Settled(id, token, result)], start)
  {
    var relayed := RelayAll(id, token, yielded);
    RelayBody(id, token, yielded, start, result.streamIndex);
    assert (relayed + [Settled(id, token, result)])[..|relayed|] == relayed;
  }

  lemma FollowedTail(id: string, token: Option<string>, first: DrainInput, policy: Option<Policy>, f: FollowState,
      attempts: seq<Attempt>)
    requires f.yielded == [] && f.slice.startIndex == first.startIndex
    ensures var run := FollowRun(first, policy, f, attempts);
            Tail(id, token, if run.Done? then RelayAll(id, token, run.yielded) + [Settled(id, token, run.result)]
                            else RelayAll(id, token, run.next.yielded), first.startIndex)
  {
    var run := FollowRun(first, policy, f, attempts);
    FollowCountsUp(first, policy, f, attempts, first.startIndex);
    if run.Done? {
      SettledTail(id, token, run.yielded, first.startIndex, run.result);
    } else {
      RelayBody(id, token, run.next.yielded, first.startIndex, run.next.slice.startIndex);
    }
  }

  lemma EveryTraceHasShape(input: SendInput, reply: Reply, policy: Option<Policy>, now: int, attempts: seq<Attempt>)
    ensures Shape(Trace(input, reply, policy, now, attempts), input.streamIndex)
  {
    if PostFailure(input, reply).None? {
      var id := reply.headerSession.Or(reply.bodySession).Or(input.sessionId).value;
      var token := reply.bodyToken.Or(input.continuationToken);
      var f := Begin(FirstSlice(input), NEW_CARRY, now);
      var run := FollowRun(FirstSlice(input), policy, f, attempts);
      FollowedTail(id, token, FirstSlice(input), policy, f, attempts);
      var tail := if run.Done? then RelayAll(id, token, run.yielded) + [Settled(id, token, run.result)]
                  else RelayAll(id, token, run.next.yielded);
      assert Trace(input, reply, policy, now, attempts) == [Session(id, token)] + tail;
      assert ([Session(id, token)] + tail)[1..] == tail;
    }
  }

  lemma {:induction false} LastIndexCons(e: StreamEvent, events: seq<StreamEvent>, start: nat)
    ensures LastIndex([e] + events, start) == LastIndex(events, if e.Moved? then e.streamIndex else start)
    decreases |events|
  {
    if events == [] {
      assert ([e] + events)[..0] == [];
    } else {
      var last := |events| - 1;
      assert ([e] + events)[..last + 1] == [e] + events[..last];
      LastIndexCons(e, events[..last], start);
    }
  }

  lemma BodyTail(id: string, token: Option<string>, events: seq<StreamEvent>, start: nat)
    requires events != [] && Body(id, token, events, start)
    ensures Body(id, token, events[1..], if events[0].Moved? then events[0].streamIndex else start)
  {
    var rest := events[1..];
    forall i | 0 <= i < |rest|
      ensures rest[i].TurnSeen? || rest[i].Shown? ||
              (rest[i].Moved? && rest[i].sessionId == id && rest[i].continuationToken == token &&
               rest[i].streamIndex > LastIndex(rest[..i], if events[0].Moved? then events[0].streamIndex else start))
    {
      assert events[..i + 1] == [events[0]] + rest[..i];
      LastIndexCons(events[0], rest[..i], start);
      assert rest[i] == events[i + 1];
    }
  }

  /** The tail read one event at a time: the cursor moves forward, and only the last event settles. */
  lemma TailStep(id: string, token: Option<string>, events: seq<StreamEvent>, start: nat)
    requires events != [] && Tail(id, token, events, start)
    ensures !events[0].Session?
    ensures events[0].Moved? ==>
            events[0].sessionId == id && events[0].continuationToken == token && events[0].streamIndex > start
    ensures events[0].Finished? ==> |events| == 1 && events[0].result.streamIndex == start
    ensures !events[0].Finished? ==>
            Tail(id, token, events[1..], if events[0].Moved? then events[0].streamIndex else start)
  {
    assert events[..0] == [];
    var last := |events| - 1;
    if Body(id, token, events, start) {
      BodyTail(id, token, events, start);
    } else if last > 0 {
      var front := events[..last];
      assert front[..0] == [];
      BodyTail(id, token, front, start);
      assert front[1..] == events[1..][..last - 1];
      assert front == [events[0]] + front[1..];
      LastIndexCons(events[0], front[1..], start);
    }
  }

  lemma TailEndsDelivered(id: string, token: Option<string>, events: seq<StreamEvent>, start: nat, i: nat)
    requires Tail(id, token, events, start) && i < |events| && events[i].Finished?
    ensures !events[i].result.notDelivered && !events[i].result.resumeExpired
  {
    var front := events[..|events| - 1];
    forall k | 0 <= k < |front| && Body(id, token, front, start) ensures !events[k].Finished? {
      assert events[k] == front[k];
    }
  }

  lemma StartedTurnIsDelivered(input: SendInput, reply: Reply, policy: Option<Policy>, now: int,
      attempts: seq<Attempt>, i: nat)
    requires PostFailure(input, reply).None?
    requires var trace := Trace(input, reply, policy, now, attempts); i < |trace| && trace[i].Finished?
    ensures var r := Trace(input, reply, policy, now, attempts)[i].result; !r.notDelivered && !r.resumeExpired
  {
    var trace := Trace(input, reply, policy, now, attempts);
    EveryTraceHasShape(input, reply, policy, now, attempts);
    assert trace[0].Session? && trace[1..][i - 1] == trace[i];
    TailEndsDelivered(trace[0].sessionId, trace[0].continuationToken, trace[1..], input.streamIndex, i - 1);
  }

  lemma LoneEndKeepsCursor(input: SendInput, reply: Reply, policy: Option<Policy>, now: int, attempts: seq<Attempt>)
    ensures var e := Trace(input, reply, policy, now, attempts)[0];
            e.Finished? ==> e.result.streamIndex == input.streamIndex
  {
  }

  /** Exactly which replies leave the message undelivered. */
  predicate Undelivered(input: SendInput, reply: Reply) {
    if input.ViaChannel() && input.answers == 0 then true
    else match reply
      case Unreachable => input.answers > 0
      case Refusal(status, code) =>
        input.hasFiles ||
        (if input.ViaChannel() then status != 409 || code == Some("send_failed") else input.answers > 0)
      case Accepted(_, _, _) => false
  }

  /**
   * A refused send: exactly when the reply leaves the message undelivered, the trace is that one event,
   * the channel session is not also reported gone, and the handles and cursor it names are the caller's.
   */
  lemma RefusalIsAlone(input: SendInput, reply: Reply, policy: Option<Policy>, now: int, attempts: seq<Attempt>, i: nat)
    requires var trace := Trace(input, reply, policy, now, attempts); i < |trace| && trace[i].Finished?
    ensures var trace := Trace(input, reply, policy, now, attempts);
            var r := trace[i].result;
            (r.notDelivered <==> Undelivered(input, reply)) &&
            (r.notDelivered ==> |trace| == 1 && !r.resumeExpired && !r.ok && r.turnId.None? &&
                                r.sessionId == input.sessionId && r.continuationToken == input.continuationToken &&
                                r.streamIndex == input.streamIndex) &&
            (r.resumeExpired ==> |trace| == 1 && input.ViaChannel() && input.answers > 0)
  {
    if PostFailure(input, reply).None? {
      StartedTurnIsDelivered(input, reply, policy, now, attempts, i);
      assert !Undelivered(input, reply);
    }
  }

  /** Whether `streamTurn` sends a request at all. */
  predicate Sends(input: SendInput) { !(input.ViaChannel() && input.answers == 0) }

  /**
   * `notDelivered` does not mean that the agent was never contacted: of the sends it answered with a refusal, the ones
   * reported so are those with files, those with answers and, through a channel, all but a conflict that is not a
   * failed send.
   */
  lemma AnsweredYetUndelivered(input: SendInput, status: int, code: Option<string>, policy: Option<Policy>, now: int,
      attempts: seq<Attempt>)
    requires Sends(input)
    ensures var trace := Trace(input, Refusal(status, code), policy, now, attempts);
            |trace| == 1 && trace[0].Finished? &&
            (trace[0].result.notDelivered <==>
             input.hasFiles ||
             if input.ViaChannel() then status != 409 || code == Some("send_failed") else input.answers > 0)
  {
    RefusalIsAlone(input, Refusal(status, code), policy, now, attempts, 0);
  }

  /** A first message with a file attached, answered with a server error, is one. */
  lemma FileRefusedByServer(message: Sent, policy: Option<Policy>, now: int, attempts: seq<Attempt>)
    ensures var input := SendInput(message, true, 0, None, None, false, 0, now);
            Sends(input) && Trace(input, Refusal(500, None), policy, now, attempts) ==
            [Failed(input, None, None, true, false)]
  {
  }
}
