/**
 * What holds along every run of a drain (app/agent/talk.server.ts): the turn is announced at most
 * once, and a pushed step goes on showing what later events add to its actions.
 */
module TurnTraces {
  import opened Prelude
  import opened TurnEvents
  import opened TurnDrain
  import opened TurnFollow
  import opened TurnChunks
  import opened TurnSlicing

  // ----- A turn is announced once -----

  function CountTurns(events: seq<TalkEvent>): nat {
    if events == [] then 0 else CountTurns(events[..|events| - 1]) + (if events[|events| - 1].Turn? then 1 else 0)
  }

  lemma {:induction false} CountTurnsAppend(a: seq<TalkEvent>, b: seq<TalkEvent>)
    ensures CountTurns(a + b) == CountTurns(a) + CountTurns(b)
  {
    if b == [] {
      assert a + b == a;
    } else {
      assert (a + b)[..|a + b| - 1] == a + b[..|b| - 1];
      CountTurnsAppend(a, b[..|b| - 1]);
    }
  }

  lemma {:induction false} ActionsAnnounceNothing(c: Carry, sequence: int, requests: seq<ActionRequest>)
    ensures CountTurns(RequestActions(c, sequence, requests).out) == 0
    decreases |requests|
  {
    if requests != [] {
      var first := RequestAction(c, sequence, requests[0]);
      var rest := RequestActions(first.carry, sequence, requests[1..]);
      ActionsAnnounceNothing(first.carry, sequence, requests[1..]);
      assert first.out[..0] == [];
      CountTurnsAppend(first.out, rest.out);
    }
  }

  lemma FoldAnnouncesNothing(c: Carry, e: Event)
    ensures CountTurns(Fold(c, e).out) == 0
  {
    var out := Fold(c, e).out;
    if e.payload.ActionsRequested? {
      ActionsAnnounceNothing(c, e.sequence, e.payload.requests);
    } else if out != [] {
      assert |out| == 1 && !out[0].Turn? && out[..0] == [];
    }
  }

  lemma ProceedAnnouncesNothing(s: DrainState, e: Event)
    ensures var s' := Proceed(s, e);
            s'.ourTurnId == s.ourTurnId && s'.turnAnnounced == s.turnAnnounced &&
            CountTurns(s'.yielded) == CountTurns(s.yielded)
  {
    if Folds(e) {
      ProceedsByFold(s, e);
      FoldAnnouncesNothing(s.carry, e);
      CountTurnsAppend(s.yielded, Fold(s.carry, e).out);
    }
  }

  ghost predicate AnnouncedOnce(input: DrainInput, s: DrainState) {
    (input.matchMessage.None? && s.turnAnnounced ==> s.ourTurnId.Some?) &&
    CountTurns(s.yielded) == if s.turnAnnounced then 1 else 0
  }

  lemma AdoptAnnouncesOnce(input: DrainInput, s: DrainState, e: Event)
    requires AnnouncedOnce(input, s)
    ensures AnnouncedOnce(input, Adopt(input, Counted(s, e), e))
  {
    var u := Counted(s, e);
    assert u.yielded[..|s.yielded|] == s.yielded;
    var v := Adopt(input, u, e);
    if v != u { assert v.yielded[..|u.yielded|] == u.yielded; }
  }

  lemma RecogniseAnnouncesOnce(input: DrainInput, s: DrainState, e: Event)
    requires AnnouncedOnce(input, s) && e.payload.MessageReceived?
    ensures AnnouncedOnce(input, Recognise(input, s, e))
  {
    var s' := Recognise(input, s, e);
    if s'.yielded != s.yielded { assert s'.yielded[..|s.yielded|] == s.yielded; }
  }

  lemma ReportAnnouncesOnce(input: DrainInput, s: DrainState, runtime: Option<RuntimeModel>)
    requires AnnouncedOnce(input, s)
    ensures AnnouncedOnce(input, ReportModel(input, s, runtime))
  {
    var s' := ReportModel(input, s, runtime);
    if s'.yielded != s.yielded { assert s'.yielded[..|s.yielded|] == s.yielded; }
  }

  lemma DispatchAnnouncesOnce(input: DrainInput, s: DrainState, e: Event)
    requires AnnouncedOnce(input, s)
    ensures AnnouncedOnce(input, Dispatch(input, s, e))
  {
    if e.payload.SessionStarted? {
      ReportAnnouncesOnce(input, s, e.payload.runtime);
    } else if e.payload.MessageReceived? {
      RecogniseAnnouncesOnce(input, s, e);
    } else {
      ProceedAnnouncesNothing(s, e);
    }
  }

  lemma {:induction false} EventsAnnounceOnce(input: DrainInput, s: DrainState, events: seq<Event>)
    requires AnnouncedOnce(input, s)
    ensures AnnouncedOnce(input, Consume(input, s, events))
    decreases |events|
  {
    if events != [] {
      AdoptAnnouncesOnce(input, s, events[0]);
      DispatchAnnouncesOnce(input, Adopt(input, Counted(s, events[0]), events[0]), events[0]);
      EventsAnnounceOnce(input, Step(input, s, events[0]), events[1..]);
    }
  }

  /** A slice opened on a known turn announces nothing. */
  lemma KnownTurnStep(input: DrainInput, s: DrainState, e: Event)
    requires input.matchMessage.None? && s.ourTurnId.Some?
    ensures Step(input, s, e).ourTurnId.Some? && Step(input, s, e).turnAnnounced == s.turnAnnounced
  {
    var u := Counted(s, e);
    assert Step(input, s, e) == Dispatch(input, u, e);
    if !Identifies(e) { OtherEventAgrees(u, u, e); }
  }

  lemma {:induction false} KnownTurnStays(input: DrainInput, s: DrainState, events: seq<Event>)
    requires input.matchMessage.None? && s.ourTurnId.Some?
    ensures Consume(input, s, events).turnAnnounced == s.turnAnnounced
    decreases |events|
  {
    if events != [] {
      KnownTurnStep(input, s, events[0]);
      KnownTurnStays(input, Step(input, s, events[0]), events[1..]);
    }
  }

  lemma SliceAnnounces(slice: DrainInput, carry: Carry, connection: Connection)
    requires slice.matchMessage.None? ==> slice.initialTurnId.Some?
    ensures CountTurns(Drain(slice, carry, connection).yielded) <= if slice.matchMessage.Some? then 1 else 0
    ensures var r := Drain(slice, carry, connection).result;
            r.streamIndex == slice.startIndex ==>
                Drain(slice, carry, connection).yielded == [] && r.turnId == slice.initialTurnId
  {
    var blank, chunks := Opened(slice, carry), connection.Chunks();
    DrainIsFold(slice, blank, chunks);
    var events := Flatten(chunks)[..Handled(slice, blank, chunks)];
    EventsAnnounceOnce(slice, blank, events);
    ConsumeKeepsSettled(slice, blank, events);
    if slice.matchMessage.None? { KnownTurnStays(slice, blank, events); }
  }

  /** A slice still looking for its turn comes before any announcement. */
  predicate Unannounced(f: FollowState) {
    (if f.slice.matchMessage.Some? then f.slice.initialTurnId.None? &&
        CountTurns(f.yielded) == 0 else f.slice.initialTurnId.Some?) &&
    CountTurns(f.yielded) <= 1
  }

  lemma SliceKeepsUnannounced(first: DrainInput, policy: Option<Policy>, f: FollowState, a: Attempt)
    requires FromSend(first) && Unannounced(f)
    ensures var v := FollowStep(first, policy, f, a);
            if v.Done? then CountTurns(v.yielded) <= 1 else Unannounced(v.next)
  {
    var d := Drain(f.slice, f.carry, a.connection);
    SliceAnnounces(f.slice, f.carry, a.connection);
    CountTurnsAppend(f.yielded, d.yielded);
    DrainNeverGoesBack(f.slice, f.carry, a.connection);
  }

  lemma DrainNeverGoesBack(slice: DrainInput, carry: Carry, connection: Connection)
    ensures Drain(slice, carry, connection).result.streamIndex >= slice.startIndex
  {
    var blank, chunks := Opened(slice, carry), connection.Chunks();
    DrainIsFold(slice, blank, chunks);
    ConsumeKeepsSettled(slice, blank, Flatten(chunks)[..Handled(slice, blank, chunks)]);
  }

  lemma {:induction false} RunAnnouncesOnce(first: DrainInput, policy: Option<Policy>, f: FollowState,
      attempts: seq<Attempt>)
    requires FromSend(first) && Unannounced(f)
    ensures var v := FollowRun(first, policy, f, attempts);
            CountTurns(if v.Done? then v.yielded else v.next.yielded) <= 1
    decreases |attempts|
  {
    if attempts != [] {
      SliceKeepsUnannounced(first, policy, f, attempts[0]);
      var v := FollowStep(first, policy, f, attempts[0]);
      if v.Following? { RunAnnouncesOnce(first, policy, v.next, attempts[1..]); }
    }
  }

  /** However often its stream is lost and whatever it is served, a followed send announces its turn at most once. */
  lemma FollowedTurnAnnouncedOnce(first: DrainInput, policy: Option<Policy>, now: int, attempts: seq<Attempt>)
    requires FromSend(first)
    ensures var v := FollowRun(first, policy, Begin(first, NEW_CARRY, now), attempts);
            CountTurns(if v.Done? then v.yielded else v.next.yielded) <= 1
  {
    RunAnnouncesOnce(first, policy, Begin(first, NEW_CARRY, now), attempts);
  }

  // ----- Steps keep pointing at their live action lists -----

  lemma {:induction false} RequestsKeepReferences(c: Carry, sequence: int, requests: seq<ActionRequest>)
    requires c.Valid()
    ensures RequestActions(c, sequence, requests).carry.Valid()
    decreases |requests|
  {
    if requests != [] { RequestsKeepReferences(RequestAction(c, sequence, requests[0]).carry, sequence,
        requests[1..]); }
  }

  lemma ResultKeepsReferences(c: Carry, callId: Option<string>, output: Option<Output>, failed: bool)
    requires c.Valid()
    ensures CompleteAction(c, callId, output, failed).carry.Valid()
  {
    var c' := CompleteAction(c, callId, output, failed).carry;
    assert |c'.records| == |c.records|;
  }

  lemma FinishKeepsReferences(c: Carry, e: Event, usage: StepUsage, failure: Option<Failure>)
    requires c.Valid()
    ensures FinishStep(c, e, usage, failure).carry.Valid()
  {
  }

  lemma OthersKeepReferences(c: Carry, e: Event)
    requires c.Valid() && !IsWork(e.payload)
    ensures Fold(c, e).carry.Valid()
  {
    var c' := Fold(c, e).carry;
    assert c'.steps == c.steps && c'.records == c.records && c'.actionsBySeq == c.actionsBySeq &&
           c'.actionByCallId == c.actionByCallId;
  }

  /** No event leaves a dangling reference, so a step can always be read through its array. */
  lemma FoldKeepsReferences(c: Carry, e: Event)
    requires c.Valid()
    ensures Fold(c, e).carry.Valid()
  {
    match e.payload {
      case ActionsRequested(requests) => RequestsKeepReferences(c, e.sequence, requests);
      case ActionResult(callId, output, failed) => ResultKeepsReferences(c, callId, output, failed);
      case StepCompleted(usage) => FinishKeepsReferences(c, e, usage, None);
      case StepFailed(usage, failure, modelRef) =>
        FinishKeepsReferences(c.(lastStepFailure := Some(failure.Text()), errorModelId := modelRef), e, usage,
            Some(failure));
      case StepStarted =>
      case _ => OthersKeepReferences(c, e);
    }
  }

  /**
   * A result that arrives after its step was pushed still shows in that step, at every place where the
   * step's list names the call; the step itself is not rebuilt.
   */
  lemma LateResultReachesStep(c: Carry, e: Event, step: TurnStep, k: nat)
    requires c.Valid() && step in c.steps && step.actions.Some? && e.payload.ActionResult?
    requires e.payload.callId.Some? && e.payload.callId.value in c.actionByCallId
    requires k < |c.actionsBySeq[step.actions.value]|
    requires c.actionsBySeq[step.actions.value][k] == c.actionByCallId[e.payload.callId.value]
    ensures var c' := Fold(c, e).carry;
            c'.Valid() && step in c'.steps && c'.steps == c.steps &&
            c'.ActionsOf(step).value[k]
              == WithResult(c.ActionsOf(step).value[k], e.payload.output, e.payload.failed)
  {
    FoldKeepsReferences(c, e);
  }
}
