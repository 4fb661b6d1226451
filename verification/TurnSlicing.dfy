/**
 * What a follower sees does not depend on where its stream was cut: the slices of a lost stream add
 * up to the one pass an uninterrupted drain would have made (app/agent/talk.server.ts).
 */
module TurnSlicing {
  import opened Prelude
  import opened TurnEvents
  import opened TurnDrain
  import opened TurnChunks
  import opened TurnFollow

  // ----- One event, seen live and seen by a follow slice -----

  /** The same turn, whether or not this slice was the one to announce it. */
  ghost predicate SameTurn(s: DrainState, t: DrainState) {
    s == t.(turnAnnounced := s.turnAnnounced)
  }

  /** The input of a slice that already knows its turn. */
  ghost predicate FollowsSend(first: DrainInput, slice: DrainInput) {
    slice.matchMessage.None? && slice.modelText == first.matchMessage
  }

  /**
   * The two events a follow slice reads differently from the live drain: an echo of the message that
   * would move the turn to another id, and a second report of the model.
   */
  ghost predicate ReadsDifferently(first: DrainInput, s: DrainState, e: Event) {
    (Echoes(first, e) && e.turnId != s.ourTurnId) ||
    (e.payload.SessionStarted? && e.payload.runtime.Some? && s.carry.modelId.Some?)
  }

  predicate Identifies(e: Event) {
    e.payload.SessionStarted? || e.payload.MessageReceived?
  }

  lemma {:induction false} RequestsKeepModel(c: Carry, sequence: int, requests: seq<ActionRequest>)
    ensures RequestActions(c, sequence, requests).carry.modelId == c.modelId
    decreases |requests|
  {
    if requests != [] { RequestsKeepModel(RequestAction(c, sequence, requests[0]).carry, sequence, requests[1..]); }
  }

  lemma FoldKeepsModel(c: Carry, e: Event)
    ensures Fold(c, e).carry.modelId == c.modelId
  {
    if e.payload.ActionsRequested? { RequestsKeepModel(c, e.sequence, e.payload.requests); }
  }

  /** The events of a turn that only fold into its carry. */
  predicate Folds(e: Event) {
    !e.payload.TurnFailed? && !e.payload.SessionFailed? && !e.payload.TurnCompleted? && !e.payload.SessionWaiting?
  }

  lemma ProceedsByFold(s: DrainState, e: Event)
    requires Folds(e)
    ensures Proceed(s, e) == if Ours(s, e) then After(s, Fold(s.carry, e)) else s
  {
  }

  /** Every other event reads the same live and followed, and leaves the turn and the model alone. */
  lemma OtherEventAgrees(s: DrainState, t: DrainState, e: Event)
    requires SameTurn(s, t) && !Identifies(e)
    ensures SameTurn(Proceed(s, e), Proceed(t, e))
    ensures Proceed(s, e).ourTurnId == s.ourTurnId && Proceed(s, e).turnAnnounced == s.turnAnnounced
    ensures Proceed(s, e).carry.modelId == s.carry.modelId
  {
    if Folds(e) {
      ProceedsByFold(s, e);
      ProceedsByFold(t, e);
      FoldKeepsModel(s.carry, e);
    }
  }

  /** Once the turn is known, an event leaves both in the same turn exactly when it is neither of those. */
  lemma FollowedEventAgrees(first: DrainInput, slice: DrainInput, s: DrainState, t: DrainState, e: Event)
    requires first.matchMessage.Some? && FollowsSend(first, slice)
    requires SameTurn(s, t) && s.ourTurnId.Some? && s.turnAnnounced
    ensures SameTurn(Step(first, s, e), Step(slice, t, e)) <==> !ReadsDifferently(first, s, e)
    ensures !ReadsDifferently(first, s, e) ==>
            Step(first, s, e).ourTurnId == s.ourTurnId && Step(first, s, e).turnAnnounced
  {
    var u, v := Counted(s, e), Counted(t, e);
    assert Step(first, s, e) == Dispatch(first, u, e) && Step(slice, t, e) == Dispatch(slice, v, e);
    if !Identifies(e) {
      OtherEventAgrees(u, v, e);
    } else if e.payload.SessionStarted? {
      assert |Dispatch(slice, v, e).yielded| <= |v.yielded| + 1;
    }
  }

  // ----- A run of events, seen both ways -----

  /** None of these events is one a follow slice would read differently where it comes. */
  ghost predicate Steady(first: DrainInput, s: DrainState, events: seq<Event>)
    decreases |events|
  {
    events == [] || (!ReadsDifferently(first, s, events[0]) && Steady(first, Step(first, s, events[0]), events[1..]))
  }

  /** Of the events that are handled before the turn settles. */
  ghost predicate SteadyChunks(first: DrainInput, s: DrainState, chunks: seq<seq<Event>>)
    decreases |chunks|
  {
    s.settled || chunks == [] ||
    (Steady(first, s, chunks[0]) && SteadyChunks(first, Consume(first, s, chunks[0]), chunks[1..]))
  }

  /** How a slice's input stands to the send it follows, before and after the turn is identified. */
  ghost predicate Fits(first: DrainInput, slice: DrainInput, s: DrainState) {
    first.matchMessage.Some? && (s.ourTurnId.Some? ==> s.turnAnnounced) &&
    ((FollowsSend(first, slice) && s.ourTurnId.Some?) ||
     (slice.matchMessage == first.matchMessage && slice.postedAt == first.postedAt))
  }

  /** The live drain and the slice, side by side. */
  ghost predicate InStep(first: DrainInput, slice: DrainInput, s: DrainState, t: DrainState) {
    Fits(first, slice, s) && SameTurn(s, t) && (slice.matchMessage.Some? ==> t == s)
  }

  lemma EventKeepsTurn(first: DrainInput, slice: DrainInput, s: DrainState, t: DrainState, e: Event)
    requires InStep(first, slice, s, t) && (slice.matchMessage.None? ==> !ReadsDifferently(first, s, e))
    ensures InStep(first, slice, Step(first, s, e), Step(slice, t, e))
  {
    var u := Counted(s, e);
    assert Step(first, s, e) == Dispatch(first, u, e);
    if slice.matchMessage.None? {
      FollowedEventAgrees(first, slice, s, t, e);
    } else {
      assert Step(slice, t, e) == Dispatch(slice, u, e);
    }
    if !Identifies(e) { OtherEventAgrees(u, u, e); }
  }

  lemma {:induction false} EventsKeepTurn(first: DrainInput, slice: DrainInput, s: DrainState, t: DrainState,
      events: seq<Event>)
    requires InStep(first, slice, s, t) && (slice.matchMessage.None? ==> Steady(first, s, events))
    ensures InStep(first, slice, Consume(first, s, events), Consume(slice, t, events))
    decreases |events|
  {
    if events != [] {
      EventKeepsTurn(first, slice, s, t, events[0]);
      EventsKeepTurn(first, slice, Step(first, s, events[0]), Step(slice, t, events[0]), events[1..]);
    }
  }

  lemma {:induction false} ChunksKeepTurn(first: DrainInput, slice: DrainInput, s: DrainState, t: DrainState,
      chunks: seq<seq<Event>>)
    requires InStep(first, slice, s, t) && (slice.matchMessage.None? ==> SteadyChunks(first, s, chunks))
    ensures InStep(first, slice, ReadChunks(first, s, chunks), ReadChunks(slice, t, chunks))
    decreases |chunks|
  {
    if chunks != [] && !s.settled {
      EventsKeepTurn(first, slice, s, t, chunks[0]);
      ChunksKeepTurn(first, slice, Consume(first, s, chunks[0]), Consume(slice, t, chunks[0]), chunks[1..]);
    }
  }

  // ----- What was yielded before does not matter -----

  function WithPrefix(p: seq<TalkEvent>, s: DrainState): DrainState {
    s.(yielded := p + s.yielded)
  }

  lemma PrefixStep(input: DrainInput, p: seq<TalkEvent>, s: DrainState, e: Event)
    ensures Step(input, WithPrefix(p, s), e) == WithPrefix(p, Step(input, s, e))
  {
    var u := Counted(s, e);
    assert p + u.yielded == p + s.yielded + [Progress(s.streamIndex + 1, e)];
    var v := Adopt(input, u, e);
    assert Counted(WithPrefix(p, s), e) == WithPrefix(p, u);
    if v != u {
      assert p + v.yielded == p + u.yielded + [Turn(e.turnId.value)];
    }
    assert Adopt(input, WithPrefix(p, u), e) == WithPrefix(p, v);
    PrefixDispatch(input, p, v, e);
  }

  lemma PrefixAfter(p: seq<TalkEvent>, s: DrainState, f: Folded)
    ensures After(WithPrefix(p, s), f) == WithPrefix(p, After(s, f))
  {
    assert p + (s.yielded + f.out) == p + s.yielded + f.out;
  }

  lemma PrefixProceed(p: seq<TalkEvent>, s: DrainState, e: Event)
    ensures Proceed(WithPrefix(p, s), e) == WithPrefix(p, Proceed(s, e))
  {
    if Folds(e) {
      ProceedsByFold(s, e);
      ProceedsByFold(WithPrefix(p, s), e);
      PrefixAfter(p, s, Fold(s.carry, e));
    }
  }

  lemma PrefixDispatch(input: DrainInput, p: seq<TalkEvent>, s: DrainState, e: Event)
    ensures Dispatch(input, WithPrefix(p, s), e) == WithPrefix(p, Dispatch(input, s, e))
  {
    if !Identifies(e) {
      PrefixProceed(p, s, e);
    } else {
      assert forall x: TalkEvent :: p + (s.yielded + [x]) == p + s.yielded + [x];
    }
  }

  lemma {:induction false} PrefixConsume(input: DrainInput, p: seq<TalkEvent>, s: DrainState, events: seq<Event>)
    ensures Consume(input, WithPrefix(p, s), events) == WithPrefix(p, Consume(input, s, events))
    decreases |events|
  {
    if events != [] {
      PrefixStep(input, p, s, events[0]);
      PrefixConsume(input, p, Step(input, s, events[0]), events[1..]);
    }
  }

  lemma {:induction false} PrefixRead(input: DrainInput, p: seq<TalkEvent>, s: DrainState, chunks: seq<seq<Event>>)
    ensures ReadChunks(input, WithPrefix(p, s), chunks) == WithPrefix(p, ReadChunks(input, s, chunks))
    decreases |chunks|
  {
    if !s.settled && chunks != [] {
      PrefixConsume(input, p, s, chunks[0]);
      PrefixRead(input, p, Consume(input, s, chunks[0]), chunks[1..]);
    }
  }

  // ----- A whole run -----

  /** Everything the slices of a run delivered, in order. */
  function Delivered(first: DrainInput, policy: Option<Policy>, f: FollowState, attempts: seq<Attempt>): seq<seq<Event>>
    decreases |attempts|
  {
    if attempts == [] then []
    else
      var v := FollowStep(first, policy, f, attempts[0]);
      attempts[0].connection.Chunks() + (if v.Done? then [] else Delivered(first, policy, v.next, attempts[1..]))
  }

  /** How the last slice's reads ended. */
  function LastEnding(first: DrainInput, policy: Option<Policy>, f: FollowState, attempts: seq<Attempt>): Ending
    requires FollowRun(first, policy, f, attempts).Done?
    decreases |attempts|
  {
    var v := FollowStep(first, policy, f, attempts[0]);
    if v.Done? then attempts[0].connection.Outcome() else LastEnding(first, policy, v.next, attempts[1..])
  }

  /** The uncut drain and the follower between two slices. */
  ghost predicate Linked(first: DrainInput, s: DrainState, f: FollowState) {
    !s.settled && s.error.None? && s.carry == f.carry && s.streamIndex == f.slice.startIndex &&
    s.ourTurnId == f.slice.initialTurnId && s.yielded == f.yielded && Fits(first, f.slice, s) &&
    (s.turnAnnounced <==> s.ourTurnId.Some?) && (s.ourTurnId.Some? <==> f.slice.matchMessage.None?)
  }

  /** What a slice reads, after what was yielded before it, is what the uncut drain reads. */
  lemma SliceReads(first: DrainInput, s: DrainState, f: FollowState, chunks: seq<seq<Event>>)
    requires Linked(first, s, f) && (f.slice.matchMessage.None? ==> SteadyChunks(first, s, chunks))
    ensures var read := ReadChunks(f.slice, Opened(f.slice, f.carry), chunks);
            InStep(first, f.slice, ReadChunks(first, s, chunks), WithPrefix(f.yielded, read))
  {
    var blank := Opened(f.slice, f.carry);
    assert f.yielded + [] == f.yielded;
    ChunksKeepTurn(first, f.slice, s, WithPrefix(f.yielded, blank), chunks);
    PrefixRead(f.slice, f.yielded, blank, chunks);
  }

  /** While nothing settles it the turn has no error, and a drain that counted nothing read nothing. */
  lemma UnsettledRead(first: DrainInput, s: DrainState, chunks: seq<seq<Event>>)
    requires !s.settled && s.error.None?
    ensures var whole := ReadChunks(first, s, chunks);
            (!whole.settled ==> whole.error.None?) && whole.streamIndex >= s.streamIndex &&
            (whole.streamIndex == s.streamIndex ==> whole == s)
  {
    DrainIsFold(first, s, chunks);
    ConsumeKeepsSettled(first, s, Flatten(chunks)[..Handled(first, s, chunks)]);
  }

  lemma SliceAgrees(first: DrainInput, policy: Option<Policy>, s: DrainState, f: FollowState, a: Attempt)
    requires Linked(first, s, f) && (f.slice.matchMessage.None? ==> SteadyChunks(first, s, a.connection.Chunks()))
    ensures var whole := ReadChunks(first, s, a.connection.Chunks());
            var v := FollowStep(first, policy, f, a);
            (v.Done? ==> (v.yielded == whole.yielded &&
                          v.result == Reported(Conclude(whole, a.connection.Outcome()), v.reason))) &&
            (v.Following? ==> Linked(first, whole, v.next))
  {
    var chunks := a.connection.Chunks();
    SliceReads(first, s, f, chunks);
    UnsettledRead(first, s, chunks);
    var whole := ReadChunks(first, s, chunks);
    var read := ReadChunks(f.slice, Opened(f.slice, f.carry), chunks);
    assert Conclude(read, a.connection.Outcome()) == Conclude(whole, a.connection.Outcome());
    assert whole.yielded == f.yielded + read.yielded;
  }

  /** No slice that follows the turn by its id is given an event it reads differently. */
  ghost predicate Undisturbed(first: DrainInput, policy: Option<Policy>, s: DrainState, f: FollowState,
      attempts: seq<Attempt>)
    decreases |attempts|
  {
    attempts == [] ||
    (var chunks := attempts[0].connection.Chunks();
     var v := FollowStep(first, policy, f, attempts[0]);
     (f.slice.matchMessage.None? ==> SteadyChunks(first, s, chunks)) &&
     (v.Following? ==> Undisturbed(first, policy, ReadChunks(first, s, chunks), v.next, attempts[1..])))
  }

  /**
   * Following is watching without interruption. However a lost stream is cut into slices, and whatever
   * ends the loop, the events it yielded and the result it reports are those of one drain of everything
   * delivered: the carried state, the cursor, the turn id, every step, message and request. Only the
   * error of a give-up or a stop is the loop's own. Only an echo that names another turn, or another
   * model report, that comes after a cut is excluded.
   */
  lemma {:induction false} SlicedRunIsOnePass(first: DrainInput, policy: Option<Policy>, s: DrainState,
      f: FollowState, attempts: seq<Attempt>)
    requires Linked(first, s, f) && Undisturbed(first, policy, s, f, attempts)
    requires FollowRun(first, policy, f, attempts).Done?
    ensures var run := FollowRun(first, policy, f, attempts);
            var whole := ReadChunks(first, s, Delivered(first, policy, f, attempts));
            run.yielded == whole.yielded &&
            run.result == Reported(Conclude(whole, LastEnding(first, policy, f, attempts)), run.reason)
    decreases |attempts|
  {
    var a := attempts[0];
    var chunks := a.connection.Chunks();
    var v := FollowStep(first, policy, f, a);
    SliceAgrees(first, policy, s, f, a);
    if v.Done? {
      assert chunks + [] == chunks;
    } else {
      ReadAppend(first, s, chunks, Delivered(first, policy, v.next, attempts[1..]));
      SlicedRunIsOnePass(first, policy, ReadChunks(first, s, chunks), v.next, attempts[1..]);
    }
  }

  // ----- Slices of one durable log -----

  /** The input of a live send: a message to recognise, no turn id yet. */
  predicate FromSend(first: DrainInput) {
    first.matchMessage.Some? && first.initialTurnId.None?
  }

  /** Each slice is served what the log holds at its cursor, as far as its stream lasts. */
  ghost predicate Served(log: seq<Event>, first: DrainInput, policy: Option<Policy>, f: FollowState,
      attempts: seq<Attempt>)
    decreases |attempts|
  {
    attempts == [] ||
    (f.slice.startIndex <= |log| &&
     Flatten(attempts[0].connection.Chunks()) <= log[f.slice.startIndex..] &&
     (var v := FollowStep(first, policy, f, attempts[0]);
      v.Following? ==> Served(log, first, policy, v.next, attempts[1..])))
  }

  lemma CutMovesCursor(first: DrainInput, policy: Option<Policy>, f: FollowState, a: Attempt)
    requires FollowStep(first, policy, f, a).Following?
    ensures FollowStep(first, policy, f, a).next.slice.startIndex
         == f.slice.startIndex + |Flatten(a.connection.Chunks())|
  {
    var blank := Opened(f.slice, f.carry);
    var chunks := a.connection.Chunks();
    DrainIsFold(f.slice, blank, chunks);
    ConsumeKeepsSettled(f.slice, blank, Flatten(chunks)[..Handled(f.slice, blank, chunks)]);
    assert !ReadChunks(f.slice, blank, chunks).settled;
  }

  /** The slices of one log join up: nothing is skipped, nothing is read twice. */
  lemma {:induction false} DeliveredIsLog(log: seq<Event>, first: DrainInput, policy: Option<Policy>, f: FollowState,
      attempts: seq<Attempt>)
    requires f.slice.startIndex <= |log| && Served(log, first, policy, f, attempts)
    ensures Flatten(Delivered(first, policy, f, attempts)) <= log[f.slice.startIndex..]
    decreases |attempts|
  {
    if attempts != [] {
      var chunks := attempts[0].connection.Chunks();
      var v := FollowStep(first, policy, f, attempts[0]);
      if v.Done? {
        assert chunks + [] == chunks;
      } else {
        CutMovesCursor(first, policy, f, attempts[0]);
        DeliveredIsLog(log, first, policy, v.next, attempts[1..]);
        FlattenAppend(chunks, Delivered(first, policy, v.next, attempts[1..]));
      }
    }
  }

  /**
   * The theorem for a turn just sent: unless a cut is followed by an echo that names another turn or by another model
   * report, every run of slices of one log yields and reports what one drain of the same events does.
   */
  lemma FollowDrainIsOnePass(log: seq<Event>, first: DrainInput, policy: Option<Policy>, now: int,
      attempts: seq<Attempt>)
    requires FromSend(first) && first.startIndex <= |log|
    requires Served(log, first, policy, Begin(first, NEW_CARRY, now), attempts)
    requires Undisturbed(first, policy, Opened(first, NEW_CARRY), Begin(first, NEW_CARRY, now), attempts)
    requires FollowRun(first, policy, Begin(first, NEW_CARRY, now), attempts).Done?
    ensures OnePass(log, first, policy, now, attempts)
  {
    var f := Begin(first, NEW_CARRY, now);
    DeliveredIsLog(log, first, policy, f, attempts);
    SlicedRunIsOnePass(first, policy, Opened(first, NEW_CARRY), f, attempts);
  }

  /** The run yields and reports what one drain of the part of the log it was served does. */
  ghost predicate OnePass(log: seq<Event>, first: DrainInput, policy: Option<Policy>, now: int, attempts: seq<Attempt>)
    requires first.startIndex <= |log| && FollowRun(first, policy, Begin(first, NEW_CARRY, now), attempts).Done?
  {
    var f := Begin(first, NEW_CARRY, now);
    var run := FollowRun(first, policy, f, attempts);
    var delivered := Delivered(first, policy, f, attempts);
    var onePass := Drain(first, NEW_CARRY, Streaming(200, delivered, LastEnding(first, policy, f, attempts)));
    Flatten(delivered) <= log[first.startIndex..] &&
    run.yielded == onePass.yielded && run.result == Reported(onePass.result, run.reason)
  }

  // ----- A log with one echo and one model report -----

  function CountEchoes(first: DrainInput, events: seq<Event>): nat {
    if events == [] then 0 else (if Echoes(first, events[0]) then 1 else 0) + CountEchoes(first, events[1..])
  }

  function CountModels(events: seq<Event>): nat {
    if events == [] then 0
    else
      (if events[0].payload.SessionStarted? && events[0].payload.runtime.Some? then 1 else 0) + CountModels(events[1..])
  }

  lemma {:induction false} CountAppend(first: DrainInput, a: seq<Event>, b: seq<Event>)
    ensures CountEchoes(first, a + b) == CountEchoes(first, a) + CountEchoes(first, b)
    ensures CountModels(a + b) == CountModels(a) + CountModels(b)
  {
    if a == [] {
      assert a + b == b;
    } else {
      assert (a + b)[1..] == a[1..] + b;
      CountAppend(first, a[1..], b);
    }
  }

  /** What the events still to come may hold, given what the turn has seen. */
  ghost predicate Expects(first: DrainInput, s: DrainState, rest: seq<Event>) {
    CountEchoes(first, rest) <= (if s.ourTurnId.Some? then 0 else 1) &&
    CountModels(rest) <= (if s.carry.modelId.Some? then 0 else 1)
  }

  lemma ExpectedStep(first: DrainInput, s: DrainState, e: Event, rest: seq<Event>)
    requires first.matchMessage.Some? && Expects(first, s, [e] + rest)
    ensures Expects(first, Step(first, s, e), rest) && (s.ourTurnId.Some? ==> !ReadsDifferently(first, s, e))
  {
    assert ([e] + rest)[1..] == rest;
    var u := Counted(s, e);
    assert Step(first, s, e) == Dispatch(first, u, e);
    if !Identifies(e) { OtherEventAgrees(u, u, e); }
  }

  lemma {:induction false} ExpectedEvents(first: DrainInput, s: DrainState, events: seq<Event>, rest: seq<Event>)
    requires first.matchMessage.Some? && Expects(first, s, events + rest)
    ensures Expects(first, Consume(first, s, events), rest)
    ensures s.ourTurnId.Some? ==> Steady(first, s, events) && Consume(first, s, events).ourTurnId.Some?
    decreases |events|
  {
    if events == [] {
      assert events + rest == rest;
    } else {
      assert events + rest == [events[0]] + (events[1..] + rest);
      ExpectedStep(first, s, events[0], events[1..] + rest);
      if s.ourTurnId.Some? { SteadyKeepsTurn(first, s, events[0]); }
      ExpectedEvents(first, Step(first, s, events[0]), events[1..], rest);
    }
  }

  lemma SteadyKeepsTurn(first: DrainInput, s: DrainState, e: Event)
    requires first.matchMessage.Some? && s.ourTurnId.Some? && !ReadsDifferently(first, s, e)
    ensures Step(first, s, e).ourTurnId == s.ourTurnId
  {
    var u := Counted(s, e);
    assert Step(first, s, e) == Dispatch(first, u, e);
    if !Identifies(e) { OtherEventAgrees(u, u, e); }
  }

  lemma {:induction false} ExpectedChunks(first: DrainInput, s: DrainState, chunks: seq<seq<Event>>, rest: seq<Event>)
    requires first.matchMessage.Some? && Expects(first, s, Flatten(chunks) + rest)
    ensures s.ourTurnId.Some? ==> SteadyChunks(first, s, chunks)
    ensures !ReadChunks(first, s, chunks).settled ==> Expects(first, ReadChunks(first, s, chunks), rest)
    decreases |chunks|
  {
    if chunks == [] {
      assert Flatten(chunks) + rest == rest;
    } else if !s.settled {
      assert Flatten(chunks) + rest == chunks[0] + (Flatten(chunks[1..]) + rest);
      ExpectedEvents(first, s, chunks[0], Flatten(chunks[1..]) + rest);
      ExpectedChunks(first, Consume(first, s, chunks[0]), chunks[1..], rest);
    }
  }

  lemma {:induction false} ExpectedIsUndisturbed(first: DrainInput, policy: Option<Policy>, s: DrainState,
      f: FollowState, attempts: seq<Attempt>)
    requires Linked(first, s, f) && Expects(first, s, Flatten(Delivered(first, policy, f, attempts)))
    ensures Undisturbed(first, policy, s, f, attempts)
    decreases |attempts|
  {
    if attempts != [] {
      var a := attempts[0];
      var chunks := a.connection.Chunks();
      var v := FollowStep(first, policy, f, a);
      var later := if v.Done? then [] else Delivered(first, policy, v.next, attempts[1..]);
      FlattenAppend(chunks, later);
      ExpectedChunks(first, s, chunks, Flatten(later));
      SliceAgrees(first, policy, s, f, a);
      if v.Following? { ExpectedIsUndisturbed(first, policy, ReadChunks(first, s, chunks), v.next, attempts[1..]); }
    }
  }

  lemma {:induction false} CountPrefix(first: DrainInput, a: seq<Event>, b: seq<Event>)
    requires a <= b
    ensures CountEchoes(first, a) <= CountEchoes(first, b) && CountModels(a) <= CountModels(b)
  {
    CountAppend(first, a, b[|a|..]);
    assert a + b[|a|..] == b;
  }

  /**
   * In particular from a log that echoes the message at most once and reports the model at most once past the cursor,
   * wherever it is cut.
   */
  lemma PlainLogIsOnePass(log: seq<Event>, first: DrainInput, policy: Option<Policy>, now: int, attempts: seq<Attempt>)
    requires FromSend(first) && first.startIndex <= |log|
    requires CountEchoes(first, log[first.startIndex..]) <= 1 && CountModels(log[first.startIndex..]) <= 1
    requires Served(log, first, policy, Begin(first, NEW_CARRY, now), attempts)
    requires FollowRun(first, policy, Begin(first, NEW_CARRY, now), attempts).Done?
    ensures OnePass(log, first, policy, now, attempts)
  {
    var f := Begin(first, NEW_CARRY, now);
    var delivered := Flatten(Delivered(first, policy, f, attempts));
    DeliveredIsLog(log, first, policy, f, attempts);
    CountPrefix(first, delivered, log[first.startIndex..]);
    ExpectedIsUndisturbed(first, policy, Opened(first, NEW_CARRY), f, attempts);
    FollowDrainIsOnePass(log, first, policy, now, attempts);
  }

  // ----- What a cut can change -----

  const LIVE := DrainInput(0, Some(Sent("hello", None)), 0, None, None)

  function At(turnId: string, payload: Payload): Event {
    Event(Some(turnId), 0, 0, payload)
  }

  /** A slice, on a still clock and a healthy instance, whose stream is cut after `events`. */
  function CutAfter(events: seq<Event>): Attempt {
    Attempt(Streaming(200, [events], ReadFailed("socket closed", false)), 0, 0, 0, true, 0, false)
  }

  lemma ReadOne(input: DrainInput, s: DrainState, events: seq<Event>)
    requires !s.settled
    ensures ReadChunks(input, s, [events]) == Consume(input, s, events)
  {
    assert [events][1..] == [];
    assert ReadChunks(input, Consume(input, s, events), []) == Consume(input, s, events);
  }

  lemma ConsumeTwo(input: DrainInput, s: DrainState, e: Event, e': Event)
    ensures Consume(input, s, [e, e']) == Step(input, Step(input, s, e), e')
  {
    var t := Step(input, s, e);
    assert [e, e'][1..] == [e'] && [e'][1..] == [];
    assert Consume(input, t, [e']) == Consume(input, Step(input, t, e'), []);
  }

  /** A cut after the turn was identified is followed from the next event, by the turn's id. */
  lemma CutIsFollowed(first: DrainInput, policy: Policy, f: FollowState, events: seq<Event>)
    requires var s := Consume(f.slice, Opened(f.slice, f.carry), events);
             !s.settled && s.ourTurnId.Some? && s.carry.inputRequests == []
    requires f.watch.lastEventAt == 0 && 0 < policy.maxSilenceMs
    ensures var s := Consume(f.slice, Opened(f.slice, f.carry), events);
            var v := FollowStep(first, Some(policy), f, CutAfter(events));
            v.Following? && v.next.carry == s.carry &&
            v.next.slice == DrainInput(s.streamIndex, None, 0, s.ourTurnId, first.matchMessage)
  {
    ReadOne(f.slice, Opened(f.slice, f.carry), events);
  }

  lemma ConsumeOne(input: DrainInput, s: DrainState, e: Event)
    ensures Consume(input, s, [e]) == Step(input, s, e)
  {
    assert [e][1..] == [];
    assert Consume(input, Step(input, s, e), []) == Step(input, s, e);
  }

  /**
   * A model reported again after the cut is ignored by the follower and taken by the uncut drain, the turn being the
   * same.
   */
  lemma RepeatedModelDiverges()
    ensures var seen :=
            [At("t", MessageReceived(Some("hello"))), At("t", SessionStarted(Some(RuntimeModel("a", false))))];
            var later := [At("t", SessionStarted(Some(RuntimeModel("b", false))))];
            var cut := FollowStep(LIVE, Some(DEFAULT_TURN_FOLLOW), Begin(LIVE, NEW_CARRY, 0), CutAfter(seen));
            cut.Following? &&
            (var followed := Consume(cut.next.slice, Opened(cut.next.slice, cut.next.carry), later);
             var uncut := Consume(LIVE, Opened(LIVE, NEW_CARRY), seen + later);
             followed.ourTurnId == uncut.ourTurnId == Some("t") &&
             followed.carry.modelId == Some("a") && uncut.carry.modelId == Some("b"))
  {
    var e1, e2 := At("t", MessageReceived(Some("hello"))), At("t", SessionStarted(Some(RuntimeModel("a", false))));
    var e3 := At("t", SessionStarted(Some(RuntimeModel("b", false))));
    var start := Opened(LIVE, NEW_CARRY);
    ConsumeTwo(LIVE, start, e1, e2);
    var s := Step(LIVE, Step(LIVE, start, e1), e2);
    assert s.ourTurnId == Some("t") && s.carry.modelId == Some("a") && !s.settled;
    CutIsFollowed(LIVE, DEFAULT_TURN_FOLLOW, Begin(LIVE, NEW_CARRY, 0), [e1, e2]);
    ConsumeAppend(LIVE, start, [e1, e2], [e3]);
    ConsumeOne(LIVE, s, e3);
    var slice := DrainInput(2, None, 0, Some("t"), LIVE.matchMessage);
    ConsumeOne(slice, Opened(slice, s.carry), e3);
  }

  /**
   * An echo after the cut that names another turn moves the uncut drain and not the follower, with no model reported at
   * all.
   */
  lemma RepeatedEchoDiverges()
    ensures var seen := [At("t", MessageReceived(Some("hello")))];
            var later := [At("u", MessageReceived(Some("hello")))];
            var cut := FollowStep(LIVE, Some(DEFAULT_TURN_FOLLOW), Begin(LIVE, NEW_CARRY, 0), CutAfter(seen));
            cut.Following? &&
            (var followed := Consume(cut.next.slice, Opened(cut.next.slice, cut.next.carry), later);
             var uncut := Consume(LIVE, Opened(LIVE, NEW_CARRY), seen + later);
             followed.carry == uncut.carry && followed.ourTurnId == Some("t") && uncut.ourTurnId == Some("u"))
  {
    var e1, e2 := At("t", MessageReceived(Some("hello"))), At("u", MessageReceived(Some("hello")));
    var start := Opened(LIVE, NEW_CARRY);
    ConsumeOne(LIVE, start, e1);
    var s := Step(LIVE, start, e1);
    assert s.ourTurnId == Some("t") && !s.settled;
    CutIsFollowed(LIVE, DEFAULT_TURN_FOLLOW, Begin(LIVE, NEW_CARRY, 0), [e1]);
    ConsumeAppend(LIVE, start, [e1], [e2]);
    ConsumeOne(LIVE, s, e2);
    var slice := DrainInput(1, None, 0, Some("t"), LIVE.matchMessage);
    ConsumeOne(slice, Opened(slice, s.carry), e2);
  }
}
