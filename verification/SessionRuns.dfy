/**
 * What every run of a streaming turn keeps of its session row, whatever other requests do to the row
 * meanwhile: a succession moves it whole or not at all, cursors go forward, a superseded or stopped
 * turn writes nothing, and a refused send puts back only the status.
 */
module SessionRuns {
  import opened Prelude
  import opened TurnSend
  import opened SessionRow

  // ----- The traces a turn is driven by -----

  /** The send streamTurnResponse makes: a succession is a first turn, without handles or descriptor. */
  predicate Drives(input: TurnInput, send: SendInput) {
    send.sessionId == Start(input).sessionId && send.continuationToken == Start(input).continuationToken &&
    send.streamIndex == input.Base() && (send.deliverVia ==> input.row.resumeVia.Some? && !input.succession)
  }

  /** The channel could not be arranged, so nothing was sent at all. */
  function Undeliverable(input: TurnInput): StreamEvent {
    Finished(SendResult(false, input.row.sessionId, input.row.continuationToken, input.row.streamIndex, None, false,
        true, false))
  }

  ghost predicate Produced(input: TurnInput, trace: seq<StreamEvent>) {
    (!input.succession && input.row.resumeVia.Some? && trace == [Undeliverable(input)]) ||
    (exists send: SendInput, reply: Reply, policy: Option<TurnFollow.Policy>, now: int,
        attempts: seq<TurnFollow.Attempt> ::
       Drives(input, send) && trace == Trace(send, reply, policy, now, attempts))
  }

  /** What the runs below need of a trace. */
  ghost predicate WellShaped(input: TurnInput, trace: seq<StreamEvent>) {
    Shape(trace, input.Base()) &&
    (trace[0].Finished? ==>
       trace[0].result.streamIndex == input.Base() &&
       (trace[0].result.notDelivered ==>
           !trace[0].result.resumeExpired && !trace[0].result.ok && trace[0].result.turnId.None?) &&
       (trace[0].result.resumeExpired ==> !input.succession))
  }

  lemma ProducedIsWellShaped(input: TurnInput, trace: seq<StreamEvent>)
    requires Produced(input, trace)
    ensures WellShaped(input, trace)
  {
    if !(!input.succession && input.row.resumeVia.Some? && trace == [Undeliverable(input)]) {
      var send: SendInput, reply: Reply, policy: Option<TurnFollow.Policy>, now: int,
          attempts: seq<TurnFollow.Attempt> :|
        Drives(input, send) && trace == Trace(send, reply, policy, now, attempts);
      EveryTraceHasShape(send, reply, policy, now, attempts);
      if trace[0].Finished? {
        RefusalIsAlone(send, reply, policy, now, attempts, 0);
        LoneEndKeepsCursor(send, reply, policy, now, attempts);
      }
    }
  }

  // ----- The row -----

  predicate Mine(input: TurnInput, t: Turn) { t.row.claim == input.claim }

  /** The handles and the cursor are the ones the row was claimed with. */
  predicate Untouched(input: TurnInput, row: Row) {
    row.sessionId == input.row.sessionId && row.continuationToken == input.row.continuationToken &&
    row.resumeVia == input.row.resumeVia && row.streamIndex == input.row.streamIndex &&
    row.predecessor == input.row.predecessor
  }

  /** The row belongs to the successor: its handles, no channel descriptor, and the first predecessor kept. */
  predicate Succeeded(input: TurnInput, id: string, token: Option<string>, row: Row) {
    row.sessionId == Some(id) && row.continuationToken == token && row.resumeVia.None? &&
    row.predecessor == (if input.row.predecessor.None? && input.row.sessionId != Some(id) then input.row.sessionId
                        else input.row.predecessor)
  }

  /** Wholly the successor's, at a cursor its own stream has reached. */
  predicate Whole(input: TurnInput, id: string, token: Option<string>, t: Turn) {
    Succeeded(input, id, token, t.row) && t.row.streamIndex <= t.streamIndex
  }

  /**
   * What a save or a settle makes of a row whose rebind was missed: new handles beside the old descriptor and
   * predecessor.
   */
  predicate HalfMoved(input: TurnInput, id: string, token: Option<string>, row: Row) {
    row.sessionId == Some(id) && row.continuationToken == token && row.resumeVia == input.row.resumeVia &&
    row.predecessor == input.row.predecessor
  }

  // ----- A missed rebind -----

  /** The rebind that finds its row archived writes nothing, and the turn takes it for done. */
  predicate MissesBind(input: TurnInput, t: Turn, h: Happening) {
    h.Event? && h.e.Session? && h.rebinds && !t.successorBound &&
    Mine(input, t) && t.row.archived && t.row.status != Stopped
  }

  /**
   * A queued save or the settling of a begun session whose UPDATE meets the row: only the second is fenced on the
   * archive flag.
   */
  predicate WritesRow(input: TurnInput, t: Turn, h: Happening) {
    !Fenced(t.row, input.claim) &&
    ((h.Flush? && h.saves && t.queue != []) ||
     (h.End? && h.writes && t.result.Some? && t.queue == [] && !t.settled && !t.row.archived))
  }

  /** Whether the rebind was missed, and whether anything was written over the row since. */
  datatype Fate = Clean | Missed(written: bool)

  function FateAfter(input: TurnInput, t: Turn, fate: Fate, h: Happening): Fate {
    match fate
    case Clean => if MissesBind(input, t, h) then Missed(false) else Clean
    case Missed(written) => Missed(written || WritesRow(input, t, h))
  }

  function FateOf(input: TurnInput, t: Turn, fate: Fate, run: seq<Happening>): Fate
    decreases |run|
  {
    if run == [] then fate else FateOf(input, Next(input, t, run[0]), FateAfter(input, t, fate, run[0]), run[1..])
  }

  // ----- The invariant -----

  /** The row's cursor, the queued ones and the last queued one, in order. */
  predicate Rising(low: nat, queue: seq<Progress>, high: nat)
    decreases |queue|
  {
    if queue == [] then low <= high
    else low <= queue[0].streamIndex && Rising(queue[0].streamIndex, queue[1..], high)
  }

  lemma {:induction false} RisingSnoc(low: nat, queue: seq<Progress>, high: nat, p: Progress)
    requires Rising(low, queue, high) && high <= p.streamIndex
    ensures Rising(low, queue + [p], p.streamIndex)
    ensures low <= p.streamIndex
    decreases |queue|
  {
    if queue == [] {
      assert (queue + [p])[1..] == [];
    } else {
      assert (queue + [p])[1..] == queue[1..] + [p];
      RisingSnoc(queue[0].streamIndex, queue[1..], high, p);
    }
  }

  lemma {:induction false} RisingBounds(low: nat, queue: seq<Progress>, high: nat)
    requires Rising(low, queue, high)
    ensures low <= high
    decreases |queue|
  {
    if queue != [] { RisingBounds(queue[0].streamIndex, queue[1..], high); }
  }

  /** Before any `session`: nothing was queued and, while the claim holds, the row was not touched. */
  predicate Idle(input: TurnInput, t: Turn) {
    t.sessionId == Start(input).sessionId && t.continuationToken == Start(input).continuationToken &&
    t.streamIndex == input.Base() && t.savedStreamIndex == input.Base() && t.queue == [] &&
    t.successorBound == !input.succession &&
    (t.settled ==> t.result.Some?) && (t.result.Some? ==> t.result.value.streamIndex == input.Base()) &&
    (Mine(input, t) && (!t.settled || input.succession || t.result.value.notDelivered) ==> Untouched(input, t.row)) &&
    (!t.settled || t.result.value.notDelivered ==> t.effects == {})
  }

  ghost predicate IdleAt(input: TurnInput, trace: seq<StreamEvent>, rest: seq<StreamEvent>, t: Turn) {
    Idle(input, t) &&
    ((rest == trace && (t.result.None? || (!t.result.value.notDelivered && !t.result.value.resumeExpired))) ||
     (rest == [] && |trace| == 1 && trace[0].Finished? && t.result == Some(trace[0].result)) ||
     (rest == [] && |trace| == 1 && trace[0].Finished? && t.result.Some? && !t.result.value.notDelivered &&
         !t.result.value.resumeExpired))
  }

  predicate Queued(id: string, token: Option<string>, queue: seq<Progress>) {
    forall p <- queue :: p.sessionId == id && p.continuationToken == token
  }

  /** The row of a turn whose session has begun, while the claim holds. */
  predicate LiveRow(input: TurnInput, id: string, token: Option<string>, t: Turn, fate: Fate) {
    (if !input.succession then t.successorBound
     else if !t.successorBound then Untouched(input, t.row)
     else match fate
       case Clean => Whole(input, id, token, t) || (t.row.status == Stopped && Untouched(input, t.row))
       case Missed(written) =>
         if written then HalfMoved(input, id, token, t.row) && t.row.streamIndex <= t.streamIndex
         else Untouched(input, t.row)) &&
    (t.successorBound && t.row.status != Stopped ==> InOrder(t, fate))
  }

  /** The cursors of the row and of the saves that wait; a row not written since a missed rebind counts from zero. */
  predicate InOrder(t: Turn, fate: Fate) {
    var low := if fate == Missed(false) then 0 else t.row.streamIndex;
    if t.settled then low <= t.streamIndex else Rising(low, t.queue, t.savedStreamIndex)
  }

  predicate Live(input: TurnInput, id: string, token: Option<string>, t: Turn, fate: Fate) {
    t.sessionId == Some(id) && t.continuationToken == token &&
    input.Base() <= t.streamIndex && t.savedStreamIndex <= t.streamIndex &&
    Queued(id, token, t.queue) &&
    (!t.successorBound ==> input.succession && t.queue == []) &&
    (fate.Missed? ==> input.succession && t.successorBound) &&
    (t.settled ==> t.queue == [] && t.result.Some?) &&
    (t.result.Some? ==>
       t.result.value.sessionId == Some(id) && t.result.value.continuationToken == token &&
       t.result.value.streamIndex == t.streamIndex && !t.result.value.notDelivered && !t.result.value.resumeExpired) &&
    (Mine(input, t) ==> LiveRow(input, id, token, t, fate))
  }

  ghost predicate LiveAt(input: TurnInput, trace: seq<StreamEvent>, rest: seq<StreamEvent>, t: Turn, fate: Fate) {
    trace != [] && trace[0].Session? && Live(input, trace[0].sessionId, trace[0].continuationToken, t, fate) &&
    (t.result.None? ==> Tail(trace[0].sessionId, trace[0].continuationToken, rest, t.streamIndex))
  }

  ghost predicate Inv(input: TurnInput, trace: seq<StreamEvent>, rest: seq<StreamEvent>, t: Turn, fate: Fate) {
    (fate == Clean && IdleAt(input, trace, rest, t)) || LiveAt(input, trace, rest, t, fate)
  }

  // ----- One step at a time -----

  lemma QueueKeepsLive(input: TurnInput, id: string, token: Option<string>, t: Turn, fate: Fate, force: bool, now: int)
    requires Live(input, id, token, t, fate) && t.result.None?
    ensures var t' := QueueProgress(input, t, force, now);
            Live(input, id, token, t', fate) && t'.streamIndex == t.streamIndex && t'.row == t.row
  {
    if t.successorBound && Mine(input, t) && t.row.status != Stopped {
      RisingSnoc(if fate == Missed(false) then 0 else t.row.streamIndex, t.queue, t.savedStreamIndex,
                 Progress(id, token, t.streamIndex));
    }
  }

  lemma SessionStep(input: TurnInput, trace: seq<StreamEvent>, t: Turn, now: int, rebinds: bool)
    requires trace != [] && trace[0].Session? && WellShaped(input, trace) && Idle(input, t) && t.result.None?
    ensures LiveAt(input, trace, trace[1..], Handle(input, t, trace[0], now, rebinds),
                   FateAfter(input, t, Clean, Event(trace[0], now, rebinds)))
  {
    var id, token := trace[0].sessionId, trace[0].continuationToken;
    var t1 := t.(sessionId := Some(id), continuationToken := token);
    if t1.successorBound {
      assert Live(input, id, token, t1, Clean);
      QueueKeepsLive(input, id, token, t1, Clean, true, now);
    }
  }

  lemma LiveStep(input: TurnInput, trace: seq<StreamEvent>, rest: seq<StreamEvent>, t: Turn, fate: Fate, now: int,
      rebinds: bool)
    requires rest != [] && LiveAt(input, trace, rest, t, fate) && t.result.None?
    ensures LiveAt(input, trace, rest[1..], Handle(input, t, rest[0], now, rebinds), fate)
    ensures FateAfter(input, t, fate, Event(rest[0], now, rebinds)) == fate
  {
    var id, token := trace[0].sessionId, trace[0].continuationToken;
    TailStep(id, token, rest, t.streamIndex);
    if rest[0].Moved? {
      var t1 := t.(sessionId := Some(id), continuationToken := token, streamIndex := rest[0].streamIndex);
      assert Live(input, id, token, t1, fate);
      QueueKeepsLive(input, id, token, t1, fate, false, now);
    } else if rest[0].TurnSeen? {
      QueueKeepsLive(input, id, token, t, fate, true, now);
    }
  }

  lemma EventStep(input: TurnInput, trace: seq<StreamEvent>, rest: seq<StreamEvent>, t: Turn, fate: Fate, now: int,
      rebinds: bool)
    requires WellShaped(input, trace) && rest != [] && Inv(input, trace, rest, t, fate) && t.result.None?
    ensures Inv(input, trace, rest[1..], Handle(input, t, rest[0], now, rebinds),
                FateAfter(input, t, fate, Event(rest[0], now, rebinds)))
  {
    if LiveAt(input, trace, rest, t, fate) {
      LiveStep(input, trace, rest, t, fate, now, rebinds);
    } else if trace[0].Session? {
      SessionStep(input, trace, t, now, rebinds);
    }
  }

  lemma FlushStep(input: TurnInput, trace: seq<StreamEvent>, rest: seq<StreamEvent>, t: Turn, fate: Fate, saves: bool)
    requires Inv(input, trace, rest, t, fate)
    ensures Inv(input, trace, rest, FlushOne(input, t, saves), FateAfter(input, t, fate, Flush(saves)))
  {
    if LiveAt(input, trace, rest, t, fate) && t.queue != [] {
      var id, token := trace[0].sessionId, trace[0].continuationToken;
      var t', fate' := FlushOne(input, t, saves), FateAfter(input, t, fate, Flush(saves));
      assert t.queue[0] in t.queue;
      assert Queued(id, token, t'.queue);
      if Mine(input, t) && t.row.status != Stopped {
        RisingRest(if fate == Missed(false) then 0 else t.row.streamIndex, t.queue, t.savedStreamIndex);
        RisingBounds(t.queue[0].streamIndex, t.queue[1..], t.savedStreamIndex);
      }
      assert Mine(input, t') ==> LiveRow(input, id, token, t', fate');
    }
  }

  /** A save that fails leaves a gap, never a cursor out of order. */
  lemma {:induction false} RisingRest(low: nat, queue: seq<Progress>, high: nat)
    requires queue != [] && Rising(low, queue, high)
    ensures Rising(low, queue[1..], high)
  {
    if |queue| > 1 { assert queue[1..][0] == queue[1]; }
  }

  lemma SettleStep(input: TurnInput, trace: seq<StreamEvent>, rest: seq<StreamEvent>, t: Turn, fate: Fate, writes: bool)
    requires WellShaped(input, trace) && Inv(input, trace, rest, t, fate)
    ensures Inv(input, trace, rest, Settle(input, t, writes), FateAfter(input, t, fate, End(writes)))
  {
  }

  lemma OutsideStep(input: TurnInput, trace: seq<StreamEvent>, rest: seq<StreamEvent>, t: Turn, fate: Fate,
      h: Happening)
    requires WellShaped(input, trace) && Inv(input, trace, rest, t, fate) && Allowed(input, t, h)
    requires !h.Event? && !h.Flush? && !h.End?
    ensures Inv(input, trace, rest, Next(input, t, h), FateAfter(input, t, fate, h))
  {
  }

  lemma StepKeepsInv(input: TurnInput, trace: seq<StreamEvent>, rest: seq<StreamEvent>, t: Turn, fate: Fate,
      h: Happening)
    requires WellShaped(input, trace) && Inv(input, trace, rest, t, fate)
    requires Allowed(input, t, h) && Follows(rest, h)
    ensures Inv(input, trace, Advance(rest, h), Next(input, t, h), FateAfter(input, t, fate, h))
  {
    if h.Event? {
      EventStep(input, trace, rest, t, fate, h.now, h.rebinds);
    } else if h.Flush? {
      FlushStep(input, trace, rest, t, fate, h.saves);
    } else if h.End? {
      SettleStep(input, trace, rest, t, fate, h.writes);
    } else {
      OutsideStep(input, trace, rest, t, fate, h);
    }
  }

  lemma {:induction false} RunKeepsInv(input: TurnInput, trace: seq<StreamEvent>, rest: seq<StreamEvent>, t: Turn,
      fate: Fate,
      run: seq<Happening>)
    requires WellShaped(input, trace) && Inv(input, trace, rest, t, fate) && Runs(input, t, run, rest)
    ensures Inv(input, trace, Left(rest, run), After(input, t, run), FateOf(input, t, fate, run))
    decreases |run|
  {
    if run != [] {
      StepKeepsInv(input, trace, rest, t, fate, run[0]);
      RunKeepsInv(input, trace, Advance(rest, run[0]), Next(input, t, run[0]), FateAfter(input, t, fate, run[0]),
          run[1..]);
    }
  }

  /** Every run of a trace a send can produce. */
  lemma EveryRunKeepsInv(input: TurnInput, trace: seq<StreamEvent>, run: seq<Happening>)
    requires Produced(input, trace) && Runs(input, Start(input), run, trace)
    ensures Inv(input, trace, Left(trace, run), After(input, Start(input), run),
            FateOf(input, Start(input), Clean, run))
  {
    ProducedIsWellShaped(input, trace);
    RunKeepsInv(input, trace, trace, Start(input), Clean, run);
  }

  // ----- What every run keeps -----

  /** The row is the successor's as a whole. */
  ghost predicate WhollySucceeded(input: TurnInput, trace: seq<StreamEvent>, t: Turn) {
    trace != [] && trace[0].Session? && t.successorBound &&
    Whole(input, trace[0].sessionId, trace[0].continuationToken, t)
  }

  /**
   * Succession is all-or-nothing. Whatever order events, saves, failures, stops, takeovers and archivings
   * come in, while the turn holds the row its handles, descriptor, predecessor and cursor are all
   * the predecessor's, or all the successor's with a cursor the successor's own stream has reached,
   * unless a save or the settling wrote over a row whose rebind was missed.
   */
  lemma SuccessionIsAllOrNothing(input: TurnInput, trace: seq<StreamEvent>, run: seq<Happening>)
    requires input.succession && Produced(input, trace) && Runs(input, Start(input), run, trace)
    requires Mine(input, After(input, Start(input), run)) && FateOf(input, Start(input), Clean, run) != Missed(true)
    ensures var t := After(input, Start(input), run); Untouched(input, t.row) || WhollySucceeded(input, trace, t)
  {
    EveryRunKeepsInv(input, trace, run);
  }

  /** The predecessor's row has neither a channel descriptor to drop nor a predecessor to record. */
  predicate OnlyHandlesMove(input: TurnInput) {
    input.row.resumeVia.None? && (input.row.predecessor.Some? || input.row.sessionId.None?)
  }

  /**
   * And exactly then: a successor being another session, the row the turn holds is half moved after a run precisely if
   * its rebind was missed, a save or the settling has written since, and there was more to move than the handles.
   */
  lemma SuccessionIsHalvedExactly(input: TurnInput, trace: seq<StreamEvent>, run: seq<Happening>)
    requires input.succession && Produced(input, trace) && Runs(input, Start(input), run, trace)
    requires Mine(input, After(input, Start(input), run))
    requires trace[0].Session? ==> input.row.sessionId != Some(trace[0].sessionId)
    ensures var t := After(input, Start(input), run);
            Untouched(input, t.row) || WhollySucceeded(input, trace, t) <==>
            FateOf(input, Start(input), Clean, run) != Missed(true) || OnlyHandlesMove(input)
  {
    EveryRunKeepsInv(input, trace, run);
  }

  /**
   * The rebind is fenced on the archive flag and the progress saves are not: once a rebind has found its
   * row archived, the next save that runs puts the successor's handles beside the predecessor's descriptor.
   */
  lemma MissedBindIsHalved(input: TurnInput, t: Turn, session: StreamEvent, moved: StreamEvent, now: int)
    requires MissesBind(input, t, Event(session, now, true)) && Untouched(input, t.row) && t.queue == []
    requires moved.Moved? && moved.sessionId == session.sessionId && moved.streamIndex > input.Base()
    requires input.row.resumeVia.Some? && input.row.sessionId != Some(session.sessionId)
    ensures var t1 := Handle(input, t, session, now, true);
            var t2 := Handle(input, t1, moved, now + PROGRESS_THROTTLE_MS, true);
            var row := FlushOne(input, t2, true).row;
            row.sessionId == Some(session.sessionId) && row.resumeVia == input.row.resumeVia &&
            !Untouched(input, row) && !Succeeded(input, session.sessionId, session.continuationToken, row)
  {
  }

  lemma SecondEventMoves(input: TurnInput, trace: seq<StreamEvent>)
    requires Produced(input, trace) && |trace| > 1 && trace[0].Session? && trace[1].Moved?
    ensures trace[1].sessionId == trace[0].sessionId && trace[1].streamIndex > input.Base()
  {
    ProducedIsWellShaped(input, trace);
    TailStep(trace[0].sessionId, trace[0].continuationToken, trace[1..], input.Base());
  }

  lemma ArchivedBindIsHalved(input: TurnInput, trace: seq<StreamEvent>, t: Turn, now: int)
    returns (run: seq<Happening>)
    requires |trace| > 1 && trace[0].Session? && trace[1].Moved?
    requires trace[1].sessionId == trace[0].sessionId && trace[1].streamIndex > input.Base()
    requires input.succession && input.row.resumeVia.Some? && input.row.sessionId != Some(trace[0].sessionId)
    requires MissesBind(input, t, Event(trace[0], now, true)) && Untouched(input, t.row) && t.queue == [] &&
             t.result.None?
    ensures Runs(input, t, run, trace) && FateOf(input, t, Clean, run) == Missed(true)
    ensures var row := After(input, t, run).row;
            row.claim == input.claim && !Untouched(input, row) &&
            !Succeeded(input, trace[0].sessionId, trace[0].continuationToken, row)
  {
    MissedBindIsHalved(input, t, trace[0], trace[1], now);
    var bind, save := Event(trace[0], now, true), Event(trace[1], now + PROGRESS_THROTTLE_MS, true);
    var t1 := Next(input, t, bind);
    run := FlushNext(input, Next(input, t1, save), trace[1..][1..]);
    run := PrependStep(input, t1, save, Missed(false), run, trace[1..]);
    run := PrependStep(input, t, bind, Clean, run, trace);
  }

  lemma ArchivedStartIsHalved(input: TurnInput, trace: seq<StreamEvent>, now: int) returns (run: seq<Happening>)
    requires |trace| > 1 && trace[0].Session? && trace[1].Moved?
    requires trace[1].sessionId == trace[0].sessionId && trace[1].streamIndex > input.Base()
    requires input.succession && input.row.resumeVia.Some? && input.row.sessionId != Some(trace[0].sessionId)
    requires input.row.claim == input.claim && input.row.status == Running && !input.row.archived
    ensures Runs(input, Start(input), run, trace) && FateOf(input, Start(input), Clean, run) == Missed(true)
    ensures var row := After(input, Start(input), run).row;
            row.claim == input.claim && !Untouched(input, row) &&
            !Succeeded(input, trace[0].sessionId, trace[0].continuationToken, row)
  {
    var t := Next(input, Start(input), Abandon);
    run := ArchivedBindIsHalved(input, trace, Next(input, t, Archive), now);
    run := PrependStep(input, t, Archive, Clean, run, trace);
    run := PrependStep(input, Start(input), Abandon, Clean, run, trace);
  }

  lemma FlushNext(input: TurnInput, t: Turn, rest: seq<StreamEvent>) returns (run: seq<Happening>)
    requires t.queue != [] && !Fenced(t.row, input.claim)
    ensures Runs(input, t, run, rest) && After(input, t, run) == FlushOne(input, t, true)
    ensures FateOf(input, t, Missed(false), run) == Missed(true)
  {
    run := [Flush(true)];
    assert run[1..] == [];
  }

  lemma PrependStep(input: TurnInput, t: Turn, h: Happening, fate: Fate, run: seq<Happening>, rest: seq<StreamEvent>)
    returns (longer: seq<Happening>)
    requires Allowed(input, t, h) && Follows(rest, h)
    requires Runs(input, Next(input, t, h), run, Advance(rest, h))
    ensures longer == [h] + run && Runs(input, t, longer, rest)
    ensures After(input, t, longer) == After(input, Next(input, t, h), run)
    ensures FateOf(input, t, fate, longer) == FateOf(input, Next(input, t, h), FateAfter(input, t, fate, h), run)
  {
    longer := [h] + run;
    assert longer[1..] == run;
  }

  /** Such a run exists for every succession: the row is settled as abandoned and archived before the session event. */
  lemma ArchivedSuccessionIsHalved(input: TurnInput, trace: seq<StreamEvent>, now: int)
    returns (run: seq<Happening>)
    requires input.succession && input.row.claim == input.claim
    requires input.row.status == Running && !input.row.archived && input.row.resumeVia.Some?
    requires Produced(input, trace) && |trace| > 1 && trace[0].Session? && trace[1].Moved?
    requires input.row.sessionId != Some(trace[0].sessionId)
    ensures Runs(input, Start(input), run, trace) && FateOf(input, Start(input), Clean, run) == Missed(true)
    ensures var row := After(input, Start(input), run).row;
            row.claim == input.claim && !Untouched(input, row) &&
            !Succeeded(input, trace[0].sessionId, trace[0].continuationToken, row)
  {
    SecondEventMoves(input, trace);
    run := ArchivedStartIsHalved(input, trace, now);
  }

  /**
   * Within one binding the row's cursor only goes forward; the rebind (or, if it was missed, the first write after it)
   * and the clearing of the handles start a new one.
   */
  lemma CursorGoesForward(input: TurnInput, trace: seq<StreamEvent>, run: seq<Happening>, h: Happening)
    requires Produced(input, trace) && Runs(input, Start(input), run, trace)
    requires var t := After(input, Start(input), run);
             Allowed(input, t, h) && Follows(Left(trace, run), h) && Mine(input, Next(input, t, h))
    ensures var t := After(input, Start(input), run);
            Next(input, t, h).row.streamIndex >= t.row.streamIndex ||
            (h.Event? && h.e.Session? && !t.successorBound) ||
            (FateOf(input, Start(input), Clean, run) == Missed(false) && WritesRow(input, t, h)) ||
            (h.End? && t.result.Some? && t.result.value.resumeExpired && input.row.resumeVia.Some?)
  {
    EveryRunKeepsInv(input, trace, run);
    StepGoesForward(input, trace, Left(trace, run), After(input, Start(input), run),
                    FateOf(input, Start(input), Clean, run), h);
  }

  lemma StepGoesForward(input: TurnInput, trace: seq<StreamEvent>, rest: seq<StreamEvent>, t: Turn, fate: Fate,
      h: Happening)
    requires Inv(input, trace, rest, t, fate) && Allowed(input, t, h) && Mine(input, Next(input, t, h))
    ensures Next(input, t, h).row.streamIndex >= t.row.streamIndex ||
            (h.Event? && h.e.Session? && !t.successorBound) ||
            (fate == Missed(false) && WritesRow(input, t, h)) ||
            (h.End? && t.result.Some? && t.result.value.resumeExpired && input.row.resumeVia.Some?)
  {
  }

  lemma {:induction false} RisingAt(low: nat, queue: seq<Progress>, high: nat, i: nat)
    requires Rising(low, queue, high) && i < |queue|
    ensures low <= queue[i].streamIndex <= high
    ensures forall j :: 0 <= j < i ==> queue[j].streamIndex <= queue[i].streamIndex
    decreases |queue|
  {
    if i == 0 {
      RisingBounds(queue[0].streamIndex, queue[1..], high);
    } else {
      RisingAt(queue[0].streamIndex, queue[1..], high, i - 1);
      forall j | 0 <= j < i ensures queue[j].streamIndex <= queue[i].streamIndex {
        if j > 0 { assert queue[j] == queue[1..][j - 1]; }
      }
    }
  }

  /**
   * Queued saves run oldest first, and none of them takes the row back: in every run, while the turn holds an unstopped
   * row it has bound, each save still waiting is of the turn's session and token, is no older than the row's cursor or
   * than the saves before it, and is at an index the stream has reached.
   */
  lemma QueuedSavesAreInOrder(input: TurnInput, trace: seq<StreamEvent>, run: seq<Happening>, i: nat)
    requires Produced(input, trace) && Runs(input, Start(input), run, trace)
    requires var t := After(input, Start(input), run);
             Mine(input, t) && t.row.status != Stopped && i < |t.queue|
    ensures var t := After(input, Start(input), run);
            t.sessionId == Some(t.queue[i].sessionId) && t.queue[i].continuationToken == t.continuationToken &&
            t.queue[i].streamIndex <= t.streamIndex &&
            (FateOf(input, Start(input), Clean, run) != Missed(false) ==>
                t.row.streamIndex <= t.queue[i].streamIndex) &&
            forall j :: 0 <= j < i ==> t.queue[j].streamIndex <= t.queue[i].streamIndex
  {
    EveryRunKeepsInv(input, trace, run);
    var t, fate := After(input, Start(input), run), FateOf(input, Start(input), Clean, run);
    assert t.queue[i] in t.queue;
    assert Queued(trace[0].sessionId, trace[0].continuationToken, t.queue);
    RisingAt(if fate == Missed(false) then 0 else t.row.streamIndex, t.queue, t.savedStreamIndex, i);
  }

  lemma {:induction false} BodyGoesForward(id: string, token: Option<string>, events: seq<StreamEvent>, start: nat)
    requires Body(id, token, events, start)
    ensures LastIndex(events, start) >= start
    decreases |events|
  {
    if events != [] {
      var front := events[..|events| - 1];
      forall i | 0 <= i < |front| ensures front[..i] == events[..i] {}
      BodyGoesForward(id, token, front, start);
    }
  }

  /**
   * The last write leaves the row on the last index its stream moved to, for every run, a turn that threw included,
   * unless the channel session was reported gone, when it takes the handles off the row.
   */
  lemma SettledOnFinalIndex(input: TurnInput, trace: seq<StreamEvent>, run: seq<Happening>)
    requires Produced(input, trace) && Runs(input, Start(input), run, trace)
    requires var t := After(input, Start(input), run);
             t.result.Some? && !t.settled && t.queue == [] && t.successorBound &&
             !Fenced(t.row, input.claim) && !t.row.archived && (t.result.value.notDelivered ==> Mine(input, t))
    ensures var t := After(input, Start(input), run);
            var row, r := Settle(input, t, true).row, t.result.value;
            if input.row.resumeVia.Some? && r.resumeExpired then row.sessionId.None? && row.streamIndex == 0
            else
              row.streamIndex == t.streamIndex &&
              (!r.notDelivered ==>
                  row.sessionId == r.sessionId.Or(t.sessionId) && row.status == if r.ok then Waiting else Status.Failed)
  {
    EveryRunKeepsInv(input, trace, run);
  }

  lemma TraceEndsOnLastIndex(input: TurnInput, trace: seq<StreamEvent>)
    requires WellShaped(input, trace) && |trace| > 1 && trace[0].Session? && trace[|trace| - 1].Finished?
    ensures var r := trace[|trace| - 1].result;
            r.sessionId == Some(trace[0].sessionId) && !r.notDelivered && !r.resumeExpired &&
            r.streamIndex == LastIndex(trace[1..|trace| - 1], input.Base()) >= input.Base()
  {
    var tail := trace[1..];
    assert tail[..|tail| - 1] == trace[1..|trace| - 1];
    assert tail[|tail| - 1] == trace[|trace| - 1];
    BodyGoesForward(trace[0].sessionId, trace[0].continuationToken, tail[..|tail| - 1], input.Base());
  }

  lemma {:induction false} EndedHandlesNothing(input: TurnInput, t: Turn, run: seq<Happening>, rest: seq<StreamEvent>)
    requires Runs(input, t, run, rest) && t.result.Some?
    ensures Left(rest, run) == rest
    ensures var t' := After(input, t, run);
            t'.streamIndex == t.streamIndex && t'.result.Some? &&
            t'.result.value.ok == (t.result.value.ok && Throw !in run)
    decreases |run|
  {
    if run != [] {
      EndedHandlesNothing(input, Next(input, t, run[0]), run[1..], rest);
      assert run == [run[0]] + run[1..];
    }
  }

  lemma LastEventEnds(input: TurnInput, trace: seq<StreamEvent>, t: Turn, fate: Fate, e: StreamEvent, h: Happening)
    requires WellShaped(input, trace) && Inv(input, trace, [e], t, fate) && t.result.None? && e.Finished?
    requires Allowed(input, t, h) && h.Event? && h.e == e
    ensures var t' := Next(input, t, h); t'.result == Some(e.result) && t'.streamIndex == e.result.streamIndex
  {
    EventStep(input, trace, [e], t, fate, h.now, h.rebinds);
  }

  /** A run that handles all that is left of its trace ends on the index of the trace's end. */
  lemma {:induction false} HandledToTheEnd(input: TurnInput, trace: seq<StreamEvent>, rest: seq<StreamEvent>, t: Turn,
      fate: Fate, run: seq<Happening>)
    requires WellShaped(input, trace) && Inv(input, trace, rest, t, fate) && t.result.None?
    requires Runs(input, t, run, rest) && rest != [] && rest[|rest| - 1].Finished? && Left(rest, run) == []
    ensures var t', r := After(input, t, run), rest[|rest| - 1].result;
            t'.result.Some? && t'.streamIndex == r.streamIndex && t'.result.value.ok == (r.ok && Throw !in run)
    decreases |run|
  {
    var h := run[0];
    var t1, rest1 := Next(input, t, h), Advance(rest, h);
    assert run == [h] + run[1..];
    if t1.result.Some? {
      EndedHandlesNothing(input, t1, run[1..], rest1);
      assert rest == [rest[0]];
      LastEventEnds(input, trace, t, fate, rest[0], h);
    } else {
      StepKeepsInv(input, trace, rest, t, fate, h);
      HandledToTheEnd(input, trace, rest1, t1, FateAfter(input, t, fate, h), run[1..]);
    }
  }

  /**
   * Once a run has handled its whole trace, the settling leaves the row on the trace's last index and bound to the
   * session it streamed, as waiting exactly if the trace ended well and the loop did not throw after it.
   */
  lemma FinishedOnFinalIndex(input: TurnInput, trace: seq<StreamEvent>, run: seq<Happening>)
    requires Produced(input, trace) && |trace| > 1 && trace[0].Session? && trace[|trace| - 1].Finished?
    requires Runs(input, Start(input), run, trace) && Left(trace, run) == []
    requires var t := After(input, Start(input), run);
             !t.settled && t.queue == [] && t.successorBound && !Fenced(t.row, input.claim) && !t.row.archived
    ensures var row := Settle(input, After(input, Start(input), run), true).row;
            row.streamIndex == LastIndex(trace[1..|trace| - 1], input.Base()) &&
            row.sessionId == Some(trace[0].sessionId) &&
            row.status == if trace[|trace| - 1].result.ok && Throw !in run then Waiting else Status.Failed
  {
    ProducedIsWellShaped(input, trace);
    TraceEndsOnLastIndex(input, trace);
    HandledToTheEnd(input, trace, trace, Start(input), Clean, run);
    EveryRunKeepsInv(input, trace, run);
  }

  predicate DrainOnly(run: seq<Happening>) {
    forall h <- run :: h.Event? || h.Flush? || h.Throw? || h.End?
  }

  /** A turn that was stopped or taken over writes nothing more; only the unfenced clearing of dead handles remains. */
  lemma {:induction false} FencedTurnWritesNothing(input: TurnInput, t: Turn, run: seq<Happening>)
    requires Fenced(t.row, input.claim) && DrainOnly(run)
    ensures var row := After(input, t, run).row;
            row == t.row || (input.row.resumeVia.Some? && row == ClearHandles(t.row))
    decreases |run|
  {
    if run != [] {
      assert run[0] in run;
      FencedTurnWritesNothing(input, Next(input, t, run[0]), run[1..]);
    }
  }

  /**
   * A refused send changes nothing. When the turn ends undelivered, however the run went, its settling leaves
   * the claimed row as it was but for the status, which goes back to what it was before the claim (a stale
   * `running` becomes `waiting`), and settles neither inbox nor delegation nor run.
   */
  lemma RefusedSendOnlyReleases(input: TurnInput, trace: seq<StreamEvent>, run: seq<Happening>)
    requires Produced(input, trace) && Runs(input, Start(input), run, trace)
    requires var t := After(input, Start(input), run);
             t.result.Some? && t.result.value.notDelivered && !t.settled && Mine(input, t)
    ensures var t := After(input, Start(input), run);
            var t' := Settle(input, t, true);
            !t.result.value.resumeExpired && t'.settled && t'.effects == {} && Untouched(input, t'.row) &&
            t'.row == (if t.row.status == Stopped then t.row
                       else t.row.(status := if input.preClaim == Running then Waiting else input.preClaim))
  {
    EveryRunKeepsInv(input, trace, run);
  }
}
