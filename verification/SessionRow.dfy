/**
 * The session row of a conversation (app/playground/sessions.server.ts) and the streaming turn that
 * writes it (app/chat/turn-stream.server.ts): throttled progress saves run one after another, a
 * succession rebinds the row in one write, a refused send only releases its claim, and the turn's end
 * settles the row.
 */
module SessionRow {
  import opened Prelude
  import opened TurnSend

  datatype Status = Waiting | Running | Completed | Failed | Stopped

  datatype Row = Row(
    sessionId: Option<string>,
    continuationToken: Option<string>,
    resumeVia: Option<string>,
    streamIndex: nat,
    predecessor: Option<string>,
    status: Status,
    claim: Option<string>,
    archived: bool)

  // ----- The guarded writes -----

  /** Stop wins, and a drain that carries a claim writes only while the row still holds it. */
  predicate Fenced(row: Row, claim: Option<string>) {
    row.status == Stopped || (claim.Some? && row.claim != claim)
  }

  datatype Progress = Progress(sessionId: string, continuationToken: Option<string>, streamIndex: nat)

  function SaveProgress(row: Row, p: Progress, claim: Option<string>): Row {
    if Fenced(row, claim) then row
    else row.(sessionId := Some(p.sessionId), continuationToken := p.continuationToken,
              streamIndex := p.streamIndex, status := Running)
  }

  function SaveCursor(row: Row, sessionId: Option<string>, token: Option<string>, streamIndex: nat, status: Status,
      claim: Option<string>): Row {
    if Fenced(row, claim) || row.archived then row
    else row.(sessionId := sessionId, continuationToken := token, streamIndex := streamIndex, status := status)
  }

  /** The predecessor is recorded once; the channel descriptor goes; the cursor starts over. */
  function BindSuccessor(row: Row, sessionId: string, token: Option<string>, claim: Option<string>): Row {
    if Fenced(row, claim) || row.archived then row
    else row.(predecessor := if row.predecessor.None? && row.sessionId != Some(sessionId) then row.sessionId
                             else row.predecessor,
              sessionId := Some(sessionId), continuationToken := token, resumeVia := None,
              streamIndex := 0, status := Running)
  }

  function ReleaseClaim(row: Row, preClaim: Status, claim: Option<string>): Row {
    if Fenced(row, claim) then row
    else row.(status := if preClaim == Running then Waiting else preClaim)
  }

  function ClearHandles(row: Row): Row {
    row.(sessionId := None, continuationToken := None, resumeVia := None, streamIndex := 0)
  }

  // ----- The turn -----

  /** What the route hands over: the row as it was claimed, and how the turn is sent. */
  datatype TurnInput = TurnInput(row: Row, succession: bool, claim: Option<string>, preClaim: Status, foh: bool,
      delegated: bool)
  {
    /** A succession starts the successor's stream at zero; the stored cursor is the predecessor's. */
    function Base(): nat { if succession then 0 else row.streamIndex }
  }

  /** Writes outside the row: the inbox, the delegation and the run record. */
  datatype Effect = SettledInbox | FinalizedDelegation | RecordedRun

  datatype Turn = Turn(
    row: Row,
    sessionId: Option<string>,
    continuationToken: Option<string>,
    streamIndex: nat,
    savedSessionId: Option<string>,
    savedStreamIndex: nat,
    successorBound: bool,
    lastSavedAt: int,
    queue: seq<Progress>,
    result: Option<SendResult>,
    settled: bool,
    effects: set<Effect>)

  function Start(input: TurnInput): Turn {
    var sessionId := if input.succession then None else input.row.sessionId;
    Turn(input.row, sessionId, if input.succession then None else input.row.continuationToken, input.Base(),
         sessionId, input.Base(), !input.succession, 0, [], None, false, {})
  }

  const PROGRESS_THROTTLE_MS := 1_000

  function QueueProgress(input: TurnInput, t: Turn, force: bool, now: int): Turn {
    var next := Max(t.streamIndex, input.Base());
    if t.sessionId.None? || !t.successorBound then t
    else if !force && t.sessionId == t.savedSessionId &&
            (next <= t.savedStreamIndex || now - t.lastSavedAt < PROGRESS_THROTTLE_MS) then t
    else t.(savedSessionId := t.sessionId, savedStreamIndex := next, lastSavedAt := now,
            queue := t.queue + [Progress(t.sessionId.value, t.continuationToken, next)])
  }

  /** One event of the send; `writes` is false when the rebind's UPDATE throws. */
  function Handle(input: TurnInput, t: Turn, e: StreamEvent, now: int, writes: bool): Turn {
    match e
    case Session(id, token) =>
      var t1 := t.(sessionId := Some(id), continuationToken := token);
      if t1.successorBound then QueueProgress(input, t1, true, now)
      else if !writes then t1
      else t1.(row := BindSuccessor(t.row, id, token, input.claim), successorBound := true,
               savedSessionId := Some(id), savedStreamIndex := 0, lastSavedAt := now)
    case Moved(id, token, index) =>
      QueueProgress(input, t.(sessionId := Some(id), continuationToken := token, streamIndex := index), false, now)
    case TurnSeen(_) => QueueProgress(input, t, true, now)
    case Shown => t
    case Finished(result) => t.(result := Some(result))
  }

  /** The oldest queued save runs; `writes` is false when its UPDATE throws. */
  function FlushOne(input: TurnInput, t: Turn, writes: bool): Turn {
    if t.queue == [] then t
    else t.(queue := t.queue[1..], row := if writes then SaveProgress(t.row, t.queue[0], input.claim) else t.row)
  }

  function SettleRow(input: TurnInput, t: Turn, r: SendResult): Row {
    var status := if r.ok then Waiting else Failed;
    if r.notDelivered then ReleaseClaim(t.row, input.preClaim, input.claim)
    else if !t.successorBound then
      SaveCursor(t.row, input.row.sessionId, input.row.continuationToken, input.row.streamIndex, status, input.claim)
    else
      SaveCursor(t.row,
                 r.sessionId.Or(if input.succession then t.sessionId else input.row.sessionId),
                 r.continuationToken.Or(if input.succession then t.continuationToken else input.row.continuationToken),
                 Max(r.streamIndex, input.Base()), status, input.claim)
  }

  function EffectsOf(input: TurnInput, r: SendResult): set<Effect> {
    if r.notDelivered then {}
    else (if input.foh then {SettledInbox} else {}) +
         (if input.foh && input.delegated then {FinalizedDelegation} else {}) +
         (if r.sessionId.Some? && r.turnId.Some? then {RecordedRun} else {})
  }

  /** The turn's end, once every queued save has run. */
  function Settle(input: TurnInput, t: Turn, writes: bool): Turn {
    if t.result.None? || t.queue != [] || t.settled then t
    else
      var r := t.result.value;
      var row := if writes then SettleRow(input, t, r) else t.row;
      t.(settled := true,
         row := if input.row.resumeVia.Some? && r.resumeExpired then ClearHandles(row) else row,
         effects := EffectsOf(input, r))
  }

  /** What the loop makes of an exception: the handles it holds, and no more. */
  function Crash(t: Turn): Turn {
    t.(result := Some(SendResult(false, t.sessionId, t.continuationToken, t.streamIndex, None, false, false, false)))
  }

  class TurnStream {
    const input: TurnInput
    var row: Row
    var sessionId: Option<string>
    var continuationToken: Option<string>
    var streamIndex: nat
    var savedSessionId: Option<string>
    var savedStreamIndex: nat
    var successorBound: bool
    var lastSavedAt: int
    var queue: seq<Progress>
    var result: Option<SendResult>
    var settled: bool
    var effects: set<Effect>

    function State(): Turn reads this {
      Turn(row, sessionId, continuationToken, streamIndex, savedSessionId, savedStreamIndex, successorBound,
           lastSavedAt, queue, result, settled, effects)
    }

    constructor (input: TurnInput)
      ensures this.input == input && State() == Start(input)
    {
      this.input := input;
      row := input.row;
      sessionId := if input.succession then None else input.row.sessionId;
      continuationToken := if input.succession then None else input.row.continuationToken;
      streamIndex, savedStreamIndex := input.Base(), input.Base();
      savedSessionId := if input.succession then None else input.row.sessionId;
      successorBound := !input.succession;
      lastSavedAt, queue, result, settled, effects := 0, [], None, false, {};
    }

    method QueueProgressSave(force: bool, now: int)
      modifies this`savedSessionId, this`savedStreamIndex, this`lastSavedAt, this`queue
      ensures State() == QueueProgress(input, old(State()), force, now)
    {
      if sessionId.None? || !successorBound { return; }
      var nextStreamIndex := Max(streamIndex, input.Base());
      var sessionChanged := sessionId != savedSessionId;
      var advanced := nextStreamIndex > savedStreamIndex;
      if !force && !sessionChanged && (!advanced || now - lastSavedAt < PROGRESS_THROTTLE_MS) { return; }
      savedSessionId, savedStreamIndex, lastSavedAt := sessionId, nextStreamIndex, now;
      queue := queue + [Progress(sessionId.value, continuationToken, nextStreamIndex)];
    }

    method OnEvent(e: StreamEvent, now: int, writes: bool)
      modifies this
      ensures State() == Handle(input, old(State()), e, now, writes)
    {
      match e {
        case Session(id, token) =>
          sessionId, continuationToken := Some(id), token;
          if successorBound {
            QueueProgressSave(true, now);
          } else if writes {
            row := BindSuccessor(row, id, token, input.claim);
            successorBound := true;
            savedSessionId, savedStreamIndex, lastSavedAt := Some(id), 0, now;
          }
        case Moved(id, token, index) =>
          sessionId, continuationToken, streamIndex := Some(id), token, index;
          QueueProgressSave(false, now);
        case TurnSeen(_) => QueueProgressSave(true, now);
        case Shown =>
        case Finished(r) => result := Some(r);
      }
    }

    /**
     * The oldest queued save; a fenced row is left alone, any other takes that save's handles and cursor and no more.
     */
    method RunQueued(writes: bool)
      modifies this`queue, this`row
      ensures State() == FlushOne(input, old(State()), writes)
      ensures Fenced(old(row), input.claim) ==> row == old(row)
      ensures row.resumeVia == old(row.resumeVia) && row.predecessor == old(row.predecessor) &&
              row.claim == old(row.claim)
    {
      if queue != [] {
        if writes { row := SaveProgress(row, queue[0], input.claim); }
        queue := queue[1..];
      }
    }

    /** The loop threw: the turn ends on the handles it holds. */
    method Catch()
      modifies this`result
      ensures State() == Crash(old(State()))
    {
      result := Some(SendResult(false, sessionId, continuationToken, streamIndex, None, false, false, false));
    }

    method WriteFinalRow(r: SendResult)
      modifies this`row
      ensures row == SettleRow(input, old(State()), r)
    {
      var status := if r.ok then Waiting else Failed;
      if r.notDelivered {
        row := ReleaseClaim(row, input.preClaim, input.claim);
      } else if !successorBound {
        row := SaveCursor(row, input.row.sessionId, input.row.continuationToken, input.row.streamIndex, status,
            input.claim);
      } else {
        row := SaveCursor(row,
          r.sessionId.Or(if input.succession then sessionId else input.row.sessionId),
          r.continuationToken.Or(if input.succession then continuationToken else input.row.continuationToken),
          Max(r.streamIndex, input.Base()), status, input.claim);
      }
    }

    method SettleElsewhere(r: SendResult)
      modifies this`effects
      ensures effects == EffectsOf(input, r)
    {
      effects := {};
      if !r.notDelivered {
        if input.foh { effects := effects + {SettledInbox}; }
        if input.foh && input.delegated { effects := effects + {FinalizedDelegation}; }
        if r.sessionId.Some? && r.turnId.Some? { effects := effects + {RecordedRun}; }
      }
    }

    method Finish(writes: bool)
      requires result.Some? && queue == [] && !settled
      modifies this`row, this`settled, this`effects
      ensures State() == Settle(input, old(State()), writes)
    {
      var r := result.value;
      if writes { WriteFinalRow(r); }
      if input.row.resumeVia.Some? && r.resumeExpired { row := ClearHandles(row); }
      SettleElsewhere(r);
      settled := true;
    }
  }

  // ----- Runs -----

  /** What happens to the row and the turn, in any order the loop and other requests allow. */
  datatype Happening =
    | Event(e: StreamEvent, now: int, rebinds: bool)
    | Flush(saves: bool)
    | Throw
    | End(writes: bool)
    /** Another request stops the turn, takes the row over, or finds it abandoned. */
    | Stop
    | TakeOver(claimant: string)
    | Abandon
    /** Whoever holds the claim now writes what it likes. */
    | OtherWrite(other: Row)
    | Archive
    | Unarchive

  predicate Allowed(input: TurnInput, t: Turn, h: Happening) {
    match h
    case Event(_, _, _) => t.result.None?
    case TakeOver(claimant) => !t.row.archived && Some(claimant) != input.claim
    case OtherWrite(other) => t.row.claim != input.claim && other.claim == t.row.claim
    case Throw => !t.settled
    case Abandon => t.row.status == Running
    case Archive => t.row.status != Running
    case _ => true
  }

  function Next(input: TurnInput, t: Turn, h: Happening): Turn {
    match h
    case Event(e, now, rebinds) => Handle(input, t, e, now, rebinds)
    case Flush(saves) => FlushOne(input, t, saves)
    case Throw => Crash(t)
    case End(writes) => Settle(input, t, writes)
    case Stop => t.(row := t.row.(status := Stopped))
    case TakeOver(claimant) => t.(row := t.row.(claim := Some(claimant), status := Running))
    case Abandon => t.(row := t.row.(status := Failed))
    case OtherWrite(other) => t.(row := other)
    case Archive => t.(row := t.row.(archived := true))
    case Unarchive => t.(row := t.row.(archived := false))
  }

  /** The loop handles the trace's events in order. */
  predicate Follows(rest: seq<StreamEvent>, h: Happening) {
    h.Event? ==> rest != [] && h.e == rest[0]
  }

  function Advance(rest: seq<StreamEvent>, h: Happening): seq<StreamEvent> {
    if h.Event? && rest != [] then rest[1..] else rest
  }

  /** A run that is allowed at each point and whose events are, in order, the trace's. */
  predicate Runs(input: TurnInput, t: Turn, run: seq<Happening>, rest: seq<StreamEvent>)
    decreases |run|
  {
    run == [] ||
    (Allowed(input, t, run[0]) && Follows(rest, run[0]) &&
     Runs(input, Next(input, t, run[0]), run[1..], Advance(rest, run[0])))
  }

  function After(input: TurnInput, t: Turn, run: seq<Happening>): Turn
    decreases |run|
  {
    if run == [] then t else After(input, Next(input, t, run[0]), run[1..])
  }

  /** The events a run has left to come. */
  function Left(rest: seq<StreamEvent>, run: seq<Happening>): seq<StreamEvent>
    decreases |run|
  {
    if run == [] then rest else Left(Advance(rest, run[0]), run[1..])
  }

  /** The turn's object through a whole run, other requests' writes to the row included. */
  method Play(turn: TurnStream, run: seq<Happening>)
    modifies turn
    ensures turn.State() == After(turn.input, old(turn.State()), run)
  {
    for i := 0 to |run|
      invariant After(turn.input, turn.State(), run[i..]) == After(turn.input, old(turn.State()), run)
    {
      assert run[i..][0] == run[i] && run[i..][1..] == run[i + 1..];
      match run[i] {
        case Event(e, now, rebinds) => turn.OnEvent(e, now, rebinds);
        case Flush(saves) => turn.RunQueued(saves);
        case Throw => turn.Catch();
        case End(writes) => if turn.result.Some? && turn.queue == [] && !turn.settled { turn.Finish(writes); }
        case Stop => turn.row := turn.row.(status := Stopped);
        case TakeOver(claimant) => turn.row := turn.row.(claim := Some(claimant), status := Running);
        case Abandon => turn.row := turn.row.(status := Failed);
        case OtherWrite(other) => turn.row := other;
        case Archive => turn.row := turn.row.(archived := true);
        case Unarchive => turn.row := turn.row.(archived := false);
      }
    }
  }
}
