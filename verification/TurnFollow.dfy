/**
 * Following a turn whose stream gives out (app/agent/talk.server.ts, `followDrain`): reopen the
 * stream at the cursor, as the turn's id, and carry on accumulating.
 *
 * Everything the loop observes from outside arrives as an `Attempt`: what the stream request gave,
 * what the health check said and what the clock read.
 */
module TurnFollow {
  import opened Prelude
  import opened TurnEvents
  import opened TurnDrain

  datatype Policy = Policy(maxSilenceMs: int, unreachableMs: int)

  const DEFAULT_TURN_FOLLOW := Policy(60 * 60_000, 3 * 60_000)

  datatype Attempt = Attempt(
    connection: Connection,
    startedAt: int,
    /** The clock at the slice's last progress event; read only when there was one. */
    progressAt: int,
    /** The clock, and the health check's answer, after a slice without progress. */
    checkedAt: int,
    healthy: bool,
    /** The clock after the pause between slices, and whether the caller has stopped the turn. */
    resumedAt: int,
    aborted: bool)

  /** What the loop remembers about how the watch is going. */
  datatype Watch = Watch(lastEventAt: int, unreachableSince: Option<int>, backoffMs: int)

  datatype FollowState = FollowState(slice: DrainInput, carry: Carry, yielded: seq<TalkEvent>, watch: Watch)

  /** Why the loop handed its caller a `done`. */
  datatype Reason = Outcome | Unattributed | Unreachable | Silent | Stopped

  datatype Verdict =
    | Following(next: FollowState)
    | Done(yielded: seq<TalkEvent>, result: TurnResult, reason: Reason)

  const FIRST_BACKOFF_MS := 1_000
  const MAX_BACKOFF_MS := 15_000
  const QUICK_SLICE_MS := 5_000

  /** A stream status that reattaching cannot fix. */
  predicate StreamRefused(status: Option<int>) {
    status.Some? && 400 <= status.value < 500 && status.value != 408 && status.value != 429
  }

  predicate Progressed(events: seq<TalkEvent>) {
    exists i :: 0 <= i < |events| && events[i].Progress?
  }

  /** The result as the loop hands it on: a give-up names its own error, a stop is never a loss. */
  function Reported(result: TurnResult, reason: Reason): TurnResult {
    match reason
    case Unreachable => result.(error := Some("The agent stopped answering."))
    case Silent => result.(error := Some("The agent has sent nothing, so harnesst stopped waiting."))
    case Stopped => result.(error := Some("Couldn't read the reply stream: Turn was stopped."), streamLost := false)
    case _ => result
  }

  function NextSlice(first: DrainInput, result: TurnResult): DrainInput {
    var identified := result.turnId.Some?;
    DrainInput(result.streamIndex,
               if identified then None else first.matchMessage,
               if identified then 0 else first.postedAt,
               result.turnId,
               first.matchMessage)
  }

  /** Whether the loop ends after a slice, and what it remembers if it does not. */
  datatype Judgement = Judgement(reason: Option<Reason>, watch: Watch)

  function Judge(policy: Option<Policy>, w: Watch, startIndex: nat, result: TurnResult, progressed: bool,
      a: Attempt): Judgement {
    var lastEventAt := if progressed then a.progressAt else w.lastEventAt;
    var unreachableSince := if progressed || a.healthy then None else w.unreachableSince.Or(Some(a.checkedAt));
    var pauses := !progressed && a.checkedAt - a.startedAt < QUICK_SLICE_MS;
    var backoffMs := if progressed then FIRST_BACKOFF_MS
                     else if pauses then Min(w.backoffMs * 2, MAX_BACKOFF_MS)
                     else w.backoffMs;
    var reason :=
      if policy.None? || !result.streamLost || StreamRefused(a.connection.StreamStatus()) then Some(Outcome)
      else if result.turnId.None? && result.streamIndex > startIndex then Some(Unattributed)
      else if unreachableSince.Some? && a.checkedAt - unreachableSince.value >= policy.value.unreachableMs
          then Some(Unreachable)
      else if a.resumedAt - lastEventAt >= policy.value.maxSilenceMs then Some(Silent)
      else if a.aborted then Some(Stopped)
      else None;
    Judgement(reason, Watch(lastEventAt, unreachableSince, backoffMs))
  }

  function FollowStep(first: DrainInput, policy: Option<Policy>, f: FollowState, a: Attempt): Verdict {
    var d := Drain(f.slice, f.carry, a.connection);
    var yielded := f.yielded + d.yielded;
    var judged := Judge(policy, f.watch, f.slice.startIndex, d.result, Progressed(d.yielded), a);
    if judged.reason.Some? then Done(yielded, Reported(d.result, judged.reason.value), judged.reason.value)
    else Following(FollowState(NextSlice(first, d.result), d.result.carry, yielded, judged.watch))
  }

  function FollowRun(first: DrainInput, policy: Option<Policy>, f: FollowState, attempts: seq<Attempt>): Verdict
    decreases |attempts|
  {
    if attempts == [] then Following(f)
    else
      var v := FollowStep(first, policy, f, attempts[0]);
      if v.Done? then v else FollowRun(first, policy, v.next, attempts[1..])
  }

  function Begin(first: DrainInput, carry: Carry, now: int): FollowState {
    FollowState(first, carry, [], Watch(now, None, FIRST_BACKOFF_MS))
  }

  /** The loop's own variables and the carry the slices share. */
  class TurnFollower {
    const first: DrainInput
    const policy: Option<Policy>
    const carry: DrainCarry
    var slice: DrainInput
    var yielded: seq<TalkEvent>
    var lastEventAt: int
    var unreachableSince: Option<int>
    var backoffMs: int

    ghost predicate Valid() reads carry.reasoning { carry.Valid() }

    function State(): FollowState
      reads this, carry, carry.reasoning
      requires carry.reasoning.Valid()
    {
      FollowState(slice, carry.Value(), yielded, Watch(lastEventAt, unreachableSince, backoffMs))
    }

    constructor (first: DrainInput, policy: Option<Policy>, carry: DrainCarry, now: int)
      requires carry.Valid()
      ensures this.first == first && this.policy == policy && this.carry == carry
      ensures Valid() && State() == Begin(first, carry.Value(), now)
    {
      this.first, this.policy, this.carry := first, policy, carry;
      slice, yielded := first, [];
      lastEventAt, unreachableSince, backoffMs := now, None, FIRST_BACKOFF_MS;
    }

    /** What a slice that ended without settling the turn means for the watch. */
    method Weigh(result: TurnResult, progressed: bool, status: Option<int>, a: Attempt) returns (reason: Option<Reason>)
      requires status == a.connection.StreamStatus()
      modifies this`lastEventAt, this`unreachableSince, this`backoffMs
      ensures var j :=
              Judge(policy, old(Watch(lastEventAt, unreachableSince, backoffMs)), slice.startIndex, result,
              progressed, a);
              reason == j.reason && (reason.None? ==> Watch(lastEventAt, unreachableSince, backoffMs) == j.watch)
    {
      if progressed { lastEventAt := a.progressAt; }
      if policy.None? || !result.streamLost || StreamRefused(status) { return Some(Outcome); }
      // The stream moved past the cursor without ever showing our message.
      if result.turnId.None? && result.streamIndex > slice.startIndex { return Some(Unattributed); }
      if progressed {
        unreachableSince, backoffMs := None, FIRST_BACKOFF_MS;
      } else {
        var t := a.checkedAt;
        if a.healthy {
          unreachableSince := None;
        } else if unreachableSince.None? {
          unreachableSince := Some(t);
        }
        if unreachableSince.Some? && t - unreachableSince.value >= policy.value.unreachableMs {
          return Some(Unreachable);
        }
        // A slice that failed at once would otherwise spin; the pause itself shows in `resumedAt`.
        if t - a.startedAt < QUICK_SLICE_MS { backoffMs := Min(backoffMs * 2, MAX_BACKOFF_MS); }
      }
      if a.resumedAt - lastEventAt >= policy.value.maxSilenceMs { return Some(Silent); }
      if a.aborted { return Some(Stopped); }
      return None;
    }

    /** One turn of the loop. */
    method WatchSlice(a: Attempt) returns (verdict: Verdict)
      requires Valid()
      modifies this, carry, carry.reasoning
      ensures Valid() && verdict == FollowStep(first, policy, old(State()), a)
      ensures verdict.Following? ==> verdict.next == State()
      ensures verdict.Done? ==> verdict.result.carry == carry.Value()
    {
      var events, result := DrainTurnStream(slice, carry, a.connection);
      var progressed := AnyProgress(events);
      yielded := yielded + events;
      var reason := Weigh(result, progressed, carry.streamStatus, a);
      if reason.Some? { return Done(yielded, Reported(result, reason.value), reason.value); }
      slice := NextSlice(first, result);
      verdict := Following(State());
    }
  }

  /** The loop: it ends with a `done`, or is still following when the attempts it was given run out. */
  method FollowDrain(first: DrainInput, policy: Option<Policy>, carry: DrainCarry, now: int, attempts: seq<Attempt>)
    returns (verdict: Verdict)
    requires carry.Valid()
    modifies carry, carry.reasoning
    ensures carry.Valid()
    ensures verdict == FollowRun(first, policy, Begin(first, old(carry.Value()), now), attempts)
    ensures verdict.Done? ==> verdict.result.carry == carry.Value()
  {
    var loop := new TurnFollower(first, policy, carry, now);
    ghost var start := loop.State();
    for i := 0 to |attempts|
      invariant loop.Valid() && loop.carry == carry
      invariant FollowRun(first, policy, start, attempts) == FollowRun(first, policy, loop.State(), attempts[i..])
    {
      assert attempts[i..][1..] == attempts[i + 1..];
      verdict := loop.WatchSlice(attempts[i]);
      if verdict.Done? { return; }
    }
    verdict := Following(loop.State());
  }

  method AnyProgress(events: seq<TalkEvent>) returns (progressed: bool)
    ensures progressed == Progressed(events)
  {
    progressed := false;
    for i := 0 to |events|
      invariant progressed == exists k :: 0 <= k < i && events[k].Progress?
    {
      if events[i].Progress? { progressed := true; }
    }
  }
}
