/**
 * When following ends (app/agent/talk.server.ts, `followDrain`): fruitless slices use up the silence
 * budget, a durable log can only be productive so often, and a health check gives up only after an
 * unbroken run of failures.
 */
module TurnEnding {
  import opened Prelude
  import opened TurnEvents
  import opened TurnDrain
  import opened TurnChunks
  import opened TurnFollow
  import opened TurnSlicing

  // ----- Fruitless slices -----

  /** What clocks and sleeps guarantee: time does not run backwards, and an unstopped pause lasts. */
  ghost predicate Timely(f: FollowState, since: int, a: Attempt) {
    since <= a.startedAt <= a.checkedAt <= a.resumedAt && a.startedAt <= a.progressAt <= a.resumedAt &&
    (a.checkedAt - a.startedAt < QUICK_SLICE_MS && !a.aborted ==> a.resumedAt - a.checkedAt >= f.watch.backoffMs)
  }

  ghost predicate Fruitless(f: FollowState, a: Attempt) {
    !Progressed(Drain(f.slice, f.carry, a.connection).yielded)
  }

  /** Every slice is fruitless, leaves the loop following, and passes real time. */
  ghost predicate FruitlessRun(first: DrainInput, policy: Policy, f: FollowState, since: int, attempts: seq<Attempt>)
    decreases |attempts|
  {
    attempts == [] ||
    (var v := FollowStep(first, Some(policy), f, attempts[0]);
     Timely(f, since, attempts[0]) && v.Following? && Fruitless(f, attempts[0]) &&
     FruitlessRun(first, policy, v.next, attempts[0].resumedAt, attempts[1..]))
  }

  /** The least time `n` more fruitless slices take when the next pause is `backoffMs`. */
  function LeastTime(backoffMs: int, n: nat): int
    decreases n
  {
    if n == 0 then 0 else Min(backoffMs, QUICK_SLICE_MS) + LeastTime(Min(2 * backoffMs, MAX_BACKOFF_MS), n - 1)
  }

  lemma {:induction false} LongPauses(b: int, n: nat)
    requires b >= QUICK_SLICE_MS
    ensures LeastTime(b, n) == QUICK_SLICE_MS * n
    decreases n
  {
    if n > 0 { LongPauses(Min(2 * b, MAX_BACKOFF_MS), n - 1); }
  }

  lemma LeastTimeFromStart(n: nat)
    ensures LeastTime(FIRST_BACKOFF_MS, n) >= QUICK_SLICE_MS * n - 8_000
  {
    if n >= 3 {
      assert LeastTime(1_000, n) == 1_000 + LeastTime(2_000, n - 1);
      assert LeastTime(2_000, n - 1) == 2_000 + LeastTime(4_000, n - 2);
      assert LeastTime(4_000, n - 2) == 4_000 + LeastTime(8_000, n - 3);
      LongPauses(8_000, n - 3);
    } else if n == 2 {
      assert LeastTime(1_000, 2) == 1_000 + LeastTime(2_000, 1);
      assert LeastTime(2_000, 1) == 2_000 + LeastTime(4_000, 0);
    } else if n == 1 {
      assert LeastTime(1_000, 1) == 1_000 + LeastTime(2_000, 0);
    }
  }

  /** A slice slow enough to need no pause takes at least as long as the pause would have. */
  lemma {:induction false} SkippedPause(b: int, n: nat)
    requires 0 < b
    ensures QUICK_SLICE_MS + LeastTime(b, n) >= Min(b, QUICK_SLICE_MS) + LeastTime(Min(2 * b, MAX_BACKOFF_MS), n)
    decreases n
  {
    if n > 0 { SkippedPause(Min(2 * b, MAX_BACKOFF_MS), n - 1); }
  }

  /** However the slices fail, `n` of them in a row use up `LeastTime` of the silence budget. */
  lemma {:induction false} FruitlessRunTakesTime(first: DrainInput, policy: Policy, f: FollowState, since: int,
      attempts: seq<Attempt>)
    requires 0 < f.watch.backoffMs && f.watch.lastEventAt <= since && attempts != []
    requires FruitlessRun(first, policy, f, since, attempts)
    ensures attempts[|attempts| - 1].resumedAt >= since + LeastTime(f.watch.backoffMs, |attempts|)
    ensures attempts[|attempts| - 1].resumedAt - f.watch.lastEventAt < policy.maxSilenceMs
    decreases |attempts|
  {
    var a := attempts[0];
    var next := FollowStep(first, Some(policy), f, a).next;
    assert next.watch.lastEventAt == f.watch.lastEventAt && !a.aborted;
    assert a.resumedAt - since >= Min(f.watch.backoffMs, QUICK_SLICE_MS);
    var rest := attempts[1..];
    if rest != [] {
      assert rest[|rest| - 1] == attempts[|attempts| - 1];
      FruitlessRunTakesTime(first, policy, next, a.resumedAt, rest);
      if next.watch.backoffMs == f.watch.backoffMs { SkippedPause(f.watch.backoffMs, |rest|); }
    } else {
      assert LeastTime(f.watch.backoffMs, 1)
          == Min(f.watch.backoffMs, QUICK_SLICE_MS) + LeastTime(Min(2 * f.watch.backoffMs, MAX_BACKOFF_MS), 0);
    }
  }

  /** From a fresh watch, fewer than `(maxSilenceMs + 8 s) / 5 s` slices in a row can be fruitless. */
  lemma FruitlessRunIsShort(first: DrainInput, policy: Policy, f: FollowState, since: int, attempts: seq<Attempt>)
    requires f.watch.backoffMs == FIRST_BACKOFF_MS && f.watch.lastEventAt <= since && attempts != []
    requires FruitlessRun(first, policy, f, since, attempts)
    ensures QUICK_SLICE_MS * |attempts| < policy.maxSilenceMs + 8_000
  {
    FruitlessRunTakesTime(first, policy, f, since, attempts);
    LeastTimeFromStart(|attempts|);
  }

  // ----- The whole loop -----

  ghost predicate TimelyRun(first: DrainInput, policy: Policy, f: FollowState, since: int, attempts: seq<Attempt>)
    decreases |attempts|
  {
    attempts == [] ||
    (var v := FollowStep(first, Some(policy), f, attempts[0]);
     Timely(f, since, attempts[0]) &&
     (v.Following? ==> TimelyRun(first, policy, v.next, attempts[0].resumedAt, attempts[1..])))
  }

  lemma {:induction false} NoEventsNoProgress(input: DrainInput, s: DrainState, chunks: seq<seq<Event>>)
    requires Flatten(chunks) == []
    ensures ReadChunks(input, s, chunks) == s
  {
    DrainIsFold(input, s, chunks);
  }

  lemma ProgressMovesCursor(f: FollowState, a: Attempt)
    requires !Fruitless(f, a)
    ensures Flatten(a.connection.Chunks()) != []
  {
    if Flatten(a.connection.Chunks()) == [] {
      NoEventsNoProgress(f.slice, Opened(f.slice, f.carry), a.connection.Chunks());
    }
  }

  /** A loop still following after all of `attempts`, which were slices of one log on a sane clock. */
  ghost predicate StillFollowing(log: seq<Event>, first: DrainInput, policy: Policy, f: FollowState, since: int,
      attempts: seq<Attempt>) {
    f.watch.lastEventAt <= since && f.slice.startIndex <= |log| &&
    TimelyRun(first, policy, f, since, attempts) && Served(log, first, Some(policy), f, attempts) &&
    FollowRun(first, Some(policy), f, attempts).Following?
  }

  lemma FollowingOn(log: seq<Event>, first: DrainInput, policy: Policy, f: FollowState, since: int,
      attempts: seq<Attempt>)
    requires StillFollowing(log, first, policy, f, since, attempts) && attempts != []
    ensures var a, v := attempts[0], FollowStep(first, Some(policy), f, attempts[0]);
            v.Following? && StillFollowing(log, first, policy, v.next, a.resumedAt, attempts[1..]) &&
            f.slice.startIndex <= v.next.slice.startIndex &&
            (!Fruitless(f, a) ==>
                f.slice.startIndex < v.next.slice.startIndex && v.next.watch.backoffMs == FIRST_BACKOFF_MS)
  {
    CutMovesCursor(first, Some(policy), f, attempts[0]);
    if !Fruitless(f, attempts[0]) { ProgressMovesCursor(f, attempts[0]); }
  }

  /** The slices up to and including the next productive one, and where the loop stands after it. */
  lemma {:induction false} NextProductive(log: seq<Event>, first: DrainInput, policy: Policy, f: FollowState,
      since: int, attempts: seq<Attempt>) returns (n: nat, next: FollowState)
    requires StillFollowing(log, first, policy, f, since, attempts)
    ensures n <= |attempts| && FruitlessRun(first, policy, f, since, attempts[..n])
    ensures n < |attempts| ==> next.watch.backoffMs == FIRST_BACKOFF_MS && f.slice.startIndex < next.slice.startIndex &&
                               StillFollowing(log, first, policy, next, attempts[n].resumedAt, attempts[n + 1..])
    decreases |attempts|
  {
    if attempts == [] { return 0, f; }
    FollowingOn(log, first, policy, f, since, attempts);
    next := FollowStep(first, Some(policy), f, attempts[0]).next;
    if Fruitless(f, attempts[0]) {
      n, next := NextProductive(log, first, policy, next, attempts[0].resumedAt, attempts[1..]);
      assert attempts[..n + 1][1..] == attempts[1..][..n];
      if n < |attempts[1..]| { assert attempts[1..][n + 1..] == attempts[n + 2..]; }
      n := n + 1;
    } else {
      n := 0;
    }
  }

  /**
   * The follow loop ends. With `k` enough fruitless slices to outlast the silence budget, a log of `n`
   * events past the cursor keeps the loop following for fewer than `(n + 1) * k` slices.
   */
  lemma {:induction false} FollowLoopEnds(log: seq<Event>, first: DrainInput, policy: Policy, f: FollowState,
      since: int, attempts: seq<Attempt>, k: nat)
    requires 0 < k && QUICK_SLICE_MS * k >= policy.maxSilenceMs + 8_000
    requires f.watch.backoffMs == FIRST_BACKOFF_MS && StillFollowing(log, first, policy, f, since, attempts)
    ensures |attempts| < (|log| - f.slice.startIndex + 1) * k
    decreases |attempts|
  {
    var n, next := NextProductive(log, first, policy, f, since, attempts);
    if n > 0 { FruitlessRunIsShort(first, policy, f, since, attempts[..n]); }
    if n == |attempts| {
      SlicesAddUp(|log| - f.slice.startIndex, 0, n, 0, k);
    } else {
      FollowLoopEnds(log, first, policy, next, attempts[n].resumedAt, attempts[n + 1..], k);
      SlicesAddUp(|log| - f.slice.startIndex, |log| - next.slice.startIndex + 1, n + 1, |attempts[n + 1..]|, k);
    }
  }

  lemma SlicesAddUp(left: nat, later: nat, n: nat, rest: nat, k: nat)
    requires later <= left && n <= k && 0 < k && (later == 0 ==> rest == 0 && n < k)
    requires later > 0 ==> rest < later * k
    ensures n + rest < (left + 1) * k
  {
    assert (left + 1) * k == left * k + k;
    assert later * k <= left * k;
  }

  /** The default policy: an hour of silence outlasts at most 721 fruitless slices. */
  lemma DefaultPolicyBound(log: seq<Event>, first: DrainInput, now: int, attempts: seq<Attempt>)
    requires StillFollowing(log, first, DEFAULT_TURN_FOLLOW, Begin(first, NEW_CARRY, now), now, attempts)
    ensures |attempts| < (|log| - first.startIndex + 1) * 722
  {
    FollowLoopEnds(log, first, DEFAULT_TURN_FOLLOW, Begin(first, NEW_CARRY, now), now, attempts, 722);
  }

  // ----- Giving up on the instance -----

  /** Slice after slice without progress and without an answer to the health check. */
  ghost predicate Unanswered(first: DrainInput, policy: Policy, f: FollowState, attempts: seq<Attempt>)
    decreases |attempts|
  {
    attempts == [] ||
    (Fruitless(f, attempts[0]) && !attempts[0].healthy &&
     (var v := FollowStep(first, Some(policy), f, attempts[0]);
      v.Done? ==> |attempts| == 1) &&
     (var v := FollowStep(first, Some(policy), f, attempts[0]);
      v.Following? ==> Unanswered(first, policy, v.next, attempts[1..])))
  }

  /** From the `m`-th slice to the `n - 1`-st nothing answered, for at least `unreachableMs`. */
  ghost predicate OutOfReach(first: DrainInput, policy: Policy, f: FollowState, attempts: seq<Attempt>, m: nat,
      n: nat) {
    m < n <= |attempts| &&
    (var v := FollowRun(first, Some(policy), f, attempts[..m]);
     v.Following? && Unanswered(first, policy, v.next, attempts[m..n])) &&
    attempts[n - 1].checkedAt - attempts[m].checkedAt >= policy.unreachableMs
  }

  /** Slice `n - 1` is the one that ended the loop: it was still following before it. */
  ghost predicate EndedBy(first: DrainInput, policy: Policy, f: FollowState, attempts: seq<Attempt>, n: nat) {
    0 < n <= |attempts| && FollowRun(first, Some(policy), f, attempts[..n - 1]).Following? &&
    FollowRun(first, Some(policy), f, attempts[..n]).Done? &&
    FollowRun(first, Some(policy), f, attempts[..n]) == FollowRun(first, Some(policy), f, attempts)
  }

  lemma EndedByFirst(first: DrainInput, policy: Policy, f: FollowState, attempts: seq<Attempt>)
    requires attempts != [] && FollowStep(first, Some(policy), f, attempts[0]).Done?
    ensures EndedBy(first, policy, f, attempts, 1)
  {
    assert attempts[..1][0] == attempts[0] && attempts[..0] == [];
  }

  lemma EndedByLater(first: DrainInput, policy: Policy, f: FollowState, attempts: seq<Attempt>, n: nat)
    requires attempts != [] && FollowStep(first, Some(policy), f, attempts[0]).Following?
    requires EndedBy(first, policy, FollowStep(first, Some(policy), f, attempts[0]).next, attempts[1..], n)
    ensures EndedBy(first, policy, f, attempts, n + 1)
  {
    RunOnFirst(first, policy, f, attempts, n);
    RunOnFirst(first, policy, f, attempts, n - 1);
  }

  lemma WatchOfFailures(first: DrainInput, policy: Policy, f: FollowState, a: Attempt)
    ensures var v := FollowStep(first, Some(policy), f, a);
            var since := f.watch.unreachableSince.Or(Some(a.checkedAt));
            (v.Done? && v.reason == Unreachable ==>
               Fruitless(f, a) && !a.healthy && a.checkedAt - since.value >= policy.unreachableMs) &&
            (v.Following? ==>
               v.next.watch.unreachableSince == if Fruitless(f, a) && !a.healthy then since else None)
  {
  }

  lemma UnansweredFirst(first: DrainInput, policy: Policy, f: FollowState, attempts: seq<Attempt>, n: nat)
    requires n < |attempts| && Fruitless(f, attempts[0]) && !attempts[0].healthy
    requires var v := FollowStep(first, Some(policy), f, attempts[0]);
             v.Following? && Unanswered(first, policy, v.next, attempts[1..][..n])
    ensures Unanswered(first, policy, f, attempts[..n + 1])
  {
    assert attempts[..n + 1][1..] == attempts[1..][..n];
  }

  lemma RunOnFirst(first: DrainInput, policy: Policy, f: FollowState, attempts: seq<Attempt>, m: nat)
    requires m < |attempts| && FollowStep(first, Some(policy), f, attempts[0]).Following?
    ensures FollowRun(first, Some(policy), f, attempts[..m + 1]) ==
            FollowRun(first, Some(policy), FollowStep(first, Some(policy), f, attempts[0]).next, attempts[1..][..m])
  {
    assert attempts[..m + 1][0] == attempts[0] && attempts[..m + 1][1..] == attempts[1..][..m];
  }

  lemma OutOfReachLater(first: DrainInput, policy: Policy, f: FollowState, attempts: seq<Attempt>, m: nat, n: nat)
    requires attempts != []
    requires var v := FollowStep(first, Some(policy), f, attempts[0]);
             v.Following? && OutOfReach(first, policy, v.next, attempts[1..], m, n)
    ensures OutOfReach(first, policy, f, attempts, m + 1, n + 1)
  {
    RunOnFirst(first, policy, f, attempts, m);
    SliceOfTail(attempts, m, n);
  }

  /** The general form: the failures may have begun before this point, at `unreachableSince`. */
  lemma {:induction false} GivesUpAfterFailures(first: DrainInput, policy: Policy, f: FollowState,
      attempts: seq<Attempt>) returns (m: nat, n: nat, before: bool)
    requires var v := FollowRun(first, Some(policy), f, attempts); v.Done? && v.reason == Unreachable
    ensures before ==>
            f.watch.unreachableSince.Some? && 0 < n <= |attempts| && Unanswered(first, policy, f, attempts[..n]) &&
                       attempts[n - 1].checkedAt - f.watch.unreachableSince.value >= policy.unreachableMs
    ensures !before ==> OutOfReach(first, policy, f, attempts, m, n)
    ensures EndedBy(first, policy, f, attempts, n)
    decreases |attempts|
  {
    var a := attempts[0];
    var v := FollowStep(first, Some(policy), f, a);
    WatchOfFailures(first, policy, f, a);
    if v.Done? {
      EndedByFirst(first, policy, f, attempts);
      assert attempts[..0] == [] && attempts[..1] == attempts[0..1] == [a];
      m, n, before := 0, 1, f.watch.unreachableSince.Some?;
    } else {
      m, n, before := GivesUpAfterFailures(first, policy, v.next, attempts[1..]);
      EndedByLater(first, policy, f, attempts, n);
      if before {
        UnansweredFirst(first, policy, f, attempts, n);
        assert attempts[..n + 1] == attempts[0..n + 1] && attempts[..0] == [];
        m, n, before := 0, n + 1, f.watch.unreachableSince.Some?;
      } else {
        OutOfReachLater(first, policy, f, attempts, m, n);
        m, n := m + 1, n + 1;
      }
    }
  }

  /**
   * A turn just begun is given up as unreachable only after an unbroken run of failed checks that long, up to the slice
   * that ends the loop.
   */
  lemma UnreachableMeansUnbrokenFailure(first: DrainInput, policy: Policy, carry: Carry, now: int,
      attempts: seq<Attempt>)
    requires var v := FollowRun(first, Some(policy), Begin(first, carry, now), attempts);
             v.Done? && v.reason == Unreachable
    ensures exists m, n ::
              OutOfReach(first, policy, Begin(first, carry, now), attempts, m, n) &&
              EndedBy(first, policy, Begin(first, carry, now), attempts, n)
  {
    var m, n, before := GivesUpAfterFailures(first, policy, Begin(first, carry, now), attempts);
  }

  /** And the loop does not go on past such a run. */
  lemma {:induction false} UnbrokenFailureEndsFollowing(first: DrainInput, policy: Policy, f: FollowState,
      attempts: seq<Attempt>)
    requires attempts != [] && Unanswered(first, policy, f, attempts)
    requires FollowRun(first, Some(policy), f, attempts).Following?
    ensures var since := f.watch.unreachableSince.Or(Some(attempts[0].checkedAt)).value;
            attempts[|attempts| - 1].checkedAt - since < policy.unreachableMs
    decreases |attempts|
  {
    if |attempts| > 1 {
      UnbrokenFailureEndsFollowing(first, policy, FollowStep(first, Some(policy), f, attempts[0]).next, attempts[1..]);
    }
  }
}
