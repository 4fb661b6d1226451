/**
 * Decisions, sync ticks and merge attempts racing on one approval row, while the ledger request, the pull
 * request and other people move on their own.
 */
module ApprovalRuns {
  import opened Prelude
  import opened MergePlan
  import opened Approvals

  /** What one request handler or sync tick is in the middle of. */
  datatype Task =
    | Idle
    /** The ledger took this handler's decision; the decider is written next, then the row mirrored. */
    | Deciding(view: View)
    | Mirroring(view: View)
    /** The row read as an approved merge gate owed a merge; the claim is next. */
    | Owed
    | Trying
    /** The pull request was read, and the merge of this commit is next. */
    | Merging(sha: string)
    | Recording(outcome: Outcome)

  /** `views` is every state the ledger request has been in; a sync may carry any of them. */
  datatype World = World(pr: PullRequest, landed: Option<string>, views: seq<View>, row: Option<Row>,
      tasks: seq<Task>, claims: nat)

  function Ledger(world: World): View
    requires world.views != []
  {
    world.views[|world.views| - 1]
  }

  predicate Undecided(view: View) { view.status == Open || view.status == Submitted }

  predicate Decided(view: View) { view.status == Granted || view.status == Denied }

  datatype Move =
    /** The ledger moves: published, decided elsewhere, expired or superseded. A decision is made once. */
    | LedgerMoves(view: View)
    /** People push, retarget, close or merge the pull request. */
    | PrMoves(pr: PullRequest)
    | Decide(task: nat, view: View)
    | WriteDecision(task: nat)
    | MirrorDecision(task: nat)
    | Sync(view: View)
    | Tick(task: nat)
    | Claim(task: nat)
    | ReadPr(task: nat, found: bool, token: TokenReply, answered: bool, failure: ReadReply)
    /** GitHub's answer to the merge; `lands` is whether it merged, `heard` whether the answer arrived. */
    | PutMerge(task: nat, lands: bool, heard: bool, commit: Option<string>, refusal: PutReply)
    | Record(task: nat, now: int)

  predicate At(world: World, task: nat) { task < |world.tasks| }

  /** GitHub merges an open pull request, and only at the commit asked for. */
  predicate CanLand(pr: PullRequest, sha: string) { pr.open && !pr.merged && pr.headSha == sha }

  predicate Allowed(details: Details, world: World, move: Move) {
    world.views != [] &&
    match move
    case LedgerMoves(view) =>
      (Undecided(Ledger(world)) || view.status == TimedOut || view.status == Other) &&
      (Undecided(view) ==> view.decision.None?) &&
      (Ledger(world).decision.Some? ==> view.decision == Ledger(world).decision)
    case PrMoves(pr) => if world.pr.merged then pr.merged && pr.headSha == world.pr.headSha
                        else pr.merged ==> pr.headSha == world.pr.headSha
    case Decide(task, view) =>
      At(world, task) && world.tasks[task].Idle? && world.row.Some? &&
      Undecided(Ledger(world)) && Decided(view) && view.decision.Some?
    case WriteDecision(task) => At(world, task) && world.tasks[task].Deciding?
    case MirrorDecision(task) => At(world, task) && world.tasks[task].Mirroring?
    case Sync(view) => view in world.views
    case Tick(task) =>
      At(world, task) && world.tasks[task].Idle? && world.row.Some? && Mergeable(world.row.value, details) &&
      world.row.value.mergeStatus in {None, Some(MergePending)}
    case Claim(task) => At(world, task) && world.tasks[task].Owed?
    case ReadPr(task, _, _, _, failure) => At(world, task) && world.tasks[task].Trying? && !failure.Read?
    case PutMerge(task, lands, _, _, refusal) =>
      At(world, task) && world.tasks[task].Merging? && (lands ==> CanLand(world.pr, world.tasks[task].sha)) &&
      (refusal.Answer? ==> !refusal.merged)
    case Record(task, _) => At(world, task) && world.tasks[task].Recording?
  }

  function Next(details: Details, world: World, move: Move): World
    requires Allowed(details, world, move)
  {
    match move
    case LedgerMoves(view) => world.(views := world.views + [view])
    case PrMoves(pr) => world.(pr := pr, landed := if pr.merged then Some(pr.headSha) else None)
    case Decide(task, view) => world.(views := world.views + [view], tasks := world.tasks[task := Deciding(view)])
    case WriteDecision(task) =>
      var view := world.tasks[task].view;
      world.(row := if world.row.Some? && view.decision.Some?
          then Some(WithDecider(world.row.value, view.decision.value)) else world.row,
             tasks := world.tasks[task := Mirroring(view)])
    case MirrorDecision(task) =>
      var row := Mirrored(world.row, world.tasks[task].view);
      world.(row := Some(row), tasks := world.tasks[task := if Mergeable(row, details) then Owed else Idle])
    case Sync(view) => world.(row := Some(Mirrored(world.row, view)))
    case Tick(task) => world.(tasks := world.tasks[task := if world.row.value.mergeStatus.None? then Owed else Trying])
    case Claim(task) =>
      if world.row.Some? && world.row.value.mergeStatus.None? then
        world.(row := Some(Claimed(world.row.value)), tasks := world.tasks[task := Trying], claims := world.claims + 1)
      else world.(tasks := world.tasks[task := Idle])
    case ReadPr(task, found, token, answered, failure) =>
      if TargetOf(details).Target? && !found then world.(tasks := world.tasks[task := Idle])
      else
        var reached := ReachedBy(details, token, if answered then Read(world.pr) else failure);
        world.(tasks := world.tasks[task := if reached.Settled? then Recording(reached.outcome)
            else Merging(reached.sha)])
    case PutMerge(task, lands, heard, commit, refusal) =>
      if lands then
        world.(pr := world.pr.(merged := true, open := false, mergeCommit := commit), landed := Some(world.pr.headSha),
               tasks := world.tasks[task := Recording(PutOutcome(if heard then Answer(true, commit) else PutFails))])
      else world.(tasks := world.tasks[task := Recording(PutOutcome(refusal))])
    case Record(task, now) =>
      world.(row := if world.row.Some? then Some(Recorded(world.row.value, world.tasks[task].outcome, now)) else None,
             tasks := world.tasks[task := Idle])
  }

  predicate Runs(details: Details, world: World, moves: seq<Move>)
    decreases |moves|
  {
    moves == [] || (Allowed(details, world, moves[0]) && Runs(details, Next(details, world, moves[0]), moves[1..]))
  }

  function After(details: Details, world: World, moves: seq<Move>): World
    requires Runs(details, world, moves)
    decreases |moves|
  {
    if moves == [] then world else After(details, Next(details, world, moves[0]), moves[1..])
  }

  /** A request the ledger just opened, not mirrored yet, for an unmerged pull request. */
  predicate Opened(world: World) {
    world.views == [View(Open, None)] && world.row.None? && world.claims == 0 &&
    world.pr.merged == world.landed.Some? && (world.pr.merged ==> world.landed == Some(world.pr.headSha)) &&
    forall task <- world.tasks :: task.Idle?
  }

  // ----- The invariant -----

  /** The pull request landed at exactly the commit that was approved. */
  predicate LandedAsApproved(details: Details, world: World) {
    TargetOf(details).Target? && world.landed == Some(TargetOf(details).target.headSha)
  }

  /** The ledger granted the request at some point. */
  predicate Granting(world: World) {
    exists view <- world.views :: view.status == Granted
  }

  predicate TaskFits(details: Details, world: World, task: Task)
    requires world.views != []
  {
    match task
    case Idle => true
    case Deciding(view) => view in world.views && view.decision.Some?
    case Mirroring(view) => view in world.views
    case Owed => Granting(world)
    case Trying => Granting(world) && world.claims == 1
    case Merging(sha) =>
        Granting(world) && world.claims == 1 && TargetOf(details).Target? && TargetOf(details).target.headSha == sha
    case Recording(outcome) =>
        Granting(world) && world.claims == 1 && (outcome.Landed? ==> LandedAsApproved(details, world))
  }

  predicate RowFits(details: Details, world: World, row: Row)
    requires world.views != []
  {
    var decision := Ledger(world).decision;
    (row.status == Approved ==> Granting(world)) &&
    (world.claims == if row.mergeStatus.Some? then 1 else 0) &&
    (row.mergeStatus.Some? ==> Granting(world)) &&
    (row.mergeStatus == Some(Merged) ==> LandedAsApproved(details, world)) &&
    (row.decidedBy.Some? ==> decision.Some? && row.decidedBy == Some(decision.value.approverId)) &&
    (row.decidedByName.Some? ==> decision.Some? && row.decidedByName == Some(decision.value.approverName))
  }

  predicate Settles(world: World) {
    world.views != [] &&
    (forall view <- world.views :: view.decision.Some? ==> view.decision == Ledger(world).decision) &&
    (forall view <- world.views :: Undecided(view) ==> view.decision.None?)
  }

  predicate Inv(details: Details, world: World) {
    Settles(world) &&
    (if world.pr.merged then world.landed == Some(world.pr.headSha) else world.landed.None?) &&
    (if world.row.Some? then RowFits(details, world, world.row.value) else world.claims == 0) &&
    forall task <- world.tasks :: TaskFits(details, world, task)
  }

  // ----- Every move keeps it -----

  /** What the rest of the world may rely on while one row or one task changes. */
  predicate Extends(a: World, b: World) {
    a.views != [] && a.views <= b.views && (a.landed.Some? ==> b.landed == a.landed) && b.claims == a.claims
  }

  lemma GrantingExtends(a: World, b: World)
    requires a.views <= b.views && Granting(a)
    ensures Granting(b)
  {
    var view :| view in a.views && view.status == Granted;
    assert view in b.views;
  }

  lemma TaskExtends(details: Details, a: World, b: World, task: Task)
    requires Extends(a, b) && TaskFits(details, a, task)
    ensures TaskFits(details, b, task)
  {
    if Granting(a) { GrantingExtends(a, b); }
    forall view <- a.views ensures view in b.views {}
  }

  lemma RowExtends(details: Details, a: World, b: World, row: Row)
    requires Extends(a, b) && RowFits(details, a, row)
    requires Ledger(a).decision.Some? ==> Ledger(b).decision == Ledger(a).decision
    ensures RowFits(details, b, row)
  {
    if Granting(a) { GrantingExtends(a, b); }
  }

  lemma MirrorFits(details: Details, world: World, view: View)
    requires Inv(details, world) && view in world.views
    ensures RowFits(details, world, Mirrored(world.row, view))
  {
  }

  /** The row and one task change; nothing the other tasks rely on does. */
  lemma RowStep(details: Details, a: World, b: World)
    requires Inv(details, a) && Extends(a, b) && a.views == b.views && a.pr == b.pr && a.landed == b.landed
    requires if b.row.Some? then RowFits(details, b, b.row.value) else b.claims == 0
    requires |a.tasks| == |b.tasks|
    requires forall i :: 0 <= i < |a.tasks| ==> b.tasks[i] == a.tasks[i] || TaskFits(details, b, b.tasks[i])
    ensures Inv(details, b)
  {
    forall i | 0 <= i < |b.tasks| ensures TaskFits(details, b, b.tasks[i]) {
      if b.tasks[i] == a.tasks[i] { assert a.tasks[i] in a.tasks; TaskExtends(details, a, b, a.tasks[i]); }
    }
  }

  /** The ledger or the pull request moves on. */
  lemma OutsideStep(details: Details, a: World, b: World)
    requires Inv(details, a) && Extends(a, b) && Settles(b) && a.row == b.row
    requires if b.pr.merged then b.landed == Some(b.pr.headSha) else b.landed.None?
    requires Ledger(a).decision.Some? ==> Ledger(b).decision == Ledger(a).decision
    requires |a.tasks| == |b.tasks|
    requires forall i :: 0 <= i < |a.tasks| ==> b.tasks[i] == a.tasks[i] || TaskFits(details, b, b.tasks[i])
    ensures Inv(details, b)
  {
    if b.row.Some? { RowExtends(details, a, b, a.row.value); }
    forall i | 0 <= i < |b.tasks| ensures TaskFits(details, b, b.tasks[i]) {
      if b.tasks[i] == a.tasks[i] { assert a.tasks[i] in a.tasks; TaskExtends(details, a, b, a.tasks[i]); }
    }
  }

  lemma LedgerStep(details: Details, world: World, move: Move)
    requires Inv(details, world) && Allowed(details, world, move) && (move.LedgerMoves? || move.Decide?)
    ensures Inv(details, Next(details, world, move))
  {
    var next := Next(details, world, move);
    forall view <- next.views ensures view in world.views || view == move.view {}
    assert Settles(next);
    OutsideStep(details, world, next);
  }

  lemma PrStep(details: Details, world: World, move: Move)
    requires Inv(details, world) && Allowed(details, world, move) && (move.PrMoves? || move.PutMerge?)
    ensures Inv(details, Next(details, world, move))
  {
    var next := Next(details, world, move);
    if move.PutMerge? {
      assert world.tasks[move.task] in world.tasks;
      assert TaskFits(details, world, world.tasks[move.task]);
      assert TaskFits(details, next, next.tasks[move.task]);
    }
    OutsideStep(details, world, next);
  }

  lemma MirrorStep(details: Details, world: World, move: Move)
    requires Inv(details, world) && Allowed(details, world, move) &&
             (move.Sync? || move.MirrorDecision? || move.WriteDecision?)
    ensures Inv(details, Next(details, world, move))
  {
    var next := Next(details, world, move);
    if !move.Sync? {
      assert world.tasks[move.task] in world.tasks;
      assert TaskFits(details, world, world.tasks[move.task]);
    }
    if !move.WriteDecision? {
      MirrorFits(details, world, if move.Sync? then move.view else world.tasks[move.task].view);
    }
    RowStep(details, world, next);
  }

  /**
   * A read that leads on found the pull request at the approved commit, not merged; one that ends in a merge found it
   * merged there.
   */
  lemma ReadsTheApprovedCommit(details: Details, token: TokenReply, pr: PullRequest)
    ensures var reached := ReachedBy(details, token, Read(pr));
            (reached.AboutToMerge? || reached.outcome.Landed? ==>
               TargetOf(details).Target? && pr.headSha == TargetOf(details).target.headSha &&
               pr.merged == reached.Settled?) &&
            (reached.AboutToMerge? ==> reached.sha == pr.headSha)
  {
  }

  lemma FailedReadSettles(details: Details, token: TokenReply, failure: ReadReply)
    requires !failure.Read?
    ensures ReachedBy(details, token, failure).Settled? && !ReachedBy(details, token, failure).outcome.Landed?
  {
  }

  lemma ReadStep(details: Details, world: World, move: Move)
    requires Inv(details, world) && Allowed(details, world, move) && move.ReadPr?
    ensures Inv(details, Next(details, world, move))
  {
    assert world.tasks[move.task] in world.tasks;
    assert TaskFits(details, world, world.tasks[move.task]);
    ReadsTheApprovedCommit(details, move.token, world.pr);
    FailedReadSettles(details, move.token, move.failure);
    RowStep(details, world, Next(details, world, move));
  }

  lemma TickStep(details: Details, world: World, move: Move)
    requires Inv(details, world) && Allowed(details, world, move) && (move.Tick? || move.Record?)
    ensures Inv(details, Next(details, world, move))
  {
    assert world.tasks[move.task] in world.tasks;
    assert TaskFits(details, world, world.tasks[move.task]);
    RowStep(details, world, Next(details, world, move));
  }

  lemma ClaimStep(details: Details, world: World, task: nat)
    requires Inv(details, world) && Allowed(details, world, Claim(task))
    ensures Inv(details, Next(details, world, Claim(task)))
  {
    assert world.tasks[task] in world.tasks;
    assert TaskFits(details, world, world.tasks[task]);
    var next := Next(details, world, Claim(task));
    if world.claims == 0 {
      forall i | 0 <= i < |next.tasks| ensures TaskFits(details, next, next.tasks[i]) {
        assert world.tasks[i] in world.tasks;
      }
    } else {
      RowStep(details, world, next);
    }
  }

  lemma StepKeepsInv(details: Details, world: World, move: Move)
    requires Inv(details, world) && Allowed(details, world, move)
    ensures Inv(details, Next(details, world, move))
  {
    match move {
      case LedgerMoves(_) => LedgerStep(details, world, move);
      case Decide(_, _) => LedgerStep(details, world, move);
      case PrMoves(_) => PrStep(details, world, move);
      case PutMerge(_, _, _, _, _) => PrStep(details, world, move);
      case Sync(_) => MirrorStep(details, world, move);
      case MirrorDecision(_) => MirrorStep(details, world, move);
      case WriteDecision(_) => MirrorStep(details, world, move);
      case ReadPr(_, _, _, _, _) => ReadStep(details, world, move);
      case Tick(_) => TickStep(details, world, move);
      case Record(_, _) => TickStep(details, world, move);
      case Claim(task) => ClaimStep(details, world, task);
    }
  }

  lemma {:induction false} RunKeepsInv(details: Details, world: World, moves: seq<Move>)
    requires Inv(details, world) && Runs(details, world, moves)
    ensures Inv(details, After(details, world, moves))
    decreases |moves|
  {
    if moves != [] {
      StepKeepsInv(details, world, moves[0]);
      RunKeepsInv(details, Next(details, world, moves[0]), moves[1..]);
    }
  }

  // ----- What holds of every run -----

  /**
   * In every interleaving, the row says merged only if the pull request landed at exactly the approved commit;
   * nothing is owed, tried or merged unless the ledger granted the request; at most one caller ever claimed the
   * merge; and the recorded decider is the one whose decision the ledger took.
   */
  lemma MergedOnlyAsApproved(details: Details, world: World, moves: seq<Move>)
    requires Opened(world) && Runs(details, world, moves)
    ensures var w := After(details, world, moves);
            w.views != [] && w.claims <= 1 &&
            (w.row.Some? ==>
               (w.row.value.mergeStatus == Some(Merged) ==> LandedAsApproved(details, w)) &&
               (w.row.value.mergeStatus.Some? ==> Granting(w)) && (w.claims == 1 <==> w.row.value.mergeStatus.Some?) &&
               (w.row.value.decidedBy.Some? ==>
                  Ledger(w).decision.Some? && w.row.value.decidedBy == Some(Ledger(w).decision.value.approverId)))
  {
    RunKeepsInv(details, world, moves);
  }

  /** harnesst lands only the approved commit of a granted request, whatever moved since it was read. */
  lemma LandsOnlyTheApprovedCommit(details: Details, world: World, moves: seq<Move>, put: Move)
    requires Opened(world) && Runs(details, world, moves)
    requires put.PutMerge? && put.lands && Allowed(details, After(details, world, moves), put)
    ensures var w := After(details, world, moves);
            Granting(w) && LandedAsApproved(details, Next(details, w, put))
  {
    RunKeepsInv(details, world, moves);
    var w := After(details, world, moves);
    assert w.tasks[put.task] in w.tasks;
    assert TaskFits(details, w, w.tasks[put.task]);
  }

  lemma StepKeepsMerge(details: Details, world: World, move: Move)
    requires Allowed(details, world, move) && world.row.Some? && world.row.value.mergeStatus == Some(Merged)
    ensures var next := Next(details, world, move); next.row.Some? && SameMerge(world.row.value, next.row.value)
  {
  }

  /** A recorded merge is final: no decision, sync, claim or attempt changes it. */
  lemma {:induction false} MergedIsFinal(details: Details, world: World, moves: seq<Move>)
    requires Runs(details, world, moves) && world.row.Some? && world.row.value.mergeStatus == Some(Merged)
    ensures var w := After(details, world, moves); w.row.Some? && SameMerge(world.row.value, w.row.value)
    decreases |moves|
  {
    if moves != [] {
      StepKeepsMerge(details, world, moves[0]);
      MergedIsFinal(details, Next(details, world, moves[0]), moves[1..]);
    }
  }

  lemma StepKeepsDecider(details: Details, world: World, move: Move)
    requires Inv(details, world) && Allowed(details, world, move) && world.row.Some? && world.row.value.decidedBy.Some?
    ensures var next := Next(details, world, move);
            next.row.Some? && next.row.value.decidedBy == world.row.value.decidedBy
  {
    if move.WriteDecision? {
      assert world.tasks[move.task] in world.tasks;
      assert TaskFits(details, world, world.tasks[move.task]);
    }
  }

  lemma {:induction false} DeciderIsKept(details: Details, world: World, moves: seq<Move>)
    requires Inv(details, world) && Runs(details, world, moves) && world.row.Some? && world.row.value.decidedBy.Some?
    ensures var w := After(details, world, moves); w.row.Some? && w.row.value.decidedBy == world.row.value.decidedBy
    decreases |moves|
  {
    if moves != [] {
      StepKeepsDecider(details, world, moves[0]);
      StepKeepsInv(details, world, moves[0]);
      DeciderIsKept(details, Next(details, world, moves[0]), moves[1..]);
    }
  }

  // ----- A recorded failure -----

  predicate IsFailed(world: World) {
    world.row.Some? && world.row.value.mergeStatus == Some(MergeFailed)
  }

  /** An attempt that is far enough to write the row and has not been refused. */
  predicate MayOverwrite(details: Details, task: Task) {
    match task
    case Trying => TargetOf(details).Target?
    case Merging(_) => true
    case Recording(outcome) => !outcome.Refused?
    case _ => false
  }

  lemma StepKeepsFailure(details: Details, world: World, move: Move)
    requires Allowed(details, world, move) && IsFailed(world)
    requires forall task <- world.tasks :: !MayOverwrite(details, task)
    ensures IsFailed(Next(details, world, move))
    ensures forall task <- Next(details, world, move).tasks :: !MayOverwrite(details, task)
  {
    forall i | 0 <= i < |world.tasks| ensures !MayOverwrite(details, world.tasks[i]) {
      assert world.tasks[i] in world.tasks;
    }
    var next := Next(details, world, move);
    forall i | 0 <= i < |next.tasks| ensures !MayOverwrite(details, next.tasks[i]) {
      assert world.tasks[i] in world.tasks;
    }
  }

  lemma {:induction false} RunKeepsFailure(details: Details, world: World, moves: seq<Move>)
    requires Runs(details, world, moves) && IsFailed(world)
    requires forall task <- world.tasks :: !MayOverwrite(details, task)
    ensures IsFailed(After(details, world, moves))
    decreases |moves|
  {
    if moves != [] {
      StepKeepsFailure(details, world, moves[0]);
      RunKeepsFailure(details, Next(details, world, moves[0]), moves[1..]);
    }
  }

  lemma Prepend(details: Details, world: World, move: Move, rest: seq<Move>)
    requires Allowed(details, world, move) && Runs(details, Next(details, world, move), rest)
    ensures Runs(details, world, [move] + rest)
    ensures After(details, world, [move] + rest) == After(details, Next(details, world, move), rest)
  {
    assert ([move] + rest)[1..] == rest;
  }

  /** What an unfinished attempt has left to do when GitHub does not answer. */
  function Stopping(task: nat, at: Task): seq<Move> {
    match at
    case Trying => [ReadPr(task, true, TokenFails, false, ReadFails), Record(task, 0)]
    case Merging(_) => [PutMerge(task, false, false, None, PutFails), Record(task, 0)]
    case _ => [Record(task, 0)]
  }

  lemma StoppingOverwrites(details: Details, world: World, task: nat)
    requires world.views != [] && IsFailed(world) && At(world, task) && MayOverwrite(details, world.tasks[task])
    ensures var moves := Stopping(task, world.tasks[task]);
            Runs(details, world, moves) && !IsFailed(After(details, world, moves))
  {
    var at := world.tasks[task];
    var moves := Stopping(task, at);
    if at.Recording? {
      Prepend(details, world, moves[0], []);
    } else {
      var next := Next(details, world, moves[0]);
      assert next.tasks[task].Recording? && !next.tasks[task].outcome.Refused?;
      Prepend(details, next, moves[1], []);
      Prepend(details, world, moves[0], [moves[1]]);
      assert moves == [moves[0]] + [moves[1]];
    }
  }

  /**
   * A recorded failure lasts through every run exactly if no other attempt is past its claim and not yet refused:
   * one that is can stop short of merging, and its record then turns the row back to pending.
   */
  lemma FailureLastsExactly(details: Details, world: World)
    requires world.views != [] && IsFailed(world)
    ensures (forall moves | Runs(details, world, moves) :: IsFailed(After(details, world, moves))) <==>
            (forall task <- world.tasks :: !MayOverwrite(details, task))
  {
    if forall task <- world.tasks :: !MayOverwrite(details, task) {
      forall moves | Runs(details, world, moves) ensures IsFailed(After(details, world, moves)) {
        RunKeepsFailure(details, world, moves);
      }
    } else {
      var task :| task in world.tasks && MayOverwrite(details, task);
      var i :| 0 <= i < |world.tasks| && world.tasks[i] == task;
      StoppingOverwrites(details, world, i);
      assert Runs(details, world, Stopping(i, task)) && !IsFailed(After(details, world, Stopping(i, task)));
    }
  }

  // ----- A failure that is undone, from the start -----

  lemma {:induction false} Append(details: Details, world: World, first: seq<Move>, rest: seq<Move>)
    requires Runs(details, world, first) && Runs(details, After(details, world, first), rest)
    ensures Runs(details, world, first + rest)
    ensures After(details, world, first + rest) == After(details, After(details, world, first), rest)
    decreases |first|
  {
    if first == [] {
      assert first + rest == rest;
    } else {
      Append(details, Next(details, world, first[0]), first[1..], rest);
      Prepend(details, world, first[0], first[1..] + rest);
      assert first + rest == [first[0]] + (first[1..] + rest);
    }
  }

  lemma Two(details: Details, world: World, a: Move, b: Move)
    requires Allowed(details, world, a) && Allowed(details, Next(details, world, a), b)
    ensures Runs(details, world, [a, b])
    ensures After(details, world, [a, b]) == Next(details, Next(details, world, a), b)
  {
    Prepend(details, Next(details, world, a), b, []);
    Prepend(details, world, a, [b]);
    assert [a, b] == [a] + [b];
  }

  /** The ledger grants the request and a sync mirrors it. */
  function Approving(view: View): seq<Move> { [LedgerMoves(view), Sync(view)] }

  /** A tick takes the merge up and claims it, and another joins in. */
  function Overlap(): seq<Move> { [Tick(0), Claim(0)] + [Tick(1)] }

  /** The first is told there is no such pull request, the second gets no token, and the first records. */
  function Fails(): seq<Move> {
    [ReadPr(0, true, Token, false, NotFound), ReadPr(1, true, TokenFails, false, ReadFails)] + [Record(0, 0)]
  }

  lemma Grants(details: Details, world: World, view: View)
    requires Opened(world) && view.status == Granted
    ensures Runs(details, world, Approving(view))
    ensures After(details, world, Approving(view)) ==
            world.(views := world.views + [view], row := Some(Mirrored(None, view)))
  {
    Two(details, world, LedgerMoves(view), Sync(view));
  }

  lemma Overlaps(details: Details, world: World)
    requires world.views != [] && |world.tasks| >= 2 && world.tasks[0] == world.tasks[1] == Idle
    requires world.row.Some? && Mergeable(world.row.value, details) && world.row.value.mergeStatus.None?
    ensures Runs(details, world, Overlap())
    ensures After(details, world, Overlap()) ==
            world.(row := Some(Claimed(world.row.value)), claims := world.claims + 1,
                   tasks := world.tasks[0 := Trying][1 := Trying])
  {
    Two(details, world, Tick(0), Claim(0));
    var claimed := After(details, world, [Tick(0), Claim(0)]);
    assert claimed.tasks == world.tasks[0 := Trying];
    Prepend(details, claimed, Tick(1), []);
    Append(details, world, [Tick(0), Claim(0)], [Tick(1)]);
  }

  lemma SettlesAs(details: Details, world: World, task: nat, token: TokenReply, failure: ReadReply)
    requires world.views != [] && At(world, task) && world.tasks[task].Trying? && !failure.Read?
    requires TargetOf(details).Target? && (token == TokenFails || (token == Token && failure == NotFound))
    ensures Allowed(details, world, ReadPr(task, true, token, false, failure))
    ensures var reached := ReachedBy(details, token, failure);
            reached.Settled? && (if token == TokenFails then reached.outcome.Waiting? else reached.outcome.Refused?) &&
            Next(details, world, ReadPr(task, true, token, false, failure)) ==
            world.(tasks := world.tasks[task := Recording(reached.outcome)])
  {
  }

  lemma BothSettle(details: Details, world: World)
    requires world.views != [] && |world.tasks| >= 2 && world.tasks[0] == world.tasks[1] == Trying
    requires TargetOf(details).Target?
    ensures Runs(details, world, Fails()[..2])
    ensures var w := After(details, world, Fails()[..2]);
            w.views == world.views && w.row == world.row && |w.tasks| == |world.tasks| &&
            w.tasks[0].Recording? && w.tasks[0].outcome.Refused? && w.tasks[1].Recording? && w.tasks[1].outcome.Waiting?
  {
    SettlesAs(details, world, 0, Token, NotFound);
    var first := Next(details, world, ReadPr(0, true, Token, false, NotFound));
    SettlesAs(details, first, 1, TokenFails, ReadFails);
    Two(details, world, ReadPr(0, true, Token, false, NotFound), ReadPr(1, true, TokenFails, false, ReadFails));
    assert Fails()[..2] == [ReadPr(0, true, Token, false, NotFound), ReadPr(1, true, TokenFails, false, ReadFails)];
  }

  lemma FirstFails(details: Details, world: World)
    requires world.views != [] && |world.tasks| >= 2 && world.tasks[0] == world.tasks[1] == Trying
    requires TargetOf(details).Target? && world.row.Some? && world.row.value.mergeStatus == Some(MergePending)
    ensures Runs(details, world, Fails())
    ensures var w := After(details, world, Fails());
            w.views == world.views && IsFailed(w) && w.row.value.status == world.row.value.status &&
            |w.tasks| == |world.tasks| && w.tasks[0].Idle? && w.tasks[1].Recording? && w.tasks[1].outcome.Waiting?
  {
    var firsts := Fails()[..2];
    BothSettle(details, world);
    var seen := After(details, world, firsts);
    Prepend(details, seen, Record(0, 0), []);
    Append(details, world, firsts, [Record(0, 0)]);
    assert Fails() == firsts + [Record(0, 0)];
  }

  /**
   * Every granted merge gate with a target can go this way from the start, with two attempts: the row says failed,
   * the attempt that was not refused records after that, and the row is pending and tried again.
   */
  lemma FailureCanBeUndone(details: Details, world: World, view: View)
    requires Opened(world) && |world.tasks| >= 2 && view.status == Granted
    requires IsMergeGate(details) && TargetOf(details).Target?
    ensures var moves := Approving(view) + Overlap() + Fails();
            Runs(details, world, moves) &&
            (var failed := After(details, world, moves);
             IsFailed(failed) && Allowed(details, failed, Record(1, 0)) &&
             (var undone := Next(details, failed, Record(1, 0));
              undone.row.value.mergeStatus == Some(MergePending) && Allowed(details, undone, Tick(0))))
  {
    Grants(details, world, view);
    var granted := After(details, world, Approving(view));
    assert world.tasks[0] in world.tasks && world.tasks[1] in world.tasks;
    Overlaps(details, granted);
    Append(details, world, Approving(view), Overlap());
    var tried := After(details, granted, Overlap());
    FirstFails(details, tried);
    Append(details, world, Approving(view) + Overlap(), Fails());
  }
}
