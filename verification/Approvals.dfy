/**
 * The approval row harnesst keeps beside a ledger request: mirrored from the ledger, decided by a person,
 * and owed a merge (app/approvals/approvals.server.ts, app/approvals/merge.server.ts).
 */
module Approvals {
  import opened Prelude
  import opened MergePlan

  datatype LedgerStatus = Open | Submitted | Granted | Denied | TimedOut | Other

  datatype Decision = Decision(approverId: string, approverName: string, at: int, feedback: Option<string>)

  /** The ledger's view of one request; its action never changes and is kept apart, as `Details`. */
  datatype View = View(status: LedgerStatus, decision: Option<Decision>)

  datatype Status = Pending | Approved | Rejected | Expired | Superseded

  datatype MergeStatus = MergePending | Merged | MergeFailed

  datatype Row = Row(status: Status,
    decidedBy: Option<string>, decidedByName: Option<string>, decidedAt: Option<int>, feedback: Option<string>,
    mergeStatus: Option<MergeStatus>, mergeSha: Option<string>, mergeError: Option<string>, mergedAt: Option<int>)

  function ApprovalStatus(view: View): Status {
    match view.status
    case Open => Pending
    case Submitted => Pending
    case Granted => Approved
    case Denied => Rejected
    case TimedOut => Expired
    case Other => Superseded
  }

  /** The ledger's copy on harnesst's row, creating it: a recorded decision is kept, merge fields are not touched. */
  function Mirrored(row: Option<Row>, view: View): Row {
    var status := ApprovalStatus(view);
    var decision := if status == Approved || status == Rejected then view.decision else None;
    var name := if decision.Some? then Some(decision.value.approverName) else None;
    var at := if decision.Some? then Some(decision.value.at) else None;
    var feedback := if decision.Some? then decision.value.feedback else None;
    if row.None? then Row(status, None, name, at, feedback, None, None, None, None)
    else
      var r := row.value;
      r.(status := status, decidedByName := r.decidedByName.Or(name), decidedAt := r.decidedAt.Or(at),
         feedback := r.feedback.Or(feedback))
  }

  function WithDecider(row: Row, d: Decision): Row {
    row.(decidedBy := Some(d.approverId), decidedByName := Some(d.approverName), decidedAt := Some(d.at),
         feedback := d.feedback)
  }

  // ----- The merge fields -----

  datatype Outcome = Landed(sha: Option<string>) | Waiting(error: string) | Refused(error: string)

  /** A recorded merge wins over any later attempt; nothing else is guarded. */
  function Recorded(row: Row, outcome: Outcome, now: int): Row {
    if row.mergeStatus == Some(Merged) then row
    else match outcome
      case Landed(sha) => row.(mergeStatus := Some(Merged), mergeSha := sha, mergeError := None, mergedAt := Some(now))
      case Waiting(error) => row.(mergeStatus := Some(MergePending), mergeError := Some(error))
      case Refused(error) => row.(mergeStatus := Some(MergeFailed), mergeError := Some(error))
  }

  function Claimed(row: Row): Row {
    if row.mergeStatus.None? then row.(mergeStatus := Some(MergePending)) else row
  }

  predicate Mergeable(row: Row, details: Details) {
    row.status == Approved && IsMergeGate(details)
  }

  // ----- One attempt -----

  datatype TokenReply = Token | NotInstalled | TokenFails

  datatype ReadReply = ReadFails | NotFound | ReadStatus(http: int) | Read(pr: PullRequest)

  datatype PutReply = PutFails | Answer(merged: bool, sha: Option<string>) | PutStatus(http: int)

  function PutOutcome(reply: PutReply): Outcome {
    match reply
    case PutFails => Waiting("GitHub couldn't be reached.")
    case Answer(merged, sha) => if merged then Landed(sha) else Waiting("GitHub didn't merge it.")
    case PutStatus(http) =>
      if http == 409 then Refused("The pull request changed after approval.")
      else if http == 422 then Refused("GitHub refused the merge.")
      else Waiting("GitHub hasn't merged it yet.")
  }

  /** Where an attempt stands after the token and the read: settled, or about to merge exactly this commit. */
  datatype Reached = Settled(outcome: Outcome) | AboutToMerge(sha: string)

  function ReachedBy(details: Details, token: TokenReply, read: ReadReply): Reached {
    if TargetOf(details).Bad? then Settled(Refused("The approval names no commit to merge."))
    else match token
      case TokenFails => Settled(Waiting("Couldn't get a GitHub token to merge."))
      case NotInstalled => Settled(Waiting("Install harnesst's GitHub App."))
      case Token =>
        match read
        case ReadFails => Settled(Waiting("GitHub couldn't be reached."))
        case NotFound => Settled(Refused("The pull request wasn't found."))
        case ReadStatus(_) => Settled(Waiting("GitHub couldn't read the pull request."))
        case Read(pr) =>
          match PlanFor(details, pr)
          case Fail(_) => Settled(Refused("The pull request can't be merged as approved."))
          case AlreadyMerged(sha) => Settled(Landed(sha))
          case Merge(_, sha) => AboutToMerge(sha)
  }

  function AttemptOutcome(details: Details, token: TokenReply, read: ReadReply, put: PutReply): Outcome {
    var reached := ReachedBy(details, token, read);
    if reached.Settled? then reached.outcome else PutOutcome(put)
  }

  /**
   * A decided row claimed and tried, unless it is no merge gate or claimed already; nothing is read without its
   * project.
   */
  function Tried(details: Details, row: Row, found: bool, token: TokenReply, read: ReadReply, put: PutReply,
      now: int): Row {
    if !Mergeable(row, details) || row.mergeStatus.Some? then row
    else if TargetOf(details).Target? && !found then Claimed(row)
    else Recorded(Claimed(row), AttemptOutcome(details, token, read, put), now)
  }

  /** The row in the database; every method is one guarded UPDATE, or one attempt ending in one. */
  class ApprovalRow {
    const details: Details
    var status: Status
    var decidedBy: Option<string>
    var decidedByName: Option<string>
    var decidedAt: Option<int>
    var feedback: Option<string>
    var mergeStatus: Option<MergeStatus>
    var mergeSha: Option<string>
    var mergeError: Option<string>
    var mergedAt: Option<int>

    function State(): Row reads this {
      Row(status, decidedBy, decidedByName, decidedAt, feedback, mergeStatus, mergeSha, mergeError, mergedAt)
    }

    constructor Insert(details: Details, view: View)
      ensures this.details == details && State() == Mirrored(None, view)
    {
      this.details := details;
      var row := Mirrored(None, view);
      status, decidedBy, decidedByName, decidedAt, feedback :=
          row.status, None, row.decidedByName, row.decidedAt, row.feedback;
      mergeStatus, mergeSha, mergeError, mergedAt := None, None, None, None;
    }

    method UpsertFromLedger(view: View)
      modifies this`status, this`decidedByName, this`decidedAt, this`feedback
      ensures State() == Mirrored(Some(old(State())), view)
    {
      status := ApprovalStatus(view);
      var decided := status == Approved || status == Rejected;
      if decided && view.decision.Some? {
        decidedByName := decidedByName.Or(Some(view.decision.value.approverName));
        decidedAt := decidedAt.Or(Some(view.decision.value.at));
        feedback := feedback.Or(view.decision.value.feedback);
      }
    }

    method WriteDecider(d: Decision)
      modifies this`decidedBy, this`decidedByName, this`decidedAt, this`feedback
      ensures State() == WithDecider(old(State()), d)
    {
      decidedBy, decidedByName, decidedAt, feedback := Some(d.approverId), Some(d.approverName), Some(d.at), d.feedback;
    }

    method Record(outcome: Outcome, now: int)
      modifies this`mergeStatus, this`mergeSha, this`mergeError, this`mergedAt
      ensures State() == Recorded(old(State()), outcome, now)
    {
      if mergeStatus != Some(Merged) {
        match outcome {
          case Landed(sha) => mergeStatus, mergeSha, mergeError, mergedAt := Some(Merged), sha, None, Some(now);
          case Waiting(error) => mergeStatus, mergeError := Some(MergePending), Some(error);
          case Refused(error) => mergeStatus, mergeError := Some(MergeFailed), Some(error);
        }
      }
    }

    method MarkPending() returns (claimed: bool)
      modifies this`mergeStatus
      ensures State() == Claimed(old(State())) && claimed == old(mergeStatus).None?
    {
      claimed := mergeStatus.None?;
      if claimed { mergeStatus := Some(MergePending); }
    }

    /** `seen` is the row as the caller read it; `found` is false when the project is gone. */
    method MergeApproved(seen: Row, found: bool, token: TokenReply, read: ReadReply, put: PutReply, now: int)
      modifies this`mergeStatus, this`mergeSha, this`mergeError, this`mergedAt
      ensures State() ==
              (if !Mergeable(seen, details) || seen.mergeStatus in {Some(Merged), Some(MergeFailed)} ||
                  (TargetOf(details).Target? && !found) then old(State())
               else Recorded(old(State()), AttemptOutcome(details, token, read, put), now))
    {
      if seen.status != Approved || !IsMergeGate(details) { return; }
      if seen.mergeStatus == Some(Merged) || seen.mergeStatus == Some(MergeFailed) { return; }
      if TargetOf(details).Target? && !found { return; }
      var reached := ReachedBy(details, token, read);
      var outcome := if reached.Settled? then reached.outcome else PutOutcome(put);
      Record(outcome, now);
    }

    /** After a decision made here: claim the merge and try it straight away. */
    method MergeAfterDecision(found: bool, token: TokenReply, read: ReadReply, put: PutReply, now: int)
      modifies this`mergeStatus, this`mergeSha, this`mergeError, this`mergedAt
      ensures State() == Tried(details, old(State()), found, token, read, put, now)
    {
      if status != Approved || !IsMergeGate(details) { return; }
      var claimed := MarkPending();
      if !claimed { return; }
      MergeApproved(State(), found, token, read, put, now);
    }

    /**
     * A person's decision, after the ledger's answer `view`: if the ledger took it, the decider is written before
     * the mirror, which therefore keeps them, and an approved merge is tried at once; if not, the row only mirrors.
     */
    method DecideApproval(view: View, decidedHere: bool, d: Decision, found: bool,
        token: TokenReply, read: ReadReply, put: PutReply, now: int)
      modifies this
      ensures State() ==
              (if decidedHere
               then Tried(details, Mirrored(Some(WithDecider(old(State()), d)), view), found, token, read, put, now)
               else Mirrored(Some(old(State())), view))
      ensures decidedHere ==>
              decidedBy == Some(d.approverId) && decidedByName == Some(d.approverName) && decidedAt == Some(d.at)
      ensures old(mergeStatus) == Some(Merged) ==> SameMerge(State(), old(State()))
    {
      if decidedHere { WriteDecider(d); }
      UpsertFromLedger(view);
      if decidedHere { MergeAfterDecision(found, token, read, put, now); }
    }
  }

  // ----- One write at a time -----

  predicate SameMerge(a: Row, b: Row) {
    a.mergeStatus == b.mergeStatus && a.mergeSha == b.mergeSha && a.mergeError == b.mergeError &&
    a.mergedAt == b.mergedAt
  }

  predicate Keeps<T(==)>(a: Option<T>, b: Option<T>) { a.Some? ==> b == a }

  /** A mirror of the ledger, however stale, changes no merge field and no decider already recorded. */
  lemma MirrorKeepsDecisionAndMerge(row: Row, view: View)
    ensures var r := Mirrored(Some(row), view);
            SameMerge(row, r) && r.decidedBy == row.decidedBy &&
            Keeps(row.decidedByName, r.decidedByName) && Keeps(row.decidedAt, r.decidedAt) &&
            Keeps(row.feedback, r.feedback)
  {
  }
}
