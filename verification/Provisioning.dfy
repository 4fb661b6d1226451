/**
 * Provisioning a project's assistant (app/assistant/instance.server.ts): a send wakes, waits for or queues a
 * deployment, a worker job carries it out, and three failures in a row for one image open the circuit.
 */
module Provisioning {
  import opened Prelude

  datatype Status = Pending | Building | Live | Stopped | Failed {
    predicate InFlight() { Pending? || Building? }
  }

  /** A deployment row; `sha` is its release's marker. Rows are listed newest first. */
  datatype Deployment = Deployment(id: nat, sha: string, status: Status)

  const MAX_CONSECUTIVE_ASSISTANT_FAILURES := 3

  /** A deploy job; `begun` when it was under way before its worker restarted. */
  datatype Job = Waiting(begun: bool) | Running(deployment: nat)

  /**
   * One request in `ensureAssistantInstance`: past the circuit with its count, or past its insert and about to queue
   * the job.
   */
  datatype Sender = Free | Counted(sha: string) | Inserted(deployment: nat)

  /** One environment: its rows, the requests that may be under way at once, and the deploy jobs queued or running. */
  datatype World = World(rows: seq<Deployment>, senders: seq<Sender>, jobs: seq<Job>)

  datatype Answer = Alive(id: nat) | Provisioning(id: nat) | CircuitOpen | Passes

  // ----- The circuit -----

  /** Failures of one image, newest first, up to its latest row that is not one. */
  function Failures(rows: seq<Deployment>, sha: string): nat {
    if rows == [] then 0
    else if rows[0].sha != sha then Failures(rows[1..], sha)
    else if rows[0].status != Failed then 0
    else 1 + Failures(rows[1..], sha)
  }

  method ConsecutiveAssistantFailures(deployments: seq<Deployment>, sha: string) returns (count: nat)
    ensures count == Failures(deployments, sha)
  {
    count := 0;
    assert deployments[0..] == deployments;
    for i := 0 to |deployments|
      invariant count + Failures(deployments[i..], sha) == Failures(deployments, sha)
    {
      assert deployments[i..][0] == deployments[i] && deployments[i..][1..] == deployments[i + 1..];
      if deployments[i].sha == sha {
        if deployments[i].status != Failed { break; }
        count := count + 1;
      }
    }
  }

  // ----- One send: read and decide, insert, queue -----

  function FirstWith(rows: seq<Deployment>, fits: Deployment -> bool): Option<nat>
  {
    if rows == [] then None else if fits(rows[0]) then Some(rows[0].id) else FirstWith(rows[1..], fits)
  }

  function InFlightRow(rows: seq<Deployment>): Option<nat> { FirstWith(rows, (d: Deployment) => d.status.InFlight()) }

  /**
   * What the rows read at the start decide; `recovered` and `woken` say whether a live or stopped row of the image
   * answers after all.
   */
  function Decided(rows: seq<Deployment>, sha: string, recovered: bool, woken: bool): Answer {
    var live := FirstWith(rows, (d: Deployment) => d.status == Live && d.sha == sha);
    var stopped := FirstWith(rows, (d: Deployment) => d.status == Stopped && d.sha == sha);
    var pending := InFlightRow(rows);
    if live.Some? && recovered then Alive(live.value)
    else if stopped.Some? && woken then Alive(stopped.value)
    else if pending.Some? then Provisioning(pending.value)
    else if Failures(rows, sha) >= MAX_CONSECUTIVE_ASSISTANT_FAILURES then CircuitOpen
    else Passes
  }

  function Looked(w: World, s: nat, sha: string, recovered: bool, woken: bool): World
    requires s < |w.senders|
  {
    if Decided(w.rows, sha, recovered, woken).Passes? then w.(senders := w.senders[s := Counted(sha)]) else w
  }

  /** The insert of a second row in flight violates the unique index; the row that is there is adopted. */
  function InsertedRow(w: World, s: nat, id: nat): World
    requires s < |w.senders| && w.senders[s].Counted?
  {
    if InFlightRow(w.rows).Some? then w.(senders := w.senders[s := Free])
    else w.(rows := [Deployment(id, w.senders[s].sha, Pending)] + w.rows, senders := w.senders[s := Inserted(id)])
  }

  function Enqueued(w: World, s: nat): World
    requires s < |w.senders|
  {
    w.(senders := w.senders[s := Free], jobs := w.jobs + [Waiting(false)])
  }

  // ----- The job -----

  function WithStatus(rows: seq<Deployment>, id: nat, status: Status): seq<Deployment> {
    if rows == [] then []
    else [if rows[0].id == id then rows[0].(status := status) else rows[0]] + WithStatus(rows[1..], id, status)
  }

  /** The job takes over a pending or building row, or makes one of its own. */
  function Begun(w: World, job: nat, sha: string, id: nat): World
    requires job < |w.jobs|
  {
    var takeover := InFlightRow(w.rows);
    if takeover.Some? then
      w.(rows := WithStatus(w.rows, takeover.value, Building), jobs := w.jobs[job := Running(takeover.value)])
    else w.(rows := [Deployment(id, sha, Building)] + w.rows, jobs := w.jobs[job := Running(id)])
  }

  /** The other rows that were live when the job began give way. */
  function Demoted(rows: seq<Deployment>, ids: set<nat>): seq<Deployment> {
    if rows == [] then []
    else [if rows[0].id in ids then rows[0].(status := Stopped) else rows[0]] + Demoted(rows[1..], ids)
  }

  function Ended(w: World, job: nat, healthy: bool, liveBefore: set<nat>): World
    requires job < |w.jobs| && w.jobs[job].Running?
  {
    var id := w.jobs[job].deployment;
    w.(rows := if healthy then WithStatus(Demoted(w.rows, liveBefore - {id}), id, Live)
        else WithStatus(w.rows, id, Failed),
       jobs := Without(w.jobs, job))
  }

  // ----- Runs -----

  datatype Move =
    | Look(sender: nat, sha: string, recovered: bool, woken: bool)
    | Insert(sender: nat, id: nat)
    | Enqueue(sender: nat)
    /** The request dies where it stands. */
    | Crash(sender: nat)
    | Begin(job: nat, sha: string, id: nat)
    | End(job: nat, healthy: bool, liveBefore: set<nat>)
    /** A job is lost: it throws outside its own catch, say before it takes a row over. There is no second attempt. */
    | Die(job: nat)
    /** The worker restarts while a job is under way; the job is queued again. */
    | Requeue(job: nat)
    /** A row that is not in flight is woken, recovered or stopped by someone else; never marked failed. */
    | Moved(id: nat, status: Status)

  predicate FreshId(w: World, id: nat) { forall d <- w.rows :: d.id != id }

  predicate Allowed(w: World, move: Move) {
    match move
    case Look(s, _, _, _) => s < |w.senders| && w.senders[s].Free?
    case Insert(s, id) => s < |w.senders| && w.senders[s].Counted? && FreshId(w, id)
    case Enqueue(s) => s < |w.senders| && w.senders[s].Inserted?
    case Crash(s) => s < |w.senders|
    case Begin(job, _, id) => job < |w.jobs| && w.jobs[job].Waiting? && FreshId(w, id)
    case End(job, _, _) => job < |w.jobs| && w.jobs[job].Running?
    case Die(job) => job < |w.jobs|
    case Requeue(job) => job < |w.jobs| && w.jobs[job].Running?
    case Moved(id, status) =>
      (status == Live || status == Stopped) && forall d <- w.rows :: d.id == id ==> !d.status.InFlight()
  }

  function Next(w: World, move: Move): World
    requires Allowed(w, move)
  {
    match move
    case Look(s, sha, recovered, woken) => Looked(w, s, sha, recovered, woken)
    case Insert(s, id) => InsertedRow(w, s, id)
    case Enqueue(s) => Enqueued(w, s)
    case Crash(s) => w.(senders := w.senders[s := Free])
    case Begin(job, sha, id) => Begun(w, job, sha, id)
    case End(job, healthy, liveBefore) => Ended(w, job, healthy, liveBefore)
    case Die(job) => w.(jobs := Without(w.jobs, job))
    case Requeue(job) => w.(jobs := w.jobs[job := Waiting(true)])
    case Moved(id, status) => w.(rows := WithStatus(w.rows, id, status))
  }

  predicate Runs(w: World, moves: seq<Move>)
    decreases |moves|
  {
    moves == [] || (Allowed(w, moves[0]) && Runs(Next(w, moves[0]), moves[1..]))
  }

  function After(w: World, moves: seq<Move>): World
    requires Runs(w, moves)
    decreases |moves|
  {
    if moves == [] then w else After(Next(w, moves[0]), moves[1..])
  }

  /** An environment without deployments, where at most `n` requests are under way at once. */
  function Start(n: nat): World { World([], seq(n, _ => Free), []) }

  // ----- The invariant -----

  predicate NoneInFlight(rows: seq<Deployment>) {
    forall d <- rows :: !d.status.InFlight()
  }

  predicate TopInFlight(rows: seq<Deployment>) {
    rows != [] && rows[0].status.InFlight()
  }

  /** The requests that have inserted their row and not queued its job yet. */
  function Owing(senders: seq<Sender>): set<nat> {
    set s: nat | s < |senders| && senders[s].Inserted?
  }

  predicate IsItsJob(row: Deployment, job: Job) {
    match job
    case Waiting(begun) => row.status == if begun then Building else Pending
    case Running(id) => row.status == Building && row.id == id
  }

  /**
   * Only the newest row can be in flight. A building one has a job of its own, running or queued again; a pending one
   * has a waiting job or a request about to queue it; or it has lost them (`lossless` says no request crashed and no
   * job died).
   */
  ghost predicate OneJobPerRow(w: World, lossless: bool) {
    var owing := Owing(w.senders);
    if TopInFlight(w.rows) then
      NoneInFlight(w.rows[1..]) && (forall d <- w.rows[1..] :: d.id != w.rows[0].id) &&
      ((|w.jobs| == 1 && IsItsJob(w.rows[0], w.jobs[0]) && owing == {}) ||
       (w.rows[0].status == Pending && w.jobs == [] && exists s :: owing == {s}) ||
       (!lossless && w.jobs == [] && owing == {}))
    else NoneInFlight(w.rows) && w.jobs == [] && owing == {}
  }

  /** Requests past the circuit for this image that have not inserted yet. */
  function CountedFor(senders: seq<Sender>, sha: string): nat {
    if senders == [] then 0 else (if senders[0] == Counted(sha) then 1 else 0) + CountedFor(senders[1..], sha)
  }

  /** Failures in a row, the attempt in flight and those about to start, all of one image. */
  function Exposed(w: World, sha: string): nat {
    CountedFor(w.senders, sha) +
    if TopInFlight(w.rows) then (if w.rows[0].sha == sha then 1 else 0) + Failures(w.rows[1..], sha)
        else Failures(w.rows, sha)
  }

  predicate Bounded(w: World, sha: string) {
    Exposed(w, sha) <= MAX_CONSECUTIVE_ASSISTANT_FAILURES - 1 + |w.senders|
  }

  ghost predicate Inv(w: World, lossless: bool) {
    OneJobPerRow(w, lossless) && forall sha: string :: Bounded(w, sha)
  }

  /** The same rows with no new failure. */
  predicate Relaxes(a: seq<Deployment>, b: seq<Deployment>) {
    |a| == |b| && forall i ::
        0 <= i < |a| ==> a[i].id == b[i].id && a[i].sha == b[i].sha && (b[i].status == Failed ==> a[i].status == Failed)
  }

  lemma {:induction false} RelaxedFailures(a: seq<Deployment>, b: seq<Deployment>, sha: string)
    requires Relaxes(a, b)
    ensures Failures(b, sha) <= Failures(a, sha)
    decreases |a|
  {
    if a != [] {
      forall i | 0 <= i < |a[1..]| ensures a[1..][i] == a[i + 1] && b[1..][i] == b[i + 1] {}
      RelaxedFailures(a[1..], b[1..], sha);
    }
  }

  lemma {:induction false} WithStatusAt(rows: seq<Deployment>, id: nat, status: Status)
    ensures var r := WithStatus(rows, id, status);
            |r| == |rows| && forall i ::
                0 <= i < |rows| ==> r[i] == if rows[i].id == id then rows[i].(status := status) else rows[i]
    decreases |rows|
  {
    if rows != [] { WithStatusAt(rows[1..], id, status); }
  }

  lemma {:induction false} DemotedAt(rows: seq<Deployment>, ids: set<nat>)
    ensures var r := Demoted(rows, ids);
            |r| == |rows| && forall i ::
                0 <= i < |rows| ==> r[i] == if rows[i].id in ids then rows[i].(status := Stopped) else rows[i]
    decreases |rows|
  {
    if rows != [] { DemotedAt(rows[1..], ids); }
  }

  lemma WithStatusElsewhere(rows: seq<Deployment>, id: nat, status: Status)
    requires forall d <- rows :: d.id != id
    ensures WithStatus(rows, id, status) == rows
  {
    WithStatusAt(rows, id, status);
  }

  lemma {:induction false} CountedUpdate(senders: seq<Sender>, s: nat, sender: Sender, sha: string)
    requires s < |senders|
    ensures CountedFor(senders[s := sender], sha) + (if senders[s] == Counted(sha) then 1 else 0) ==
            CountedFor(senders, sha) + if sender == Counted(sha) then 1 else 0
    decreases |senders|
  {
    if s > 0 {
      assert senders[s := sender][1..] == senders[1..][s - 1 := sender];
      CountedUpdate(senders[1..], s - 1, sender, sha);
    } else {
      assert senders[s := sender][1..] == senders[1..];
    }
  }

  lemma {:induction false} CountedAtMost(senders: seq<Sender>, sha: string)
    ensures CountedFor(senders, sha) <= |senders|
    decreases |senders|
  {
    if senders != [] { CountedAtMost(senders[1..], sha); }
  }

  lemma OwingUpdate(senders: seq<Sender>, s: nat, sender: Sender)
    requires s < |senders|
    ensures Owing(senders[s := sender]) == if sender.Inserted? then Owing(senders) + {s} else Owing(senders) - {s}
  {
  }

  lemma {:induction false} RowFound(rows: seq<Deployment>)
    ensures InFlightRow(rows).None? <==> NoneInFlight(rows)
    ensures TopInFlight(rows) ==> InFlightRow(rows) == Some(rows[0].id)
    decreases |rows|
  {
    if rows != [] {
      RowFound(rows[1..]);
      assert rows[0] in rows;
      forall d <- rows[1..] ensures d in rows {}
    }
  }

  // ----- Every move keeps it -----

  lemma LookKeepsInv(w: World, lossless: bool, s: nat, sha: string, recovered: bool, woken: bool)
    requires Inv(w, lossless) && Allowed(w, Look(s, sha, recovered, woken))
    ensures Inv(Looked(w, s, sha, recovered, woken), lossless)
  {
    var next := Looked(w, s, sha, recovered, woken);
    if next != w {
      OwingUpdate(w.senders, s, Counted(sha));
      assert Owing(w.senders) - {s} == Owing(w.senders);
      RowFound(w.rows);
      forall other: string ensures Bounded(next, other) {
        assert Bounded(w, other);
        CountedUpdate(w.senders, s, Counted(sha), other);
        CountedAtMost(next.senders, other);
      }
    }
  }

  lemma InsertKeepsInv(w: World, lossless: bool, s: nat, id: nat)
    requires Inv(w, lossless) && Allowed(w, Insert(s, id))
    ensures Inv(InsertedRow(w, s, id), lossless)
  {
    var next := InsertedRow(w, s, id);
    RowFound(w.rows);
    assert s !in Owing(w.senders);
    OwingUpdate(w.senders, s, next.senders[s]);
    assert Owing(w.senders) - {s} == Owing(w.senders);
    if next.rows != w.rows {
      assert next.rows[1..] == w.rows && Owing(w.senders) == {};
      assert Owing(next.senders) == {s};
    }
    forall sha: string ensures Bounded(next, sha) {
      assert Bounded(w, sha);
      CountedUpdate(w.senders, s, next.senders[s], sha);
    }
  }

  lemma EnqueueKeepsInv(w: World, lossless: bool, s: nat)
    requires Inv(w, lossless) && Allowed(w, Enqueue(s))
    ensures Inv(Enqueued(w, s), lossless)
  {
    var next := Enqueued(w, s);
    assert s in Owing(w.senders);
    OwingUpdate(w.senders, s, Free);
    assert Owing(w.senders) == {s} && w.jobs + [Waiting(false)] == [Waiting(false)];
    forall sha: string ensures Bounded(next, sha) {
      assert Bounded(w, sha);
      CountedUpdate(w.senders, s, Free, sha);
    }
  }

  lemma CrashKeepsInv(w: World, s: nat)
    requires Inv(w, false) && Allowed(w, Crash(s))
    ensures Inv(Next(w, Crash(s)), false)
  {
    var next := Next(w, Crash(s));
    OwingUpdate(w.senders, s, Free);
    if i: nat :| Owing(w.senders) == {i} {
      assert Owing(next.senders) == if s == i then {} else {i};
    }
    forall sha: string ensures Bounded(next, sha) {
      assert Bounded(w, sha);
      CountedUpdate(w.senders, s, Free, sha);
    }
  }

  /** A lost job leaves its row in flight with none. */
  lemma DieKeepsInv(w: World, job: nat)
    requires Inv(w, false) && Allowed(w, Die(job))
    ensures Inv(Next(w, Die(job)), false)
  {
    var next := Next(w, Die(job));
    assert |w.jobs| == 1 && next.jobs == [];
    forall sha: string ensures Bounded(next, sha) { assert Bounded(w, sha); }
  }

  lemma RequeueKeepsInv(w: World, lossless: bool, job: nat)
    requires Inv(w, lossless) && Allowed(w, Requeue(job))
    ensures Inv(Next(w, Requeue(job)), lossless)
  {
    var next := Next(w, Requeue(job));
    forall sha: string ensures Bounded(next, sha) { assert Bounded(w, sha); }
  }

  /** A waiting job takes over the newest row, pending or begun before a restart: it never makes a row of its own. */
  lemma BeginTakesOver(w: World, lossless: bool, job: nat, sha: string, id: nat)
    requires Inv(w, lossless) && job < |w.jobs| && w.jobs[job].Waiting?
    ensures TopInFlight(w.rows) && IsItsJob(w.rows[0], w.jobs[job])
    ensures var next := Begun(w, job, sha, id);
            next == w.(rows := [w.rows[0].(status := Building)] + w.rows[1..], jobs := [Running(w.rows[0].id)])
  {
    RowFound(w.rows);
    WithStatusElsewhere(w.rows[1..], w.rows[0].id, Building);
  }

  lemma BeginKeepsInv(w: World, lossless: bool, job: nat, sha: string, id: nat)
    requires Inv(w, lossless) && job < |w.jobs| && w.jobs[job].Waiting?
    ensures Inv(Begun(w, job, sha, id), lossless)
  {
    BeginTakesOver(w, lossless, job, sha, id);
    var next := Begun(w, job, sha, id);
    assert next.rows[1..] == w.rows[1..];
    forall other: string ensures Bounded(next, other) { assert Bounded(w, other); }
  }

  /** A job that fails marks its own row, the newest. */
  lemma FailMarksTop(w: World, lossless: bool, job: nat, liveBefore: set<nat>)
    requires Inv(w, lossless) && job < |w.jobs| && w.jobs[job].Running?
    ensures TopInFlight(w.rows) && w.rows[0].status == Building
    ensures Ended(w, job, false, liveBefore) == w.(rows := [w.rows[0].(status := Failed)] + w.rows[1..], jobs := [])
  {
    WithStatusElsewhere(w.rows[1..], w.rows[0].id, Failed);
  }

  lemma FailKeepsInv(w: World, lossless: bool, job: nat, liveBefore: set<nat>)
    requires Inv(w, lossless) && job < |w.jobs| && w.jobs[job].Running?
    ensures Inv(Ended(w, job, false, liveBefore), lossless)
  {
    FailMarksTop(w, lossless, job, liveBefore);
    var next := Ended(w, job, false, liveBefore);
    assert next.rows[1..] == w.rows[1..];
    forall d <- next.rows ensures !d.status.InFlight() { assert d == next.rows[0] || d in w.rows[1..]; }
    forall sha: string ensures Bounded(next, sha) { assert Bounded(w, sha); }
  }

  /** A job that ends well leaves its own row, the newest, live, and stops those that were. */
  lemma SucceedMarksTop(w: World, lossless: bool, job: nat, liveBefore: set<nat>)
    requires Inv(w, lossless) && job < |w.jobs| && w.jobs[job].Running?
    ensures var next := Ended(w, job, true, liveBefore);
            TopInFlight(w.rows) && |next.rows| == |w.rows| && next.rows[0] == w.rows[0].(status := Live) &&
            next.jobs == [] && next.senders == w.senders && Owing(w.senders) == {} && NoneInFlight(w.rows[1..]) &&
            forall i :: 1 <= i < |w.rows| ==>
              next.rows[i] == if w.rows[i].id in liveBefore then w.rows[i].(status := Stopped) else w.rows[i]
  {
    var id := w.jobs[job].deployment;
    assert job == 0 && id == w.rows[0].id && Without(w.jobs, job) == [];
    DemotedAt(w.rows, liveBefore - {id});
    WithStatusAt(Demoted(w.rows, liveBefore - {id}), id, Live);
    forall i | 1 <= i < |w.rows| ensures w.rows[i].id != id { assert w.rows[i] == w.rows[1..][i - 1]; }
  }

  lemma SucceedKeepsInv(w: World, lossless: bool, job: nat, liveBefore: set<nat>)
    requires Inv(w, lossless) && job < |w.jobs| && w.jobs[job].Running?
    ensures Inv(Ended(w, job, true, liveBefore), lossless) && NoneInFlight(Ended(w, job, true, liveBefore).rows)
  {
    SucceedMarksTop(w, lossless, job, liveBefore);
    var rows, next := w.rows, Ended(w, job, true, liveBefore);
    forall i | 0 <= i < |rows| ensures !next.rows[i].status.InFlight() {
      assert i > 0 ==> rows[i] == rows[1..][i - 1];
    }
    forall sha: string ensures Bounded(next, sha) {
      assert Bounded(w, sha);
      LiveRelaxes(rows, next.rows, sha);
    }
  }

  lemma LiveRelaxes(rows: seq<Deployment>, next: seq<Deployment>, sha: string)
    requires rows != [] && |next| == |rows| && next[0] == rows[0].(status := Live)
    requires forall i :: 1 <= i < |rows| ==> next[i] == rows[i] || next[i] == rows[i].(status := Stopped)
    ensures Failures(next, sha) <= Failures(rows[1..], sha)
  {
    assert Relaxes(rows[1..], next[1..]);
    RelaxedFailures(rows[1..], next[1..], sha);
  }

  lemma MovedRelaxes(rows: seq<Deployment>, id: nat, status: Status, sha: string)
    requires status == Live || status == Stopped
    ensures Failures(WithStatus(rows, id, status), sha) <= Failures(rows, sha)
    ensures NoneInFlight(rows) ==> NoneInFlight(WithStatus(rows, id, status))
  {
    WithStatusAt(rows, id, status);
    RelaxedFailures(rows, WithStatus(rows, id, status), sha);
  }

  lemma OtherIdStays(rows: seq<Deployment>, id: nat, status: Status, other: nat)
    requires forall d <- rows :: d.id != other
    ensures forall d <- WithStatus(rows, id, status) :: d.id != other
  {
    WithStatusAt(rows, id, status);
  }

  lemma MovedKeepsBound(w: World, id: nat, status: Status, sha: string)
    requires Allowed(w, Moved(id, status)) && Bounded(w, sha)
    ensures Bounded(Next(w, Moved(id, status)), sha)
  {
    MovedRelaxes(w.rows, id, status, sha);
    if w.rows != [] {
      assert w.rows[0] in w.rows;
      MovedRelaxes(w.rows[1..], id, status, sha);
    }
  }

  lemma MovedKeepsJobs(w: World, lossless: bool, id: nat, status: Status)
    requires OneJobPerRow(w, lossless) && Allowed(w, Moved(id, status))
    ensures OneJobPerRow(Next(w, Moved(id, status)), lossless)
  {
    var rows, next := w.rows, WithStatus(w.rows, id, status);
    if TopInFlight(rows) {
      assert rows[0] in rows && rows[0].id != id;
      assert next[0] == rows[0] && next[1..] == WithStatus(rows[1..], id, status);
      MovedRelaxes(rows[1..], id, status, "");
      OtherIdStays(rows[1..], id, status, rows[0].id);
    } else {
      MovedRelaxes(rows, id, status, "");
      assert next != [] ==> next[0] in next;
    }
  }

  lemma MovedKeepsInv(w: World, lossless: bool, id: nat, status: Status)
    requires Inv(w, lossless) && Allowed(w, Moved(id, status))
    ensures Inv(Next(w, Moved(id, status)), lossless)
  {
    MovedKeepsJobs(w, lossless, id, status);
    forall sha: string ensures Bounded(Next(w, Moved(id, status)), sha) {
      assert Bounded(w, sha);
      MovedKeepsBound(w, id, status, sha);
    }
  }

  lemma StepKeepsInv(w: World, lossless: bool, move: Move)
    requires Inv(w, lossless) && Allowed(w, move) && (lossless ==> !move.Crash? && !move.Die?)
    ensures Inv(Next(w, move), lossless)
  {
    match move {
      case Look(s, sha, recovered, woken) => LookKeepsInv(w, lossless, s, sha, recovered, woken);
      case Insert(s, id) => InsertKeepsInv(w, lossless, s, id);
      case Enqueue(s) => EnqueueKeepsInv(w, lossless, s);
      case Crash(s) => CrashKeepsInv(w, s);
      case Begin(job, sha, id) => BeginKeepsInv(w, lossless, job, sha, id);
      case End(job, healthy, liveBefore) =>
        if healthy {
          SucceedKeepsInv(w, lossless, job, liveBefore);
        } else {
          FailKeepsInv(w, lossless, job, liveBefore);
        }
      case Die(job) => DieKeepsInv(w, job);
      case Requeue(job) => RequeueKeepsInv(w, lossless, job);
      case Moved(id, status) => MovedKeepsInv(w, lossless, id, status);
    }
  }

  predicate Lossless(moves: seq<Move>) {
    forall move <- moves :: !move.Crash? && !move.Die?
  }

  lemma {:induction false} RunKeepsInv(w: World, lossless: bool, moves: seq<Move>)
    requires Inv(w, lossless) && Runs(w, moves) && (lossless ==> Lossless(moves))
    ensures Inv(After(w, moves), lossless) && |After(w, moves).senders| == |w.senders|
    decreases |moves|
  {
    if moves != [] {
      assert lossless ==> !moves[0].Crash? && !moves[0].Die?;
      StepKeepsInv(w, lossless, moves[0]);
      RunKeepsInv(Next(w, moves[0]), lossless, moves[1..]);
    }
  }

  lemma StartHoldsInv(n: nat)
    requires n > 0
    ensures Inv(Start(n), true)
  {
    var w := Start(n);
    assert Owing(w.senders) == {};
    forall sha: string ensures Bounded(w, sha) { CountedAtMost(w.senders, sha); }
  }

  // ----- What every run keeps -----

  function InFlightCount(rows: seq<Deployment>): nat {
    if rows == [] then 0 else (if rows[0].status.InFlight() then 1 else 0) + InFlightCount(rows[1..])
  }

  lemma {:induction false} NoneCounted(rows: seq<Deployment>)
    requires NoneInFlight(rows)
    ensures InFlightCount(rows) == 0
    decreases |rows|
  {
    if rows != [] {
      assert rows[0] in rows;
      forall d <- rows[1..] ensures d in rows {}
      NoneCounted(rows[1..]);
    }
  }

  /**
   * In every run from nothing, with requests interleaving as they like: with at most `n` of them at once no image has
   * more than `n + 2` failures in a row (three, if they come one at a time); at most one row is in flight; and there
   * are never more jobs and requests about to queue one than rows in flight, nor, if no request crashed and no job
   * died, fewer.
   */
  lemma CircuitAndJobs(n: nat, moves: seq<Move>, sha: string)
    requires n > 0 && Runs(Start(n), moves)
    ensures var w := After(Start(n), moves);
            Failures(w.rows, sha) <= MAX_CONSECUTIVE_ASSISTANT_FAILURES - 1 + n && InFlightCount(w.rows) <= 1 &&
            |w.jobs| + |Owing(w.senders)| <= InFlightCount(w.rows) &&
            (Lossless(moves) ==> |w.jobs| + |Owing(w.senders)| == InFlightCount(w.rows))
  {
    StartHoldsInv(n);
    RunKeepsInv(Start(n), Lossless(moves), moves);
    var w := After(Start(n), moves);
    assert Bounded(w, sha);
    if TopInFlight(w.rows) { NoneCounted(w.rows[1..]); } else { NoneCounted(w.rows); }
  }

  /**
   * A job always finds the row it was queued for, pending, or building if it was under way before its worker restarted:
   * it never makes a row of its own.
   */
  lemma JobFindsItsRow(n: nat, moves: seq<Move>, job: nat)
    requires n > 0 && Runs(Start(n), moves)
    requires var w := After(Start(n), moves); job < |w.jobs| && w.jobs[job].Waiting?
    ensures var w := After(Start(n), moves);
            w.rows != [] && InFlightRow(w.rows) == Some(w.rows[0].id) &&
            w.rows[0].status == if w.jobs[job].begun then Building else Pending
  {
    StartHoldsInv(n);
    RunKeepsInv(Start(n), Lossless(moves), moves);
    var w := After(Start(n), moves);
    BeginTakesOver(w, Lossless(moves), job, "", 0);
    RowFound(w.rows);
  }

  // ----- A row that lost its job -----

  lemma {:induction false} Append(w: World, first: seq<Move>, rest: seq<Move>)
    requires Runs(w, first) && Runs(After(w, first), rest)
    ensures Runs(w, first + rest) && After(w, first + rest) == After(After(w, first), rest)
    decreases |first|
  {
    if first == [] {
      assert first + rest == rest;
    } else {
      assert (first + rest)[0] == first[0] && (first + rest)[1..] == first[1..] + rest;
      Append(Next(w, first[0]), first[1..], rest);
    }
  }

  lemma One(w: World, move: Move)
    requires Allowed(w, move)
    ensures Runs(w, [move]) && After(w, [move]) == Next(w, move)
  {
    assert [move][1..] == [];
  }

  /** In flight, with no job and no request about to queue one. */
  predicate Stranded(w: World) {
    TopInFlight(w.rows) && w.jobs == [] && Owing(w.senders) == {}
  }

  lemma StrandedStep(w: World, move: Move)
    requires Inv(w, false) && Stranded(w) && Allowed(w, move)
    ensures Stranded(Next(w, move)) && Next(w, move).rows[0] == w.rows[0] && |Next(w, move).rows| == |w.rows|
  {
    RowFound(w.rows);
    assert forall s: nat :: s < |w.senders| && w.senders[s].Inserted? ==> s in Owing(w.senders);
    match move {
      case Insert(s, id) => OwingUpdate(w.senders, s, Free);
      case Crash(s) => OwingUpdate(w.senders, s, Free);
      case Moved(id, status) =>
        assert w.rows[0] in w.rows;
        WithStatusAt(w.rows, id, status);
      case _ =>
    }
  }

  /** Nothing ever starts again: no row is added, none leaves, and no job is queued. */
  lemma {:induction false} StrandedStays(w: World, moves: seq<Move>)
    requires Inv(w, false) && Stranded(w) && Runs(w, moves)
    ensures var v := After(w, moves); Stranded(v) && v.rows[0] == w.rows[0] && |v.rows| == |w.rows|
    decreases |moves|
  {
    if moves != [] {
      StrandedStep(w, moves[0]);
      StepKeepsInv(w, false, moves[0]);
      StrandedStays(Next(w, moves[0]), moves[1..]);
    }
  }

  lemma {:induction false} SomeFreshId(rows: seq<Deployment>) returns (id: nat)
    ensures forall d <- rows :: d.id < id
    decreases |rows|
  {
    if rows == [] {
      id := 0;
    } else {
      var rest := SomeFreshId(rows[1..]);
      id := Max(rest, rows[0].id + 1);
    }
  }

  lemma RunningEnds(w: World)
    requires Inv(w, false) && w.jobs != [] && w.jobs[0].Running?
    ensures Runs(w, [End(0, false, {})]) && !TopInFlight(After(w, [End(0, false, {})]).rows)
  {
    One(w, End(0, false, {}));
    FailMarksTop(w, false, 0, {});
  }

  lemma WaitingEnds(w: World) returns (moves: seq<Move>)
    requires Inv(w, false) && w.jobs != [] && w.jobs[0].Waiting?
    ensures Runs(w, moves) && !TopInFlight(After(w, moves).rows)
  {
    var id := SomeFreshId(w.rows);
    var begin := Begin(0, "", id);
    BeginKeepsInv(w, false, 0, "", id);
    BeginTakesOver(w, false, 0, "", id);
    One(w, begin);
    RunningEnds(Next(w, begin));
    Append(w, [begin], [End(0, false, {})]);
    moves := [begin] + [End(0, false, {})];
  }

  lemma EndsFrom(w: World)
    requires Inv(w, false) && TopInFlight(w.rows)
    ensures (exists moves :: Runs(w, moves) && !TopInFlight(After(w, moves).rows)) <==>
            w.jobs != [] || Owing(w.senders) != {}
  {
    if w.jobs == [] && Owing(w.senders) == {} {
      forall moves | Runs(w, moves) ensures TopInFlight(After(w, moves).rows) { StrandedStays(w, moves); }
    } else if w.jobs == [] {
      var s :| s in Owing(w.senders);
      EnqueueKeepsInv(w, false, s);
      One(w, Enqueue(s));
      var rest := WaitingEnds(Next(w, Enqueue(s)));
      Append(w, [Enqueue(s)], rest);
      assert Runs(w, [Enqueue(s)] + rest);
    } else if w.jobs[0].Waiting? {
      var moves := WaitingEnds(w);
      assert Runs(w, moves);
    } else {
      RunningEnds(w);
    }
  }

  /** In every run a row in flight can still end exactly if it has a job or a request about to queue one. */
  lemma EndsExactly(n: nat, moves: seq<Move>)
    requires n > 0 && Runs(Start(n), moves) && TopInFlight(After(Start(n), moves).rows)
    ensures var w := After(Start(n), moves);
            (exists later :: Runs(w, later) && !TopInFlight(After(w, later).rows)) <==>
            w.jobs != [] || Owing(w.senders) != {}
  {
    StartHoldsInv(n);
    RunKeepsInv(Start(n), Lossless(moves), moves);
    EndsFrom(After(Start(n), moves));
  }

  /**
   * A lost job blocks its environment for good: whatever happens after the loss, every request that finds nothing live
   * or stopped to answer is told that the lost row is being provisioned.
   */
  lemma LostJobBlocks(n: nat, moves: seq<Move>, later: seq<Move>, sha: string)
    requires n > 0 && Runs(Start(n), moves) && Stranded(After(Start(n), moves)) && Runs(After(Start(n), moves), later)
    ensures var w := After(Start(n), moves);
            var v := After(w, later);
            Stranded(v) && |v.rows| == |w.rows| && Decided(v.rows, sha, false, false) == Provisioning(w.rows[0].id)
  {
    StartHoldsInv(n);
    RunKeepsInv(Start(n), Lossless(moves), moves);
    var w := After(Start(n), moves);
    StrandedStays(w, later);
    RowFound(After(w, later).rows);
  }

  // ----- The bound is reached -----

  /** Failed attempts at one image, newest first, numbered in the order they were made. */
  function AllFailed(count: nat, sha: string): seq<Deployment> {
    if count == 0 then [] else [Deployment(count - 1, sha, Failed)] + AllFailed(count - 1, sha)
  }

  lemma {:induction false} AllFailedRows(count: nat, sha: string)
    ensures Failures(AllFailed(count, sha), sha) == count && NoneInFlight(AllFailed(count, sha))
    ensures forall d <- AllFailed(count, sha) :: d.id < count && d.status == Failed
    decreases count
  {
    if count > 0 {
      AllFailedRows(count - 1, sha);
      assert AllFailed(count, sha)[1..] == AllFailed(count - 1, sha);
    }
  }

  /** A request that passed the circuit inserts and queues, and its job fails. */
  function Attempt(s: nat, id: nat): seq<Move> {
    [Insert(s, id)] + ([Enqueue(s)] + ([Begin(0, "", id + 1)] + [End(0, false, {})]))
  }

  lemma JobFails(w: World, id: nat, sha: string, rest: seq<Deployment>)
    requires w.rows == [Deployment(id, sha, Pending)] + rest && w.jobs == [Waiting(false)]
    requires forall d <- rest :: d.id < id
    ensures var moves := [Begin(0, "", id + 1)] + [End(0, false, {})];
            Runs(w, moves) && After(w, moves) == w.(rows := [Deployment(id, sha, Failed)] + rest, jobs := [])
  {
    assert w.rows[1..] == rest;
    WithStatusElsewhere(rest, id, Building);
    WithStatusElsewhere(rest, id, Failed);
    var begun := Begun(w, 0, "", id + 1);
    assert begun.rows == [Deployment(id, sha, Building)] + rest && begun.rows[1..] == rest;
    One(w, Begin(0, "", id + 1));
    One(begun, End(0, false, {}));
    Append(w, [Begin(0, "", id + 1)], [End(0, false, {})]);
  }

  lemma AttemptFails(w: World, s: nat, sha: string, count: nat)
    requires s < |w.senders| && w.senders[s] == Counted(sha) && w.rows == AllFailed(count, sha) && w.jobs == []
    ensures Runs(w, Attempt(s, count))
    ensures After(w, Attempt(s, count)) == w.(rows := AllFailed(count + 1, sha), senders := w.senders[s := Free])
  {
    AllFailedRows(count, sha);
    RowFound(w.rows);
    var inserted := InsertedRow(w, s, count);
    var queued := Enqueued(inserted, s);
    assert queued.senders == w.senders[s := Free] && queued.jobs == [Waiting(false)];
    One(w, Insert(s, count));
    One(inserted, Enqueue(s));
    JobFails(queued, count, sha, w.rows);
    var job := [Begin(0, "", count + 1)] + [End(0, false, {})];
    Append(inserted, [Enqueue(s)], job);
    Append(w, [Insert(s, count)], [Enqueue(s)] + job);
  }

  lemma LookPasses(w: World, s: nat, sha: string)
    requires s < |w.senders| && w.senders[s].Free? && w.rows == AllFailed(2, sha)
    ensures Allowed(w, Look(s, sha, false, false))
    ensures Next(w, Look(s, sha, false, false)) == w.(senders := w.senders[s := Counted(sha)])
  {
    AllFailedRows(2, sha);
    RowFound(w.rows);
  }

  /** The first `k` requests are past the circuit, the others free. */
  function Passed(n: nat, k: nat, sha: string): seq<Sender> {
    seq(n, i => if i < k then Counted(sha) else Free)
  }

  lemma PassedOn(n: nat, k: nat, sha: string)
    requires 0 < k <= n
    ensures Passed(n, k - 1, sha)[k - 1 := Counted(sha)] == Passed(n, k, sha)
  {
  }

  lemma PassedBack(n: nat, k: nat, sha: string)
    requires 0 < k <= n
    ensures Passed(n, k, sha)[k - 1 := Free] == Passed(n, k - 1, sha)
  {
  }

  lemma {:induction false} AllPass(n: nat, k: nat, sha: string) returns (moves: seq<Move>)
    requires k <= n
    ensures var w := World(AllFailed(2, sha), Passed(n, 0, sha), []);
            Runs(w, moves) && After(w, moves) == w.(senders := Passed(n, k, sha))
    decreases k
  {
    var w := World(AllFailed(2, sha), Passed(n, 0, sha), []);
    if k == 0 {
      moves := [];
    } else {
      var front := AllPass(n, k - 1, sha);
      var before := w.(senders := Passed(n, k - 1, sha));
      LookPasses(before, k - 1, sha);
      PassedOn(n, k, sha);
      One(before, Look(k - 1, sha, false, false));
      Append(w, front, [Look(k - 1, sha, false, false)]);
      moves := front + [Look(k - 1, sha, false, false)];
    }
  }

  /** The last of the requests that passed fails. */
  lemma LastFails(n: nat, k: nat, count: nat, sha: string)
    requires 0 < k <= n
    ensures var w := World(AllFailed(count, sha), Passed(n, k, sha), []);
            Runs(w, Attempt(k - 1, count)) &&
            After(w, Attempt(k - 1, count)) == World(AllFailed(count + 1, sha), Passed(n, k - 1, sha), [])
  {
    AttemptFails(World(AllFailed(count, sha), Passed(n, k, sha), []), k - 1, sha, count);
    PassedBack(n, k, sha);
  }

  lemma {:induction false} AllFail(n: nat, k: nat, count: nat, sha: string) returns (moves: seq<Move>)
    requires k <= n
    ensures var w := World(AllFailed(count, sha), Passed(n, k, sha), []);
            Runs(w, moves) && After(w, moves).rows == AllFailed(count + k, sha)
    decreases k
  {
    if k == 0 {
      moves := [];
    } else {
      LastFails(n, k, count, sha);
      var rest := AllFail(n, k - 1, count + 1, sha);
      Append(World(AllFailed(count, sha), Passed(n, k, sha), []), Attempt(k - 1, count), rest);
      moves := Attempt(k - 1, count) + rest;
    }
  }

  /** One request alone, twice: it passes the circuit, and its job fails. */
  lemma {:induction false} FirstFailures(n: nat, count: nat, sha: string) returns (moves: seq<Move>)
    requires n > 0 && count <= 2
    ensures Runs(Start(n), moves)
    ensures After(Start(n), moves) == World(AllFailed(count, sha), Passed(n, 0, sha), [])
    decreases count
  {
    if count == 0 {
      moves := [];
      assert Start(n).senders == Passed(n, 0, sha);
    } else {
      var front := FirstFailures(n, count - 1, sha);
      var w := World(AllFailed(count - 1, sha), Passed(n, 0, sha), []);
      AllFailedRows(count - 1, sha);
      RowFound(w.rows);
      var look := Look(0, sha, false, false);
      var counted := w.(senders := w.senders[0 := Counted(sha)]);
      assert Next(w, look) == counted;
      One(w, look);
      AttemptFails(counted, 0, sha, count - 1);
      assert counted.senders[0 := Free] == w.senders;
      Append(w, [look], Attempt(0, count - 1));
      Append(Start(n), front, [look] + Attempt(0, count - 1));
      moves := front + ([look] + Attempt(0, count - 1));
    }
  }

  /**
   * Nothing checks the count again at the insert: requests that counted before the others failed add a failure each, so
   * `n` of them reach the bound, and two already make a fourth.
   */
  lemma StaleCountsReachBound(n: nat, sha: string) returns (moves: seq<Move>)
    requires n > 0
    ensures Runs(Start(n), moves)
    ensures Failures(After(Start(n), moves).rows, sha) == MAX_CONSECUTIVE_ASSISTANT_FAILURES - 1 + n
  {
    var twice := FirstFailures(n, 2, sha);
    var pass := AllPass(n, n, sha);
    var fail := AllFail(n, n, 2, sha);
    Append(After(Start(n), twice), pass, fail);
    Append(Start(n), twice, pass + fail);
    AllFailedRows(2 + n, sha);
    moves := twice + (pass + fail);
  }

  // ----- The environment -----

  /** One environment's tables and job queue; each method is one stretch of a request or a job between two waits. */
  class Environment {
    var rows: seq<Deployment>
    var senders: seq<Sender>
    var jobs: seq<Job>

    ghost function State(): World reads this { World(rows, senders, jobs) }

    ghost predicate Valid() reads this { Inv(State(), false) }

    constructor (n: nat)
      requires n > 0
      ensures Valid() && State() == Start(n)
    {
      rows, senders, jobs := [], seq(n, _ => Free), [];
      new;
      StartHoldsInv(n);
      assert Inv(State(), true);
    }

    /** A request reads the rows and decides; only past the circuit does it go on, and then nothing is in flight. */
    method Decide(s: nat, sha: string, recovered: bool, woken: bool) returns (answer: Answer)
      requires Valid() && Allowed(State(), Look(s, sha, recovered, woken))
      modifies this`senders
      ensures Valid() && State() == Looked(old(State()), s, sha, recovered, woken)
      ensures answer == Decided(rows, sha, recovered, woken)
      ensures answer.Passes? ==> NoneInFlight(rows) && Failures(rows, sha) < MAX_CONSECUTIVE_ASSISTANT_FAILURES
    {
      LookKeepsInv(State(), false, s, sha, recovered, woken);
      RowFound(rows);
      var live := FirstWith(rows, (d: Deployment) => d.status == Live && d.sha == sha);
      if live.Some? && recovered { return Alive(live.value); }
      var stopped := FirstWith(rows, (d: Deployment) => d.status == Stopped && d.sha == sha);
      if stopped.Some? && woken { return Alive(stopped.value); }
      var pending := InFlightRow(rows);
      if pending.Some? { return Provisioning(pending.value); }
      var failureCount := ConsecutiveAssistantFailures(rows, sha);
      if failureCount >= MAX_CONSECUTIVE_ASSISTANT_FAILURES { return CircuitOpen; }
      senders := senders[s := Counted(sha)];
      return Passes;
    }

    /**
     * The insert succeeds exactly if nothing is in flight; otherwise the row in flight is adopted and no row is added.
     */
    method InsertPending(s: nat, id: nat) returns (inserted: bool)
      requires Valid() && Allowed(State(), Insert(s, id))
      modifies this`rows, this`senders
      ensures Valid() && State() == InsertedRow(old(State()), s, id)
      ensures inserted == NoneInFlight(old(rows)) && (inserted ==> Owing(senders) == {s} && jobs == [])
      ensures !inserted ==> rows == old(rows) && senders[s].Free?
    {
      InsertKeepsInv(State(), false, s, id);
      RowFound(rows);
      OwingUpdate(senders, s, Inserted(id));
      var sha := senders[s].sha;
      if InFlightRow(rows).Some? {
        senders := senders[s := Free];
        return false;
      }
      rows := [Deployment(id, sha, Pending)] + rows;
      senders := senders[s := Inserted(id)];
      return true;
    }

    /** The job queued is the only one, and its row is the newest. */
    method QueueJob(s: nat)
      requires Valid() && Allowed(State(), Enqueue(s))
      modifies this`senders, this`jobs
      ensures Valid() && State() == Enqueued(old(State()), s)
      ensures jobs == [Waiting(false)] && Owing(senders) == {} && rows != [] && rows[0].status == Pending
    {
      EnqueueKeepsInv(State(), false, s);
      assert s in Owing(senders);
      senders, jobs := senders[s := Free], jobs + [Waiting(false)];
    }

    /**
     * A request nobody interrupts wakes, waits, reports the open circuit, or inserts one pending row and queues one
     * job.
     */
    method EnsureAssistantInstance(s: nat, sha: string, id: nat, recovered: bool, woken: bool) returns (answer: Answer)
      requires Valid() && Allowed(State(), Look(s, sha, recovered, woken)) && FreshId(State(), id)
      modifies this
      ensures Valid() && answer == Decided(old(rows), sha, recovered, woken)
      ensures if answer.Passes? then rows == [Deployment(id, sha, Pending)] + old(rows) && jobs == [Waiting(false)] &&
              senders == old(senders)
              else State() == old(State())
    {
      answer := Decide(s, sha, recovered, woken);
      if !answer.Passes? { return; }
      var inserted := InsertPending(s, id);
      QueueJob(s);
    }

    method TakeOverOrInsert(job: nat, sha: string, id: nat)
      requires job < |jobs|
      modifies this`rows, this`jobs
      ensures State() == Begun(old(State()), job, sha, id)
    {
      var takeover := InFlightRow(rows);
      if takeover.Some? {
        rows := WithStatus(rows, takeover.value, Building);
        jobs := jobs[job := Running(takeover.value)];
      } else {
        rows := [Deployment(id, sha, Building)] + rows;
        jobs := jobs[job := Running(id)];
      }
    }

    /** The job takes over the newest row, whatever image it is for, and makes none of its own. */
    method BeginDeploy(job: nat, sha: string, id: nat)
      requires Valid() && Allowed(State(), Begin(job, sha, id))
      modifies this`rows, this`jobs
      ensures Valid() && State() == Begun(old(State()), job, sha, id)
      ensures old(rows) != [] && rows == [old(rows)[0].(status := Building)] + old(rows)[1..]
      ensures jobs == [Running(rows[0].id)]
    {
      BeginKeepsInv(State(), false, job, sha, id);
      BeginTakesOver(State(), false, job, sha, id);
      TakeOverOrInsert(job, sha, id);
    }

    /**
     * The job's row is still the newest: it becomes live, closing the circuit of its image, or failed, one failure more
     * than that image had; either way nothing stays in flight or queued.
     */
    method EndDeploy(job: nat, healthy: bool, liveBefore: set<nat>)
      requires Valid() && Allowed(State(), End(job, healthy, liveBefore))
      modifies this`rows, this`jobs
      ensures Valid() && State() == Ended(old(State()), job, healthy, liveBefore)
      ensures jobs == [] && NoneInFlight(rows) && |rows| == |old(rows)| > 0
      ensures rows[0] == old(rows)[0].(status := if healthy then Live else Failed)
      ensures Failures(rows, rows[0].sha) == if healthy then 0 else 1 + Failures(old(rows)[1..], rows[0].sha)
    {
      if healthy {
        SucceedKeepsInv(State(), false, job, liveBefore);
        SucceedMarksTop(State(), false, job, liveBefore);
      } else {
        FailKeepsInv(State(), false, job, liveBefore);
        FailMarksTop(State(), false, job, liveBefore);
      }
      var id := jobs[job].deployment;
      if healthy {
        rows := WithStatus(Demoted(rows, liveBefore - {id}), id, Live);
      } else {
        rows := WithStatus(rows, id, Failed);
      }
      jobs := Without(jobs, job);
      assert !healthy ==> rows[1..] == old(rows)[1..];
    }

    /** Requests, jobs and other people's wakes, in any order. */
    method Interleave(moves: seq<Move>)
      requires Valid() && Runs(State(), moves)
      modifies this
      ensures Valid() && State() == After(old(State()), moves)
    {
      for n := 0 to |moves|
        invariant Valid() && Runs(State(), moves[n..])
        invariant After(State(), moves[n..]) == After(old(State()), moves)
      {
        assert moves[n..][0] == moves[n] && moves[n..][1..] == moves[n + 1..];
        StepKeepsInv(State(), false, moves[n]);
        match moves[n] {
          case Look(s, sha, recovered, woken) => var _ := Decide(s, sha, recovered, woken);
          case Insert(s, id) => var _ := InsertPending(s, id);
          case Enqueue(s) => QueueJob(s);
          case Crash(s) => senders := senders[s := Free];
          case Begin(job, sha, id) => BeginDeploy(job, sha, id);
          case End(job, healthy, liveBefore) => EndDeploy(job, healthy, liveBefore);
          case Die(job) => jobs := Without(jobs, job);
          case Requeue(job) => jobs := jobs[job := Waiting(true)];
          case Moved(id, status) => rows := WithStatus(rows, id, status);
        }
      }
    }
  }
}
