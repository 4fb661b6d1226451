/**
 * Syncing a conversation's checkout (app/assistant/checkout-sync.server.ts): mirror the plan onto the
 * conversation branch, save every change as a draft, then store the plan's hash. Any step may fail.
 */
module CheckoutSync {
  import opened Prelude
  import opened CheckoutPlan

  datatype Blob = Blob(content: string, executable: bool)

  type Tree = map<string, Blob>

  /** Saved drafts by path; `None` saves a deletion. */
  type Drafts = map<string, Option<string>>

  datatype Note = Dropped(blocked: seq<string>, skippedBodies: seq<string>, notFiles: seq<string>) | SyncFailed

  datatype Row = Row(lastSyncedHash: string, note: Option<Note>)

  /** Writes outside the row, in order; `Edited` is someone else's, and gives the drafts as it left them. */
  datatype Action = Mirrored(base: string, files: seq<PlanFile>) | Staged(file: PlanFile) | Edited(drafts: Drafts)

  /** `birth` is how many writes had happened when the row was last dropped; nothing before that counts for it. */
  datatype World = World(row: Option<Row>, branch: Option<Tree>, drafts: Drafts, log: seq<Action>, birth: nat)

  datatype TreeReply = ReadFails | Missing | Tree(tree: TreeState)

  /** A mirror that reports an error may have moved the branch all the same. */
  datatype MirrorReply = MirrorDone | MirrorFails(moved: bool)

  /** What each call of one sync comes back with. */
  datatype Io = Io(connected: bool, supported: bool, endpoint: bool, read: TreeReply, rowRead: bool,
    mirror: MirrorReply, listed: bool, stages: nat, saved: bool, noted: bool)

  datatype Result = Synced(stagedCount: nat) | Noop | Unchanged | Failed | Threw

  datatype Ran = Ran(world: World, result: Result)

  /** What the syncs run against: the hash, and the tree of each base commit. */
  datatype Env = Env(sha256: string -> string, base: string -> Tree)

  // ----- The pieces -----

  /** The base tree with the diff applied, modes included. */
  function Applied(tree: Tree, files: seq<PlanFile>): Tree
    decreases |files|
  {
    if files == [] then tree
    else
      var last := files[|files| - 1];
      var front := Applied(tree, files[..|files| - 1]);
      if last.content.None? then front - {last.path} else front[last.path := Blob(last.content.value, last.executable)]
  }

  method MirrorSnapshot(base: Tree, files: seq<PlanFile>) returns (tree: Tree)
    ensures tree == Applied(base, files)
  {
    tree := base;
    for i := 0 to |files|
      invariant tree == Applied(base, files[..i])
    {
      assert files[..i + 1][..i] == files[..i];
      if files[i].content.None? {
        tree := tree - {files[i].path};
      } else {
        tree := tree[files[i].path := Blob(files[i].content.value, files[i].executable)];
      }
    }
    assert files[..|files|] == files;
  }

  function SavedDrafts(drafts: Drafts, files: seq<PlanFile>): Drafts
    decreases |files|
  {
    if files == [] then drafts
    else SavedDrafts(drafts, files[..|files| - 1])[files[|files| - 1].path := files[|files| - 1].content]
  }

  function StagedAll(files: seq<PlanFile>): seq<Action>
    decreases |files|
  {
    if files == [] then [] else StagedAll(files[..|files| - 1]) + [Staged(files[|files| - 1])]
  }

  predicate Changes(before: Drafts, file: PlanFile) {
    file.path !in before || before[file.path] != file.content
  }

  function CountChanges(before: Drafts, files: seq<PlanFile>): nat
    decreases |files|
  {
    if files == [] then 0
    else CountChanges(before, files[..|files| - 1]) + (if Changes(before, files[|files| - 1]) then 1 else 0)
  }

  function NoteOf(plan: CommitPlan): Option<Note> {
    if plan.blocked == [] && plan.skippedBodies == [] && plan.notFiles == [] then None
    else Some(Dropped(plan.blocked, plan.skippedBodies, plan.notFiles))
  }

  function Upserted(w: World, hash: string, note: Option<Note>): World {
    w.(row := Some(Row(hash, note)))
  }

  /** The failure is noted on the row, whose hash stays; noting it may fail too. */
  function FailedSync(w: World, noted: bool): Ran {
    Ran(if noted then Upserted(w, if w.row.Some? then w.row.value.lastSyncedHash else "", Some(SyncFailed)) else w,
        Failed)
  }

  function EditedTo(w: World, drafts: Drafts): World {
    w.(drafts := drafts, log := w.log + [Edited(drafts)])
  }

  function Discarded(w: World): World {
    w.(row := None, birth := |w.log|)
  }

  // ----- One sync -----

  function AfterMirror(env: Env, w: World, tree: TreeState, plan: CommitPlan): World {
    w.(branch := Some(Applied(env.base(tree.baseSha), plan.files)), log := w.log + [Mirrored(tree.baseSha, plan.files)])
  }

  function AfterStages(w: World, files: seq<PlanFile>): World {
    w.(drafts := SavedDrafts(w.drafts, files), log := w.log + StagedAll(files))
  }

  function SyncPlan(env: Env, w: World, tree: TreeState, plan: CommitPlan, io: Io): Ran {
    if plan.files == [] then
      if NoteOf(plan).None? then Ran(w, Noop)
      else if io.saved then Ran(Upserted(w, plan.hash, NoteOf(plan)), Noop) else Ran(w, Threw)
    else if w.row.Some? && w.row.value.lastSyncedHash == plan.hash then Ran(w, Unchanged)
    else if io.mirror.MirrorFails? then
      FailedSync(if io.mirror.moved then AfterMirror(env, w, tree, plan) else w, io.noted)
    else
      var mirrored := AfterMirror(env, w, tree, plan);
      if !io.listed then FailedSync(mirrored, io.noted)
      else if io.stages < |plan.files| then FailedSync(AfterStages(mirrored, plan.files[..io.stages]), io.noted)
      else
        var staged := AfterStages(mirrored, plan.files);
        if io.saved then Ran(Upserted(staged, plan.hash, NoteOf(plan)), Synced(CountChanges(w.drafts, plan.files)))
        else Ran(staged, Threw)
  }

  function SyncRun(env: Env, w: World, io: Io): Ran {
    if !io.connected || !io.supported then Ran(w, Noop)
    else if !io.endpoint then FailedSync(w, io.noted)
    else if !io.read.Tree? || io.read.tree.baseSha == "" then FailedSync(w, io.noted)
    else if !io.rowRead then Ran(w, Threw)
    else SyncPlan(env, w, io.read.tree, Planned(env.sha256, io.read.tree), io)
  }

  class Checkout {
    const env: Env
    var row: Option<Row>
    var branch: Option<Tree>
    var drafts: Drafts
    var log: seq<Action>
    var birth: nat

    function State(): World reads this { World(row, branch, drafts, log, birth) }

    constructor (env: Env, drafts: Drafts)
      ensures this.env == env && State() == World(None, None, drafts, [], 0)
    {
      this.env := env;
      row, branch, log, birth := None, None, [], 0;
      this.drafts := drafts;
    }

    method UpsertRow(hash: string, note: Option<Note>)
      modifies this`row
      ensures State() == Upserted(old(State()), hash, note)
    {
      row := Some(Row(hash, note));
    }

    method Fail(noted: bool) returns (r: Result)
      modifies this`row
      ensures Ran(State(), r) == FailedSync(old(State()), noted)
    {
      if noted { UpsertRow(if row.Some? then row.value.lastSyncedHash else "", Some(SyncFailed)); }
      return Failed;
    }

    method Mirror(tree: TreeState, plan: CommitPlan)
      modifies this`branch, this`log
      ensures State() == AfterMirror(env, old(State()), tree, plan)
    {
      var snapshot := MirrorSnapshot(env.base(tree.baseSha), plan.files);
      branch := Some(snapshot);
      log := log + [Mirrored(tree.baseSha, plan.files)];
    }

    /** Saves one draft after another, up to the one that fails; counts those that change what was saved. */
    method Stage(files: seq<PlanFile>, succeed: nat) returns (stagedCount: nat)
      modifies this`drafts, this`log
      ensures State() == AfterStages(old(State()), if succeed < |files| then files[..succeed] else files)
      ensures succeed >= |files| ==> stagedCount == CountChanges(old(drafts), files)
    {
      stagedCount := 0;
      var before := drafts;
      assert log + [] == log;
      var i := 0;
      while i < |files|
        invariant 0 <= i <= |files| && i <= succeed && before == old(drafts)
        invariant drafts == SavedDrafts(before, files[..i]) && log == old(log) + StagedAll(files[..i])
        invariant stagedCount == CountChanges(before, files[..i])
        invariant row == old(row) && branch == old(branch) && birth == old(birth)
      {
        if i == succeed { return; }
        assert files[..i + 1][..i] == files[..i];
        assert old(log) + (StagedAll(files[..i]) + [Staged(files[i])]) == old(log) + StagedAll(files[..i]) +
               [Staged(files[i])];
        if files[i].path !in before || before[files[i].path] != files[i].content { stagedCount := stagedCount + 1; }
        drafts := drafts[files[i].path := files[i].content];
        log := log + [Staged(files[i])];
        i := i + 1;
      }
      assert files[..|files|] == files;
    }

    method Carry(tree: TreeState, plan: CommitPlan, io: Io) returns (r: Result)
      requires plan.files != []
      modifies this
      ensures Ran(State(), r) == SyncPlan(env, old(State()), tree, plan, io)
    {
      if row.Some? && row.value.lastSyncedHash == plan.hash { return Unchanged; }
      if io.mirror.MirrorFails? {
        if io.mirror.moved { Mirror(tree, plan); }
        r := Fail(io.noted);
        return;
      }
      Mirror(tree, plan);
      if !io.listed { r := Fail(io.noted); return; }
      var stagedCount := Stage(plan.files, io.stages);
      if io.stages < |plan.files| { r := Fail(io.noted); return; }
      if !io.saved { return Threw; }
      UpsertRow(plan.hash, NoteOf(plan));
      return Synced(stagedCount);
    }

    /** A publish landed the drafts: the next turn starts from a fresh checkout. */
    method Discard()
      modifies this`row, this`birth
      ensures State() == Discarded(old(State()))
    {
      row, birth := None, |log|;
    }

    /** Someone saves, changes or discards drafts. */
    method Edit(drafts: Drafts)
      modifies this`drafts, this`log
      ensures State() == EditedTo(old(State()), drafts)
    {
      this.drafts := drafts;
      log := log + [Edited(drafts)];
    }

    method Sync(io: Io) returns (r: Result)
      modifies this
      ensures Ran(State(), r) == SyncRun(env, old(State()), io)
    {
      if !io.connected || !io.supported { return Noop; }
      if !io.endpoint { r := Fail(io.noted); return; }
      if !io.read.Tree? || io.read.tree.baseSha == "" { r := Fail(io.noted); return; }
      var plan := PlanCommit(env.sha256, io.read.tree);
      if !io.rowRead { return Threw; }
      if plan.files == [] {
        var note := NoteOf(plan);
        if note.Some? {
          if !io.saved { return Threw; }
          UpsertRow(plan.hash, note);
        }
        return Noop;
      }
      r := Carry(io.read.tree, plan, io);
    }
  }
}
