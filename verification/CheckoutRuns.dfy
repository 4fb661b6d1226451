/**
 * What every history of syncs keeps, with a failure possible at every step, drafts edited or discarded by
 * others in between, and the row dropped when a publish lands.
 */
module CheckoutRuns {
  import opened Prelude
  import opened CheckoutPlan
  import opened CheckoutSidecar
  import opened CheckoutSync

  datatype Move = Sync(io: Io) | EditDrafts(drafts: Drafts) | DiscardRow

  function Next(env: Env, w: World, move: Move): World {
    match move
    case Sync(io) => SyncRun(env, w, io).world
    case EditDrafts(drafts) => EditedTo(w, drafts)
    case DiscardRow => Discarded(w)
  }

  function After(env: Env, w: World, moves: seq<Move>): World
    decreases |moves|
  {
    if moves == [] then w else After(env, Next(env, w, moves[0]), moves[1..])
  }

  /** One conversation's checkout through a whole history. */
  method Live(checkout: Checkout, moves: seq<Move>)
    modifies checkout
    ensures checkout.State() == After(checkout.env, old(checkout.State()), moves)
  {
    for i := 0 to |moves|
      invariant After(checkout.env, checkout.State(), moves[i..]) == After(checkout.env, old(checkout.State()), moves)
    {
      assert moves[i..][0] == moves[i] && moves[i..][1..] == moves[i + 1..];
      match moves[i] {
        case Sync(io) => var _ := checkout.Sync(io);
        case EditDrafts(drafts) => checkout.Edit(drafts);
        case DiscardRow => checkout.Discard();
      }
    }
  }

  // ----- What a sync leaves -----

  predicate Absent(files: seq<PlanFile>, path: string) {
    forall i :: 0 <= i < |files| ==> files[i].path != path
  }

  /** File `i` is the last one of its path. */
  predicate LastOf(files: seq<PlanFile>, i: nat) {
    i < |files| && forall j :: i < j < |files| ==> files[j].path != files[i].path
  }

  lemma {:induction false} AppliedElsewhere(tree: Tree, files: seq<PlanFile>, path: string)
    requires Absent(files, path)
    ensures path in Applied(tree, files) <==> path in tree
    ensures path in tree ==> Applied(tree, files)[path] == tree[path]
    decreases |files|
  {
    if files != [] { AppliedElsewhere(tree, files[..|files| - 1], path); }
  }

  /** The mirrored tree has the plan's content and mode at a written path, nothing at a deleted one. */
  lemma {:induction false} AppliedAt(tree: Tree, files: seq<PlanFile>, i: nat)
    requires LastOf(files, i)
    ensures var t, f := Applied(tree, files), files[i];
            if f.content.None? then f.path !in t else f.path in t && t[f.path] == Blob(f.content.value, f.executable)
    decreases |files|
  {
    if i < |files| - 1 { AppliedAt(tree, files[..|files| - 1], i); }
  }

  /**
   * So the mirrored tree is the base with exactly the plan's changes: at each path of the plan what its last file says,
   * and every other path as it was, mode included.
   */
  lemma AppliedExactly(tree: Tree, files: seq<PlanFile>)
    ensures var t := Applied(tree, files);
            (forall i: nat | LastOf(files, i) :: var f := files[i];
               if f.content.None? then f.path !in t
               else f.path in t && t[f.path] == Blob(f.content.value, f.executable)) &&
            forall path ::
                Absent(files, path) ==> (path in t <==> path in tree) && (path in tree ==> t[path] == tree[path])
  {
    var t := Applied(tree, files);
    forall i: nat | LastOf(files, i)
      ensures var f := files[i];
              if f.content.None? then f.path !in t else f.path in t && t[f.path] == Blob(f.content.value, f.executable)
    {
      AppliedAt(tree, files, i);
    }
    forall path | Absent(files, path)
      ensures (path in t <==> path in tree) && (path in tree ==> t[path] == tree[path])
    {
      AppliedElsewhere(tree, files, path);
    }
  }

  predicate PathsDiffer(files: seq<PlanFile>) {
    forall i, j :: 0 <= i < j < |files| ==> files[i].path != files[j].path
  }

  lemma {:induction false} SavedElsewhere(drafts: Drafts, files: seq<PlanFile>, path: string)
    requires Absent(files, path)
    ensures path in SavedDrafts(drafts, files) <==> path in drafts
    ensures path in drafts ==> SavedDrafts(drafts, files)[path] == drafts[path]
    decreases |files|
  {
    if files != [] { SavedElsewhere(drafts, files[..|files| - 1], path); }
  }

  lemma {:induction false} SavedAt(drafts: Drafts, files: seq<PlanFile>, i: nat)
    requires LastOf(files, i)
    ensures var d := SavedDrafts(drafts, files); files[i].path in d && d[files[i].path] == files[i].content
    decreases |files|
  {
    if i < |files| - 1 { SavedAt(drafts, files[..|files| - 1], i); }
  }

  /** Paths whose saved draft a step changed or created. */
  function ChangedDrafts(before: Drafts, after: Drafts): set<string> {
    set path | path in after && (path !in before || before[path] != after[path])
  }

  lemma {:induction false} CountIsChanges(before: Drafts, files: seq<PlanFile>)
    requires PathsDiffer(files)
    ensures CountChanges(before, files) == |ChangedDrafts(before, SavedDrafts(before, files))|
    decreases |files|
  {
    if files == [] {
      assert ChangedDrafts(before, before) == {};
    } else {
      var front, last := files[..|files| - 1], files[|files| - 1];
      CountIsChanges(before, front);
      forall i | 0 <= i < |front| ensures front[i].path != last.path {
        assert files[i].path != files[|files| - 1].path;
      }
      SavedElsewhere(before, front, last.path);
      OneMoreChange(before, SavedDrafts(before, front), last);
    }
  }

  lemma OneMoreChange(before: Drafts, saved: Drafts, last: PlanFile)
    requires last.path in saved <==> last.path in before
    requires last.path in before ==> saved[last.path] == before[last.path]
    ensures |ChangedDrafts(before, saved[last.path := last.content])| ==
            |ChangedDrafts(before, saved)| + if Changes(before, last) then 1 else 0
  {
    var done, next := ChangedDrafts(before, saved), saved[last.path := last.content];
    assert last.path !in done;
    assert ChangedDrafts(before, next) == if Changes(before, last) then done + {last.path} else done;
  }

  /** Drafts, branch and hash all say this plan. */
  ghost predicate Holds(env: Env, w: World, tree: TreeState) {
    var plan := Planned(env.sha256, tree);
    w.branch == Some(Applied(env.base(tree.baseSha), plan.files)) &&
    (forall f <- plan.files :: f.path in w.drafts && w.drafts[f.path] == f.content) &&
    w.row.Some? && w.row.value.lastSyncedHash == plan.hash
  }

  /** A plan's paths differ when the changes' do. */
  lemma PlanPathsDiffer(sha256: string -> string, tree: TreeState)
    requires DistinctPaths(tree.dirty)
    ensures PathsDiffer(Planned(sha256, tree).files)
  {
    var chosen := Chosen(PickFile, tree.dirty);
    ChosenApart(PathOf, PickFile, tree.dirty);
    ChosenPathsDiffer(tree.dirty);
    SortedPathsDiffer(chosen);
  }

  lemma {:induction false} ChosenPathsDiffer(dirty: seq<DirtyFile>)
    requires DistinctPaths(dirty)
    ensures PathsDiffer(Chosen(PickFile, dirty))
    decreases |dirty|
  {
    if dirty != [] {
      var front, last := dirty[..|dirty| - 1], dirty[|dirty| - 1];
      ChosenPathsDiffer(front);
      ChosenApart(PathOf, PickFile, front);
      forall x <- Chosen(PickFile, front) ensures x.path != last.path {
        var i :| 0 <= i < |front| && front[i].path == PathOf(x);
        assert dirty[i].path != dirty[|dirty| - 1].path;
      }
    }
  }

  lemma {:induction false} InsertPathsDiffer(x: PlanFile, sorted: seq<PlanFile>)
    requires PathsDiffer(sorted) && forall f <- sorted :: f.path != x.path
    ensures PathsDiffer(Insert(PathOf, x, sorted))
    ensures forall f <- Insert(PathOf, x, sorted) :: f == x || f in sorted
    decreases |sorted|
  {
    if sorted != [] && !Less(x.path, sorted[0].path) {
      InsertPathsDiffer(x, sorted[1..]);
      forall f <- Insert(PathOf, x, sorted[1..]) ensures f.path != sorted[0].path {
        if f in sorted[1..] {
          var i :| 0 <= i < |sorted[1..]| && sorted[1..][i] == f;
          assert sorted[i + 1] == f;
        }
      }
    }
  }

  lemma {:induction false} SortedPathsDiffer(files: seq<PlanFile>)
    requires PathsDiffer(files)
    ensures PathsDiffer(Sort(PathOf, files))
    ensures forall f <- Sort(PathOf, files) :: f in files
    decreases |files|
  {
    if files != [] {
      var front := files[..|files| - 1];
      SortedPathsDiffer(front);
      forall f <- Sort(PathOf, front) ensures f.path != files[|files| - 1].path {
        var i :| 0 <= i < |front| && front[i] == f;
        assert files[i] == f;
      }
      InsertPathsDiffer(files[|files| - 1], Sort(PathOf, front));
      assert files == front + [files[|files| - 1]];
    }
  }

  /**
   * A sync that reports success leaves the drafts on the plan's paths equal to the plan and every other
   * draft alone, the branch at the base with exactly the diff applied, and the plan's hash on the row; the
   * count it reports is the number of drafts it changed.
   */
  lemma SyncedMeansSaved(env: Env, w: World, io: Io)
    requires SyncRun(env, w, io).result.Synced? && DistinctPaths(io.read.tree.dirty)
    ensures var ran := SyncRun(env, w, io);
            Holds(env, ran.world, io.read.tree) &&
            ran.result.stagedCount == |ChangedDrafts(w.drafts, ran.world.drafts)| &&
            (forall path :: Absent(Planned(env.sha256, io.read.tree).files, path) ==>
               (path in ran.world.drafts <==> path in w.drafts) &&
               (path in w.drafts ==> ran.world.drafts[path] == w.drafts[path]))
  {
    var plan := Planned(env.sha256, io.read.tree);
    PlanPathsDiffer(env.sha256, io.read.tree);
    SavedPlan(w.drafts, plan.files);
    CountIsChanges(w.drafts, plan.files);
  }

  lemma SavedPlan(drafts: Drafts, files: seq<PlanFile>)
    requires PathsDiffer(files)
    ensures forall f <- files :: f.path in SavedDrafts(drafts, files) && SavedDrafts(drafts, files)[f.path] == f.content
    ensures forall path :: Absent(files, path) ==>
              (path in SavedDrafts(drafts, files) <==> path in drafts) &&
              (path in drafts ==> SavedDrafts(drafts, files)[path] == drafts[path])
  {
    forall i | 0 <= i < |files|
      ensures files[i].path in SavedDrafts(drafts, files) &&
              SavedDrafts(drafts, files)[files[i].path] == files[i].content
    {
      SavedAt(drafts, files, i);
    }
    forall path | Absent(files, path)
      ensures (path in SavedDrafts(drafts, files) <==> path in drafts) &&
              (path in drafts ==> SavedDrafts(drafts, files)[path] == drafts[path])
    {
      SavedElsewhere(drafts, files, path);
    }
  }

  // ----- A failed sync -----

  /** A sync that fails, however far it got, leaves the stored hash where it was. */
  lemma FailedSyncKeepsHash(env: Env, w: World, io: Io)
    requires SyncRun(env, w, io).result.Failed?
    ensures var w' := SyncRun(env, w, io).world;
            (w.row.Some? ==> w'.row.Some? && w'.row.value.lastSyncedHash == w.row.value.lastSyncedHash) &&
            (w.row.None? && w'.row.Some? ==> w'.row.value.lastSyncedHash == "")
  {
  }

  /** Nothing goes wrong, and the checkout reads as this tree. */
  predicate Smooth(io: Io, tree: TreeState) {
    io.connected && io.supported && io.endpoint && io.read == CheckoutSync.Tree(tree) && tree.baseSha != "" &&
    io.rowRead &&
    io.mirror.MirrorDone? && io.listed && io.stages >= |tree.dirty| && io.saved
  }

  /** After a failed sync of a plan not yet stored, the next smooth one is not skipped and saves the plan. */
  lemma RetrySaves(env: Env, w: World, failing: Io, retry: Io, tree: TreeState)
    requires (forall s :: env.sha256(s) != "") && DistinctPaths(tree.dirty) && Planned(env.sha256, tree).files != []
    requires w.row.Some? ==> w.row.value.lastSyncedHash != Planned(env.sha256, tree).hash
    requires SyncRun(env, w, failing).result.Failed? && Smooth(retry, tree)
    ensures var ran := SyncRun(env, SyncRun(env, w, failing).world, retry);
            ran.result.Synced? && Holds(env, ran.world, tree)
  {
    FailedSyncKeepsHash(env, w, failing);
    PlanPartitions(env.sha256, tree);
    SyncedMeansSaved(env, SyncRun(env, w, failing).world, retry);
  }

  // ----- What a stored hash stands for -----

  predicate Injective(sha256: string -> string, a: string, b: string) { sha256(a) == sha256(b) ==> a == b }

  /** Somewhere in the log the plan was mirrored, and then every one of its files staged. */
  predicate Done(log: seq<Action>, base: string, files: seq<PlanFile>) {
    exists i :: 0 <= i < |log| && DoneAt(log, i, base, files)
  }

  predicate DoneAt(log: seq<Action>, i: nat, base: string, files: seq<PlanFile>) {
    i + 1 + |files| <= |log| && log[i..i + 1 + |files|] == [Mirrored(base, files)] + StagedAll(files)
  }

  lemma {:induction false} StagedAllLength(files: seq<PlanFile>)
    ensures |StagedAll(files)| == |files|
    decreases |files|
  {
    if files != [] { StagedAllLength(files[..|files| - 1]); }
  }

  lemma DoneStays(log: seq<Action>, more: seq<Action>, base: string, files: seq<PlanFile>)
    requires Done(log, base, files)
    ensures Done(log + more, base, files)
  {
    var i :| 0 <= i < |log| && DoneAt(log, i, base, files);
    assert (log + more)[i..i + 1 + |files|] == log[i..i + 1 + |files|];
    assert DoneAt(log + more, i, base, files);
  }

  /** The stored hash is empty, an empty plan's, or that of a plan done since the row was last dropped. */
  ghost predicate Accounted(env: Env, w: World) {
    w.birth <= |w.log| &&
    (w.row.Some? && w.row.value.lastSyncedHash != "" ==>
       exists base: string, files: seq<PlanFile> ::
         NulFree(base) && AllClean(files) && w.row.value.lastSyncedHash == env.sha256(Preimage(base, files)) &&
         (files == [] || Done(w.log[w.birth..], base, files)))
  }

  predicate CleanTree(tree: TreeState) {
    NulFree(tree.baseSha) && forall f <- tree.dirty :: CleanEntry(f)
  }

  /** A tree the sidecar reports: a commit's name, and some raw diff read against some state of the disk. */
  ghost predicate FromSidecar(decode: Bytes -> string, tree: TreeState) {
    NulFree(tree.baseSha) && exists z: string, found: nat -> Found :: tree.dirty == Reported(decode, z, found)
  }

  ghost predicate SidecarMove(decode: Bytes -> string, move: Move) {
    move.Sync? && move.io.read.Tree? ==> FromSidecar(decode, move.io.read.tree)
  }

  lemma SidecarTreeIsClean(decode: Bytes -> string, tree: TreeState)
    requires DecodesNul(decode) && FromSidecar(decode, tree)
    ensures CleanTree(tree)
  {
    var z: string, found: nat -> Found :| tree.dirty == Reported(decode, z, found);
    ReportIsClean(decode, z, found);
  }

  predicate CleanMove(move: Move) {
    move.Sync? && move.io.read.Tree? ==> CleanTree(move.io.read.tree)
  }

  lemma PickIsClean(f: DirtyFile, file: PlanFile)
    requires CleanEntry(f) && PickFile(f) == Some(file)
    ensures Clean(file)
  {
  }

  lemma PlanIsClean(sha256: string -> string, tree: TreeState)
    requires CleanTree(tree)
    ensures AllClean(Planned(sha256, tree).files)
  {
    BucketExactly(PathOf, PickFile, tree.dirty);
    var files := Planned(sha256, tree).files;
    forall file <- files ensures Clean(file) {
      var f :| f in tree.dirty && PickFile(f) == Some(file);
      PickIsClean(f, file);
    }
  }

  lemma SyncedIsDone(log: seq<Action>, birth: nat, base: string, files: seq<PlanFile>)
    requires birth <= |log|
    ensures Done((log + [Mirrored(base, files)] + StagedAll(files))[birth..], base, files)
  {
    StagedAllLength(files);
    var after := (log + [Mirrored(base, files)] + StagedAll(files))[birth..];
    var i := |log| - birth;
    assert after[i..i + 1 + |files|] == [Mirrored(base, files)] + StagedAll(files);
    assert DoneAt(after, i, base, files);
  }

  lemma StagesGrowLog(w: World, files: seq<PlanFile>)
    ensures w.log <= AfterStages(w, files).log
  {
  }

  lemma PlanGrowsLog(env: Env, w: World, tree: TreeState, plan: CommitPlan, io: Io)
    ensures w.log <= SyncPlan(env, w, tree, plan, io).world.log
  {
    var mirrored := AfterMirror(env, w, tree, plan);
    if io.stages < |plan.files| { StagesGrowLog(mirrored, plan.files[..io.stages]); }
    StagesGrowLog(mirrored, plan.files);
  }

  lemma LogGrows(env: Env, w: World, io: Io)
    ensures w.log <= SyncRun(env, w, io).world.log
  {
    if io.read.Tree? { PlanGrowsLog(env, w, io.read.tree, Planned(env.sha256, io.read.tree), io); }
  }

  lemma HashKeptStaysAccounted(env: Env, w: World, w': World)
    requires Accounted(env, w) && w.row.Some? && w'.row.Some? && w'.birth == w.birth && w.log <= w'.log
    requires w'.row.value.lastSyncedHash == w.row.value.lastSyncedHash
    ensures Accounted(env, w')
  {
    if w.row.value.lastSyncedHash != "" {
      var base: string, files: seq<PlanFile> :|
        NulFree(base) && AllClean(files) && w.row.value.lastSyncedHash == env.sha256(Preimage(base, files)) &&
        (files == [] || Done(w.log[w.birth..], base, files));
      var more := w'.log[|w.log|..];
      assert w'.log == w.log + more && w'.log[w.birth..] == w.log[w.birth..] + more;
      if files != [] { DoneStays(w.log[w.birth..], more, base, files); }
    }
  }

  lemma SyncKeepsAccounted(env: Env, w: World, io: Io)
    requires Accounted(env, w) && CleanMove(Sync(io))
    ensures Accounted(env, SyncRun(env, w, io).world)
  {
    var ran := SyncRun(env, w, io);
    LogGrows(env, w, io);
    if ran.result.Failed? {
      FailedSyncKeepsHash(env, w, io);
      if w.row.Some? { HashKeptStaysAccounted(env, w, ran.world); }
    } else if ran.world.row == w.row {
      if w.row.Some? { HashKeptStaysAccounted(env, w, ran.world); }
    } else {
      StoredPlanIsAccounted(env, w, io);
    }
  }

  lemma StoredPlanIsAccounted(env: Env, w: World, io: Io)
    requires Accounted(env, w) && CleanMove(Sync(io))
    requires var ran := SyncRun(env, w, io); !ran.result.Failed? && ran.world.row != w.row
    ensures Accounted(env, SyncRun(env, w, io).world)
  {
    var tree := io.read.tree;
    var plan := Planned(env.sha256, tree);
    var w' := SyncRun(env, w, io).world;
    PlanIsClean(env.sha256, tree);
    assert plan.files != [] ==> w'.log == w.log + [Mirrored(tree.baseSha, plan.files)] + StagedAll(plan.files);
    if plan.files != [] { SyncedIsDone(w.log, w'.birth, tree.baseSha, plan.files); }
    assert w'.row.value.lastSyncedHash == env.sha256(Preimage(tree.baseSha, plan.files));
  }

  lemma {:induction false} RunKeepsAccounted(env: Env, w: World, moves: seq<Move>)
    requires Accounted(env, w) && forall move <- moves :: CleanMove(move)
    ensures Accounted(env, After(env, w, moves))
    decreases |moves|
  {
    if moves != [] {
      assert CleanMove(moves[0]);
      if moves[0].Sync? { SyncKeepsAccounted(env, w, moves[0].io); }
      if moves[0].EditDrafts? && w.row.Some? { HashKeptStaysAccounted(env, w, Next(env, w, moves[0])); }
      RunKeepsAccounted(env, Next(env, w, moves[0]), moves[1..]);
    }
  }

  /**
   * Sync never loses edits: after any history, a stored hash that is a plan's (with something to commit) means
   * that very plan was mirrored and every one of its files staged, since the row was last dropped.
   */
  lemma StoredHashMeansDone(env: Env, drafts: Drafts, moves: seq<Move>, base: string, files: seq<PlanFile>)
    requires (forall s, t :: Injective(env.sha256, s, t)) && (forall s :: env.sha256(s) != "")
    requires forall move <- moves :: CleanMove(move)
    requires NulFree(base) && AllClean(files) && files != []
    requires var w := After(env, World(None, None, drafts, [], 0), moves);
             w.row.Some? && w.row.value.lastSyncedHash == env.sha256(Preimage(base, files))
    ensures var w := After(env, World(None, None, drafts, [], 0), moves);
            w.birth <= |w.log| && Done(w.log[w.birth..], base, files)
  {
    var start := World(None, None, drafts, [], 0);
    RunKeepsAccounted(env, start, moves);
    var w := After(env, start, moves);
    assert env.sha256(Preimage(base, files)) != "";
    var b: string, fs: seq<PlanFile> :|
      NulFree(b) && AllClean(fs) && w.row.value.lastSyncedHash == env.sha256(Preimage(b, fs)) &&
      (fs == [] || Done(w.log[w.birth..], b, fs));
    assert Injective(env.sha256, Preimage(base, files), Preimage(b, fs));
    PreimageIdentifiesPlan(base, files, b, fs);
  }

  /** The same of every tree a sidecar reports, after any history of such trees: what it calls text holds no NUL. */
  lemma ReportedHashMeansDone(env: Env, drafts: Drafts, moves: seq<Move>, decode: Bytes -> string, tree: TreeState)
    requires (forall s, t :: Injective(env.sha256, s, t)) && (forall s :: env.sha256(s) != "") && DecodesNul(decode)
    requires (forall move <- moves :: SidecarMove(decode, move)) && FromSidecar(decode, tree)
    requires Planned(env.sha256, tree).files != []
    requires var w := After(env, World(None, None, drafts, [], 0), moves);
             w.row.Some? && w.row.value.lastSyncedHash == Planned(env.sha256, tree).hash
    ensures var w := After(env, World(None, None, drafts, [], 0), moves);
            w.birth <= |w.log| && Done(w.log[w.birth..], tree.baseSha, Planned(env.sha256, tree).files)
  {
    forall move <- moves ensures CleanMove(move) {
      assert SidecarMove(decode, move);
      if move.Sync? && move.io.read.Tree? { SidecarTreeIsClean(decode, move.io.read.tree); }
    }
    SidecarTreeIsClean(decode, tree);
    PlanIsClean(env.sha256, tree);
    StoredHashMeansDone(env, drafts, moves, tree.baseSha, Planned(env.sha256, tree).files);
  }

  // ----- When a skipped sync is right -----

  /** The tree the last mirror of the log left on the branch, if any mirrored. */
  function LastTree(env: Env, log: seq<Action>): Option<Tree> {
    if log == [] then None
    else
      var last := log[|log| - 1];
      if last.Mirrored? then Some(Applied(env.base(last.base), last.files)) else LastTree(env, log[..|log| - 1])
  }

  /** What the log's last writer of a path, if it had one, left there: a draft or none. */
  function LastDraft(log: seq<Action>, path: string): Option<Option<Option<string>>> {
    if log == [] then None
    else
      var last := log[|log| - 1];
      if last.Staged? && last.file.path == path then Some(Some(last.file.content))
      else if last.Edited? then Some(DraftAt(last.drafts, path))
      else LastDraft(log[..|log| - 1], path)
  }

  /** From `w` to `v`, branch and drafts changed by exactly what the log gained. */
  ghost predicate Replayed(env: Env, w: World, v: World) {
    w.log <= v.log &&
    var since := v.log[|w.log|..];
    v.branch == LastTree(env, since).Or(w.branch) &&
    forall path :: Some(DraftAt(v.drafts, path)) == LastDraft(since, path).Or(Some(DraftAt(w.drafts, path)))
  }

  function DraftAt(drafts: Drafts, path: string): Option<Option<string>> {
    if path in drafts then Some(drafts[path]) else None
  }

  lemma {:induction false} LastTreeAppends(env: Env, a: seq<Action>, b: seq<Action>)
    ensures LastTree(env, a + b) == LastTree(env, b).Or(LastTree(env, a))
    decreases |b|
  {
    if b == [] {
      assert a + b == a;
    } else {
      assert (a + b)[..|a + b| - 1] == a + b[..|b| - 1];
      LastTreeAppends(env, a, b[..|b| - 1]);
    }
  }

  lemma {:induction false} LastDraftAppends(a: seq<Action>, b: seq<Action>, path: string)
    ensures LastDraft(a + b, path) == LastDraft(b, path).Or(LastDraft(a, path))
    decreases |b|
  {
    if b == [] {
      assert a + b == a;
    } else {
      assert (a + b)[..|a + b| - 1] == a + b[..|b| - 1];
      LastDraftAppends(a, b[..|b| - 1], path);
    }
  }

  lemma ReplayedTransitive(env: Env, u: World, v: World, w: World)
    requires Replayed(env, u, v) && Replayed(env, v, w)
    ensures Replayed(env, u, w)
  {
    var a, b := v.log[|u.log|..], w.log[|v.log|..];
    assert w.log[|u.log|..] == a + b;
    LastTreeAppends(env, a, b);
    forall path ensures Some(DraftAt(w.drafts, path)) == LastDraft(a + b, path).Or(Some(DraftAt(u.drafts, path))) {
      LastDraftAppends(a, b, path);
    }
  }

  lemma {:induction false} StagesReplay(env: Env, drafts: Drafts, files: seq<PlanFile>, path: string)
    ensures Some(DraftAt(SavedDrafts(drafts, files), path)) ==
            LastDraft(StagedAll(files), path).Or(Some(DraftAt(drafts, path)))
    ensures LastTree(env, StagedAll(files)).None?
    decreases |files|
  {
    if files != [] {
      var front := StagedAll(files[..|files| - 1]);
      StagesReplay(env, drafts, files[..|files| - 1], path);
      assert StagedAll(files)[..|StagedAll(files)| - 1] == front;
    }
  }

  lemma UnwrittenReplays(env: Env, w: World, v: World)
    requires v.log == w.log && v.branch == w.branch && v.drafts == w.drafts
    ensures Replayed(env, w, v)
  {
    assert v.log[|w.log|..] == [];
  }

  lemma MirrorReplays(env: Env, w: World, tree: TreeState, plan: CommitPlan)
    ensures Replayed(env, w, AfterMirror(env, w, tree, plan))
  {
    var v := AfterMirror(env, w, tree, plan);
    assert v.log[|w.log|..] == [Mirrored(tree.baseSha, plan.files)];
  }

  lemma StageReplays(env: Env, w: World, files: seq<PlanFile>)
    ensures Replayed(env, w, AfterStages(w, files))
  {
    var v := AfterStages(w, files);
    assert v.log[|w.log|..] == StagedAll(files);
    StagesReplay(env, w.drafts, files, "");
    forall path
      ensures Some(DraftAt(v.drafts, path)) == LastDraft(StagedAll(files), path).Or(Some(DraftAt(w.drafts, path)))
    {
      StagesReplay(env, w.drafts, files, path);
    }
  }

  /** Writing the row changes neither branch, drafts nor log. */
  lemma RowWriteReplays(env: Env, u: World, v: World, w: World)
    requires Replayed(env, u, v) && w.log == v.log && w.branch == v.branch && w.drafts == v.drafts
    ensures Replayed(env, u, w)
  {
    UnwrittenReplays(env, v, w);
    ReplayedTransitive(env, u, v, w);
  }

  lemma PlanReplays(env: Env, w: World, tree: TreeState, plan: CommitPlan, io: Io)
    ensures Replayed(env, w, SyncPlan(env, w, tree, plan, io).world)
  {
    var v := SyncPlan(env, w, tree, plan, io).world;
    var mirrored := AfterMirror(env, w, tree, plan);
    MirrorReplays(env, w, tree, plan);
    if v.log == w.log {
      UnwrittenReplays(env, w, v);
    } else if io.mirror.MirrorFails? || !io.listed {
      RowWriteReplays(env, w, mirrored, v);
    } else {
      var files := if io.stages < |plan.files| then plan.files[..io.stages] else plan.files;
      StageReplays(env, mirrored, files);
      RowWriteReplays(env, mirrored, AfterStages(mirrored, files), v);
      ReplayedTransitive(env, w, mirrored, v);
    }
  }

  lemma SyncReplays(env: Env, w: World, io: Io)
    ensures Replayed(env, w, SyncRun(env, w, io).world)
  {
    if io.connected && io.supported && io.endpoint && io.read.Tree? && io.read.tree.baseSha != "" && io.rowRead {
      PlanReplays(env, w, io.read.tree, Planned(env.sha256, io.read.tree), io);
    } else {
      UnwrittenReplays(env, w, SyncRun(env, w, io).world);
    }
  }

  lemma EditReplays(env: Env, w: World, drafts: Drafts)
    ensures Replayed(env, w, EditedTo(w, drafts))
  {
    assert EditedTo(w, drafts).log[|w.log|..] == [Edited(drafts)];
    assert LastTree(env, []).None?;
  }

  /** Dropping the row changes neither branch nor drafts; every other move logs what it changes. */
  lemma {:induction false} MovesReplay(env: Env, w: World, moves: seq<Move>)
    ensures Replayed(env, w, After(env, w, moves))
    decreases |moves|
  {
    if moves == [] {
      UnwrittenReplays(env, w, w);
    } else {
      var next := Next(env, w, moves[0]);
      match moves[0] {
        case Sync(io) => SyncReplays(env, w, io);
        case EditDrafts(drafts) => EditReplays(env, w, drafts);
        case DiscardRow => UnwrittenReplays(env, w, next);
      }
      MovesReplay(env, next, moves[1..]);
      ReplayedTransitive(env, w, next, After(env, w, moves));
    }
  }

  /**
   * What was written says the plan wherever it says anything: the last mirrored tree, and what the last writer of each
   * of its paths left there.
   */
  ghost predicate WritesAgree(env: Env, since: seq<Action>, saved: TreeState) {
    var plan := Planned(env.sha256, saved);
    (LastTree(env, since).Some? ==> LastTree(env, since).value == Applied(env.base(saved.baseSha), plan.files)) &&
    forall f <- plan.files :: LastDraft(since, f.path).Some? ==> LastDraft(since, f.path).value == Some(f.content)
  }

  /**
   * A saved plan whose hash is on the row after any moves (syncs of whatever trees, other people's edits, dropped rows)
   * holds exactly if what was written since agrees with it.
   */
  lemma HoldsExactly(env: Env, w: World, saved: TreeState, moves: seq<Move>)
    requires Holds(env, w, saved)
    requires var v := After(env, w, moves); v.row.Some? && v.row.value.lastSyncedHash == Planned(env.sha256, saved).hash
    ensures var v := After(env, w, moves);
            w.log <= v.log && (Holds(env, v, saved) <==> WritesAgree(env, v.log[|w.log|..], saved))
  {
    MovesReplay(env, w, moves);
    var v := After(env, w, moves);
    var since := v.log[|w.log|..];
    forall f <- Planned(env.sha256, saved).files
      ensures (f.path in v.drafts && v.drafts[f.path] == f.content) <==>
              (LastDraft(since, f.path).Some? ==> LastDraft(since, f.path).value == Some(f.content))
    {
      assert Some(DraftAt(v.drafts, f.path)) == LastDraft(since, f.path).Or(Some(DraftAt(w.drafts, f.path)));
      assert f.path in w.drafts && w.drafts[f.path] == f.content;
    }
  }

  /**
   * A sync that is skipped for an unchanged hash is right exactly if nothing written since the plan was saved disagrees
   * with it: the last tree mirrored is the plan's, and the last writer of each plan path, a sync or a person, left the
   * plan's draft there.
   */
  lemma SkipIsRightExactly(env: Env, w: World, saved: TreeState, moves: seq<Move>, retry: Io)
    requires Holds(env, w, saved) && retry.read == CheckoutSync.Tree(saved)
    requires SyncRun(env, After(env, w, moves), retry).result.Unchanged?
    ensures var v := After(env, w, moves);
            var skipped := SyncRun(env, v, retry).world;
            skipped == v && w.log <= v.log &&
            (Holds(env, skipped, saved) <==> WritesAgree(env, v.log[|w.log|..], saved))
  {
    HoldsExactly(env, w, saved, moves);
  }

  /**
   * It is wrong after a sync of another plan that mirrored and then failed: the stored hash is still the old
   * plan's, so going back to the old changes is skipped while the branch holds the other plan.
   */
  lemma SkipCanBeStale(env: Env, w: World, saved: TreeState, other: TreeState, failing: Io, retry: Io)
    requires Holds(env, w, saved) && Planned(env.sha256, saved).files != [] && saved.baseSha != ""
    requires failing.read == CheckoutSync.Tree(other) && other.baseSha != "" && Planned(env.sha256, other).files != []
    requires Planned(env.sha256, other).hash != Planned(env.sha256, saved).hash
    requires Applied(env.base(other.baseSha), Planned(env.sha256, other).files) !=
             Applied(env.base(saved.baseSha), Planned(env.sha256, saved).files)
    requires failing.connected && failing.supported && failing.endpoint && failing.rowRead &&
             failing.mirror.MirrorDone? && !failing.listed
    requires Smooth(retry, saved)
    ensures var failed := SyncRun(env, w, failing);
            var skipped := SyncRun(env, failed.world, retry);
            failed.result.Failed? && skipped.result.Unchanged? && !Holds(env, skipped.world, saved)
  {
  }
}
