/**
 * Any number of requests racing on one repository (app/assets/store.server.ts): each takes snapshots and
 * tries compare-and-swap commits, up to three times, while other commits land outside `assets/`.
 */
module AssetWriters {
  import opened AssetStore
  import opened AssetOps
  import opened AssetLaws

  datatype Landing = Outside | By(writer: nat, request: Request, now: string)

  datatype WriterState =
    | Ready(round: nat)
    | Holding(round: nat, head: nat, plan: Plan, now: string)
    /** The commit was acknowledged as this head. */
    | Acknowledged(head: nat)
    | Rejected(error: WriteError)
    /** An error other than a moved branch; the commit may have landed before the reply was lost. */
    | Errored

  /** Heads are numbered; `trees[k + 1]` is what `landings[k]` made of `trees[k]`. */
  datatype World = World(trees: seq<Tree>, landings: seq<Landing>, writers: seq<WriterState>)

  function Begun(tree: Tree, requests: seq<Request>): World {
    World([tree], [], seq(|requests|, _ => Ready(1)))
  }

  datatype Fate = Answered | ReplyLost | Fails

  datatype Move =
    | Snapshot(writer: nat, truncated: bool, now: string)
    | Commit(writer: nat, fate: Fate)
    | Push(tree: Tree)

  ghost predicate Allowed(requests: seq<Request>, world: World, move: Move) {
    |world.writers| == |requests| && world.trees != [] &&
    match move
    case Snapshot(w, _, _) => w < |requests| && world.writers[w].Ready?
    case Commit(w, _) => w < |requests| && world.writers[w].Holding?
    case Push(tree) => Agree(world.trees[|world.trees| - 1], tree, "assets/")
  }

  ghost function Next(p: Platform, requests: seq<Request>, world: World, move: Move): World
    requires Allowed(requests, world, move)
  {
    var head := |world.trees| - 1;
    match move
    case Push(tree) => world.(trees := world.trees + [tree], landings := world.landings + [Outside])
    case Snapshot(w, truncated, now) =>
      var plan := PlanFor(p, requests[w], world.trees[head], truncated, now);
      world.(writers := world.writers[w := if plan.Refuse? then Rejected(plan.error)
                                           else Holding(world.writers[w].round, head, plan, now)])
    case Commit(w, fate) =>
      var holding := world.writers[w];
      if fate.Fails? then world.(writers := world.writers[w := Errored])
      else if holding.head == head && holding.plan.Write? then
        World(world.trees + [CommitTo(world.trees[head], holding.plan.changes)],
              world.landings + [By(w, requests[w], holding.now)],
              world.writers[w := if fate.Answered? then Acknowledged(head + 1) else Errored])
      else
        world.(writers := world.writers[w := if holding.round == MAX_COMMIT_ATTEMPTS then Rejected(KeptChanging)
                                             else Ready(holding.round + 1)])
  }

  ghost predicate Runs(p: Platform, requests: seq<Request>, world: World, moves: seq<Move>)
    decreases |moves|
  {
    moves == [] || (Allowed(requests, world, moves[0]) &&
        Runs(p, requests, Next(p, requests, world, moves[0]), moves[1..]))
  }

  ghost function After(p: Platform, requests: seq<Request>, world: World, moves: seq<Move>): World
    requires Runs(p, requests, world, moves)
    decreases |moves|
  {
    if moves == [] then world else After(p, requests, Next(p, requests, world, moves[0]), moves[1..])
  }

  // ----- Every head is a sequential run of what landed -----

  /** One commit is an outside push that leaves `assets/` alone, or one request run on the head before it. */
  ghost predicate Justified(p: Platform, requests: seq<Request>, before: Tree, landing: Landing, after: Tree) {
    match landing
    case Outside => Agree(before, after, "assets/")
    case By(w, request, now) =>
      w < |requests| && request == requests[w] &&
      PlanFor(p, request, before, false, now).Write? && after == AssetLaws.Landed(p, request, before, now)
  }

  ghost predicate Sequential(p: Platform, requests: seq<Request>, world: World) {
    |world.trees| == |world.landings| + 1 &&
    forall k :: 0 <= k < |world.landings| ==>
        Justified(p, requests, world.trees[k], world.landings[k], world.trees[k + 1])
  }

  predicate Lands(world: World, w: nat, k: nat) {
    k < |world.landings| && world.landings[k].By? && world.landings[k].writer == w
  }

  /** A writer's request landed at most once; not at all before its end or after a rejection. */
  ghost predicate Accounted(world: World, w: nat)
    requires w < |world.writers|
  {
    (forall i, j :: Lands(world, w, i) && Lands(world, w, j) ==> i == j) &&
    match world.writers[w]
    case Acknowledged(head) => head > 0 && Lands(world, w, head - 1)
    case Errored => true
    case _ => forall k :: !Lands(world, w, k)
  }

  ghost predicate HoldsPlan(p: Platform, requests: seq<Request>, world: World, w: nat)
    requires w < |world.writers| == |requests|
  {
    var state := world.writers[w];
    state.Holding? ==>
      state.head < |world.trees| && state.plan.Write? &&
      state.plan == PlanFor(p, requests[w], world.trees[state.head], false, state.now)
  }

  ghost predicate Inv(p: Platform, requests: seq<Request>, world: World) {
    |world.writers| == |requests| && Sequential(p, requests, world) &&
    forall w :: 0 <= w < |requests| ==> Accounted(world, w) && HoldsPlan(p, requests, world, w)
  }

  lemma SnapshotKeepsInv(p: Platform, requests: seq<Request>, world: World, w: nat, truncated: bool, now: string)
    requires Inv(p, requests, world) && Allowed(requests, world, Snapshot(w, truncated, now))
    ensures Inv(p, requests, Next(p, requests, world, Snapshot(w, truncated, now)))
  {
    var next := Next(p, requests, world, Snapshot(w, truncated, now));
    forall v | 0 <= v < |requests| ensures Accounted(next, v) && HoldsPlan(p, requests, next, v) {
      assert Accounted(world, v) && HoldsPlan(p, requests, world, v);
      forall k ensures Lands(next, v, k) == Lands(world, v, k) {}
    }
  }

  lemma PushKeepsInv(p: Platform, requests: seq<Request>, world: World, tree: Tree)
    requires Inv(p, requests, world) && Allowed(requests, world, Push(tree))
    ensures Inv(p, requests, Next(p, requests, world, Push(tree)))
  {
    var next := Next(p, requests, world, Push(tree));
    forall v | 0 <= v < |requests| ensures Accounted(next, v) && HoldsPlan(p, requests, next, v) {
      assert Accounted(world, v) && HoldsPlan(p, requests, world, v);
      forall k ensures Lands(next, v, k) == Lands(world, v, k) {}
    }
  }

  lemma LandingIsSequential(p: Platform, requests: seq<Request>, world: World, w: nat, fate: Fate)
    requires Inv(p, requests, world) && Allowed(requests, world, Commit(w, fate))
    ensures Sequential(p, requests, Next(p, requests, world, Commit(w, fate)))
  {
    var next := Next(p, requests, world, Commit(w, fate));
    assert HoldsPlan(p, requests, world, w);
    forall k | 0 <= k < |next.landings|
      ensures Justified(p, requests, next.trees[k], next.landings[k], next.trees[k + 1])
    {
      if k < |world.landings| { assert Justified(p, requests, world.trees[k], world.landings[k], world.trees[k + 1]); }
    }
  }

  lemma CommitKeepsWriter(p: Platform, requests: seq<Request>, world: World, w: nat, fate: Fate, v: nat)
    requires Inv(p, requests, world) && Allowed(requests, world, Commit(w, fate)) && v < |requests|
    ensures var next := Next(p, requests, world, Commit(w, fate)); Accounted(next, v) && HoldsPlan(p, requests, next, v)
  {
    var next := Next(p, requests, world, Commit(w, fate));
    assert Accounted(world, w) && HoldsPlan(p, requests, world, w);
    assert Accounted(world, v) && HoldsPlan(p, requests, world, v);
    forall k ensures Lands(next, v, k) ==> Lands(world, v, k) || (v == w && k == |world.landings|) {}
    forall k ensures Lands(world, v, k) ==> Lands(next, v, k) {}
  }

  lemma CommitKeepsInv(p: Platform, requests: seq<Request>, world: World, w: nat, fate: Fate)
    requires Inv(p, requests, world) && Allowed(requests, world, Commit(w, fate))
    ensures Inv(p, requests, Next(p, requests, world, Commit(w, fate)))
  {
    LandingIsSequential(p, requests, world, w, fate);
    forall v | 0 <= v < |requests|
      ensures var next := Next(p, requests, world, Commit(w, fate));
              Accounted(next, v) && HoldsPlan(p, requests, next, v)
    {
      CommitKeepsWriter(p, requests, world, w, fate, v);
    }
  }

  /**
   * Linearizability. In every interleaving, each head is what a sequential run of the landed requests, in
   * landing order, makes of the first tree; an acknowledged request landed exactly once, as the head it was
   * told, while it was running; a rejected one never landed.
   */
  lemma {:induction false} WritersAreLinearizable(p: Platform, requests: seq<Request>, world: World, moves: seq<Move>)
    requires Inv(p, requests, world) && Runs(p, requests, world, moves)
    ensures Inv(p, requests, After(p, requests, world, moves))
    ensures world.trees <= After(p, requests, world, moves).trees
    decreases |moves|
  {
    if moves != [] {
      match moves[0] {
        case Snapshot(w, truncated, now) => SnapshotKeepsInv(p, requests, world, w, truncated, now);
        case Commit(w, fate) => CommitKeepsInv(p, requests, world, w, fate);
        case Push(tree) => PushKeepsInv(p, requests, world, tree);
      }
      WritersAreLinearizable(p, requests, Next(p, requests, world, moves[0]), moves[1..]);
    }
  }

  lemma EveryInterleavingIsSequential(p: Platform, requests: seq<Request>, tree: Tree, moves: seq<Move>)
    requires Runs(p, requests, Begun(tree, requests), moves)
    ensures var world := After(p, requests, Begun(tree, requests), moves);
            Inv(p, requests, world) && world.trees[0] == tree
  {
    WritersAreLinearizable(p, requests, Begun(tree, requests), moves);
  }
}
