/**
 * The upload index of one conversation directory (app/chat/attachments.server.ts): turns append to it one
 * after another, each chained behind the promise found in the lock map.
 */
module UploadIndex {
  import opened Prelude

  type Entry = string

  datatype Call =
    | Fresh
    /** Chained behind the call found in the lock map, if any. */
    | Queued(after: Option<nat>)
    /** Inside its read-modify-write: what it read, and whether the read worked. */
    | Loaded(existing: seq<Entry>, read: bool)
    | Settled(ok: bool)
    | Returned(ok: bool)
  {
    predicate Over() { Settled? || Returned? }
  }

  /** How one read-modify-write went. */
  datatype Turn = Turn(call: nat, read: bool, wrote: bool)

  /** `line` is the order the calls queued in, `turns` the ones that are through; both are history only. */
  datatype World = World(file: seq<Entry>, lock: Option<nat>, calls: seq<Call>, line: seq<nat>, turns: seq<Turn>)

  datatype Move =
    | Enqueue(call: nat)
    | Load(call: nat, readable: bool)
    | Write(call: nat, writes: bool)
    | Cleanup(call: nat)

  function Start(file: seq<Entry>, calls: nat): World {
    World(file, None, seq(calls, _ => Fresh), [], [])
  }

  predicate Allowed(w: World, move: Move) {
    move.call < |w.calls| &&
    match move
    case Enqueue(i) => w.calls[i].Fresh?
    /** A promise callback runs once the promise before it is settled, however it settled. */
    case Load(i, _) =>
      w.calls[i].Queued? &&
      (w.calls[i].after.Some? ==> w.calls[i].after.value < |w.calls| && w.calls[w.calls[i].after.value].Over())
    case Write(i, _) => w.calls[i].Loaded?
    case Cleanup(i) => w.calls[i].Settled?
  }

  /** An index that cannot be read counts as empty; a write replaces the file or leaves it. */
  function Next(added: nat -> seq<Entry>, w: World, move: Move): World
    requires Allowed(w, move)
  {
    var i := move.call;
    match move
    case Enqueue(_) => w.(calls := w.calls[i := Queued(w.lock)], lock := Some(i), line := w.line + [i])
    case Load(_, readable) => w.(calls := w.calls[i := Loaded(if readable then w.file else [], readable)])
    case Write(_, writes) =>
      w.(calls := w.calls[i := Settled(writes)],
         file := if writes then w.calls[i].existing + added(i) else w.file,
         turns := w.turns + [Turn(i, w.calls[i].read, writes)])
    case Cleanup(_) =>
      w.(calls := w.calls[i := Returned(w.calls[i].ok)], lock := if w.lock == Some(i) then None else w.lock)
  }

  // ----- What the turns leave in the file -----

  function Content(added: nat -> seq<Entry>, start: seq<Entry>, turns: seq<Turn>): seq<Entry>
    decreases |turns|
  {
    if turns == [] then start
    else
      var last := turns[|turns| - 1];
      var before := Content(added, start, turns[..|turns| - 1]);
      if !last.wrote then before else (if last.read then before else []) + added(last.call)
  }

  // ----- The invariant -----

  predicate Waiting(w: World, k: nat)
    requires k < |w.line| && w.line[k] < |w.calls|
  {
    var call := w.calls[w.line[k]];
    if k < |w.turns| then call.Over() && w.turns[k].call == w.line[k]
    else if call.Queued? then (k > 0 && call.after == Some(w.line[k - 1])) || (call.after.None? && k == |w.turns|)
    else k == |w.turns| && call.Loaded? && call.existing == if call.read then w.file else []
  }

  predicate InLine(w: World) {
    (forall k :: 0 <= k < |w.line| ==> w.line[k] < |w.calls|) &&
    (forall k {:trigger Waiting(w, k)} :: 0 <= k < |w.line| ==> Waiting(w, k))
  }

  predicate Distinct(line: seq<nat>) {
    forall j, k :: 0 <= j < k < |line| ==> line[j] != line[k]
  }

  predicate Lined(w: World) {
    forall i :: 0 <= i < |w.calls| && !w.calls[i].Fresh? ==> i in w.line
  }

  predicate LockFits(w: World) {
    if w.lock.Some? then w.line != [] && w.lock.value == w.line[|w.line| - 1] else |w.turns| == |w.line|
  }

  predicate Inv(added: nat -> seq<Entry>, start: seq<Entry>, w: World) {
    |w.turns| <= |w.line| && w.file == Content(added, start, w.turns) &&
    InLine(w) && Distinct(w.line) && Lined(w) && LockFits(w)
  }

  lemma Place(w: World, i: nat) returns (k: nat)
    requires InLine(w) && Lined(w) && i < |w.calls| && !w.calls[i].Fresh?
    ensures k < |w.line| && w.line[k] == i && Waiting(w, k)
  {
    k :| 0 <= k < |w.line| && w.line[k] == i;
    assert Waiting(w, k);
  }

  lemma QueuedPlace(w: World, i: nat, k: nat)
    requires Allowed(w, Enqueue(i)) && k < |w.line| && w.line[k] < |w.calls| && Waiting(w, k)
    ensures w.line[k] != i
    ensures var w' := w.(calls := w.calls[i := Queued(w.lock)], lock := Some(i), line := w.line + [i]); Waiting(w', k)
  {
  }

  lemma EnqueuedInLine(w: World, i: nat)
    requires InLine(w) && LockFits(w) && Allowed(w, Enqueue(i)) && |w.turns| <= |w.line|
    ensures var w' := w.(calls := w.calls[i := Queued(w.lock)], lock := Some(i), line := w.line + [i]); InLine(w')
    ensures forall k :: 0 <= k < |w.line| ==> w.line[k] != i
  {
    var w' := w.(calls := w.calls[i := Queued(w.lock)], lock := Some(i), line := w.line + [i]);
    forall k | 0 <= k < |w'.line| ensures w'.line[k] < |w'.calls| && Waiting(w', k) {
      if k < |w.line| { assert Waiting(w, k); QueuedPlace(w, i, k); }
    }
    forall k | 0 <= k < |w.line| ensures w.line[k] != i { assert Waiting(w, k); QueuedPlace(w, i, k); }
  }

  lemma EnqueuedLined(w: World, i: nat)
    requires Lined(w) && Allowed(w, Enqueue(i))
    ensures Lined(w.(calls := w.calls[i := Queued(w.lock)], lock := Some(i), line := w.line + [i]))
  {
  }

  lemma EnqueueKeepsInv(added: nat -> seq<Entry>, start: seq<Entry>, w: World, i: nat)
    requires Inv(added, start, w) && Allowed(w, Enqueue(i))
    ensures Inv(added, start, Next(added, w, Enqueue(i)))
  {
    EnqueuedInLine(w, i);
    EnqueuedLined(w, i);
  }

  /** One call moves on; the others keep their places. */
  lemma OtherPlaces(w: World, w': World, n: nat, call: Call, k: nat)
    requires k < |w.line| && n < |w.line| && w.line[k] < |w.calls| && w.line[n] < |w.calls| && w.line[k] != w.line[n]
    requires Waiting(w, k) && w'.line == w.line && w'.calls == w.calls[w.line[n] := call]
    requires (w'.turns == w.turns && w'.file == w.file) ||
             (n == |w.turns| && |w'.turns| == n + 1 && w'.turns[..n] == w.turns)
    ensures Waiting(w', k)
  {
    assert k < |w.turns| ==> w'.turns[k] == w'.turns[..|w.turns|][k];
  }

  lemma MoveKeepsLine(w: World, w': World, n: nat, call: Call)
    requires InLine(w) && Distinct(w.line) && Lined(w) && n < |w.line| && !call.Fresh?
    requires w'.line == w.line && w'.calls == w.calls[w.line[n] := call] && w.line[n] < |w.calls|
    requires (w'.turns == w.turns && w'.file == w.file) ||
             (n == |w.turns| && |w'.turns| == n + 1 && w'.turns[..n] == w.turns)
    requires Waiting(w', n)
    ensures InLine(w') && Lined(w')
  {
    forall k | 0 <= k < |w.line| ensures w'.line[k] < |w'.calls| && Waiting(w', k) {
      assert Waiting(w, k);
      if k != n {
        assert w.line[k] != w.line[n];
        OtherPlaces(w, w', n, call, k);
      }
    }
    assert w.line[n] in w.line;
  }

  lemma LoadKeepsInv(added: nat -> seq<Entry>, start: seq<Entry>, w: World, i: nat, readable: bool)
    requires Inv(added, start, w) && Allowed(w, Load(i, readable))
    ensures Inv(added, start, Next(added, w, Load(i, readable)))
  {
    var w' := Next(added, w, Load(i, readable));
    var n := Place(w, i);
    if w.calls[i].after.Some? { assert Waiting(w, n - 1); }
    MoveKeepsLine(w, w', n, w'.calls[i]);
  }

  lemma WriteKeepsInv(added: nat -> seq<Entry>, start: seq<Entry>, w: World, i: nat, writes: bool)
    requires Inv(added, start, w) && Allowed(w, Write(i, writes))
    ensures Inv(added, start, Next(added, w, Write(i, writes)))
  {
    var w' := Next(added, w, Write(i, writes));
    var n := Place(w, i);
    assert w'.turns[..|w.turns|] == w.turns;
    MoveKeepsLine(w, w', n, w'.calls[i]);
  }

  lemma CleanupKeepsInv(added: nat -> seq<Entry>, start: seq<Entry>, w: World, i: nat)
    requires Inv(added, start, w) && Allowed(w, Cleanup(i))
    ensures Inv(added, start, Next(added, w, Cleanup(i)))
  {
    var w' := Next(added, w, Cleanup(i));
    var n := Place(w, i);
    MoveKeepsLine(w, w', n, w'.calls[i]);
  }

  predicate Runs(added: nat -> seq<Entry>, w: World, moves: seq<Move>)
    decreases |moves|
  {
    moves == [] || (Allowed(w, moves[0]) && Runs(added, Next(added, w, moves[0]), moves[1..]))
  }

  function After(added: nat -> seq<Entry>, w: World, moves: seq<Move>): World
    requires Runs(added, w, moves)
    decreases |moves|
  {
    if moves == [] then w else After(added, Next(added, w, moves[0]), moves[1..])
  }

  lemma {:induction false} RunKeepsInv(added: nat -> seq<Entry>, start: seq<Entry>, w: World, moves: seq<Move>)
    requires Inv(added, start, w) && Runs(added, w, moves)
    ensures Inv(added, start, After(added, w, moves))
    decreases |moves|
  {
    if moves != [] {
      match moves[0] {
        case Enqueue(i) => EnqueueKeepsInv(added, start, w, i);
        case Load(i, readable) => LoadKeepsInv(added, start, w, i, readable);
        case Write(i, writes) => WriteKeepsInv(added, start, w, i, writes);
        case Cleanup(i) => CleanupKeepsInv(added, start, w, i);
      }
      RunKeepsInv(added, start, Next(added, w, moves[0]), moves[1..]);
    }
  }

  // ----- What holds in every interleaving -----

  lemma OneInside(added: nat -> seq<Entry>, start: seq<Entry>, w: World, i: nat, j: nat)
    requires Inv(added, start, w) && i < |w.calls| && j < |w.calls| && w.calls[i].Loaded? && w.calls[j].Loaded?
    ensures i == j && |w.turns| < |w.line| && w.line[|w.turns|] == i
    ensures w.calls[i].existing == if w.calls[i].read then w.file else []
  {
    var k := Place(w, i);
    var l := Place(w, j);
  }

  lemma NobodyInside(added: nat -> seq<Entry>, start: seq<Entry>, w: World, i: nat)
    requires Inv(added, start, w) && w.lock.None? && i < |w.calls|
    ensures w.calls[i].Fresh? || w.calls[i].Over()
  {
    if !w.calls[i].Fresh? { var k := Place(w, i); }
  }

  /** At most one call is inside its read-modify-write. */
  lemma OneAtATime(added: nat -> seq<Entry>, start: seq<Entry>, calls: nat, moves: seq<Move>, i: nat, j: nat)
    requires Runs(added, Start(start, calls), moves)
    requires var w := After(added, Start(start, calls), moves);
             i < |w.calls| && j < |w.calls| && w.calls[i].Loaded? && w.calls[j].Loaded?
    ensures i == j
  {
    RunKeepsInv(added, start, Start(start, calls), moves);
    OneInside(added, start, After(added, Start(start, calls), moves), i, j);
  }

  /** The lock entry goes only when nobody waits behind it and nobody is inside. */
  lemma LockGoesWhenNobodyWaits(added: nat -> seq<Entry>, start: seq<Entry>, calls: nat, moves: seq<Move>, i: nat)
    requires Runs(added, Start(start, calls), moves)
    requires var w := After(added, Start(start, calls), moves); w.lock.None? && i < |w.calls|
    ensures var call := After(added, Start(start, calls), moves).calls[i]; call.Fresh? || call.Over()
  {
    RunKeepsInv(added, start, Start(start, calls), moves);
    NobodyInside(added, start, After(added, Start(start, calls), moves), i);
  }

  // ----- The directory -----

  /** A directory as the server holds it; each method is one synchronous stretch of `storeAttachments`. */
  class Directory {
    /** What each call adds, and the index as it was found. */
    const added: nat -> seq<Entry>
    ghost const start: seq<Entry>
    var file: seq<Entry>
    var lock: Option<nat>
    var calls: seq<Call>
    var line: seq<nat>
    var turns: seq<Turn>

    ghost function State(): World reads this { World(file, lock, calls, line, turns) }

    ghost predicate Valid() reads this { Inv(added, start, State()) }

    /** Nobody waits for the index or is inside. */
    ghost predicate Quiet() reads this {
      forall i :: 0 <= i < |calls| ==> calls[i].Fresh? || calls[i].Over()
    }

    constructor (added: nat -> seq<Entry>, file: seq<Entry>, count: nat)
      ensures Valid() && this.added == added && start == file && State() == Start(file, count)
    {
      this.added, this.start, this.file := added, file, file;
      lock, calls, line, turns := None, seq(count, _ => Fresh), [], [];
    }

    /** A call takes the last place in line; it has nobody to wait for only if nobody waits or is inside. */
    method Chain(i: nat)
      requires Valid() && Allowed(State(), Enqueue(i))
      modifies this`calls, this`lock, this`line
      ensures Valid() && State() == Next(added, old(State()), Enqueue(i))
      ensures calls[i].Queued? && (calls[i].after.None? ==> old(Quiet()))
      ensures calls[i].after.Some? ==> |line| > 1 && calls[i].after.value == line[|line| - 2]
    {
      EnqueueKeepsInv(added, start, State(), i);
      if lock.None? {
        forall j | 0 <= j < |calls| ensures calls[j].Fresh? ||
        calls[j].Over() { NobodyInside(added, start, State(), j); }
      }
      calls, lock, line := calls[i := Queued(lock)], Some(i), line + [i];
    }

    /** Only the oldest call that is not through gets to read, and nobody else is inside with it. */
    method LoadUploadIndex(i: nat, readable: bool)
      requires Valid() && Allowed(State(), Load(i, readable))
      modifies this`calls
      ensures Valid() && State() == Next(added, old(State()), Load(i, readable))
      ensures |turns| < |line| && line[|turns|] == i && forall j :: 0 <= j < |calls| && calls[j].Loaded? ==> j == i
    {
      LoadKeepsInv(added, start, State(), i, readable);
      calls := calls[i := Loaded(if readable then file else [], readable)];
      forall j | 0 <= j < |calls| && calls[j].Loaded? ensures j == i { OneInside(added, start, State(), i, j); }
      OneInside(added, start, State(), i, i);
    }

    /** Nothing came between the read and the write: a write after a good read adds to the index as it stands. */
    method WriteIndex(i: nat, writes: bool)
      requires Valid() && Allowed(State(), Write(i, writes))
      modifies this`file, this`calls, this`turns
      ensures Valid() && State() == Next(added, old(State()), Write(i, writes))
      ensures file == if !writes then old(file) else if old(calls[i].read) then old(file) + added(i) else added(i)
      ensures forall j :: 0 <= j < |calls| ==> !calls[j].Loaded?
    {
      WriteKeepsInv(added, start, State(), i, writes);
      OneInside(added, start, State(), i, i);
      forall j | 0 <= j < |calls| && calls[j].Loaded? ensures j == i { OneInside(added, start, State(), i, j); }
      if writes { file := calls[i].existing + added(i); }
      turns := turns + [Turn(i, calls[i].read, writes)];
      calls := calls[i := Settled(writes)];
    }

    /** The lock entry is gone only when nobody waits or is inside; another call's entry stays. */
    method Release(i: nat)
      requires Valid() && Allowed(State(), Cleanup(i))
      modifies this`calls, this`lock
      ensures Valid() && State() == Next(added, old(State()), Cleanup(i))
      ensures lock.None? ==> Quiet()
      ensures old(lock) != Some(i) ==> lock == old(lock)
    {
      CleanupKeepsInv(added, start, State(), i);
      calls := calls[i := Returned(calls[i].ok)];
      if lock == Some(i) { lock := None; }
      if lock.None? {
        forall j | 0 <= j < |calls| ensures calls[j].Fresh? ||
        calls[j].Over() { NobodyInside(added, start, State(), j); }
      }
    }

    /** The calls' stretches in whatever order the event loop runs them. */
    method Interleave(moves: seq<Move>)
      requires Valid() && Runs(added, State(), moves)
      modifies this
      ensures Valid() && State() == After(added, old(State()), moves)
    {
      for n := 0 to |moves|
        invariant Valid() && Runs(added, State(), moves[n..])
        invariant After(added, State(), moves[n..]) == After(added, old(State()), moves)
      {
        assert moves[n..][0] == moves[n] && moves[n..][1..] == moves[n + 1..];
        match moves[n] {
          case Enqueue(i) => Chain(i);
          case Load(i, readable) => LoadUploadIndex(i, readable);
          case Write(i, writes) => WriteIndex(i, writes);
          case Cleanup(i) => Release(i);
        }
      }
    }
  }

  // ----- What is kept -----

  /** The file and every entry written, in the order the calls queued, each once. */
  function Kept(added: nat -> seq<Entry>, start: seq<Entry>, turns: seq<Turn>): seq<Entry>
    decreases |turns|
  {
    if turns == [] then start
    else
      var last := turns[|turns| - 1];
      Kept(added, start, turns[..|turns| - 1]) + (if last.wrote then added(last.call) else [])
  }

  /** A write that follows a failed read of an index with something in it. */
  predicate Drops(added: nat -> seq<Entry>, start: seq<Entry>, turns: seq<Turn>, k: nat)
    requires k < |turns|
  {
    turns[k].wrote && !turns[k].read && Content(added, start, turns[..k]) != []
  }

  lemma {:induction false} ContentIsKept(added: nat -> seq<Entry>, start: seq<Entry>, turns: seq<Turn>)
    ensures |Content(added, start, turns)| <= |Kept(added, start, turns)|
    ensures Content(added, start, turns) == Kept(added, start, turns) <==>
            forall k :: 0 <= k < |turns| ==> !Drops(added, start, turns, k)
    decreases |turns|
  {
    if turns != [] {
      var n := |turns| - 1;
      var front := turns[..n];
      ContentIsKept(added, start, front);
      forall k | 0 <= k < n ensures Drops(added, start, turns, k) == Drops(added, start, front, k) {
        assert front[..k] == turns[..k];
      }
      LastTurn(added, start, turns);
    }
  }

  lemma LastTurn(added: nat -> seq<Entry>, start: seq<Entry>, turns: seq<Turn>)
    requires turns != []
    requires var front := turns[..|turns| - 1]; |Content(added, start, front)| <= |Kept(added, start, front)|
    ensures var n := |turns| - 1;
            Content(added, start, turns) == Kept(added, start, turns) <==>
            Content(added, start, turns[..n]) == Kept(added, start, turns[..n]) && !Drops(added, start, turns, n)
  {
    var last, front := turns[|turns| - 1], turns[..|turns| - 1];
    var c, kept := Content(added, start, front), Kept(added, start, front);
    if last.wrote {
      var base := if last.read then c else [];
      if base + added(last.call) == kept + added(last.call) { SameTail(base, kept, added(last.call)); }
    } else {
      assert kept + [] == kept;
    }
  }

  lemma SameTail(a: seq<Entry>, b: seq<Entry>, tail: seq<Entry>)
    requires a + tail == b + tail
    ensures a == b
  {
    assert |a| == |b|;
    assert (a + tail)[..|a|] == a && (b + tail)[..|b|] == b;
  }

  /**
   * No index entry is lost: in every interleaving the index holds the old entries and then the entries of
   * every call that wrote, in order and once, exactly if no call wrote after failing to read a non-empty index.
   */
  lemma NothingIsLostExactly(added: nat -> seq<Entry>, start: seq<Entry>, calls: nat, moves: seq<Move>)
    requires Runs(added, Start(start, calls), moves)
    ensures var w := After(added, Start(start, calls), moves);
            w.file == Kept(added, start, w.turns) <==> forall k ::
                0 <= k < |w.turns| ==> !Drops(added, start, w.turns, k)
    ensures var w := After(added, Start(start, calls), moves);
            |w.turns| <= |w.line| && forall k :: 0 <= k < |w.turns| ==> w.turns[k].call == w.line[k]
  {
    RunKeepsInv(added, start, Start(start, calls), moves);
    var w := After(added, Start(start, calls), moves);
    ContentIsKept(added, start, w.turns);
    forall k | 0 <= k < |w.turns| ensures w.turns[k].call == w.line[k] { assert Waiting(w, k); }
  }
}
