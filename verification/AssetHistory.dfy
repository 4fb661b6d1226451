/**
 * The asset library over a whole history: what `get` returns at every head is what a plain map from ids to
 * assets would hold, and no asset's directory ever contains another's.
 */
module AssetHistory {
  import opened Prelude
  import opened Text
  import opened AssetPolicy
  import opened AssetStore
  import opened AssetOps
  import opened AssetLaws
  import opened AssetWriters

  // ----- The plain map -----

  /** What one id holds: the manifest a put keeps the creation date of, and the files `get` returns. */
  datatype Slot = Slot(manifest: Option<Manifest>, files: Option<seq<PutFile>>)

  const EMPTY_SLOT := Slot(None, None)

  function Received(p: Platform, wires: seq<WireFile>): seq<PutFile> {
    if wires == [] then []
    else [PutFile(wires[0].path, Unwire(p, wires[0]).Or(Some([])).value)] + Received(p, wires[1..])
  }

  function Held(p: Platform, tree: Tree, id: string): Slot {
    var got := Fetched(p, tree, id);
    Slot(ManifestAt(p, tree, id), if got.Ok? then Some(Received(p, got.value.files)) else None)
  }

  /** One landing, on the plain map. */
  function SlotAfter(p: Platform, slot: Slot, landing: Landing, id: string): Slot {
    if landing.Outside? || landing.request.id != id then slot
    else if landing.request.Delete? then EMPTY_SLOT
    else
      var m := NewManifest(p, landing.request, slot.manifest, landing.now);
      if WithinLimit(p, id, p.write(m)) then Slot(Some(m), Some(landing.request.files)) else EMPTY_SLOT
  }

  function SlotAfterAll(p: Platform, slot: Slot, landings: seq<Landing>, id: string): Slot
    decreases |landings|
  {
    if landings == [] then slot
    else SlotAfter(p, SlotAfterAll(p, slot, landings[..|landings| - 1], id), landings[|landings| - 1], id)
  }

  /** What the route lets through: plain ids, parsed files, short descriptions, a working clock. */
  predicate Vetted(p: Platform, landing: Landing) {
    landing.By? ==> Normal(landing.request.id) && (landing.request.Put? ==> Admissible(p, landing.request, landing.now))
  }

  lemma {:induction false} ReceivedCarried(p: Platform, wires: seq<WireFile>, files: seq<PutFile>)
    requires Carries(p, wires, files)
    ensures Received(p, wires) == files
    decreases |files|
  {
    if files != [] {
      ReceivedCarried(p, wires[1..], files[1..]);
      assert files == [files[0]] + files[1..];
    }
  }

  lemma UnderRoot(id: string, path: string)
    requires AssetRepoPrefix(id) <= path
    ensures "assets/" <= path
  {
    assert AssetRepoPrefix(id)[..7] == "assets/" && path[..7] == AssetRepoPrefix(id)[..7];
  }

  lemma OutsideKeepsSlot(p: Platform, before: Tree, after: Tree, id: string)
    requires Agree(before, after, "assets/")
    ensures Held(p, after, id) == Held(p, before, id)
  {
    forall path: string | AssetRepoPrefix(id) <= path
      ensures (path in before <==> path in after) && (path in before ==> before[path] == after[path])
    {
      UnderRoot(id, path);
    }
    FetchedFrame(p, before, after, id);
  }

  lemma DeleteEmptiesSlot(p: Platform, request: Request, before: Tree, now: string)
    requires request.Delete? && PlanFor(p, request, before, false, now).Write?
    ensures Held(p, AssetLaws.Landed(p, request, before, now), request.id) == EMPTY_SLOT
  {
    var t := AssetLaws.Landed(p, request, before, now);
    assert AssetRepoPrefix(request.id) <= ManifestPath(request.id);
    assert ManifestPath(request.id) !in t;
  }

  lemma PutFillsSlot(p: Platform, request: Request, before: Tree, now: string)
    requires Lawful(p) && Admissible(p, request, now) && PlanFor(p, request, before, false, now).Write?
    ensures var m := NewManifest(p, request, ManifestAt(p, before, request.id), now);
            Held(p, AssetLaws.Landed(p, request, before, now), request.id) ==
            if WithinLimit(p, request.id, p.write(m)) then Slot(Some(m), Some(request.files)) else EMPTY_SLOT
  {
    GetAfterPut(p, request, before, false, now);
    var t := AssetLaws.Landed(p, request, before, now);
    var got := Fetched(p, t, request.id);
    if got.Ok? { ReceivedCarried(p, got.value.files, request.files); }
  }

  lemma LandingMovesSlot(p: Platform, requests: seq<Request>, before: Tree, landing: Landing, after: Tree, id: string)
    requires Lawful(p) && Justified(p, requests, before, landing, after) && Vetted(p, landing) && Normal(id)
    ensures Held(p, after, id) == SlotAfter(p, Held(p, before, id), landing, id)
  {
    if landing.Outside? {
      OutsideKeepsSlot(p, before, after, id);
    } else if landing.request.id != id {
      OtherAssetsKept(p, landing.request, before, landing.now, id);
    } else if landing.request.Delete? {
      DeleteEmptiesSlot(p, landing.request, before, landing.now);
    } else {
      PutFillsSlot(p, landing.request, before, landing.now);
    }
  }

  /**
   * At every head of every interleaving, each id holds what the landed puts and deletes alone would leave on a plain
   * map.
   */
  lemma {:induction false} LibraryIsAPlainMap(p: Platform, requests: seq<Request>, world: World, k: nat, id: string)
    requires Lawful(p) && Sequential(p, requests, world) && k < |world.trees| && Normal(id)
    requires forall landing <- world.landings :: Vetted(p, landing)
    ensures Held(p, world.trees[k], id) == SlotAfterAll(p, Held(p, world.trees[0], id), world.landings[..k], id)
    decreases k
  {
    if k > 0 {
      LibraryIsAPlainMap(p, requests, world, k - 1, id);
      assert world.landings[..k][..k - 1] == world.landings[..k - 1];
      assert world.landings[k - 1] in world.landings;
      LandingMovesSlot(p, requests, world.trees[k - 1], world.landings[k - 1], world.trees[k], id);
    }
  }

  /** Whatever first tree and requests a run starts from, and however it interleaves them. */
  lemma EveryRunIsAPlainMap(p: Platform, requests: seq<Request>, tree: Tree, moves: seq<Move>, k: nat, id: string)
    requires Lawful(p) && Normal(id) && Runs(p, requests, Begun(tree, requests), moves)
    requires var world := After(p, requests, Begun(tree, requests), moves);
             k < |world.trees| && forall landing <- world.landings :: Vetted(p, landing)
    ensures var world := After(p, requests, Begun(tree, requests), moves);
            k <= |world.landings| && Held(p, world.trees[k], id) ==
                SlotAfterAll(p, Held(p, tree, id), world.landings[..k], id)
  {
    EveryInterleavingIsSequential(p, requests, tree, moves);
    LibraryIsAPlainMap(p, requests, After(p, requests, Begun(tree, requests), moves), k, id);
  }

  predicate Readable(p: Platform, slot: Slot, landing: Landing, id: string) {
    landing.By? && landing.request.id == id ==>
      landing.request.Put? && WithinLimit(p, id, p.write(NewManifest(p, landing.request, slot.manifest, landing.now)))
  }

  /** Until a delete lands (or a manifest too large to read), updates keep the creation date. */
  lemma {:induction false} CreatedAtSurvives(p: Platform, slot: Slot, landings: seq<Landing>, id: string)
    requires slot.manifest.Some?
    requires forall k :: 0 <= k < |landings| ==> Readable(p, SlotAfterAll(p, slot, landings[..k], id), landings[k], id)
    ensures var after := SlotAfterAll(p, slot, landings, id);
            after.manifest.Some? && after.manifest.value.createdAt == slot.manifest.value.createdAt
    decreases |landings|
  {
    if landings != [] {
      var front := landings[..|landings| - 1];
      forall k | 0 <= k < |front| ensures Readable(p, SlotAfterAll(p, slot, front[..k], id), front[k], id) {
        assert front[..k] == landings[..k];
      }
      CreatedAtSurvives(p, slot, front, id);
      assert Readable(p, SlotAfterAll(p, slot, front, id), landings[|landings| - 1], id);
    }
  }

  // ----- Directories never nest -----

  /** Not both ids have a manifest here. */
  predicate Apart(tree: Tree, a: string, b: string) {
    ManifestPath(a) in tree ==> ManifestPath(b) !in tree
  }

  lemma RequestKeepsApart(p: Platform, request: Request, before: Tree, now: string, a: string, b: string)
    requires PlanFor(p, request, before, false, now).Write? && (request.Put? ==> Contents(request.files))
    requires Apart(before, a, b) && Rivals(a, b)
    ensures Apart(AssetLaws.Landed(p, request, before, now), a, b)
  {
    var t := AssetLaws.Landed(p, request, before, now);
    if a != request.id && ManifestPath(a) in t { NoNewManifest(p, request, before, now, a); }
    if b != request.id && ManifestPath(b) in t { NoNewManifest(p, request, before, now, b); }
    assert ManifestPath(a) in before ==> Listed(before, ManifestPath(a));
    assert ManifestPath(b) in before ==> Listed(before, ManifestPath(b));
  }

  lemma LandingKeepsApart(p: Platform, requests: seq<Request>, before: Tree, landing: Landing, after: Tree, a: string,
      b: string)
    requires Justified(p, requests, before, landing, after) && Vetted(p, landing)
    requires Apart(before, a, b) && Rivals(a, b)
    ensures Apart(after, a, b)
  {
    if landing.Outside? {
      UnderRoot(a, ManifestPath(a));
      UnderRoot(b, ManifestPath(b));
    } else {
      RequestKeepsApart(p, landing.request, before, landing.now, a, b);
    }
  }

  predicate Rivals(a: string, b: string) { Normal(a) && Normal(b) && Nested(a, b) && a != b }

  lemma StepKeepsApart(p: Platform, requests: seq<Request>, world: World, k: nat, a: string, b: string)
    requires Sequential(p, requests, world) && k < |world.landings| && Vetted(p, world.landings[k])
    requires Rivals(a, b) && Apart(world.trees[k], a, b)
    ensures Apart(world.trees[k + 1], a, b)
  {
    var before, landing, after := world.trees[k], world.landings[k], world.trees[k + 1];
    assert Justified(p, requests, before, landing, after);
    LandingKeepsApart(p, requests, before, landing, after, a, b);
  }

  /** If no asset lay inside another at first, none does at any head of any interleaving. */
  lemma {:induction false} DirectoriesNeverNest(p: Platform, requests: seq<Request>, world: World, k: nat, a: string,
      b: string)
    requires Sequential(p, requests, world) && k < |world.trees| && forall landing <- world.landings ::
             Vetted(p, landing)
    requires Rivals(a, b) && Apart(world.trees[0], a, b)
    ensures Apart(world.trees[k], a, b)
    decreases k
  {
    if k > 0 {
      DirectoriesNeverNest(p, requests, world, k - 1, a, b);
      assert world.landings[k - 1] in world.landings;
      StepKeepsApart(p, requests, world, k - 1, a, b);
    }
  }

  /** The same from any first tree, however the requests interleave. */
  lemma NoRunNests(p: Platform, requests: seq<Request>, tree: Tree, moves: seq<Move>, k: nat, a: string, b: string)
    requires Runs(p, requests, Begun(tree, requests), moves) && Rivals(a, b) && Apart(tree, a, b)
    requires var world := After(p, requests, Begun(tree, requests), moves);
             k < |world.trees| && forall landing <- world.landings :: Vetted(p, landing)
    ensures Apart(After(p, requests, Begun(tree, requests), moves).trees[k], a, b)
  {
    EveryInterleavingIsSequential(p, requests, tree, moves);
    DirectoriesNeverNest(p, requests, After(p, requests, Begun(tree, requests), moves), k, a, b);
  }

  // ----- What blocks the next update -----

  /**
   * The path of a stored file runs through a directory called manifest.json that an overlap check takes for another
   * asset.
   */
  predicate PassesForAnother(id: string, file: string, other: string) {
    Normal(other) && other != id && Nested(other, id) && ManifestPath(other) + "/" <= AssetRepoPrefix(id) + file
  }

  /** Some stored path runs through such a directory. */
  ghost predicate Blocked(id: string, files: seq<PutFile>) {
    exists file <- files, other: string :: PassesForAnother(id, file.path, other)
  }

  /** A directory above an asset's manifest lies above its whole directory. */
  lemma AboveManifest(directory: string, id: string, file: string)
    requires directory != "" && directory[|directory| - 1] == '/' && directory <= ManifestPath(id)
    ensures directory <= AssetRepoPrefix(id) + file
  {
    var prefix, name := AssetRepoPrefix(id), "manifest.json";
    ManifestNameIsFlat();
    forall i | |prefix| <= i < |prefix + name| ensures (prefix + name)[i] != '/' {
      assert (prefix + name)[i] == name[i - |prefix|];
    }
    assert ManifestPath(id) == prefix + name && directory[|directory| - 1] == (prefix + name)[|directory| - 1];
    assert directory <= prefix;
  }

  lemma FoundUnder(tree: Tree, id: string, files: seq<PutFile>, manifest: Base64.Bytes, directory: string, path: string)
    requires files != [] && directory != "" && directory[|directory| - 1] == '/' && directory <= path
    requires path in PutTree(tree, id, files, manifest) && path !in tree
    ensures exists file <- files :: directory <= AssetRepoPrefix(id) + file.path
  {
    PutTreeAt(tree, id, files, manifest, path);
    if path == ManifestPath(id) {
      AboveManifest(directory, id, files[0].path);
      assert files[0] in files;
    }
  }

  lemma NewlyListed(tree: Tree, id: string, files: seq<PutFile>, manifest: Base64.Bytes, other: string)
    requires Contents(files) && files != [] && Normal(other) && other != id && Nested(other, id)
    requires Listed(PutTree(tree, id, files, manifest), ManifestPath(other)) && !Listed(tree, ManifestPath(other))
    ensures exists file <- files :: PassesForAnother(id, file.path, other)
  {
    var t := PutTree(tree, id, files, manifest);
    NotPutAsManifest(tree, id, files, manifest, other);
    var path :| path in t && ManifestPath(other) + "/" <= path;
    FoundUnder(tree, id, files, manifest, ManifestPath(other) + "/", path);
  }

  lemma NotPutAsManifest(tree: Tree, id: string, files: seq<PutFile>, manifest: Base64.Bytes, other: string)
    requires Contents(files) && other != id && ManifestPath(other) !in tree
    ensures ManifestPath(other) !in PutTree(tree, id, files, manifest)
  {
    DifferentManifests(id, other);
    PutTreeAt(tree, id, files, manifest, ManifestPath(other));
    if Holds(files, id, ManifestPath(other)) { HeldIsNoManifest(id, files, ManifestPath(other), other); }
  }

  lemma NowListed(tree: Tree, id: string, files: seq<PutFile>, manifest: Base64.Bytes, file: PutFile, other: string)
    requires Contents(files) && file in files && PassesForAnother(id, file.path, other)
    ensures Listed(PutTree(tree, id, files, manifest), ManifestPath(other))
  {
    var i :| 0 <= i < |files| && files[i] == file;
    PutTreeFile(tree, id, files, manifest, i);
    assert AssetRepoPrefix(id) + file.path in PutTree(tree, id, files, manifest);
  }

  /**
   * After an accepted put, the next put or delete of the same asset is refused as overlapping exactly when
   * some stored path, its id included, goes through a directory called manifest.json of another plain id.
   */
  lemma UpdatableExactly(p: Platform, put: Request, tree: Tree, now: string)
    requires put.Put? && Contents(put.files) && put.files != [] && PlanFor(p, put, tree, false, now).Write?
    ensures Overlapped(AssetLaws.Landed(p, put, tree, now), put.id) <==>
            Blocked(put.id, put.files)
  {
    LandedIsPutTree(p, put, tree, now);
    OverlappedExactly(tree, put.id, put.files, p.write(NewManifest(p, put, ManifestAt(p, tree, put.id), now)));
  }

  lemma LandedIsPutTree(p: Platform, put: Request, tree: Tree, now: string)
    requires put.Put? && PlanFor(p, put, tree, false, now).Write?
    ensures !Overlapped(tree, put.id)
    ensures AssetLaws.Landed(p, put, tree, now) ==
            PutTree(tree, put.id, put.files, p.write(NewManifest(p, put, ManifestAt(p, tree, put.id), now)))
  {
  }

  lemma OverlappedExactly(tree: Tree, id: string, files: seq<PutFile>, manifest: Base64.Bytes)
    requires Contents(files) && files != [] && !Overlapped(tree, id)
    ensures Overlapped(PutTree(tree, id, files, manifest), id) <==>
            Blocked(id, files)
  {
    var t := PutTree(tree, id, files, manifest);
    if Overlapped(t, id) {
      var other: string :| Normal(other) && other != id && Nested(other, id) && Listed(t, ManifestPath(other));
      NewlyListed(tree, id, files, manifest, other);
    }
    if file: PutFile, other: string :| file in files && PassesForAnother(id, file.path, other) {
      NowListed(tree, id, files, manifest, file, other);
    }
  }

  // ----- An asset that locks itself -----

  /** A file below a directory called manifest.json, where that directory would be a plain id's manifest. */
  lemma NestedManifestBlocks(id: string, directory: string, rest: string)
    requires Normal(id + "/" + directory)
    ensures PassesForAnother(id, directory + "/" + ("manifest.json" + ("/" + rest)), id + "/" + directory)
  {
    var other, prefix, name := id + "/" + directory, AssetRepoPrefix(id), "manifest.json";
    var file := directory + "/" + (name + ("/" + rest));
    assert |other| > |id| && other[..|id| + 1] == id + "/";
    OtherManifest(id, directory);
    var slashed := prefix + directory + "/";
    Regroup(prefix, directory + "/", name + ("/" + rest));
    Regroup(prefix, directory, "/");
    Regroup(slashed, name, "/" + rest);
    Regroup(slashed + name, "/", rest);
    Prefixed(slashed + name + "/", rest);
  }

  lemma OtherManifest(id: string, directory: string)
    ensures ManifestPath(id + "/" + directory) == AssetRepoPrefix(id) + directory + "/" + "manifest.json"
  {
    assert "assets/" + (id + "/" + directory) + "/" == "assets/" + id + "/" + directory + "/";
  }

  lemma SegmentsNormalize(parts: seq<string>, maxLength: nat)
    requires 1 <= |parts| <= ASSET_MAX_DEPTH && Segments(parts) && |Join(parts, "/")| <= maxLength
    ensures NormalizeSegments(Join(parts, "/"), maxLength) == Some(Join(parts, "/"))
  {
    NormalizedExactly(Join(parts, "/"), maxLength, Join(parts, "/"));
  }

  lemma JoinTwo(a: string, b: string)
    ensures Join([a, b], "/") == a + "/" + b
  {
    assert [a, b][1..] == [b];
  }

  lemma JoinThree(a: string, b: string, c: string)
    ensures Join([a, b, c], "/") == a + "/" + (b + ("/" + c))
  {
    assert [a, b, c][1..] == [b, c];
    JoinTwo(b, c);
    Regroup(b, "/", c);
  }

  lemma FileNormalizes(path: string, name: string, extension: string)
    requires NormalizeSegments(path, ASSET_MAX_PATH_LENGTH) == Some(path) && AfterLast(path, '/') == name
    requires Lower(name) != "manifest.json" && Extension(name) == Some(extension) && extension in EXTENSIONS
    ensures NormalizeAssetFilePath(path) == Some(path)
  {
  }

  lemma PlainSegments()
    ensures Segment("a") && Segment("x")
    ensures Segment("manifest.json")
    ensures Segment("y.css")
  {
  }

  lemma DottedName(front: string, tail: string)
    requires front != "" && LacksChar(tail, '.') && Lower(tail) == tail
    ensures Extension(front + ['.'] + tail) == Some(tail)
  {
    AfterLastAppend(front, '.', tail);
    AfterLastWithout(tail, '.');
  }

  lemma CssIsLower()
    ensures Lower("css") == "css" && LacksChar("css", '.')
  {
    LowerCased("css");
  }

  lemma StyleSheet()
    ensures Extension("y.css") == Some("css")
  {
    CssIsLower();
    DottedName("y", "css");
    assert "y.css" == "y" + ['.'] + "css";
  }

  lemma ShortName(name: string)
    requires |name| < 13
    ensures Lower(name) != "manifest.json"
  {
    assert |Lower(name)| == |name|;
  }

  lemma NameAfter(front: string, name: string)
    requires Segment(name)
    ensures AfterLast(front + ['/'] + name, '/') == name
  {
    forall i | 0 <= i < |name| ensures name[i] != '/' { assert name[i] in name; }
    AfterLastAppend(front, '/', name);
    AfterLastWithout(name, '/');
  }

  lemma NameOf(a: string, b: string, name: string, path: string)
    requires Segment(name) && path == a + "/" + (b + ("/" + name))
    ensures AfterLast(path, '/') == name
  {
    Regroup(a + "/", b, "/" + name);
    Regroup(a + "/" + b, "/", name);
    NameAfter(a + "/" + b, name);
  }

  lemma PathNormalizes(a: string, b: string, name: string)
    requires Segment(a) && Segment(b) && Segment(name) && |a| + |b| + |name| < 400
    ensures var path := a + "/" + (b + ("/" + name)); NormalizeSegments(path, ASSET_MAX_PATH_LENGTH) == Some(path)
  {
    JoinThree(a, b, name);
    SegmentsNormalize([a, b, name], ASSET_MAX_PATH_LENGTH);
  }

  lemma CssIsAllowed()
    ensures "css" in EXTENSIONS
  {
  }

  function SelfLocking(): string { "x" + "/" + ("manifest.json" + ("/" + "y.css")) }

  lemma SelfLockingIsAllowed()
    ensures NormalizeAssetFilePath(SelfLocking()) == Some(SelfLocking())
  {
    PlainSegments();
    StyleSheet();
    ShortName("y.css");
    CssIsAllowed();
    PathNormalizes("x", "manifest.json", "y.css");
    NameOf("x", "manifest.json", "y.css", SelfLocking());
    FileNormalizes(SelfLocking(), "y.css", "css");
  }

  lemma ShortIdsAreNormal()
    ensures Normal("a") && Normal("a" + "/" + "x")
  {
    PlainSegments();
    assert Join(["a"], "/") == "a";
    SegmentsNormalize(["a"], ASSET_MAX_ID_LENGTH);
    JoinTwo("a", "x");
    SegmentsNormalize(["a", "x"], ASSET_MAX_ID_LENGTH);
  }

  /** The put of one file under a directory called manifest.json, into an empty library. */
  function LockingPut(description: Option<string>, bytes: Base64.Bytes, writer: Writer): Request {
    Put("a", description, [PutFile(SelfLocking(), bytes)], writer)
  }

  lemma EmptyLibraryAccepts(p: Platform, put: Request, now: string)
    requires put.Put?
    ensures PlanFor(p, put, map[], false, now).Write?
  {
    assert !Overlapped(map[], put.id);
  }

  lemma LockingPutAccepted(p: Platform, put: Request, file: PutFile, now: string)
    requires put.Put? && put.id == "a" && put.files == [file] && p.isDate(now)
    requires NormalizeAssetFilePath(file.path) == Some(file.path) && |file.bytes| <= ASSET_MAX_BYTES
    requires put.description.Some? ==> |put.description.value| <= MAX_DESCRIPTION
    ensures Admissible(p, put, now) && Contents(put.files) && PlanFor(p, put, map[], false, now).Write?
  {
    OneFilePuttable(file);
    EmptyLibraryAccepts(p, put, now);
  }

  lemma OneOnly<T>(x: T, good: T -> bool)
    requires good(x)
    ensures forall y <- [x] :: good(y)
  {
  }

  lemma OneIsDistinct(file: PutFile)
    ensures Distinct([file]) && TotalBytes([file]) == |file.bytes|
  {
    assert [file][1..] == [] && TotalBytes([]) == 0;
  }

  lemma AreContents(files: seq<PutFile>)
    requires Distinct(files) && forall file <- files :: NormalizeAssetFilePath(file.path) == Some(file.path)
    ensures Contents(files)
  {
  }

  lemma ArePuttable(files: seq<PutFile>)
    requires Contents(files) && 0 < |files| <= ASSET_MAX_FILES && TotalBytes(files) <= ASSET_MAX_BYTES
    ensures Puttable(files)
  {
  }

  lemma OneFilePuttable(file: PutFile)
    requires NormalizeAssetFilePath(file.path) == Some(file.path) && |file.bytes| <= ASSET_MAX_BYTES
    ensures Puttable([file]) && Contents([file])
  {
    OneIsDistinct(file);
    OneOnly(file, (f: PutFile) => NormalizeAssetFilePath(f.path) == Some(f.path));
    AreContents([file]);
    ArePuttable([file]);
  }

  /** That put is accepted, and every later put or delete of the same asset is refused as overlapping. */
  lemma PutLocksItself(p: Platform, description: Option<string>, bytes: Base64.Bytes, writer: Writer, now: string,
      again: Request, later: string)
    requires p.isDate(now) && |bytes| <= ASSET_MAX_BYTES &&
             (description.Some? ==> |description.value| <= MAX_DESCRIPTION)
    requires again.id == "a"
    ensures var put := LockingPut(description, bytes, writer);
            Normal(put.id) && Admissible(p, put, now) && PlanFor(p, put, map[], false, now).Write? &&
            PlanFor(p, again, AssetLaws.Landed(p, put, map[], now), false, later) == Refuse(Overlap)
  {
    var put := LockingPut(description, bytes, writer);
    SelfLockingIsAllowed();
    LockingPutAccepted(p, put, put.files[0], now);
    ShortIdsAreNormal();
    NestedManifestBlocks("a", "x", "y.css");
    assert put.files[0] in put.files;
    assert Blocked("a", put.files);
    UpdatableExactly(p, put, map[], now);
  }
}
