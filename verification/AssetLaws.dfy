/**
 * What one write does to the library: the asset put is the asset got, other assets keep what they hold,
 * and content never passes for a manifest.
 */
module AssetLaws {
  import opened Prelude
  import opened Text
  import opened AssetPolicy
  import opened Base64
  import opened AssetStore
  import opened AssetOps

  // ----- Paths -----

  lemma {:induction false} AfterLastAppend(a: string, slash: char, b: string)
    ensures AfterLast(a + [slash] + b, slash) == AfterLast(b, slash)
    decreases |b|
  {
    var s := a + [slash] + b;
    if b != "" {
      assert s[..|s| - 1] == a + [slash] + b[..|b| - 1];
      AfterLastAppend(a, slash, b[..|b| - 1]);
    }
  }

  lemma {:induction false} AfterLastWithout(s: string, c: char)
    requires LacksChar(s, c)
    ensures AfterLast(s, c) == s
    decreases |s|
  {
    if s != "" {
      AfterLastWithout(s[..|s| - 1], c);
      assert s == s[..|s| - 1] + [s[|s| - 1]];
    }
  }

  lemma LowerCased(s: string)
    requires forall i :: 0 <= i < |s| ==> LowerChar(s[i]) == s[i]
    ensures Lower(s) == s
  {
  }

  lemma ManifestNameIsLower(name: string)
    requires Lower(name) != "manifest.json"
    ensures name != "manifest.json"
  {
    if forall i :: 0 <= i < |name| ==> LowerChar(name[i]) == name[i] { LowerCased(name); }
  }

  lemma ContentNameDiffers(file: string)
    requires NormalizeAssetFilePath(file) == Some(file)
    ensures Lower(AfterLast(file, '/')) != "manifest.json"
  {
  }

  lemma ContentName(file: string)
    requires NormalizeAssetFilePath(file) == Some(file)
    ensures AfterLast(file, '/') != "manifest.json"
  {
    ContentNameDiffers(file);
    ManifestNameIsLower(AfterLast(file, '/'));
  }

  /** A stored file never lies where an asset's manifest would. */
  lemma ContentIsNoManifest(id: string, file: string, other: string)
    requires NormalizeAssetFilePath(file) == Some(file)
    ensures AssetRepoPrefix(id) + file != ManifestPath(other)
  {
    ContentName(file);
    NoManifestAt(id, file, other);
  }

  lemma ManifestNameIsFlat()
    ensures LacksChar("manifest.json", '/')
  {
  }

  lemma NoManifestAt(id: string, file: string, other: string)
    requires AfterLast(file, '/') != "manifest.json"
    ensures AssetRepoPrefix(id) + file != ManifestPath(other)
  {
    ManifestNameIsFlat();
    SameNames(id, file, other, "manifest.json");
  }

  lemma SameNames(id: string, file: string, other: string, name: string)
    requires LacksChar(name, '/') && AfterLast(file, '/') != name
    ensures AssetRepoPrefix(id) + file != AssetRepoPrefix(other) + name
  {
    AfterLastAppend("assets/" + id, '/', file);
    AfterLastAppend("assets/" + other, '/', name);
    AfterLastWithout(name, '/');
    assert "assets/" + id + ['/'] + file == AssetRepoPrefix(id) + file;
    assert "assets/" + other + ['/'] + name == AssetRepoPrefix(other) + name;
  }

  lemma PrefixRest(id: string, path: string)
    requires AssetRepoPrefix(id) <= path
    ensures |path| >= 7 && id + "/" <= path[7..]
  {
    var prefix := AssetRepoPrefix(id);
    assert prefix[7..] == id + "/";
    assert path[7..|prefix|] == prefix[7..];
  }

  lemma SlashedNests(a: string, b: string, rest: string)
    requires a + "/" <= rest && b + "/" <= rest && a != b && |a| <= |b|
    ensures a + "/" <= b
  {
    var x, y := a + "/", b + "/";
    assert x == y[..|x|];
    assert x[..|a|] == a && y[..|b|] == b;
    assert |a| != |b|;
    assert y[..|x|] == b[..|x|];
  }

  /** Two asset directories share a path only if one lies in the other. */
  lemma SharedPathNests(a: string, b: string, path: string)
    requires AssetRepoPrefix(a) <= path && AssetRepoPrefix(b) <= path && a != b
    ensures Nested(a, b)
  {
    PrefixRest(a, path);
    PrefixRest(b, path);
    if |a| <= |b| { SlashedNests(a, b, path[7..]); } else { SlashedNests(b, a, path[7..]); }
  }

  // ----- The tree a put leaves -----

  predicate Holds(files: seq<PutFile>, id: string, path: string) {
    exists file <- files :: AssetRepoPrefix(id) + file.path == path
  }

  lemma {:induction false} WrittenPaths(changes: Changes, id: string, files: seq<PutFile>, path: string)
    ensures path in WriteFiles(changes, id, files) <==> path in changes || Holds(files, id, path)
    ensures path in changes && !Holds(files, id, path) ==> WriteFiles(changes, id, files)[path] == changes[path]
    decreases |files|
  {
    if files != [] {
      var front, last := files[..|files| - 1], files[|files| - 1];
      WrittenPaths(changes, id, front, path);
      assert files == front + [last];
      assert Holds(files, id, path) <==> Holds(front, id, path) || AssetRepoPrefix(id) + last.path == path;
    }
  }

  lemma {:induction false} WrittenBytes(changes: Changes, id: string, files: seq<PutFile>, i: nat)
    requires i < |files| && Distinct(files)
    ensures var path := AssetRepoPrefix(id) + files[i].path;
            path in WriteFiles(changes, id, files) && WriteFiles(changes, id, files)[path] == Some(files[i].bytes)
    decreases |files|
  {
    var front, last := files[..|files| - 1], files[|files| - 1];
    if i < |files| - 1 {
      WrittenBytes(changes, id, front, i);
      var prefix := AssetRepoPrefix(id);
      assert (prefix + files[i].path)[|prefix|..] == files[i].path && (prefix + last.path)[|prefix|..] == last.path;
    }
  }

  function PutTree(tree: Tree, id: string, files: seq<PutFile>, manifest: Bytes): Tree {
    CommitTo(tree, PutChanges(tree, id, files, manifest))
  }

  predicate Contents(files: seq<PutFile>) {
    Distinct(files) && forall file <- files :: NormalizeAssetFilePath(file.path) == Some(file.path)
  }

  /** Outside the asset's directory nothing moves; inside there is the manifest, and the content. */
  lemma PutTreeAt(tree: Tree, id: string, files: seq<PutFile>, manifest: Bytes, path: string)
    ensures var t := PutTree(tree, id, files, manifest);
            if path == ManifestPath(id) then path in t && t[path] == Entry(true, manifest)
            else if AssetRepoPrefix(id) <= path then path in t <==> Holds(files, id, path)
            else (path in t <==> path in tree) && (path in t ==> t[path] == tree[path])
  {
    WrittenPaths(Removed(tree, id), id, files, path);
    if Holds(files, id, path) && path != ManifestPath(id) { WrittenAreKept(tree, id, files, manifest, path); }
  }

  lemma WrittenAreKept(tree: Tree, id: string, files: seq<PutFile>, manifest: Bytes, path: string)
    requires Holds(files, id, path) && path != ManifestPath(id)
    ensures AssetRepoPrefix(id) <= path && path in PutTree(tree, id, files, manifest)
  {
    WrittenPaths(Removed(tree, id), id, files, path);
    WrittenSome(Removed(tree, id), id, files, path);
  }

  lemma {:induction false} WrittenSome(changes: Changes, id: string, files: seq<PutFile>, path: string)
    requires Holds(files, id, path)
    ensures path in WriteFiles(changes, id, files) && WriteFiles(changes, id, files)[path].Some?
    decreases |files|
  {
    var front, last := files[..|files| - 1], files[|files| - 1];
    assert files == front + [last];
    if AssetRepoPrefix(id) + last.path != path { WrittenSome(changes, id, front, path); }
  }

  lemma PutTreeBytes(tree: Tree, id: string, files: seq<PutFile>, manifest: Bytes, i: nat)
    requires Distinct(files) && i < |files| && AssetRepoPrefix(id) + files[i].path != ManifestPath(id)
    ensures var path := AssetRepoPrefix(id) + files[i].path;
            path in PutTree(tree, id, files, manifest) &&
            PutTree(tree, id, files, manifest)[path] == Entry(true, files[i].bytes)
  {
    WrittenBytes(Removed(tree, id), id, files, i);
  }

  lemma PutTreeFile(tree: Tree, id: string, files: seq<PutFile>, manifest: Bytes, i: nat)
    requires Contents(files) && i < |files|
    ensures var path := AssetRepoPrefix(id) + files[i].path;
            path != ManifestPath(id) && path in PutTree(tree, id, files, manifest) &&
            PutTree(tree, id, files, manifest)[path] == Entry(true, files[i].bytes)
  {
    assert NormalizeAssetFilePath(files[i].path) == Some(files[i].path);
    ContentIsNoManifest(id, files[i].path, id);
    PutTreeBytes(tree, id, files, manifest, i);
  }

  lemma LastIsNew(id: string, files: seq<PutFile>)
    requires files != [] && Distinct(files)
    ensures !Holds(files[..|files| - 1], id, AssetRepoPrefix(id) + files[|files| - 1].path)
  {
    var front, last := files[..|files| - 1], files[|files| - 1];
    var prefix := AssetRepoPrefix(id);
    assert (prefix + last.path)[|prefix|..] == last.path;
    forall i | 0 <= i < |front| ensures prefix + front[i].path != prefix + last.path {
      assert (prefix + front[i].path)[|prefix|..] == files[i].path;
    }
  }

  function FilePaths(id: string, files: seq<PutFile>): set<string> {
    if files == [] then {} else FilePaths(id, files[..|files| - 1]) + {AssetRepoPrefix(id) + files[|files| - 1].path}
  }

  lemma {:induction false} FilePathsHold(id: string, files: seq<PutFile>, path: string)
    ensures path in FilePaths(id, files) <==> Holds(files, id, path)
    decreases |files|
  {
    if files != [] {
      FilePathsHold(id, files[..|files| - 1], path);
      assert files == files[..|files| - 1] + [files[|files| - 1]];
    }
  }

  lemma {:induction false} DistinctCount(id: string, files: seq<PutFile>)
    requires Distinct(files)
    ensures |FilePaths(id, files)| == |files|
    decreases |files|
  {
    if files != [] {
      var front := files[..|files| - 1];
      LastIsNew(id, files);
      FilePathsHold(id, front, AssetRepoPrefix(id) + files[|files| - 1].path);
      DistinctCount(id, front);
    }
  }

  // ----- Get after put -----

  lemma HeldIsNoManifest(id: string, files: seq<PutFile>, path: string, other: string)
    requires Contents(files) && Holds(files, id, path)
    ensures path != ManifestPath(other)
  {
    var file :| file in files && AssetRepoPrefix(id) + file.path == path;
    ContentIsNoManifest(id, file.path, other);
  }

  lemma PutContentsAt(tree: Tree, id: string, files: seq<PutFile>, manifest: Bytes, path: string)
    requires Holds(files, id, path) ==> path != ManifestPath(id)
    ensures path in AssetPaths(PutTree(tree, id, files, manifest), id) - {ManifestPath(id)} <==>
            path in FilePaths(id, files)
  {
    PutTreeAt(tree, id, files, manifest, path);
    FilePathsHold(id, files, path);
  }

  lemma PutContents(tree: Tree, id: string, files: seq<PutFile>, manifest: Bytes)
    requires Contents(files)
    ensures AssetPaths(PutTree(tree, id, files, manifest), id) - {ManifestPath(id)} == FilePaths(id, files)
  {
    forall path
      ensures path in AssetPaths(PutTree(tree, id, files, manifest), id) - {ManifestPath(id)} <==>
              path in FilePaths(id, files)
    {
      if Holds(files, id, path) { HeldIsNoManifest(id, files, path, id); }
      PutContentsAt(tree, id, files, manifest, path);
    }
  }

  lemma WireKeepsBytes(p: Platform, path: string, bytes: Bytes)
    ensures Unwire(p, Wire(p, path, bytes)) == Some(bytes)
  {
    DecodesExactlyEncodings(Encode(bytes), bytes);
  }

  /** What a client makes of a wire file. */
  function Unwire(p: Platform, w: WireFile): Option<Bytes> {
    if w.base64 then DecodeBase64(w.content) else Some(p.utf8(w.content))
  }

  /** The wire files stand for exactly these files, in order. */
  predicate Carries(p: Platform, wires: seq<WireFile>, files: seq<PutFile>) {
    |wires| == |files| &&
    forall i :: 0 <= i < |files| ==> wires[i].path == files[i].path && Unwire(p, wires[i]) == Some(files[i].bytes)
  }

  predicate Stored(tree: Tree, id: string, files: seq<PutFile>) {
    forall file <- files ::
        (var path := AssetRepoPrefix(id) + file.path; path in tree && tree[path] == Entry(true, file.bytes))
  }

  lemma CarriesMore(p: Platform, wire: WireFile, wires: seq<WireFile>, files: seq<PutFile>)
    requires files != [] && wire.path == files[0].path && Unwire(p, wire) == Some(files[0].bytes) &&
             Carries(p, wires, files[1..])
    ensures Carries(p, [wire] + wires, files)
  {
    var all := [wire] + wires;
    forall i | 1 <= i < |files| ensures all[i].path == files[i].path && Unwire(p, all[i]) == Some(files[i].bytes) {
      assert all[i] == wires[i - 1] && files[i] == files[1..][i - 1];
    }
  }

  /** A wire form the bytes can be had back from. */
  ghost predicate Faithful(p: Platform, wire: (string, Bytes) -> WireFile) {
    forall path: string, bytes: Bytes :: wire(path, bytes).path == path && Unwire(p, wire(path, bytes)) == Some(bytes)
  }

  lemma {:induction false} StoredFilesRead(p: Platform, wire: (string, Bytes) -> WireFile, tree: Tree, id: string,
      files: seq<PutFile>)
    requires Faithful(p, wire) && Stored(tree, id, files)
    ensures var r := ReadFiles(p, wire, tree, id, Described(p, files)); r.Ok? && Carries(p, r.value, files)
    decreases |files|
  {
    if files != [] {
      assert files[0] in files;
      var rest := files[1..];
      assert Described(p, files)[1..] == Described(p, rest);
      StoredFilesRead(p, wire, tree, id, rest);
      CarriesMore(p, wire(files[0].path, files[0].bytes), ReadFiles(p, wire, tree, id, Described(p, rest)).value,
          files);
    }
  }

  lemma WireIsFaithful(p: Platform)
    ensures Faithful(p, (path, bytes) => Wire(p, path, bytes))
  {
    forall path: string, bytes: Bytes { WireKeepsBytes(p, path, bytes); }
  }

  lemma {:induction false} DescribedTotal(p: Platform, files: seq<PutFile>)
    ensures TotalSize(Described(p, files)) == TotalBytes(files)
    decreases |files|
  {
    if files != [] {
      var front, last := files[..|files| - 1], files[|files| - 1];
      assert Described(p, files)[..|files| - 1] == Described(p, front);
      DescribedTotal(p, front);
      TotalAppend(front, [last]);
      assert files == front + [last];
    }
  }

  lemma {:induction false} EachWithinTotal(files: seq<PutFile>, i: nat)
    requires i < |files|
    ensures |files[i].bytes| <= TotalBytes(files)
    decreases |files|
  {
    if i > 0 { EachWithinTotal(files[1..], i - 1); }
  }

  lemma DescribedFits(p: Platform, files: seq<PutFile>, i: nat)
    requires Lawful(p) && i < |files| && TotalBytes(files) <= ASSET_MAX_BYTES
    requires NormalizeAssetFilePath(files[i].path) == Some(files[i].path)
    ensures FileFits(Described(p, files)[i])
  {
    EachWithinTotal(files, i);
  }

  lemma DescribedAllFit(p: Platform, files: seq<PutFile>)
    requires Lawful(p) && Puttable(files)
    ensures FilesFit(FileFits, Described(p, files))
  {
    DescribedTotal(p, files);
    forall i | 0 <= i < |files| ensures FileFits(Described(p, files)[i]) {
      assert NormalizeAssetFilePath(files[i].path) == Some(files[i].path);
      DescribedFits(p, files, i);
    }
  }

  /** What the route checks before a put, and a clock that tells dates. */
  predicate Admissible(p: Platform, put: Request, now: string) {
    put.Put? && Puttable(put.files) && (put.description.Some? ==> |put.description.value| <= MAX_DESCRIPTION) &&
    p.isDate(now)
  }

  lemma NewManifestReads(p: Platform, put: Request, tree: Tree, now: string)
    requires Lawful(p) && Admissible(p, put, now)
    ensures var m := NewManifest(p, put, ManifestAt(p, tree, put.id), now);
            ParsedManifest(p, p.write(m), put.id) == Some(m)
  {
    DescribedAllFit(p, put.files);
  }

  lemma PutIsSafe(tree: Tree, id: string, files: seq<PutFile>, manifest: Bytes, path: string)
    requires Contents(files) && path in FilePaths(id, files)
    ensures AssetRepoPrefix(id) <= path && path in PutTree(tree, id, files, manifest)
    ensures SafeContent(PutTree(tree, id, files, manifest), id, path)
  {
    FilePathsHold(id, files, path);
    var i :| 0 <= i < |files| && AssetRepoPrefix(id) + files[i].path == path;
    PutTreeFile(tree, id, files, manifest, i);
    assert path[|AssetRepoPrefix(id)|..] == files[i].path;
    assert NormalizeAssetFilePath(files[i].path) == Some(files[i].path);
  }

  lemma PutIsStored(tree: Tree, id: string, files: seq<PutFile>, manifest: Bytes)
    requires Contents(files)
    ensures Stored(PutTree(tree, id, files, manifest), id, files)
    ensures forall file <- files :: AssetRepoPrefix(id) + file.path in FilePaths(id, files)
  {
    forall i | 0 <= i < |files|
      ensures var path := AssetRepoPrefix(id) + files[i].path;
              path in FilePaths(id, files) && path in PutTree(tree, id, files, manifest) &&
              PutTree(tree, id, files, manifest)[path] == Entry(true, files[i].bytes)
    {
      PutTreeFile(tree, id, files, manifest, i);
      FilePathsHold(id, files, AssetRepoPrefix(id) + files[i].path);
    }
  }

  lemma FetchedInStep(p: Platform, t: Tree, m: Manifest, contents: set<string>)
    requires ManifestAt(p, t, m.id) == Some(m) && contents == AssetPaths(t, m.id) - {ManifestPath(m.id)}
    requires AllSafe(t, m.id, contents) && InStep(m.id, contents, m.files)
    requires ReadFiles(p, (path, bytes) => Wire(p, path, bytes), t, m.id, m.files).Ok?
    ensures Fetched(p, t, m.id) ==
            Ok(Got(m, ReadFiles(p, (path, bytes) => Wire(p, path, bytes), t, m.id, m.files).value))
  {
  }

  lemma FetchedFromStored(p: Platform, t: Tree, m: Manifest, files: seq<PutFile>)
    requires ManifestAt(p, t, m.id) == Some(m) && m.files == Described(p, files) && Stored(t, m.id, files) &&
             Distinct(files)
    requires AssetPaths(t, m.id) - {ManifestPath(m.id)} == FilePaths(m.id, files)
    requires forall path <- FilePaths(m.id, files) ::
             AssetRepoPrefix(m.id) <= path && path in t && SafeContent(t, m.id, path)
    requires forall file <- files :: AssetRepoPrefix(m.id) + file.path in FilePaths(m.id, files)
    ensures var got := Fetched(p, t, m.id); got.Ok? && got.value.asset == m && Carries(p, got.value.files, files)
  {
    DistinctCount(m.id, files);
    WireIsFaithful(p);
    StoredFilesRead(p, (path, bytes) => Wire(p, path, bytes), t, m.id, files);
    forall i | 0 <= i < |m.files| ensures AssetRepoPrefix(m.id) + m.files[i].path in FilePaths(m.id, files) {
      assert files[i] in files;
    }
    FetchedInStep(p, t, m, FilePaths(m.id, files));
  }

  /**
   * Get after put: on any tree, an accepted put makes `get` return exactly the files put, whatever their
   * bytes, under a manifest that keeps the first creation date, exactly if the manifest stays within the
   * size `get` reads or is listed without one; otherwise the put made the asset unreadable.
   */
  lemma GetAfterPut(p: Platform, put: Request, tree: Tree, truncated: bool, now: string)
    requires Lawful(p) && Admissible(p, put, now) && PlanFor(p, put, tree, truncated, now).Write?
    ensures var plan := PlanFor(p, put, tree, truncated, now);
            var got := Fetched(p, CommitTo(tree, plan.changes), put.id);
            plan.asset.Some? && plan.asset.value == NewManifest(p, put, ManifestAt(p, tree, put.id), now) &&
            (got.Ok? <==> WithinLimit(p, put.id, p.write(plan.asset.value))) &&
            (if got.Ok? then got.value.asset == plan.asset.value && Carries(p, got.value.files, put.files)
             else got == Err(NoAsset))
  {
    var m := NewManifest(p, put, ManifestAt(p, tree, put.id), now);
    PutPlan(p, put, tree, truncated, now);
    if WithinLimit(p, put.id, p.write(m)) {
      PutFetches(p, put, tree, m, now);
    } else {
      OversizedIsUnread(p, put.id, put.files, tree, p.write(m));
    }
  }

  lemma PutPlan(p: Platform, put: Request, tree: Tree, truncated: bool, now: string)
    requires put.Put? && PlanFor(p, put, tree, truncated, now).Write?
    ensures var m := NewManifest(p, put, ManifestAt(p, tree, put.id), now);
            var plan := PlanFor(p, put, tree, truncated, now);
            plan.asset == Some(m) && CommitTo(tree, plan.changes) == PutTree(tree, put.id, put.files, p.write(m))
  {
  }

  lemma OversizedIsUnread(p: Platform, id: string, files: seq<PutFile>, tree: Tree, manifest: Bytes)
    requires !WithinLimit(p, id, manifest)
    ensures Fetched(p, PutTree(tree, id, files, manifest), id) == Err(NoAsset)
  {
    PutTreeAt(tree, id, files, manifest, ManifestPath(id));
  }

  lemma PutFetches(p: Platform, put: Request, tree: Tree, m: Manifest, now: string)
    requires Lawful(p) && Admissible(p, put, now) && m == NewManifest(p, put, ManifestAt(p, tree, put.id), now)
    requires WithinLimit(p, put.id, p.write(m))
    ensures var got := Fetched(p, PutTree(tree, put.id, put.files, p.write(m)), put.id);
            got.Ok? && got.value.asset == m && Carries(p, got.value.files, put.files)
  {
    var t := PutTree(tree, put.id, put.files, p.write(m));
    NewManifestReads(p, put, tree, now);
    PutTreeAt(tree, put.id, put.files, p.write(m), ManifestPath(put.id));
    PutContents(tree, put.id, put.files, p.write(m));
    PutIsStored(tree, put.id, put.files, p.write(m));
    forall path <- FilePaths(put.id, put.files)
      ensures AssetRepoPrefix(put.id) <= path && path in t && SafeContent(t, put.id, path)
    {
      PutIsSafe(tree, put.id, put.files, p.write(m), path);
    }
    FetchedFromStored(p, t, m, put.files);
  }

  // ----- Other assets -----

  /** The trees hold the same entries under a prefix. */
  ghost predicate Agree(a: Tree, b: Tree, prefix: string) {
    forall path: string | prefix <= path :: (path in a <==> path in b) && (path in a ==> a[path] == b[path])
  }

  lemma {:induction false} ReadFilesFrame(p: Platform, wire: (string, Bytes) -> WireFile, a: Tree, b: Tree,
      id: string, files: seq<ManifestFile>)
    requires Agree(a, b, AssetRepoPrefix(id))
    ensures ReadFiles(p, wire, a, id, files) == ReadFiles(p, wire, b, id, files)
    decreases |files|
  {
    if files != [] {
      var path := AssetRepoPrefix(id) + files[0].path;
      assert AssetRepoPrefix(id) <= path;
      ReadFilesFrame(p, wire, a, b, id, files[1..]);
    }
  }

  /** What an asset holds depends on its own directory alone. */
  lemma FetchedFrame(p: Platform, a: Tree, b: Tree, id: string)
    requires Agree(a, b, AssetRepoPrefix(id))
    ensures ManifestAt(p, a, id) == ManifestAt(p, b, id) && Fetched(p, a, id) == Fetched(p, b, id)
  {
    assert AssetRepoPrefix(id) <= ManifestPath(id);
    assert ManifestAt(p, a, id) == ManifestAt(p, b, id);
    if ManifestAt(p, a, id).Some? {
      assert AssetPaths(a, id) == AssetPaths(b, id);
      var contents := AssetPaths(a, id) - {ManifestPath(id)};
      SafeFrame(a, b, id, contents);
      ReadFilesFrame(p, (path, bytes) => Wire(p, path, bytes), a, b, id, ManifestAt(p, a, id).value.files);
    }
  }

  lemma SafeFrame(a: Tree, b: Tree, id: string, contents: set<string>)
    requires Agree(a, b, AssetRepoPrefix(id)) && contents <= AssetPaths(a, id) && contents <= AssetPaths(b, id)
    ensures AllSafe(a, id, contents) == AllSafe(b, id, contents)
  {
    forall path <- contents ensures SafeContent(a, id, path) == SafeContent(b, id, path) {}
  }

  /** The tree an accepted request leaves. */
  ghost function Landed(p: Platform, request: Request, tree: Tree, now: string): Tree
    requires PlanFor(p, request, tree, false, now).Write?
  {
    CommitTo(tree, PlanFor(p, request, tree, false, now).changes)
  }

  /** A put or delete changes nothing outside its own directory. */
  lemma OnlyOwnDirectory(p: Platform, request: Request, tree: Tree, now: string, path: string)
    requires PlanFor(p, request, tree, false, now).Write? && !(AssetRepoPrefix(request.id) <= path)
    ensures var t := Landed(p, request, tree, now);
            (path in t <==> path in tree) && (path in t ==> t[path] == tree[path])
  {
    if request.Put? {
      var m := NewManifest(p, request, ManifestAt(p, tree, request.id), now);
      PutTreeAt(tree, request.id, request.files, p.write(m), path);
    }
  }

  /** Nothing a request writes is another asset's manifest, and what it removes never brings one back. */
  lemma NoNewManifest(p: Platform, request: Request, tree: Tree, now: string, other: string)
    requires PlanFor(p, request, tree, false, now).Write? && (request.Put? ==> Contents(request.files))
    requires other != request.id && ManifestPath(other) in Landed(p, request, tree, now)
    ensures ManifestPath(other) in tree
  {
    if request.Put? {
      var path := ManifestPath(other);
      var m := NewManifest(p, request, ManifestAt(p, tree, request.id), now);
      DifferentManifests(request.id, other);
      PutTreeAt(tree, request.id, request.files, p.write(m), path);
      if Holds(request.files, request.id, path) { HeldIsNoManifest(request.id, request.files, path, other); }
    }
  }

  lemma DifferentManifests(a: string, b: string)
    requires a != b
    ensures ManifestPath(a) != ManifestPath(b)
  {
    if |a| == |b| {
      assert ManifestPath(a)[7..7 + |a|] == a && ManifestPath(b)[7..7 + |b|] == b;
    }
  }

  /** Whatever lands for one asset, every other asset holds what it held. */
  lemma OtherAssetsKept(p: Platform, request: Request, tree: Tree, now: string, other: string)
    requires PlanFor(p, request, tree, false, now).Write? && (request.Put? ==> Contents(request.files))
    requires Normal(other) && other != request.id
    ensures var t := Landed(p, request, tree, now);
            ManifestAt(p, t, other) == ManifestAt(p, tree, other) && Fetched(p, t, other) == Fetched(p, tree, other)
  {
    var t := Landed(p, request, tree, now);
    if Nested(other, request.id) {
      if ManifestPath(other) in t { NoNewManifest(p, request, tree, now, other); }
      assert ManifestPath(other) in tree ==> Listed(tree, ManifestPath(other));
    } else {
      forall path: string | AssetRepoPrefix(other) <= path
        ensures (path in t <==> path in tree) && (path in t ==> t[path] == tree[path])
      {
        if AssetRepoPrefix(request.id) <= path { SharedPathNests(other, request.id, path); }
        OnlyOwnDirectory(p, request, tree, now, path);
      }
      FetchedFrame(p, t, tree, other);
    }
  }
}
