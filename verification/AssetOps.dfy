/** Getting, putting and deleting one asset on a snapshot of the repository (app/assets/store.server.ts). */
module AssetOps {
  import opened Prelude
  import opened Text
  import opened AssetPolicy
  import opened Base64
  import opened AssetStore

  const MANIFEST_SUFFIX := "/manifest.json"
  const MAX_COMMIT_ATTEMPTS := 3

  function ManifestPath(id: string): string { AssetRepoPrefix(id) + "manifest.json" }

  predicate Normal(id: string) { NormalizeAssetId(id) == Some(id) }

  /** One id is a directory above the other. */
  predicate Nested(a: string, b: string) { a + "/" <= b || b + "/" <= a }

  // ----- Overlapping ids -----

  /** `slice("assets/".length, -suffix.length)`, which is empty when the two ends meet. */
  function SliceId(path: string): string {
    if |path| < 21 then "" else path[7..|path| - 14]
  }

  predicate Overlaps(id: string, path: string) {
    "assets/" <= path && EndsWith(path, MANIFEST_SUFFIX) &&
    (var other := SliceId(path); other != id && Nested(other, id) && Normal(other))
  }

  /** Some other asset's directory contains this one or lies in it; a directory called manifest.json counts. */
  ghost predicate Overlapped(tree: Tree, id: string) {
    exists other: string :: Normal(other) && other != id && Nested(other, id) && Listed(tree, ManifestPath(other))
  }

  lemma SlicedPath(path: string, other: string)
    requires other != ""
    ensures "assets/" <= path && EndsWith(path, MANIFEST_SUFFIX) && SliceId(path) == other <==>
            path == ManifestPath(other)
  {
    var whole := "assets/" + other + MANIFEST_SUFFIX;
    assert whole == ManifestPath(other) by {
      assert MANIFEST_SUFFIX == "/" + "manifest.json";
      assert whole == "assets/" + other + "/" + "manifest.json";
    }
    assert whole[..7] == "assets/" && whole[7..|whole| - 14] == other && whole[|whole| - 14..] == MANIFEST_SUFFIX;
    if "assets/" <= path && EndsWith(path, MANIFEST_SUFFIX) && SliceId(path) == other {
      assert path == path[..7] + path[7..|path| - 14] + path[|path| - 14..];
    }
  }

  method FirstMatch(matches: string -> bool, listing: seq<string>) returns (r: Option<string>)
    ensures r.Some? ==> r.value in listing && matches(r.value)
    ensures r.None? ==> forall path <- listing :: !matches(path)
  {
    for i := 0 to |listing|
      invariant forall k :: 0 <= k < i ==> !matches(listing[k])
    {
      if matches(listing[i]) { return Some(listing[i]); }
    }
    return None;
  }

  method OverlappingAssetId(ghost tree: Tree, listing: seq<string>, id: string) returns (r: Option<string>)
    requires Lists(listing, tree)
    ensures r.Some? <==> Overlapped(tree, id)
    ensures r.Some? ==> Normal(r.value) && r.value != id && Nested(r.value, id) && Listed(tree, ManifestPath(r.value))
  {
    var found := FirstMatch(path => Overlaps(id, path), listing);
    if found.Some? {
      SlicedPath(found.value, SliceId(found.value));
      return Some(SliceId(found.value));
    }
    forall other: string | Normal(other) && other != id && Nested(other, id)
      ensures !Listed(tree, ManifestPath(other))
    {
      SlicedPath(ManifestPath(other), other);
      assert Overlaps(id, ManifestPath(other));
    }
    return None;
  }

  // ----- One asset in a tree -----

  function AssetPaths(tree: Tree, id: string): set<string> {
    set path | path in tree && AssetRepoPrefix(id) <= path
  }

  /** The size limit on manifests applies only where the listing gives a size. */
  predicate WithinLimit(p: Platform, id: string, manifest: Bytes) {
    p.sized(ManifestPath(id), manifest) ==> |manifest| <= MAX_MANIFEST_BYTES
  }

  function ManifestAt(p: Platform, tree: Tree, id: string): Option<Manifest> {
    var path := ManifestPath(id);
    if path in tree && tree[path].regular && WithinLimit(p, id, tree[path].bytes)
    then ParsedManifest(p, tree[path].bytes, id) else None
  }

  function Wire(p: Platform, path: string, bytes: Bytes): WireFile {
    if IsTextAssetPath(path) && p.utf8(p.text(bytes)) == bytes
    then WireFile(path, p.text(bytes), false) else WireFile(path, Encode(bytes), true)
  }

  function ReadFiles(p: Platform, wire: (string, Bytes) -> WireFile, tree: Tree, id: string,
      files: seq<ManifestFile>): Result<seq<WireFile>, GetError>
    decreases |files|
  {
    if files == [] then Ok([])
    else
      var path := AssetRepoPrefix(id) + files[0].path;
      if path !in tree || |tree[path].bytes| != files[0].size || p.sha256(tree[path].bytes) != files[0].sha256
      then Err(Corrupt)
      else
        var rest := ReadFiles(p, wire, tree, id, files[1..]);
        if rest.Err? then rest else Ok([wire(files[0].path, tree[path].bytes)] + rest.value)
  }

  predicate SafeContent(tree: Tree, id: string, path: string)
    requires path in tree && AssetRepoPrefix(id) <= path
  {
    tree[path].regular &&
    (var file := path[|AssetRepoPrefix(id)|..]; NormalizeAssetFilePath(file) == Some(file))
  }

  predicate AllSafe(tree: Tree, id: string, contents: set<string>)
    requires contents <= AssetPaths(tree, id)
  {
    forall path <- contents :: SafeContent(tree, id, path)
  }

  /** The contents are the manifest's files, one for one. */
  predicate InStep(id: string, contents: set<string>, files: seq<ManifestFile>) {
    |contents| == |files| && forall file <- files :: AssetRepoPrefix(id) + file.path in contents
  }

  datatype Got = Got(asset: Manifest, files: seq<WireFile>)

  function Fetched(p: Platform, tree: Tree, id: string): Result<Got, GetError> {
    var m := ManifestAt(p, tree, id);
    if m.None? then Err(NoAsset)
    else
      var contents := AssetPaths(tree, id) - {ManifestPath(id)};
      if !AllSafe(tree, id, contents) then Err(UnsafeEntry)
      else if !InStep(id, contents, m.value.files) then Err(OutOfStep)
      else
        var files := ReadFiles(p, (path, bytes) => Wire(p, path, bytes), tree, id, m.value.files);
        if files.Err? then Err(files.error) else Ok(Got(m.value, files.value))
  }

  method ReadAll(p: Platform, wire: (string, Bytes) -> WireFile, tree: Tree, id: string, expected: seq<ManifestFile>)
    returns (r: Result<seq<WireFile>, GetError>)
    requires forall file <- expected :: AssetRepoPrefix(id) + file.path in tree
    ensures r == ReadFiles(p, wire, tree, id, expected)
  {
    var files: seq<WireFile> := [];
    ghost var all := ReadFiles(p, wire, tree, id, expected);
    assert expected[0..] == expected && (all.Ok? ==> files + all.value == all.value);
    for i := 0 to |expected|
      invariant var rest := ReadFiles(p, wire, tree, id, expected[i..]);
                all == if rest.Err? then rest else Ok(files + rest.value)
    {
      assert expected[i..][0] == expected[i] && expected[i..][1..] == expected[i + 1..];
      var file := expected[i];
      var bytes := tree[AssetRepoPrefix(id) + file.path].bytes;
      if |bytes| != file.size || p.sha256(bytes) != file.sha256 { return Err(Corrupt); }
      ghost var rest := ReadFiles(p, wire, tree, id, expected[i + 1..]);
      var sent := wire(file.path, bytes);
      assert rest.Ok? ==> files + ([sent] + rest.value) == files + [sent] + rest.value;
      files := files + [sent];
    }
    assert files + [] == files;
    return Ok(files);
  }

  method GetAsset(p: Platform, tree: Tree, id: string) returns (r: Result<Got, GetError>)
    ensures r == Fetched(p, tree, id)
  {
    var asset := ManifestAt(p, tree, id);
    if asset.None? { return Err(NoAsset); }
    var contents := AssetPaths(tree, id) - {ManifestPath(id)};
    if !AllSafe(tree, id, contents) { return Err(UnsafeEntry); }
    if !InStep(id, contents, asset.value.files) { return Err(OutOfStep); }
    var files := ReadAll(p, (path, bytes) => Wire(p, path, bytes), tree, id, asset.value.files);
    return if files.Err? then Err(files.error) else Ok(Got(asset.value, files.value));
  }

  // ----- What a put and a delete write -----

  datatype Request =
    | Put(id: string, description: Option<string>, files: seq<PutFile>, writer: Writer)
    | Delete(id: string)

  function Described(p: Platform, files: seq<PutFile>): (r: seq<ManifestFile>)
    ensures |r| == |files|
    ensures forall i ::
            0 <= i < |files| ==> r[i] == ManifestFile(files[i].path, |files[i].bytes|, p.sha256(files[i].bytes))
  {
    if files == [] then []
    else [ManifestFile(files[0].path, |files[0].bytes|, p.sha256(files[0].bytes))] + Described(p, files[1..])
  }

  function NewManifest(p: Platform, put: Request, prior: Option<Manifest>, now: string): Manifest
    requires put.Put?
  {
    Manifest(put.id, put.description, Described(p, put.files),
             if prior.Some? then prior.value.createdAt else now, now, put.writer)
  }

  function Removed(tree: Tree, id: string): Changes {
    map path | path in AssetPaths(tree, id) :: None
  }

  function WriteFiles(changes: Changes, id: string, files: seq<PutFile>): Changes
    decreases |files|
  {
    if files == [] then changes
    else
      var last := files[|files| - 1];
      WriteFiles(changes, id, files[..|files| - 1])[AssetRepoPrefix(id) + last.path := Some(last.bytes)]
  }

  function PutChanges(tree: Tree, id: string, files: seq<PutFile>, manifest: Bytes): Changes {
    WriteFiles(Removed(tree, id), id, files)[ManifestPath(id) := Some(manifest)]
  }

  datatype Plan = Refuse(error: WriteError) | Write(changes: Changes, asset: Option<Manifest>)

  /** What one attempt decides on its snapshot. */
  ghost function PlanFor(p: Platform, request: Request, tree: Tree, truncated: bool, now: string): Plan {
    if truncated then Refuse(Truncated)
    else if Overlapped(tree, request.id) then Refuse(Overlap)
    else if request.Delete? then
      if AssetPaths(tree, request.id) == {} then Refuse(Missing) else Write(Removed(tree, request.id), None)
    else
      var m := NewManifest(p, request, ManifestAt(p, tree, request.id), now);
      Write(PutChanges(tree, request.id, request.files, p.write(m)), Some(m))
  }

  method RemoveEntries(tree: Tree, listing: seq<string>, id: string) returns (changes: Changes)
    requires Lists(listing, tree)
    ensures changes == Removed(tree, id)
  {
    changes := map[];
    for i := 0 to |listing|
      invariant changes.Keys == set k | 0 <= k < i && listing[k] in tree && AssetRepoPrefix(id) <= listing[k] ::
                listing[k]
      invariant forall path <- changes.Keys :: changes[path] == None
    {
      if listing[i] in tree && AssetRepoPrefix(id) <= listing[i] {
        changes := changes[listing[i] := None];
      }
    }
    forall path | path in AssetPaths(tree, id) ensures path in changes {
      assert Listed(tree, path);
      var k :| 0 <= k < |listing| && listing[k] == path;
    }
  }

  method WriteEntries(start: Changes, id: string, files: seq<PutFile>) returns (changes: Changes)
    ensures changes == WriteFiles(start, id, files)
  {
    changes := start;
    for i := 0 to |files|
      invariant changes == WriteFiles(start, id, files[..i])
    {
      assert files[..i + 1][..i] == files[..i];
      changes := changes[AssetRepoPrefix(id) + files[i].path := Some(files[i].bytes)];
    }
    assert files[..|files|] == files;
  }

  // ----- The retry loop -----

  datatype Reply = Committed(sha: string) | Moved | Failing

  /** What one round meets: the snapshot, the clock and the commit's reply. */
  datatype Attempt = Attempt(tree: Tree, listing: seq<string>, truncated: bool, now: string, reply: Reply)

  datatype WriteResult = Written(asset: Option<Manifest>, sha: string) | Unwritten(error: WriteError)

  ghost function Rounds(p: Platform, request: Request, attempts: seq<Attempt>, k: nat): WriteResult
    requires k < MAX_COMMIT_ATTEMPTS <= |attempts|
    decreases MAX_COMMIT_ATTEMPTS - k
  {
    var a := attempts[k];
    var plan := PlanFor(p, request, a.tree, a.truncated, a.now);
    if plan.Refuse? then Unwritten(plan.error)
    else match a.reply
      case Committed(sha) => Written(plan.asset, sha)
      case Failing => Unwritten(Broke)
      case Moved =>
          if k + 1 == MAX_COMMIT_ATTEMPTS then Unwritten(KeptChanging) else Rounds(p, request, attempts, k + 1)
  }

  method PutAsset(p: Platform, request: Request, attempts: seq<Attempt>) returns (r: WriteResult)
    requires request.Put? && MAX_COMMIT_ATTEMPTS <= |attempts| && forall a <- attempts :: Lists(a.listing, a.tree)
    ensures r == Rounds(p, request, attempts, 0)
  {
    for k := 0 to MAX_COMMIT_ATTEMPTS
      invariant k < MAX_COMMIT_ATTEMPTS && Rounds(p, request, attempts, k) == Rounds(p, request, attempts, 0)
    {
      var a := attempts[k];
      if a.truncated { return Unwritten(Truncated); }
      var overlap := OverlappingAssetId(a.tree, a.listing, request.id);
      if overlap.Some? { return Unwritten(Overlap); }
      var asset := NewManifest(p, request, ManifestAt(p, a.tree, request.id), a.now);
      var changes := RemoveEntries(a.tree, a.listing, request.id);
      changes := WriteEntries(changes, request.id, request.files);
      changes := changes[ManifestPath(request.id) := Some(p.write(asset))];
      assert PlanFor(p, request, a.tree, a.truncated, a.now) == Write(changes, Some(asset));
      match a.reply {
        case Committed(sha) => return Written(Some(asset), sha);
        case Failing => return Unwritten(Broke);
        case Moved => if k + 1 == MAX_COMMIT_ATTEMPTS { return Unwritten(KeptChanging); }
      }
    }
    assert false;
  }

  method DeleteAsset(p: Platform, request: Request, attempts: seq<Attempt>) returns (r: WriteResult)
    requires request.Delete? && MAX_COMMIT_ATTEMPTS <= |attempts| && forall a <- attempts :: Lists(a.listing, a.tree)
    ensures r == Rounds(p, request, attempts, 0)
  {
    for k := 0 to MAX_COMMIT_ATTEMPTS
      invariant k < MAX_COMMIT_ATTEMPTS && Rounds(p, request, attempts, k) == Rounds(p, request, attempts, 0)
    {
      var a := attempts[k];
      if a.truncated { return Unwritten(Truncated); }
      var overlap := OverlappingAssetId(a.tree, a.listing, request.id);
      if overlap.Some? { return Unwritten(Overlap); }
      var changes := RemoveEntries(a.tree, a.listing, request.id);
      if changes == map[] {
        assert AssetPaths(a.tree, request.id) == changes.Keys == {};
        return Unwritten(Missing);
      }
      assert AssetPaths(a.tree, request.id) == changes.Keys != {};
      match a.reply {
        case Committed(sha) => return Written(None, sha);
        case Failing => return Unwritten(Broke);
        case Moved => if k + 1 == MAX_COMMIT_ATTEMPTS { return Unwritten(KeptChanging); }
      }
    }
    assert false;
  }
}
