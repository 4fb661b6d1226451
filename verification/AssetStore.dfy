/**
 * The repository-backed asset library (app/assets/store.server.ts): reading, putting and deleting one
 * asset on a snapshot of the managed branch. The repository is a flat map from path to entry; the
 * directories GitHub lists beside the files are derived from it.
 */
module AssetStore {
  import opened Prelude
  import opened AssetPolicy
  import opened Base64

  // ----- The repository -----

  /** `regular` is a blob of mode 100644 with a sha; links, executables and submodules are not. */
  datatype Entry = Entry(regular: bool, bytes: Bytes)

  type Tree = map<string, Entry>

  predicate IsDirectory(tree: Tree, path: string) {
    exists file <- tree.Keys :: path + "/" <= file
  }

  predicate Listed(tree: Tree, path: string) {
    path in tree || IsDirectory(tree, path)
  }

  /** A recursive listing names every file and every directory. */
  ghost predicate Lists(listing: seq<string>, tree: Tree) {
    forall path: string :: path in listing <==> Listed(tree, path)
  }

  /** What a commit does to each path; `None` deletes. */
  type Changes = map<string, Option<Bytes>>

  function CommitTo(tree: Tree, changes: Changes): Tree {
    map path | path in tree.Keys + changes.Keys && (path in changes ==> changes[path].Some?)
             :: if path in changes then Entry(true, changes[path].value) else tree[path]
  }

  // ----- Manifests and files -----

  datatype ManifestFile = ManifestFile(path: string, size: int, sha256: string)

  datatype Writer = Writer(deploymentId: string, agentId: string, agent: string)

  datatype Manifest = Manifest(id: string, description: Option<string>, files: seq<ManifestFile>,
    createdAt: string, updatedAt: string, writer: Writer)

  datatype PutFile = PutFile(path: string, bytes: Bytes)

  datatype WireFile = WireFile(path: string, content: string, base64: bool)

  /**
   * What the runtime and GitHub supply: UTF-8, SHA-256, JSON, date parsing, the locale's sort, and whether a listing
   * gives the size of this entry.
   */
  datatype Platform = Platform(
    utf8: string -> Bytes,
    text: Bytes -> string,
    sha256: Bytes -> string,
    write: Manifest -> Bytes,
    parse: Bytes -> Option<Manifest>,
    isDate: string -> bool,
    order: seq<PutFile> -> seq<PutFile>,
    sized: (string, Bytes) -> bool)

  predicate Hash(s: string) {
    |s| == 64 && forall c <- s :: 'a' <= c <= 'f' || '0' <= c <= '9'
  }

  ghost predicate Lawful(p: Platform) {
    (forall m: Manifest :: p.parse(p.write(m)) == Some(m)) &&
    (forall bytes: Bytes :: Hash(p.sha256(bytes))) &&
    (forall files: seq<PutFile> :: multiset(p.order(files)) == multiset(files))
  }

  const MAX_SAFE_INTEGER := 9_007_199_254_740_991
  const MAX_MANIFEST_BYTES := 128 * 1024
  const MAX_DESCRIPTION := 2_000

  predicate FileFits(file: ManifestFile) {
    NormalizeAssetFilePath(file.path) == Some(file.path) && 0 <= file.size <= MAX_SAFE_INTEGER && Hash(file.sha256)
  }

  function TotalSize(files: seq<ManifestFile>): int {
    if files == [] then 0 else TotalSize(files[..|files| - 1]) + files[|files| - 1].size
  }

  predicate DistinctPaths(files: seq<ManifestFile>) {
    forall i, j :: 0 <= i < j < |files| ==> files[i].path != files[j].path
  }

  /** Every file fits, no path comes twice, and the sizes stay within the limit. */
  predicate FilesFit(fits: ManifestFile -> bool, files: seq<ManifestFile>) {
    (forall file <- files :: fits(file)) && DistinctPaths(files) && TotalSize(files) <= ASSET_MAX_BYTES
  }

  predicate HeaderFits(p: Platform, m: Manifest, expectedId: string) {
    m.id == expectedId && (m.description.Some? ==> |m.description.value| <= MAX_DESCRIPTION) &&
    p.isDate(m.createdAt) && p.isDate(m.updatedAt) && 0 < |m.files| <= ASSET_MAX_FILES
  }

  function ParsedManifest(p: Platform, bytes: Bytes, expectedId: string): Option<Manifest> {
    var m := p.parse(bytes);
    if m.Some? && HeaderFits(p, m.value, expectedId) && FilesFit(FileFits, m.value.files) then m else None
  }

  lemma {:induction false} TotalGrows(files: seq<ManifestFile>, k: nat)
    requires k <= |files| && forall file <- files :: file.size >= 0
    ensures TotalSize(files[..k]) <= TotalSize(files)
    decreases |files| - k
  {
    if k < |files| {
      assert files[..k + 1][..k] == files[..k] && files[k] in files;
      TotalGrows(files, k + 1);
    } else {
      assert files[..k] == files;
    }
  }

  lemma OverLimit(fits: ManifestFile -> bool, files: seq<ManifestFile>, k: nat)
    requires (forall file :: fits(file) ==> file.size >= 0) && k <= |files| && TotalSize(files[..k]) > ASSET_MAX_BYTES
    ensures !FilesFit(fits, files)
  {
    if forall f <- files :: fits(f) { TotalGrows(files, k); }
  }

  lemma SeenTwice(fits: ManifestFile -> bool, files: seq<ManifestFile>, k: nat, i: nat)
    requires k < i < |files| && files[k].path == files[i].path
    ensures !FilesFit(fits, files)
  {
  }

  method CheckFiles(fits: ManifestFile -> bool, files: seq<ManifestFile>) returns (ok: bool)
    requires forall file :: fits(file) ==> file.size >= 0
    ensures ok == FilesFit(fits, files)
  {
    var seen: set<string> := {};
    var total := 0;
    for i := 0 to |files|
      invariant forall k :: 0 <= k < i ==> fits(files[k])
      invariant forall path :: path in seen <==> exists k :: 0 <= k < i && files[k].path == path
      invariant DistinctPaths(files[..i])
      invariant total == TotalSize(files[..i]) <= ASSET_MAX_BYTES
    {
      var file := files[i];
      assert files[..i + 1][..i] == files[..i] && file in files;
      if !fits(file) { return false; }
      if file.path in seen {
        ghost var k :| 0 <= k < i && files[k].path == file.path;
        SeenTwice(fits, files, k, i);
        return false;
      }
      seen := seen + {file.path};
      total := total + file.size;
      if total > ASSET_MAX_BYTES {
        OverLimit(fits, files, i + 1);
        return false;
      }
    }
    assert files[..|files|] == files;
    return true;
  }

  method ParseManifest(p: Platform, bytes: Bytes, expectedId: string) returns (r: Option<Manifest>)
    ensures r == ParsedManifest(p, bytes, expectedId)
  {
    var m := p.parse(bytes);
    if m.None? || !HeaderFits(p, m.value, expectedId) { return None; }
    var ok := CheckFiles(FileFits, m.value.files);
    return if ok then m else None;
  }

  // ----- What a put accepts -----

  datatype RawFile = NotAnObject | RawFile(path: Option<string>, content: Option<string>, encoding: Option<string>)

  datatype PutError = NoFiles | TooManyFiles | NotAFile | BadPath | Twice | NoContent | BadContent | TooLarge
  datatype GetError = NoAsset | UnsafeEntry | OutOfStep | Corrupt
  datatype WriteError = Truncated | Overlap | Missing | KeptChanging | Broke

  datatype Result<T, E> = Ok(value: T) | Err(error: E)

  function Content(p: Platform, item: RawFile): Option<Bytes>
    requires item.RawFile? && item.content.Some?
  {
    var encoding := item.encoding.Or(Some("utf8")).value;
    if encoding == "utf8" then Some(p.utf8(item.content.value))
    else if encoding == "base64" then DecodeBase64(item.content.value)
    else None
  }

  predicate PathFits(item: RawFile) {
    item.RawFile? && item.path.Some? && NormalizeAssetFilePath(item.path.value) == item.path
  }

  /** An item read on its own: why it is no file, or its path and what its content decodes to. */
  datatype Reading = Unusable(error: PutError) | Named(path: string, bytes: Result<Bytes, PutError>)

  function ReadItem(p: Platform, item: RawFile): Reading {
    if item.NotAnObject? then Unusable(NotAFile)
    else if !PathFits(item) then Unusable(BadPath)
    else if item.content.None? then Named(item.path.value, Err(NoContent))
    else
      var bytes := Content(p, item);
      Named(item.path.value, if bytes.None? then Err(BadContent) else Ok(bytes.value))
  }

  /** What is wrong with a reading after the paths `seen`, if anything. */
  function Objection(r: Reading, seen: set<string>): Option<PutError> {
    if r.Unusable? then Some(r.error)
    else if r.path in seen then Some(Twice)
    else if r.bytes.Err? then Some(r.bytes.error)
    else None
  }

  function Collect(reader: RawFile -> Reading, items: seq<RawFile>, seen: set<string>,
      total: nat): Result<seq<PutFile>, PutError>
    decreases |items|
  {
    if items == [] then Ok([])
    else
      var r := reader(items[0]);
      var objection := Objection(r, seen);
      if objection.Some? then Err(objection.value)
      else if total + |r.bytes.value| > ASSET_MAX_BYTES then Err(TooLarge)
      else Prepend([PutFile(r.path, r.bytes.value)],
                   Collect(reader, items[1..], seen + {r.path}, total + |r.bytes.value|))
  }

  function Prepend(files: seq<PutFile>, rest: Result<seq<PutFile>, PutError>): Result<seq<PutFile>, PutError> {
    if rest.Err? then rest else Ok(files + rest.value)
  }

  function ParsedFiles(p: Platform, items: seq<RawFile>): Result<seq<PutFile>, PutError> {
    if items == [] then Err(NoFiles)
    else if |items| > ASSET_MAX_FILES then Err(TooManyFiles)
    else
      var files := Collect(item => ReadItem(p, item), items, {}, 0);
      if files.Err? then files else Ok(p.order(files.value))
  }

  method CollectFiles(reader: RawFile -> Reading, items: seq<RawFile>) returns (r: Result<seq<PutFile>, PutError>)
    ensures r == Collect(reader, items, {}, 0)
  {
    var seen: set<string> := {};
    var files: seq<PutFile> := [];
    var total: nat := 0;
    ghost var all := Collect(reader, items, {}, 0);
    assert items[0..] == items && (all.Ok? ==> files + all.value == all.value);
    for i := 0 to |items|
      invariant Prepend(files, Collect(reader, items[i..], seen, total)) == all
    {
      assert items[i..][0] == items[i] && items[i..][1..] == items[i + 1..];
      var item := reader(items[i]);
      var objection := Objection(item, seen);
      if objection.Some? { return Err(objection.value); }
      ghost var rest := Collect(reader, items[i + 1..], seen + {item.path}, total + |item.bytes.value|);
      var file := PutFile(item.path, item.bytes.value);
      assert rest.Ok? ==> files + ([file] + rest.value) == files + [file] + rest.value;
      total := total + |file.bytes|;
      if total > ASSET_MAX_BYTES { return Err(TooLarge); }
      seen := seen + {file.path};
      files := files + [file];
    }
    assert files + [] == files;
    return Ok(files);
  }

  method ParsePutFiles(p: Platform, items: seq<RawFile>) returns (r: Result<seq<PutFile>, PutError>)
    ensures r == ParsedFiles(p, items)
  {
    if items == [] { return Err(NoFiles); }
    if |items| > ASSET_MAX_FILES { return Err(TooManyFiles); }
    var files := CollectFiles(item => ReadItem(p, item), items);
    return if files.Err? then files else Ok(p.order(files.value));
  }

  function TotalBytes(files: seq<PutFile>): nat {
    if files == [] then 0 else |files[0].bytes| + TotalBytes(files[1..])
  }

  predicate Distinct(files: seq<PutFile>) {
    forall i, j :: 0 <= i < j < |files| ==> files[i].path != files[j].path
  }

  /** The file a reading stands for. */
  predicate Reads(r: Reading, file: PutFile) {
    r == Named(file.path, Ok(file.bytes))
  }

  /** A collection succeeds exactly when every item reads, no path repeats, and the bytes fit. */
  ghost predicate Collects(reader: RawFile -> Reading, items: seq<RawFile>, files: seq<PutFile>, seen: set<string>,
      total: nat) {
    |files| == |items| &&
    (forall i :: 0 <= i < |items| ==> Reads(reader(items[i]), files[i]) && files[i].path !in seen) &&
    Distinct(files) && (items != [] ==> total + TotalBytes(files) <= ASSET_MAX_BYTES)
  }

  lemma CollectsRest(reader: RawFile -> Reading, items: seq<RawFile>, files: seq<PutFile>, seen: set<string>,
      total: nat)
    requires items != [] && Collects(reader, items, files, seen, total)
    ensures Reads(reader(items[0]), files[0]) && files[0].path !in seen && total + |files[0].bytes| <= ASSET_MAX_BYTES
    ensures Collects(reader, items[1..], files[1..], seen + {files[0].path}, total + |files[0].bytes|)
  {
    forall i | 0 <= i < |items[1..]|
      ensures Reads(reader(items[1..][i]), files[1..][i]) && files[1..][i].path !in seen + {files[0].path}
    {
      assert items[1..][i] == items[i + 1] && files[1..][i] == files[i + 1];
    }
  }

  lemma CollectsMore(reader: RawFile -> Reading, items: seq<RawFile>, files: seq<PutFile>, seen: set<string>,
      total: nat)
    requires items != [] && files != []
    requires Reads(reader(items[0]), files[0]) && files[0].path !in seen && total + |files[0].bytes| <= ASSET_MAX_BYTES
    requires Collects(reader, items[1..], files[1..], seen + {files[0].path}, total + |files[0].bytes|)
    ensures Collects(reader, items, files, seen, total)
  {
    var rest := files[1..];
    forall i | 1 <= i < |items|
      ensures Reads(reader(items[i]), files[i]) && files[i].path !in seen && files[i].path != files[0].path
    {
      assert items[1..][i - 1] == items[i] && rest[i - 1] == files[i];
    }
    forall i, j | 1 <= i < j < |files| ensures files[i].path != files[j].path {
      assert rest[i - 1] == files[i] && rest[j - 1] == files[j];
    }
  }

  lemma {:induction false} CollectsExactly(reader: RawFile -> Reading, items: seq<RawFile>, seen: set<string>,
      total: nat, files: seq<PutFile>)
    ensures Collect(reader, items, seen, total) == Ok(files) <==> Collects(reader, items, files, seen, total)
    decreases |items|
  {
    if items != [] {
      if Collects(reader, items, files, seen, total) { CollectsRest(reader, items, files, seen, total); }
      if files != [] && Reads(reader(items[0]), files[0]) {
        CollectsExactly(reader, items[1..], seen + {files[0].path}, total + |files[0].bytes|, files[1..]);
        assert files == [files[0]] + files[1..];
        if Collect(reader, items, seen, total) == Ok(files) { CollectsMore(reader, items, files, seen, total); }
      }
    }
  }

  /** What a put writes: one to forty files at allowed paths, no path twice, within the size limit. */
  predicate Puttable(files: seq<PutFile>) {
    0 < |files| <= ASSET_MAX_FILES && Distinct(files) && TotalBytes(files) <= ASSET_MAX_BYTES &&
    forall file <- files :: NormalizeAssetFilePath(file.path) == Some(file.path)
  }

  lemma {:induction false} OnceEach(files: seq<PutFile>, file: PutFile)
    requires Distinct(files)
    ensures multiset(files)[file] <= 1
    decreases |files|
  {
    if files != [] {
      var front, last := files[..|files| - 1], files[|files| - 1];
      assert files == front + [last];
      OnceEach(front, file);
      forall i | 0 <= i < |front| ensures front[i] != last {
        assert files[i].path != files[|files| - 1].path;
      }
    }
  }

  lemma CountedTwice(files: seq<PutFile>, i: nat, j: nat)
    requires i < j < |files| && files[i] == files[j]
    ensures multiset(files)[files[i]] >= 2
  {
    assert files == files[..j] + files[j..];
    assert files[..j][i] in files[..j] && files[j..][0] in files[j..];
  }

  lemma PermutedDistinct(a: seq<PutFile>, b: seq<PutFile>)
    requires Distinct(a) && multiset(a) == multiset(b)
    ensures Distinct(b)
  {
    forall i, j | 0 <= i < j < |b| ensures b[i].path != b[j].path {
      assert b[i] in multiset(b) && b[j] in multiset(b);
      assert b[i] in a && b[j] in a;
      if b[i] == b[j] {
        CountedTwice(b, i, j);
        OnceEach(a, b[i]);
      }
    }
  }

  lemma {:induction false} TotalAppend(a: seq<PutFile>, b: seq<PutFile>)
    ensures TotalBytes(a + b) == TotalBytes(a) + TotalBytes(b)
    decreases |a|
  {
    if a == [] {
      assert a + b == b;
    } else {
      assert (a + b)[1..] == a[1..] + b;
      TotalAppend(a[1..], b);
    }
  }

  lemma TakenOut(files: seq<PutFile>, k: nat)
    requires k < |files|
    ensures var rest := files[..k] + files[k + 1..];
            multiset(files) == multiset(rest) + multiset{files[k]} &&
            TotalBytes(files) == |files[k].bytes| + TotalBytes(rest)
  {
    var tail := [files[k]] + files[k + 1..];
    assert files == files[..k] + tail && tail[1..] == files[k + 1..];
    TotalAppend(files[..k], tail);
    TotalAppend(files[..k], files[k + 1..]);
  }

  lemma {:induction false} PermutedTotal(a: seq<PutFile>, b: seq<PutFile>)
    requires multiset(a) == multiset(b)
    ensures TotalBytes(a) == TotalBytes(b)
    decreases |a|
  {
    assert |multiset(a)| == |a| && |multiset(b)| == |b|;
    if a != [] {
      assert a == [a[0]] + a[1..];
      assert a[0] in multiset(b);
      var k :| 0 <= k < |b| && b[k] == a[0];
      TakenOut(b, k);
      assert multiset(a) == multiset{a[0]} + multiset(a[1..]);
      assert multiset(a[1..]) == multiset(a) - multiset{a[0]};
      assert multiset(b[..k] + b[k + 1..]) == multiset(b) - multiset{a[0]};
      PermutedTotal(a[1..], b[..k] + b[k + 1..]);
    }
  }

  lemma NamedPathFits(p: Platform, item: RawFile)
    requires ReadItem(p, item).Named?
    ensures PathFits(item) && ReadItem(p, item).path == item.path.value
  {
  }

  lemma ReadPathFits(p: Platform, item: RawFile, file: PutFile)
    requires Reads(ReadItem(p, item), file)
    ensures NormalizeAssetFilePath(file.path) == Some(file.path)
  {
    NamedPathFits(p, item);
  }

  lemma ReadBy(reader: RawFile -> Reading, items: seq<RawFile>, unordered: seq<PutFile>, file: PutFile)
      returns (item: RawFile)
    requires Collects(reader, items, unordered, {}, 0) && file in multiset(unordered)
    ensures item in items && Reads(reader(item), file)
  {
    var i :| 0 <= i < |unordered| && unordered[i] == file;
    item := items[i];
  }

  /** What the parser accepts is puttable, and is the items' own decoded files in the locale's order. */
  lemma ParsedFilesArePuttable(p: Platform, items: seq<RawFile>, files: seq<PutFile>)
    requires Lawful(p) && ParsedFiles(p, items) == Ok(files)
    ensures Puttable(files) && |files| == |items|
    ensures forall file <- files :: exists item <- items :: Reads(ReadItem(p, item), file)
  {
    var reader := item => ReadItem(p, item);
    var unordered := Collect(reader, items, {}, 0).value;
    CollectsExactly(reader, items, {}, 0, unordered);
    assert multiset(files) == multiset(unordered);
    PermutedDistinct(unordered, files);
    PermutedTotal(unordered, files);
    assert |multiset(files)| == |files| && |multiset(unordered)| == |unordered|;
    forall file <- files
      ensures NormalizeAssetFilePath(file.path) == Some(file.path)
      ensures exists item <- items :: Reads(ReadItem(p, item), file)
    {
      assert file in multiset(files);
      var item := ReadBy(reader, items, unordered, file);
      assert reader(item) == ReadItem(p, item);
      ReadPathFits(p, item, file);
    }
  }
}
