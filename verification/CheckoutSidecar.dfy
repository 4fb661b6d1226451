/**
 * What the sidecar reports of a checkout: git's raw diff against the base, with bodies attached to the regular
 * files that can be read as text (assistant-template/checkout-sidecar.mjs).
 */
module CheckoutSidecar {
  import opened Prelude
  import opened Text
  import opened CheckoutPlan
  import Base64

  type Bytes = Base64.Bytes

  /** What `lstat` and the read after it find at a path; `large` is beyond the size cap. */
  datatype Found = Vanished | NotRegular | Large | Body(bytes: Bytes)

  /** UTF-8 decoding as far as it matters here: U+0000 comes only from a zero byte (RFC 3629, section 3). */
  ghost predicate DecodesNul(decode: Bytes -> string) {
    forall bytes: Bytes :: 0 !in bytes ==> NulFree(decode(bytes))
  }

  // ----- One record -----

  /** The text before the first white space. */
  function Word(space: char -> bool, s: string): (r: string)
    ensures r <= s && (r == s || space(s[|r|])) && forall c <- r :: !space(c)
  {
    if s == "" || space(s[0]) then "" else [s[0]] + Word(space, s[1..])
  }

  function AfterSpaces(space: char -> bool, s: string): (r: string)
    ensures |r| <= |s| && (s != "" && space(s[0]) ==> |r| < |s|)
  {
    if s != "" && space(s[0]) then AfterSpaces(space, s[1..]) else s
  }

  /** The pieces between runs of white space, as splitting on `\s+` gives them. */
  function Words(space: char -> bool, s: string): (r: seq<string>)
    ensures r != []
    decreases |s|
  {
    var word := Word(space, s);
    if word == s then [s] else [word] + Words(space, AfterSpaces(space, s[|word|..]))
  }

  /** The skeleton of one dirty entry; anything but a deletion or a regular file's mode must not be read. */
  function ClassifyRawRecord(meta: string, path: string): Option<DirtyFile> {
    if meta == "" || meta[0] != ':' then None
    else
      var fields := Words(IsSpace, meta[1..]);
      var newMode := if |fields| > 1 then fields[1] else "";
      var code := if |fields| > 4 then fields[4][..Min(1, |fields[4]|)] else "";
      if code == "D" then Some(DirtyFile(path, Deleted, None, false, false, false, false))
      else Some(DirtyFile(path, if code == "A" then Added else Modified, None, false, false,
                          newMode != "100644" && newMode != "100755", newMode == "100755"))
  }

  function WithBody(decode: Bytes -> string, info: DirtyFile, found: Found): DirtyFile {
    if info.status == Deleted || info.notFile then info
    else match found
      case NotRegular => info.(notFile := true)
      case Large => info.(oversize := true)
      case Vanished => info.(oversize := true)
      case Body(bytes) => if 0 in bytes then info.(binary := true) else info.(content := Some(decode(bytes)))
  }

  // ----- The whole diff -----

  function NonEmpty(parts: seq<string>): seq<string> {
    if parts == [] then [] else (if parts[0] == "" then [] else [parts[0]]) + NonEmpty(parts[1..])
  }

  /** The entries of the first `n` pairs; `found(i)` is what is at the path of pair `i` when it is read. */
  function EntriesOf(classify: (string, string) -> Option<DirtyFile>, read: (DirtyFile, Found) -> DirtyFile,
      parts: seq<string>, found: nat -> Found, n: nat): seq<DirtyFile>
    requires 2 * n <= |parts|
  {
    if n == 0 then []
    else
      var info := classify(parts[2 * n - 2], parts[2 * n - 1]);
      EntriesOf(classify, read, parts, found, n - 1) + (if info.Some? then [read(info.value, found(n - 1))] else [])
  }

  function Reader(decode: Bytes -> string): (DirtyFile, Found) -> DirtyFile {
    (info, found) => WithBody(decode, info, found)
  }

  function Reported(decode: Bytes -> string, z: string, found: nat -> Found): seq<DirtyFile> {
    var parts := NonEmpty(Split(z, '\0'));
    EntriesOf(ClassifyRawRecord, Reader(decode), parts, found, |parts| / 2)
  }

  method ReadBody(decode: Bytes -> string, info: DirtyFile, found: Found) returns (entry: DirtyFile)
    ensures entry == WithBody(decode, info, found)
  {
    entry := info;
    if entry.status == Deleted || entry.notFile { return; }
    match found {
      case NotRegular => entry := entry.(notFile := true);
      case Large => entry := entry.(oversize := true);
      case Vanished => entry := entry.(oversize := true);
      case Body(bytes) =>
        if 0 in bytes { entry := entry.(binary := true); } else { entry := entry.(content := Some(decode(bytes))); }
    }
  }

  method ReadEntries(classify: (string, string) -> Option<DirtyFile>, decode: Bytes -> string, parts: seq<string>,
      found: nat -> Found)
    returns (out: seq<DirtyFile>)
    ensures out == EntriesOf(classify, Reader(decode), parts, found, |parts| / 2)
  {
    out := [];
    var i := 0;
    while i + 1 < |parts|
      invariant 0 <= i <= |parts| && i % 2 == 0
      invariant out == EntriesOf(classify, Reader(decode), parts, found, i / 2)
    {
      var info := classify(parts[i], parts[i + 1]);
      if info.Some? {
        var entry := ReadBody(decode, info.value, found(i / 2));
        out := out + [entry];
      }
      i := i + 2;
    }
  }

  method ParseRawDiff(decode: Bytes -> string, z: string, found: nat -> Found) returns (out: seq<DirtyFile>)
    ensures out == Reported(decode, z, found)
  {
    var parts := NonEmpty(Split(z, '\0'));
    out := ReadEntries(ClassifyRawRecord, decode, parts, found);
  }

  // ----- What git prints is read back -----

  /** One raw record as git prints it: both modes, both object names, the status, and the path. */
  datatype GitRecord = GitRecord(oldMode: string, newMode: string, oldSha: string, newSha: string, status: string,
      path: string)

  predicate Field(s: string) {
    s != "" && forall c <- s :: !IsSpace(c) && c != '\0'
  }

  predicate Printable(r: GitRecord) {
    Field(r.oldMode) && Field(r.newMode) && Field(r.oldSha) && Field(r.newSha) && Field(r.status) && r.path != "" &&
    NulFree(r.path)
  }

  function Meta(r: GitRecord): string {
    ":" + Join([r.oldMode, r.newMode, r.oldSha, r.newSha, r.status], " ")
  }

  function RawDiff(records: seq<GitRecord>): string {
    if records == [] then "" else Meta(records[0]) + NUL + (records[0].path + NUL + RawDiff(records[1..]))
  }

  /** What a record says of its path before any body is read. */
  function Entry(r: GitRecord): DirtyFile {
    if r.status[..Min(1, |r.status|)] == "D" then DirtyFile(r.path, Deleted, None, false, false, false, false)
    else DirtyFile(r.path, if r.status[..Min(1, |r.status|)] == "A" then Added else Modified, None, false, false,
                   r.newMode !in {"100644", "100755"}, r.newMode == "100755")
  }

  lemma {:induction false} WordOfField(space: char -> bool, field: string, rest: string)
    requires (forall c <- field :: !space(c)) && (rest == "" || space(rest[0]))
    ensures Word(space, field + rest) == field
    decreases |field|
  {
    var s := field + rest;
    if field != "" {
      assert field[0] in field && s[1..] == field[1..] + rest;
      assert field == [field[0]] + field[1..];
      WordOfField(space, field[1..], rest);
    } else {
      assert s == rest;
    }
  }

  predicate Solid(space: char -> bool, field: string) {
    field != "" && forall c <- field :: !space(c)
  }

  lemma {:induction false} WordsOfFields(space: char -> bool, fields: seq<string>)
    requires fields != [] && space(' ') && forall field <- fields :: Solid(space, field)
    ensures Words(space, Join(fields, " ")) == fields
    decreases |fields|
  {
    var field := fields[0];
    assert Solid(space, field);
    if |fields| == 1 {
      WordOfField(space, field, "");
      assert field + "" == field;
    } else {
      var rest := Join(fields[1..], " ");
      WordOfField(space, field, " " + rest);
      assert fields[1] in fields && Solid(space, fields[1]);
      JoinStarts(fields[1..]);
      assert fields[1][0] in fields[1];
      WordsOfFields(space, fields[1..]);
      WordsStep(space, field, rest);
      assert Join(fields, " ") == field + (" " + rest);
    }
  }

  lemma JoinStarts(fields: seq<string>)
    requires fields != [] && fields[0] != ""
    ensures Join(fields, " ") != "" && Join(fields, " ")[0] == fields[0][0]
  {
  }

  lemma WordsStep(space: char -> bool, word: string, rest: string)
    requires space(' ') && rest != "" && !space(rest[0]) && Word(space, word + (" " + rest)) == word
    ensures Words(space, word + (" " + rest)) == [word] + Words(space, rest)
  {
    var s := word + (" " + rest);
    assert s[|word|..] == " " + rest && (" " + rest)[1..] == rest;
    assert AfterSpaces(space, rest) == rest;
    assert AfterSpaces(space, " " + rest) == rest;
  }

  lemma RecordReadBack(r: GitRecord)
    requires Printable(r)
    ensures ClassifyRawRecord(Meta(r), r.path) == Some(Entry(r))
  {
    var fields := [r.oldMode, r.newMode, r.oldSha, r.newSha, r.status];
    forall field <- fields ensures Solid(IsSpace, field) {
      assert Field(field);
    }
    WordsOfFields(IsSpace, fields);
    assert Meta(r)[1..] == Join(fields, " ");
  }

  function Parts(records: seq<GitRecord>): seq<string> {
    if records == [] then [] else [Meta(records[0]), records[0].path] + Parts(records[1..])
  }

  lemma {:induction false} JoinHasNoNul(fields: seq<string>)
    requires forall field <- fields :: '\0' !in field
    ensures '\0' !in Join(fields, " ")
    decreases |fields|
  {
    if |fields| > 1 { JoinHasNoNul(fields[1..]); }
  }

  lemma MetaHasNoNul(r: GitRecord)
    requires Printable(r)
    ensures '\0' !in Meta(r)
  {
    JoinHasNoNul([r.oldMode, r.newMode, r.oldSha, r.newSha, r.status]);
  }

  lemma {:induction false} PartsReadBack(records: seq<GitRecord>)
    requires forall r <- records :: Printable(r)
    ensures NonEmpty(Split(RawDiff(records), '\0')) == Parts(records)
    decreases |records|
  {
    if records == [] {
      assert Split("", '\0') == [""] && [""][1..] == [];
    } else {
      var r, rest := records[0], RawDiff(records[1..]);
      assert r in records;
      PartsReadBack(records[1..]);
      MetaHasNoNul(r);
      SplitFirst(Meta(r), '\0', r.path + NUL + rest);
      assert RawDiff(records) == Meta(r) + ['\0'] + (r.path + NUL + rest);
      SplitFirst(r.path, '\0', rest);
      NonEmptyFirst(Meta(r), [r.path] + Split(rest, '\0'));
      NonEmptyFirst(r.path, Split(rest, '\0'));
    }
  }

  lemma NonEmptyFirst(part: string, rest: seq<string>)
    requires part != ""
    ensures NonEmpty([part] + rest) == [part] + NonEmpty(rest)
  {
    assert ([part] + rest)[1..] == rest;
  }

  lemma {:induction false} PartsAt(records: seq<GitRecord>, i: nat)
    requires i < |records|
    ensures |Parts(records)| == 2 * |records|
    ensures Parts(records)[2 * i] == Meta(records[i]) && Parts(records)[2 * i + 1] == records[i].path
    decreases |records|
  {
    if |records| > 1 { PartsAt(records[1..], if i == 0 then 0 else i - 1); }
  }

  lemma {:induction false} EntriesReadBack(classify: (string, string) -> Option<DirtyFile>,
      read: (DirtyFile, Found) -> DirtyFile,
      entry: GitRecord -> DirtyFile, records: seq<GitRecord>, found: nat -> Found, n: nat)
    requires forall r <- records :: classify(Meta(r), r.path) == Some(entry(r))
    requires n <= |records| && 2 * n <= |Parts(records)|
    ensures EntriesOf(classify, read, Parts(records), found, n) ==
            seq(n, i requires 0 <= i < n => read(entry(records[i]), found(i)))
    decreases n
  {
    if n > 0 {
      EntriesReadBack(classify, read, entry, records, found, n - 1);
      PartsAt(records, n - 1);
      assert records[n - 1] in records;
    }
  }

  lemma RecordsReadBack(records: seq<GitRecord>)
    requires forall r <- records :: Printable(r)
    ensures forall r <- records :: ClassifyRawRecord(Meta(r), r.path) == Some(Entry(r))
  {
    forall r <- records ensures ClassifyRawRecord(Meta(r), r.path) == Some(Entry(r)) { RecordReadBack(r); }
  }

  lemma PartsCount(records: seq<GitRecord>)
    ensures |Parts(records)| / 2 == |records|
  {
    if records != [] { PartsAt(records, 0); }
  }

  /** Every record git prints becomes one entry, in order, with the body its file calls for. */
  lemma EveryRecordIsReported(decode: Bytes -> string, records: seq<GitRecord>, found: nat -> Found)
    requires forall r <- records :: Printable(r)
    ensures Reported(decode, RawDiff(records), found) ==
            seq(|records|, i requires 0 <= i < |records| => Reader(decode)(Entry(records[i]), found(i)))
  {
    PartsReadBack(records);
    PartsCount(records);
    RecordsReadBack(records);
    EntriesReadBack(ClassifyRawRecord, Reader(decode), Entry, records, found, |records|);
  }

  // ----- What is reported as text holds no NUL -----

  lemma {:induction false} PiecesHaveNoNul(s: string)
    ensures forall part <- Split(s, '\0') :: NulFree(part)
    decreases |s|
  {
    if s == "" {
      assert Split(s, '\0') == [""];
    } else {
      PiecesHaveNoNul(s[1..]);
      var rest := Split(s[1..], '\0');
      assert NulFree(rest[0]);
      forall part <- Split(s, '\0') ensures NulFree(part) {
        if part !in rest { assert part == "" || part == [s[0]] + rest[0]; }
      }
    }
  }

  lemma {:induction false} NonEmptyAreParts(parts: seq<string>)
    ensures forall part <- NonEmpty(parts) :: part in parts
    decreases |parts|
  {
    if parts != [] { NonEmptyAreParts(parts[1..]); }
  }

  lemma {:induction false} EntriesAreClean(classify: (string, string) -> Option<DirtyFile>,
      read: (DirtyFile, Found) -> DirtyFile,
      parts: seq<string>, found: nat -> Found, n: nat)
    requires forall meta, path, f ::
             NulFree(path) && classify(meta, path).Some? ==> CleanEntry(read(classify(meta, path).value, f))
    requires 2 * n <= |parts| && forall part <- parts :: NulFree(part)
    ensures forall f <- EntriesOf(classify, read, parts, found, n) :: CleanEntry(f)
    decreases n
  {
    if n > 0 {
      EntriesAreClean(classify, read, parts, found, n - 1);
      assert parts[2 * n - 1] in parts;
    }
  }

  lemma EntryIsClean(decode: Bytes -> string, meta: string, path: string, found: Found)
    requires DecodesNul(decode) && NulFree(path) && ClassifyRawRecord(meta, path).Some?
    ensures CleanEntry(Reader(decode)(ClassifyRawRecord(meta, path).value, found))
  {
  }

  /** Whatever git prints and whatever is on disk, no path and no content reported holds a NUL. */
  lemma ReportIsClean(decode: Bytes -> string, z: string, found: nat -> Found)
    requires DecodesNul(decode)
    ensures forall f <- Reported(decode, z, found) :: CleanEntry(f)
  {
    var parts := NonEmpty(Split(z, '\0'));
    PiecesHaveNoNul(z);
    NonEmptyAreParts(Split(z, '\0'));
    forall meta: string, path: string, f: Found | NulFree(path) && ClassifyRawRecord(meta, path).Some?
      ensures CleanEntry(Reader(decode)(ClassifyRawRecord(meta, path).value, f))
    {
      EntryIsClean(decode, meta, path, f);
    }
    EntriesAreClean(ClassifyRawRecord, Reader(decode), parts, found, |parts| / 2);
  }

  lemma SkippedIsWarned(sha256: string -> string, tree: TreeState, k: nat)
    requires k < |tree.dirty| && PickSkipped(tree.dirty[k]).Some?
    ensures tree.dirty[k].path in Planned(sha256, tree).skippedBodies
    ensures (forall j :: 0 <= j < |tree.dirty| && j != k ==> tree.dirty[j].path != tree.dirty[k].path) ==>
              forall f <- Planned(sha256, tree).files :: f.path != tree.dirty[k].path
  {
    var entry := tree.dirty[k];
    PlanPartitions(sha256, tree);
    assert entry in tree.dirty && PickSkipped(entry) == Some(entry.path);
    if forall j :: 0 <= j < |tree.dirty| && j != k ==> tree.dirty[j].path != tree.dirty[k].path {
      forall f <- Planned(sha256, tree).files ensures f.path != entry.path {
        var d :| d in tree.dirty && PickFile(d) == Some(f);
        var j :| 0 <= j < |tree.dirty| && tree.dirty[j] == d;
        assert d.path == f.path;
      }
    }
  }

  predicate ReadAsText(info: DirtyFile) { info.status != Deleted && !info.notFile }

  lemma NulBodyIsBinary(decode: Bytes -> string, info: DirtyFile, found: Found)
    requires ReadAsText(info) && !IsBlockedPath(info.path) && found.Body? && 0 in found.bytes
    ensures var entry := Reader(decode)(info, found); PickSkipped(entry).Some? && entry.path == info.path
  {
  }

  lemma ReaderKeepsPath(decode: Bytes -> string, info: DirtyFile, found: Found)
    ensures Reader(decode)(info, found).path == info.path
  {
  }

  lemma EntryHasPath(r: GitRecord)
    ensures Entry(r).path == r.path
  {
  }

  /** The tree lists the records in order, each with the body its file calls for. */
  predicate Lists(tree: TreeState, decode: Bytes -> string, records: seq<GitRecord>, found: nat -> Found) {
    |tree.dirty| == |records| &&
    forall i :: 0 <= i < |records| ==> tree.dirty[i] == Reader(decode)(Entry(records[i]), found(i))
  }

  lemma ReportLists(tree: TreeState, decode: Bytes -> string, records: seq<GitRecord>, found: nat -> Found)
    requires (forall r <- records :: Printable(r)) && tree.dirty == Reported(decode, RawDiff(records), found)
    ensures Lists(tree, decode, records, found)
  {
    EveryRecordIsReported(decode, records, found);
  }

  lemma ListedNulBodyIsSkipped(sha256: string -> string, tree: TreeState, decode: Bytes -> string,
      records: seq<GitRecord>,
      found: nat -> Found, i: nat)
    requires Lists(tree, decode, records, found) && i < |records| && !IsBlockedPath(records[i].path)
    requires ReadAsText(Entry(records[i])) && found(i).Body? && 0 in found(i).bytes
    requires forall j :: 0 <= j < |records| && j != i ==> records[j].path != records[i].path
    ensures records[i].path in Planned(sha256, tree).skippedBodies
    ensures forall f <- Planned(sha256, tree).files :: f.path != records[i].path
  {
    EntryHasPath(records[i]);
    NulBodyIsBinary(decode, Entry(records[i]), found(i));
    forall j | 0 <= j < |records| ensures tree.dirty[j].path == records[j].path {
      EntryHasPath(records[j]);
      ReaderKeepsPath(decode, Entry(records[j]), found(j));
    }
    SkippedIsWarned(sha256, tree, i);
  }

  /** A changed file with a zero byte in it is warned about, and none of its content is committed. */
  lemma NulBodyIsSkipped(sha256: string -> string, tree: TreeState, decode: Bytes -> string, records: seq<GitRecord>,
      found: nat -> Found, i: nat)
    requires (forall r <- records :: Printable(r)) && tree.dirty == Reported(decode, RawDiff(records), found)
    requires i < |records| && !IsBlockedPath(records[i].path)
    requires ReadAsText(Entry(records[i])) && found(i).Body? && 0 in found(i).bytes
    requires forall j :: 0 <= j < |records| && j != i ==> records[j].path != records[i].path
    ensures records[i].path in Planned(sha256, tree).skippedBodies
    ensures forall f <- Planned(sha256, tree).files :: f.path != records[i].path
  {
    ReportLists(tree, decode, records, found);
    ListedNulBodyIsSkipped(sha256, tree, decode, records, found, i);
  }
}
