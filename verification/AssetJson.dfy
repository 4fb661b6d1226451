/**
 * The JSON text of a manifest (app/assets/store.server.ts), character by character, and how many bytes it can take:
 * which puts are sure to be read back.
 */
module AssetJson {
  import opened Prelude
  import opened Text
  import opened AssetPolicy
  import opened AssetStore
  import opened AssetOps
  import opened AssetLaws

  // ----- The text -----

  function HexDigit(n: nat): char
    requires n < 16
  {
    if n < 10 then '0' + n as char else 'a' + (n - 10) as char
  }

  /** How `JSON.stringify` writes one character of a string (RFC 8259, section 7). */
  function Escaped(c: char): string {
    if c == '\"' then "\\\"" else if c == '\\' then "\\\\"
    else if c == '\n' then "\\n" else if c == '\r' then "\\r" else if c == '\t' then "\\t"
    else if c == '\U{0008}' then "\\b" else if c == '\U{000C}' then "\\f"
    else if c < ' ' then ['\\', 'u', '0', '0', HexDigit(c as int / 16), HexDigit(c as int % 16)]
    else [c]
  }

  function EscapedAll(s: string): string {
    if s == "" then "" else Escaped(s[0]) + EscapedAll(s[1..])
  }

  function Quoted(s: string): string { "\"" + EscapedAll(s) + "\"" }

  function Integer(n: int): string { if n < 0 then "-" + Decimal(-n) else Decimal(n) }

  function FileText(file: ManifestFile): string {
    "    {\n      \"path\": " + Quoted(file.path) + (",\n      \"size\": " + Integer(file.size) +
    (",\n      \"sha256\": " + Quoted(file.sha256) + "\n    }"))
  }

  function FileTexts(text: ManifestFile -> string, files: seq<ManifestFile>): string {
    if files == [] then ""
    else FileTexts(text, files[..|files| - 1]) + ((if |files| == 1 then "\n" else ",\n") + text(files[|files| - 1]))
  }

  function WriterText(w: Writer): string {
    ",\n  \"writer\": {\n    \"deploymentId\": " + Quoted(w.deploymentId) +
    (",\n    \"agentId\": " + Quoted(w.agentId) + (",\n    \"agent\": " + Quoted(w.agent) + "\n  }\n}\n"))
  }

  function HeadText(m: Manifest): string {
    "{\n  \"id\": " + Quoted(m.id) +
    (",\n  \"description\": " + (if m.description.Some? then Quoted(m.description.value) else "null"))
  }

  function DateText(m: Manifest): string {
    ",\n  \"createdAt\": " + Quoted(m.createdAt) + (",\n  \"updatedAt\": " + Quoted(m.updatedAt))
  }

  /** `JSON.stringify(manifest, null, 2)` and the newline after it. */
  function JsonText(m: Manifest): string {
    HeadText(m) + (",\n  \"files\": [" + FileTexts(FileText, m.files) +
    ((if m.files == [] then "]" else "\n  ]") + (DateText(m) + WriterText(m.writer))))
  }

  // ----- Bytes -----

  /** A UTF-8 encoder works character by character: one to four bytes each, one for ASCII (RFC 3629, section 3). */
  ghost predicate EncodesUtf8(p: Platform) {
    (forall a: string, b: string :: |p.utf8(a + b)| == |p.utf8(a)| + |p.utf8(b)|) &&
    (forall c: char :: 1 <= |p.utf8([c])| <= if c < '\U{0080}' then 1 else 4)
  }

  ghost predicate WritesJson(p: Platform) {
    EncodesUtf8(p) && forall m: Manifest :: p.write(m) == p.utf8(JsonText(m))
  }

  predicate Ascii(s: string) {
    forall i :: 0 <= i < |s| ==> s[i] < '\U{0080}'
  }

  lemma SizeOfBoth(p: Platform, a: string, b: string)
    requires EncodesUtf8(p)
    ensures |p.utf8(a + b)| == |p.utf8(a)| + |p.utf8(b)|
  {
  }

  lemma SizeOfOne(p: Platform, c: char)
    requires EncodesUtf8(p)
    ensures 1 <= |p.utf8([c])| <= if c < '\U{0080}' then 1 else 4
  {
  }

  lemma {:induction false} SizeOf(p: Platform, s: string)
    requires EncodesUtf8(p)
    ensures |s| <= |p.utf8(s)| <= 4 * |s|
    ensures Ascii(s) ==> |p.utf8(s)| == |s|
    decreases |s|
  {
    if s == "" {
      assert "" + "" == "";
      SizeOfBoth(p, "", "");
    } else {
      assert s == [s[0]] + s[1..];
      SizeOfBoth(p, [s[0]], s[1..]);
      SizeOfOne(p, s[0]);
      SizeOf(p, s[1..]);
    }
  }

  lemma EscapedSize(p: Platform, c: char)
    requires EncodesUtf8(p)
    ensures 1 <= |p.utf8(Escaped(c))| <= 6
  {
    SizeOf(p, Escaped(c));
  }

  lemma {:induction false} EscapedAllSize(p: Platform, s: string)
    requires EncodesUtf8(p)
    ensures |s| <= |p.utf8(EscapedAll(s))| <= 6 * |s|
    decreases |s|
  {
    if s == "" {
      SizeOf(p, "");
    } else {
      EscapedSize(p, s[0]);
      EscapedAllSize(p, s[1..]);
      SizeOfBoth(p, Escaped(s[0]), EscapedAll(s[1..]));
    }
  }

  lemma QuotedSize(p: Platform, s: string)
    requires EncodesUtf8(p)
    ensures |s| <= |p.utf8(Quoted(s))| <= 6 * |s| + 2
  {
    EscapedAllSize(p, s);
    SizeOf(p, "\"");
    SizeOfBoth(p, "\"" + EscapedAll(s), "\"");
    SizeOfBoth(p, "\"", EscapedAll(s));
  }

  /** Characters of ids, paths and hashes, which are written as they are. */
  predicate Plain(s: string) {
    forall i :: 0 <= i < |s| ==> AlphaNumeric(s[i]) || s[i] == '.' || s[i] == '-' || s[i] == '/'
  }

  lemma {:induction false} PlainIsUnescaped(s: string)
    requires Plain(s)
    ensures EscapedAll(s) == s
    decreases |s|
  {
    if s != "" {
      PlainIsUnescaped(s[1..]);
      assert s == [s[0]] + s[1..];
    }
  }

  lemma PlainSize(p: Platform, s: string)
    requires EncodesUtf8(p) && Plain(s)
    ensures |p.utf8(Quoted(s))| == |s| + 2
  {
    PlainIsUnescaped(s);
    SizeOf(p, Quoted(s));
  }

  lemma {:induction false} DecimalDigits(n: nat, bound: nat, digits: nat)
    requires n < bound && bound == Power(digits) && digits > 0
    ensures |Decimal(n)| <= digits
    decreases digits
  {
    if n >= 10 {
      assert digits > 1 by { assert Power(1) == 10 * Power(0); }
      DecimalDigits(n / 10, Power(digits - 1), digits - 1);
    }
  }

  function Power(digits: nat): nat { if digits == 0 then 1 else 10 * Power(digits - 1) }

  // ----- Ids and paths are plain -----

  lemma {:induction false} JoinedIsPlain(parts: seq<string>)
    requires Segments(parts)
    ensures Plain(Join(parts, "/"))
    decreases |parts|
  {
    if parts != [] {
      assert Segment(parts[0]);
      forall i | 0 <= i < |parts[0]| ensures AlphaNumeric(parts[0][i]) || parts[0][i] == '.' || parts[0][i] == '-' {
        assert parts[0][i] in parts[0];
      }
      if |parts| > 1 {
        forall part <- parts[1..] ensures Segment(part) {}
        JoinedIsPlain(parts[1..]);
      }
    }
  }

  lemma NormalIsPlain(s: string, maxLength: nat)
    requires NormalizeSegments(s, maxLength).Some?
    ensures Plain(s) && |s| <= maxLength
  {
    SplitJoins(s, '/');
    JoinedIsPlain(Split(s, '/'));
  }

  lemma ContentPathIsShort(path: string)
    requires NormalizeAssetFilePath(path) == Some(path)
    ensures NormalizeSegments(path, ASSET_MAX_PATH_LENGTH).Some?
  {
  }

  lemma HashIsPlain(s: string)
    requires Hash(s)
    ensures Plain(s) && |s| == 64
  {
    forall i | 0 <= i < |s| ensures AlphaNumeric(s[i]) { assert s[i] in s; }
  }

  // ----- The size of a manifest -----

  const FILE_BYTES := 900

  lemma NumberSize(p: Platform, n: int)
    requires EncodesUtf8(p) && 0 <= n <= MAX_SAFE_INTEGER
    ensures |p.utf8(Integer(n))| <= 64
  {
    PowerOfSixteen();
    DecimalDigits(n, Power(16), 16);
    SizeOf(p, Integer(n));
  }

  lemma PowerOfSixteen()
    ensures Power(16) == 10_000_000_000_000_000
  {
    assert Power(4) == 10_000;
    assert Power(8) == 100_000_000;
    assert Power(12) == 1_000_000_000_000;
  }

  lemma FileSize(p: Platform, file: ManifestFile)
    requires EncodesUtf8(p) && FileFits(file)
    ensures |p.utf8(FileText(file))| + 8 <= FILE_BYTES
  {
    ContentPathIsShort(file.path);
    NormalIsPlain(file.path, ASSET_MAX_PATH_LENGTH);
    HashIsPlain(file.sha256);
    PlainSize(p, file.path);
    PlainSize(p, file.sha256);
    NumberSize(p, file.size);
    FileTextSize(p, Quoted(file.path), Integer(file.size), Quoted(file.sha256));
  }

  lemma FileTextSize(p: Platform, path: string, size: string, sha: string)
    requires EncodesUtf8(p)
    ensures |p.utf8("    {\n      \"path\": " + path +
            (",\n      \"size\": " + size + (",\n      \"sha256\": " + sha + "\n    }")))| <=
            |p.utf8(path)| + |p.utf8(size)| + |p.utf8(sha)| + 240
  {
    var a, b, c, d := "    {\n      \"path\": ", ",\n      \"size\": ", ",\n      \"sha256\": ", "\n    }";
    assert |a| == 20 && |b| == 16 && |c| == 18 && |d| == 6;
    SizeOf(p, a);
    SizeOf(p, b);
    SizeOf(p, c);
    SizeOf(p, d);
    ThreeParts(p, c, sha, d);
    ThreeParts(p, b, size, c + sha + d);
    ThreeParts(p, a, path, b + size + (c + sha + d));
  }

  lemma ThreeParts(p: Platform, a: string, b: string, c: string)
    requires EncodesUtf8(p)
    ensures |p.utf8(a + b + c)| == |p.utf8(a)| + |p.utf8(b)| + |p.utf8(c)|
  {
    SizeOfBoth(p, a + b, c);
    SizeOfBoth(p, a, b);
  }

  lemma {:induction false} FilesSize(p: Platform, text: ManifestFile -> string, files: seq<ManifestFile>)
    requires EncodesUtf8(p) && forall file <- files :: |p.utf8(text(file))| + 8 <= FILE_BYTES
    ensures |p.utf8(FileTexts(text, files))| <= FILE_BYTES * |files|
    decreases |files|
  {
    if files == [] {
      SizeOf(p, "");
    } else {
      var front, last := files[..|files| - 1], text(files[|files| - 1]);
      FilesSize(p, text, front);
      var separator := if |files| == 1 then "\n" else ",\n";
      SizeOf(p, separator);
      SizeOfBoth(p, separator, last);
      SizeOfBoth(p, FileTexts(text, front), separator + last);
    }
  }

  /** What only the caller's names and the dates add. */
  function NamesLength(m: Manifest): nat {
    |m.createdAt| + |m.updatedAt| + |m.writer.deploymentId| + |m.writer.agentId| + |m.writer.agent|
  }

  const SHORT_NAMES := 13_000

  lemma HeadSize(p: Platform, m: Manifest)
    requires EncodesUtf8(p) && |m.id| <= ASSET_MAX_ID_LENGTH
    requires m.description.Some? ==> |m.description.value| <= MAX_DESCRIPTION
    ensures |p.utf8(HeadText(m))| <= 13_700
  {
    var a, b := "{\n  \"id\": ", ",\n  \"description\": ";
    assert |a| == 10 && |b| == 19;
    SizeOf(p, a);
    SizeOf(p, b);
    SizeOf(p, "null");
    QuotedSize(p, m.id);
    if m.description.Some? { QuotedSize(p, m.description.value); }
    var description := if m.description.Some? then Quoted(m.description.value) else "null";
    SizeOfBoth(p, b, description);
    ThreeParts(p, a, Quoted(m.id), b + description);
  }

  lemma DateSize(p: Platform, m: Manifest)
    requires EncodesUtf8(p)
    ensures |p.utf8(DateText(m))| <= 6 * (|m.createdAt| + |m.updatedAt|) + 200
  {
    var a, b := ",\n  \"createdAt\": ", ",\n  \"updatedAt\": ";
    assert |a| == 17 && |b| == 17;
    SizeOf(p, a);
    SizeOf(p, b);
    QuotedSize(p, m.createdAt);
    QuotedSize(p, m.updatedAt);
    SizeOfBoth(p, b, Quoted(m.updatedAt));
    ThreeParts(p, a, Quoted(m.createdAt), b + Quoted(m.updatedAt));
  }

  lemma WriterSize(p: Platform, w: Writer)
    requires EncodesUtf8(p)
    ensures |w.agent| <= |p.utf8(WriterText(w))| <= 6 * (|w.deploymentId| + |w.agentId| + |w.agent|) + 400
  {
    var a, b, c, d :=
        ",\n  \"writer\": {\n    \"deploymentId\": ", ",\n    \"agentId\": ", ",\n    \"agent\": ", "\n  }\n}\n";
    assert |a| == 36 && |b| == 17 && |c| == 15 && |d| == 7;
    SizeOf(p, a);
    SizeOf(p, b);
    SizeOf(p, c);
    SizeOf(p, d);
    QuotedSize(p, w.deploymentId);
    QuotedSize(p, w.agentId);
    QuotedSize(p, w.agent);
    ThreeParts(p, c, Quoted(w.agent), d);
    ThreeParts(p, b, Quoted(w.agentId), c + Quoted(w.agent) + d);
    ThreeParts(p, a, Quoted(w.deploymentId), b + Quoted(w.agentId) + (c + Quoted(w.agent) + d));
  }

  /**
   * Ids, descriptions, paths and sizes are bounded, so a manifest is as long as its names at most, and a fixed bound.
   */
  lemma ManifestSize(p: Platform, m: Manifest)
    requires WritesJson(p) && |m.id| <= ASSET_MAX_ID_LENGTH && |m.files| <= ASSET_MAX_FILES
    requires m.description.Some? ==> |m.description.value| <= MAX_DESCRIPTION
    requires forall file <- m.files :: FileFits(file)
    ensures |p.write(m)| <= 6 * NamesLength(m) + 52_000
  {
    var opening, closing := ",\n  \"files\": [", if m.files == [] then "]" else "\n  ]";
    assert |opening| == 14;
    SizeOf(p, opening);
    SizeOf(p, closing);
    HeadSize(p, m);
    forall file <- m.files ensures |p.utf8(FileText(file))| + 8 <= FILE_BYTES { FileSize(p, file); }
    FilesSize(p, FileText, m.files);
    DateSize(p, m);
    WriterSize(p, m.writer);
    JsonParts(p, HeadText(m), opening, FileTexts(FileText, m.files), closing, DateText(m), WriterText(m.writer));
  }

  lemma JsonParts(p: Platform, head: string, opening: string, files: string, closing: string, dates: string,
      writer: string)
    requires EncodesUtf8(p)
    ensures |p.utf8(head + (opening + files + (closing + (dates + writer))))| ==
            |p.utf8(head)| + |p.utf8(opening)| + |p.utf8(files)| + |p.utf8(closing)| + |p.utf8(dates)| +
                |p.utf8(writer)|
  {
    SizeOfBoth(p, dates, writer);
    SizeOfBoth(p, closing, dates + writer);
    ThreeParts(p, opening, files, closing + (dates + writer));
    SizeOfBoth(p, head, opening + files + (closing + (dates + writer)));
  }

  lemma NameIsWritten(p: Platform, m: Manifest)
    requires WritesJson(p)
    ensures |m.writer.agent| <= |p.write(m)|
  {
    WriterSize(p, m.writer);
    JsonParts(p, HeadText(m), ",\n  \"files\": [", FileTexts(FileText, m.files),
              if m.files == [] then "]" else "\n  ]", DateText(m), WriterText(m.writer));
  }

  lemma DescribedFilesFit(p: Platform, files: seq<PutFile>)
    requires Lawful(p) && Puttable(files)
    ensures forall file <- Described(p, files) :: FileFits(file)
  {
    DescribedAllFit(p, files);
  }

  /**
   * With names and dates of at most 13 000 characters together, get after put needs no condition: every accepted put is
   * read back, byte for byte.
   */
  lemma ShortNamesAreReadBack(p: Platform, put: Request, tree: Tree, truncated: bool, now: string)
    requires Lawful(p) && WritesJson(p) && Normal(put.id) && Admissible(p, put, now)
    requires PlanFor(p, put, tree, truncated, now).Write?
    requires NamesLength(NewManifest(p, put, ManifestAt(p, tree, put.id), now)) <= SHORT_NAMES
    ensures var got := Fetched(p, CommitTo(tree, PlanFor(p, put, tree, truncated, now).changes), put.id);
            got.Ok? && Carries(p, got.value.files, put.files) &&
            got.value.asset == NewManifest(p, put, ManifestAt(p, tree, put.id), now)
  {
    var m := NewManifest(p, put, ManifestAt(p, tree, put.id), now);
    DescribedFilesFit(p, put.files);
    NormalIsPlain(put.id, ASSET_MAX_ID_LENGTH);
    ManifestSize(p, m);
    GetAfterPut(p, put, tree, truncated, now);
  }

  /**
   * A writer's name longer than the limit makes the asset unreadable, wherever the listing gives the manifest's size.
   */
  lemma LongNameIsUnreadable(p: Platform, put: Request, tree: Tree, truncated: bool, now: string)
    requires Lawful(p) && WritesJson(p) && Admissible(p, put, now) && PlanFor(p, put, tree, truncated, now).Write?
    requires |put.writer.agent| > MAX_MANIFEST_BYTES
    requires p.sized(ManifestPath(put.id), p.write(NewManifest(p, put, ManifestAt(p, tree, put.id), now)))
    ensures Fetched(p, CommitTo(tree, PlanFor(p, put, tree, truncated, now).changes), put.id) == Err(NoAsset)
  {
    NameIsWritten(p, NewManifest(p, put, ManifestAt(p, tree, put.id), now));
    GetAfterPut(p, put, tree, truncated, now);
  }
}
