/**
 * add-plugin.py: registers PhotoLibraryPlugin.swift and PhotoLibraryPlugin.m
 * in an Xcode project manifest by splicing eight generated lines in front of
 * anchor substrings. File existence, the backup copy and the final write are
 * outcome flags; the four random UUIDs are taken as parameters.
 */
module AddPlugin {
  import opened Wrappers
  import opened Text

  const AppGroupMarker := "/* App */ ="
  const FileRefEnd := "/* End PBXFileReference section */"
  const BuildFileEnd := "/* End PBXBuildFile section */"
  const SourcesBegin := "/* Begin PBXSourcesBuildPhase section */"
  const ChildrenOpen := "children = ("
  const FilesOpen := "files = ("
  const ListClose := ");"

  /** 2^128: uuid4() carries 128 bits. */
  const UuidRange: nat := 0x1_0000_0000_0000_0000_0000_0000_0000_0000

  // ---------------------------------------------------------------- ids

  function HexDigit(d: nat): char
    requires d < 16
  {
    "0123456789abcdef"[d]
  }

  /** The lowest `width` hexadecimal digits of n, most significant first, lower case. */
  function Hex(n: nat, width: nat): (r: string)
    ensures |r| == width
    ensures forall i :: 0 <= i < |r| ==> IsDigit(r[i]) || 'a' <= r[i] <= 'f'
  {
    if width == 0 then [] else Hex(n / 16, width - 1) + [HexDigit(n % 16)]
  }

  /** uuid.uuid4().hex[:24].upper() for the 128-bit random value r. */
  function GenerateId(r: nat): string
    requires r < UuidRange
  {
    Upper(Hex(r, 32)[..24])
  }

  predicate IsUpperHex(c: char) { IsDigit(c) || 'A' <= c <= 'F' }

  predicate WellFormedId(id: string)
  {
    |id| == 24 && forall i :: 0 <= i < |id| ==> IsUpperHex(id[i])
  }

  /** Each generated id is exactly 24 upper-case hexadecimal characters. */
  lemma GeneratedIdWellFormed(r: nat)
    requires r < UuidRange
    ensures WellFormedId(GenerateId(r))
  {
    var h := Hex(r, 32)[..24];
    assert forall i :: 0 <= i < 24 ==> IsDigit(h[i]) || 'a' <= h[i] <= 'f';
  }

  datatype Ids = Ids(swift: string, objc: string, swiftBuild: string, objcBuild: string)

  predicate WellFormedIds(ids: Ids)
  {
    WellFormedId(ids.swift) && WellFormedId(ids.objc)
    && WellFormedId(ids.swiftBuild) && WellFormedId(ids.objcBuild)
  }

  // ---------------------------------------------------------------- generated lines

  /** The four two-line fragments the script inserts (lines 58-63, 100-101, 122-123). */
  datatype Lines = Lines(fileRefs: string, buildFiles: string, groupChildren: string, sources: string)

  const SwiftFile := "PhotoLibraryPlugin.swift"
  const ObjcFile := "PhotoLibraryPlugin.m"

  /** The ` /* name */` comment that follows an id in the manifest. */
  function Comment(name: string): (r: string)
    ensures |r| == |name| + 7
  {
    " /* " + name + " */"
  }

  /** The ` /* name in Sources */` comment that follows a build-file id. */
  function InSources(name: string): (r: string)
    ensures |r| == |name| + 18
  {
    " /* " + name + " in Sources */"
  }

  /** A PBXFileReference entry (lines 58-59). */
  function FileRefLine(id: string, name: string, kind: string): (r: string)
    ensures |r| == 2 * |name| + |kind| + |id| + 95
  {
    "\t\t" + id + Comment(name) + " = {isa = PBXFileReference; lastKnownFileType = " + kind
    + "; path = " + name + "; sourceTree = \"<group>\"; };\n"
  }

  /** A PBXBuildFile entry pointing at the file reference `ref` (lines 62-63). */
  function BuildFileLine(id: string, ref: string, name: string): (r: string)
    ensures |r| == 2 * |name| + |id| + |ref| + 66
  {
    "\t\t" + id + InSources(name) + " = {isa = PBXBuildFile; fileRef = " + ref + Comment(name) + "; };\n"
  }

  /** An entry of a `children` or `files` list (lines 100-101, 122-123). */
  function ListLine(id: string, comment: string): (r: string)
    ensures |r| == |id| + |comment| + 6
  {
    "\t\t\t\t" + id + comment + ",\n"
  }

  function LinesFor(ids: Ids): Lines
  {
    Lines(
      FileRefLine(ids.swift, SwiftFile, "sourcecode.swift") + FileRefLine(ids.objc, ObjcFile, "sourcecode.c.objc"),
      BuildFileLine(ids.swiftBuild, ids.swift, SwiftFile) + BuildFileLine(ids.objcBuild, ids.objc, ObjcFile),
      ListLine(ids.swift, Comment(SwiftFile)) + ListLine(ids.objc, Comment(ObjcFile)),
      ListLine(ids.swiftBuild, InSources(SwiftFile)) + ListLine(ids.objcBuild, InSources(ObjcFile)))
  }

  /** Total length of the eight inserted lines. */
  function InsertedLength(lines: Lines): nat
  {
    |lines.fileRefs| + |lines.buildFiles| + |lines.groupChildren| + |lines.sources|
  }

  /** With 24-character ids the eight lines always add 933 characters. */
  lemma InsertedLengthConstant(ids: Ids)
    requires WellFormedIds(ids)
    ensures InsertedLength(LinesFor(ids)) == 933
  {
  }

  // ---------------------------------------------------------------- splicing

  /** p is the first occurrence of pat in c at or after `from`. */
  ghost predicate FirstAt(c: string, pat: string, from: nat, p: int)
  {
    from <= p && OccursAt(c, pat, p) && forall q :: from <= q < p ==> !OccursAt(c, pat, q)
  }

  lemma FindIsFirst(c: string, pat: string, from: nat, p: int)
    ensures FirstAt(c, pat, from, p) <==> (p >= 0 && Find(c, pat, from) == p)
  {
  }

  /** r is c with ins put at position p: what precedes p and what follows it are unchanged. */
  ghost predicate SplicedAt(c: string, r: string, p: int, ins: string)
  {
    0 <= p <= |c| && |r| == |c| + |ins|
    && r[..p] == c[..p] && r[p..p + |ins|] == ins && r[p + |ins|..] == c[p..]
  }

  function InsertAt(c: string, p: nat, ins: string): (r: string)
    requires p <= |c|
    ensures SplicedAt(c, r, p, ins)
  {
    var r := c[..p] + ins + c[p..];
    assert r[..p] == c[..p];
    assert r[p..p + |ins|] == ins;
    assert r[p + |ins|..] == c[p..];
    r
  }

  /** Lines 66-71 and 74-79: insert `ins` just before the first occurrence of `anchor`. */
  function SpliceBeforeFirst(c: string, anchor: string, ins: string): (r: Option<string>)
    ensures r.None? <==> !Contains(c, anchor)
    ensures r.Some? ==> |r.value| == |c| + |ins|
  {
    var p := Find(c, anchor, 0);
    FindContains(c, anchor);
    if p < 0 then None else Some(InsertAt(c, p, ins))
  }

  /** The new text sits immediately before the first occurrence of the anchor. */
  lemma SpliceBeforeFirstPlacement(c: string, anchor: string, ins: string)
    ensures SpliceBeforeFirst(c, anchor, ins).Some? ==>
      exists p :: FirstAt(c, anchor, 0, p) && SplicedAt(c, SpliceBeforeFirst(c, anchor, ins).value, p, ins)
  {
    var p := Find(c, anchor, 0);
    if p >= 0 {
      FindIsFirst(c, anchor, 0, p);
      assert FirstAt(c, anchor, 0, p) && SplicedAt(c, SpliceBeforeFirst(c, anchor, ins).value, p, ins);
    }
  }

  /** e is the first `close` after the first `open` after the first `marker`. */
  ghost predicate ListEndAt(c: string, marker: string, open: string, close: string, e: int)
  {
    exists g: nat, o: nat :: FirstAt(c, marker, 0, g) && FirstAt(c, open, g, o) && FirstAt(c, close, o, e)
  }

  /**
   * Lines 83-103 and 107-125: insert `ins` before the first `close` following
   * the first `open` that follows the first `marker`; nothing if one is missing.
   */
  function SpliceInList(c: string, marker: string, open: string, close: string, ins: string): (r: Option<string>)
    ensures r.Some? ==> |r.value| == |c| + |ins|
  {
    var g := Find(c, marker, 0);
    if g < 0 then None
    else
      var o := Find(c, open, g);
      if o < 0 then None
      else
        var e := Find(c, close, o);
        if e < 0 then None else Some(InsertAt(c, e, ins))
  }

  /** The list splice happens exactly when the list end exists, and right before it. */
  lemma SpliceInListPlacement(c: string, marker: string, open: string, close: string, ins: string)
    ensures var r := SpliceInList(c, marker, open, close, ins);
      (r.Some? ==> exists e :: ListEndAt(c, marker, open, close, e) && SplicedAt(c, r.value, e, ins))
      && (r.None? ==> forall e :: !ListEndAt(c, marker, open, close, e))
  {
    ListEndFound(c, marker, open, close);
    var g := Find(c, marker, 0);
    if g >= 0 {
      var o := Find(c, open, g);
      if o >= 0 {
        var e := Find(c, close, o);
        if e >= 0 {
          FindIsFirst(c, marker, 0, g);
          FindIsFirst(c, open, g, o);
          FindIsFirst(c, close, o, e);
          assert ListEndAt(c, marker, open, close, e);
        }
      }
    }
  }

  /** A list end, when there is one, is where the three searches lead. */
  lemma ListEndFound(c: string, marker: string, open: string, close: string)
    ensures forall e :: ListEndAt(c, marker, open, close, e) ==>
      var g := Find(c, marker, 0);
      g >= 0 && Find(c, open, g) >= 0 && Find(c, close, Find(c, open, g)) == e
  {
    forall e | ListEndAt(c, marker, open, close, e)
      ensures var g := Find(c, marker, 0);
        g >= 0 && Find(c, open, g) >= 0 && Find(c, close, Find(c, open, g)) == e
    {
      var g: nat, o: nat :| FirstAt(c, marker, 0, g) && FirstAt(c, open, g, o) && FirstAt(c, close, o, e);
      FindIsFirst(c, marker, 0, g);
      FindIsFirst(c, open, g, o);
      FindIsFirst(c, close, o, e);
    }
  }

  /** Line 42, then lines 66-71: the App group must exist; file references go in first. */
  function WithFileRefs(manifest: string, lines: Lines): Option<string>
  {
    if !Contains(manifest, AppGroupMarker) then None
    else SpliceBeforeFirst(manifest, FileRefEnd, lines.fileRefs)
  }

  /** Lines 74-79: then the build files. */
  function WithBuildFiles(manifest: string, lines: Lines): Option<string>
  {
    match WithFileRefs(manifest, lines)
    case None => None
    case Some(c) => SpliceBeforeFirst(c, BuildFileEnd, lines.buildFiles)
  }

  /** Lines 83-103: then the App group's children. */
  function WithGroupChildren(manifest: string, lines: Lines): Option<string>
  {
    match WithBuildFiles(manifest, lines)
    case None => None
    case Some(c) => SpliceInList(c, AppGroupMarker, ChildrenOpen, ListClose, lines.groupChildren)
  }

  /** Lines 107-125: finally the Sources build phase; None means the script exited with status 1. */
  function Patch(manifest: string, lines: Lines): Option<string>
  {
    match WithGroupChildren(manifest, lines)
    case None => None
    case Some(c) => SpliceInList(c, SourcesBegin, FilesOpen, ListClose, lines.sources)
  }

  /** A manifest without the App group marker or the file-reference end marker is never patched. */
  lemma PatchNeedsAnchors(manifest: string, lines: Lines)
    requires !Contains(manifest, AppGroupMarker) || !Contains(manifest, FileRefEnd)
    ensures Patch(manifest, lines).None?
  {
    assert WithFileRefs(manifest, lines).None?;
    assert WithBuildFiles(manifest, lines).None?;
    assert WithGroupChildren(manifest, lines).None?;
  }

  lemma StageLengths(manifest: string, lines: Lines)
    ensures WithFileRefs(manifest, lines).Some? ==>
      |WithFileRefs(manifest, lines).value| == |manifest| + |lines.fileRefs|
    ensures WithBuildFiles(manifest, lines).Some? ==>
      |WithBuildFiles(manifest, lines).value| == |WithFileRefs(manifest, lines).value| + |lines.buildFiles|
    ensures WithGroupChildren(manifest, lines).Some? ==>
      |WithGroupChildren(manifest, lines).value| == |WithBuildFiles(manifest, lines).value| + |lines.groupChildren|
    ensures Patch(manifest, lines).Some? ==>
      |Patch(manifest, lines).value| == |WithGroupChildren(manifest, lines).value| + |lines.sources|
  {
  }

  /** A successful patch grows the manifest by exactly the eight inserted lines. */
  lemma PatchLength(manifest: string, lines: Lines)
    ensures Patch(manifest, lines).Some? ==> |Patch(manifest, lines).value| == |manifest| + InsertedLength(lines)
  {
    StageLengths(manifest, lines);
  }

  /** The script is not idempotent: a second successful run adds the eight lines again. */
  lemma RunTwiceDuplicates(manifest: string, ids: Ids, out1: string, out2: string)
    requires WellFormedIds(ids)
    requires Patch(manifest, LinesFor(ids)) == Some(out1)
    requires Patch(out1, LinesFor(ids)) == Some(out2)
    ensures |out2| == |manifest| + 2 * 933
    ensures out1 != manifest && out2 != out1
  {
    InsertedLengthConstant(ids);
    PatchLength(manifest, LinesFor(ids));
    PatchLength(out1, LinesFor(ids));
  }

  // ---------------------------------------------------------------- the script

  /** What running the script did: its exit status, whether it made the backup, and what it wrote. */
  datatype Outcome = Outcome(exitCode: int, backedUp: bool, written: Option<string>)

  /** Lines 41-125: the four find-and-splice steps, rebinding `content` like the original. */
  method PatchContent(manifest: string, lines: Lines) returns (result: Option<string>)
    ensures result == Patch(manifest, lines)
    ensures result.Some? ==> |result.value| == |manifest| + InsertedLength(lines)
  {
    PatchLength(manifest, lines);
    var content := manifest;
    if !Contains(content, AppGroupMarker) {
      return None;
    }
    var fileRefPos := Find(content, FileRefEnd, 0);
    FindContains(content, FileRefEnd);
    if fileRefPos == -1 {
      return None;
    }
    content := content[..fileRefPos] + lines.fileRefs + content[fileRefPos..];
    assert WithFileRefs(manifest, lines) == Some(content);

    var buildPos := Find(content, BuildFileEnd, 0);
    FindContains(content, BuildFileEnd);
    if buildPos == -1 {
      return None;
    }
    content := content[..buildPos] + lines.buildFiles + content[buildPos..];
    assert WithBuildFiles(manifest, lines) == Some(content);

    var groupStart := Find(content, AppGroupMarker, 0);
    if groupStart == -1 {
      return None;
    }
    var childrenStart := Find(content, ChildrenOpen, groupStart);
    if childrenStart == -1 {
      return None;
    }
    var childrenEnd := Find(content, ListClose, childrenStart);
    if childrenEnd == -1 {
      return None;
    }
    content := content[..childrenEnd] + lines.groupChildren + content[childrenEnd..];
    assert WithGroupChildren(manifest, lines) == Some(content);

    var sourcesStart := Find(content, SourcesBegin, 0);
    if sourcesStart == -1 {
      return None;
    }
    var filesStart := Find(content, FilesOpen, sourcesStart);
    if filesStart == -1 {
      return None;
    }
    var filesEnd := Find(content, ListClose, filesStart);
    if filesEnd == -1 {
      return None;
    }
    content := content[..filesEnd] + lines.sources + content[filesEnd..];
    return Some(content);
  }

  /**
   * The whole script: both plugin files must exist before the backup is made;
   * any failed search exits with status 1 after the backup and before the write.
   */
  method Run(swiftExists: bool, objcExists: bool, manifest: string,
             r1: nat, r2: nat, r3: nat, r4: nat) returns (out: Outcome)
    requires r1 < UuidRange && r2 < UuidRange && r3 < UuidRange && r4 < UuidRange
    ensures out.backedUp <==> swiftExists && objcExists
    ensures !(swiftExists && objcExists) ==> out.exitCode == 1 && out.written.None?
    ensures swiftExists && objcExists ==>
              out.written == Patch(manifest, LinesFor(Ids(GenerateId(r1), GenerateId(r2), GenerateId(r3), GenerateId(r4))))
    ensures out.written.Some? ==> |out.written.value| == |manifest| + 933
    ensures out.exitCode == 0 <==> out.written.Some?
    ensures out.exitCode == 0 || out.exitCode == 1
  {
    if !swiftExists || !objcExists {
      return Outcome(1, false, None);
    }
    // the backup copy is made here, before the manifest is read
    var ids := Ids(GenerateId(r1), GenerateId(r2), GenerateId(r3), GenerateId(r4));
    GeneratedIdWellFormed(r1);
    GeneratedIdWellFormed(r2);
    GeneratedIdWellFormed(r3);
    GeneratedIdWellFormed(r4);
    InsertedLengthConstant(ids);
    var written := PatchContent(manifest, LinesFor(ids));
    if written.None? {
      return Outcome(1, true, None);
    }
    return Outcome(0, true, written);
  }
}
