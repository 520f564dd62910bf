/**
  Packaging a release binary and verifying a downloaded archive (scripts/rendezvous_release.py).
  File contents are strings of bytes. The digest, the metadata encoding, the ELF inspection and
  running the binary are parameters.
  */
module ReleaseArchive {
  import opened Wrappers
  import opened StableSort

  const BINARY := "berrykeep-rendezvous-service"
  const TARGET := "x86_64-unknown-linux-musl"
  const SUMS := "SHA256SUMS"
  const METADATA := "build-metadata.json"
  const ENTRY_LIMIT := 128 * 1024 * 1024
  const EXECUTABLE := 493   // mode 0755
  const READABLE := 420     // mode 0644

  /** Metadata as a reader sees it: a field that is absent or null is `None`. */
  datatype Metadata = Metadata(
    schemaVersion: Option<int>, binary: Option<string>, version: Option<string>, releaseTag: Option<string>,
    gitCommit: Option<string>, buildRevision: Option<string>, rustTarget: Option<string>,
    sourceDirty: Option<bool>, binaryDigest: Option<string>)

  datatype Tools = Tools(
    digest: string -> string,
    encode: Metadata -> string,
    decode: string -> Option<Metadata>,             // `None` when the text is not an object
    staticElf: string -> bool,
    reports: (string, string, string) -> bool,      // binary, version, revision
    labelChar: char -> bool)                        // printable and not a space

  ghost predicate DecodesWhatItEncodes(tools: Tools) {
    forall m :: tools.decode(tools.encode(m)) == Some(m)
  }

  datatype Entry = Entry(name: string, regular: bool, mode: nat, content: string)

  datatype Archive = Archive(name: string, entries: seq<Entry>)

  /** What the checkout looks like to git. */
  datatype Source = Source(
    head: string, clean: bool, version: string, revision: string,
    tagApproved: bool)   // the tag is annotated, names the commit, and the commit is on main

  predicate Digits(s: string) {
    forall i :: 0 <= i < |s| ==> '0' <= s[i] <= '9'
  }

  /** The text is split by dots at `i` and `j` into three numbers, the first without a leading zero. */
  predicate DotsAt(v: string, i: int, j: int) {
    && 0 < i < i + 1 < j < j + 1 < |v| && v[i] == '.' && v[j] == '.' && v[0] != '0'
    && Digits(v[..i]) && Digits(v[i + 1..j]) && Digits(v[j + 1..])
  }

  predicate IsVersion(v: string) {
    exists i, j :: 0 <= i < |v| && 0 <= j < |v| && DotsAt(v, i, j)
  }

  predicate IsCommit(c: string) {
    |c| == 40 && forall i :: 0 <= i < |c| ==> '0' <= c[i] <= '9' || 'a' <= c[i] <= 'f'
  }

  predicate IsRevision(tools: Tools, r: string) {
    1 <= |r| <= 1024 && forall i :: 0 <= i < |r| ==> tools.labelChar(r[i])
  }

  function BaseName(version: string): string {
    BINARY + "-" + version + "-" + TARGET
  }

  function ArchiveName(version: string): string {
    BaseName(version) + ".tar.gz"
  }

  function SumsText(tools: Tools, data: string): string {
    tools.digest(data) + "  " + BINARY + "\n"
  }

  function ModeOf(name: string): nat {
    if EndsWith(name, "/" + BINARY) then EXECUTABLE else READABLE
  }

  predicate EndsWith(s: string, suffix: string) {
    |suffix| <= |s| && s[|s| - |suffix|..] == suffix
  }

  function EntryName(version: string, file: string): string {
    BaseName(version) + "/" + file
  }

  // ---------------------------------------------------------------------------
  // Packaging
  // ---------------------------------------------------------------------------

  /** `validate_source` with `validate_release_identity` */
  predicate SourceApproved(tools: Tools, source: Source, commit: string, tag: Option<string>) {
    && IsCommit(commit) && source.head == commit && source.clean && IsVersion(source.version)
    && (tag.Some? ==> tag.value == "v" + source.version && source.tagApproved)
    && IsRevision(tools, source.revision)
  }

  function DescribeBuild(tools: Tools, source: Source, data: string, commit: string, tag: Option<string>): Metadata {
    Metadata(Some(1), Some(BINARY), Some(source.version), tag, Some(commit), Some(source.revision),
             Some(TARGET), Some(false), Some(tools.digest(data)))
  }

  function Packaged(tools: Tools, source: Source, data: string, commit: string, tag: Option<string>): Archive {
    var v := source.version;
    Archive(ArchiveName(v),
            [Entry(EntryName(v, BINARY), true, EXECUTABLE, data),
             Entry(EntryName(v, SUMS), true, READABLE, SumsText(tools, data)),
             Entry(EntryName(v, METADATA), true, READABLE,
                   tools.encode(DescribeBuild(tools, source, data, commit, tag)))])
  }

  /** When `package_release` produces an archive at all. */
  predicate CanPackage(tools: Tools, source: Source, data: string, commit: string, tag: Option<string>) {
    && SourceApproved(tools, source, commit, tag)
    && tools.staticElf(data) && tools.reports(data, source.version, source.revision)
  }

  /** `package_release` */
  method PackageRelease(tools: Tools, source: Source, data: string, commit: string, tag: Option<string>)
    returns (archive: Result<Archive>)
    ensures archive.Ok? <==> CanPackage(tools, source, data, commit, tag)
    ensures archive.Ok? ==> archive.value == Packaged(tools, source, data, commit, tag)
  {
    if !IsCommit(commit) || source.head != commit {
      return Err("source commit does not match");
    }
    if !source.clean {
      return Err("source is not clean");
    }
    if !IsVersion(source.version) {
      return Err("not a stable version");
    }
    if tag.Some? {
      if tag.value != "v" + source.version {
        return Err("tag and version disagree");
      }
      if !source.tagApproved {
        return Err("tag is not approved");
      }
    }
    if !IsRevision(tools, source.revision) {
      return Err("unexpected build revision");
    }
    if !tools.staticElf(data) {
      return Err("not a static executable");
    }
    if !tools.reports(data, source.version, source.revision) {
      return Err("binary version does not match its source");
    }
    var metadata := DescribeBuild(tools, source, data, commit, tag);
    var members := [(BINARY, data, EXECUTABLE), (SUMS, SumsText(tools, data), READABLE),
                    (METADATA, tools.encode(metadata), READABLE)];
    var entries: seq<Entry> := [];
    for i := 0 to |members|
      invariant |entries| == i
      invariant forall k :: 0 <= k < i ==>
        entries[k] == Entry(EntryName(source.version, members[k].0), true, members[k].2, members[k].1)
    {
      var (file, content, mode) := members[i];
      entries := entries + [Entry(EntryName(source.version, file), true, mode, content)];
    }
    archive := Ok(Archive(ArchiveName(source.version), entries));
  }

  // ---------------------------------------------------------------------------
  // Verification
  // ---------------------------------------------------------------------------

  function Names(entries: seq<Entry>): set<string> {
    set i | 0 <= i < |entries| :: entries[i].name
  }

  function ContentOf(entries: seq<Entry>, name: string): string {
    if entries == [] then ""
    else if entries[0].name == name then entries[0].content
    else ContentOf(entries[1..], name)
  }

  predicate EntriesOk(entries: seq<Entry>, version: string) {
    && |entries| == 3
    && Names(entries) == {EntryName(version, BINARY), EntryName(version, SUMS), EntryName(version, METADATA)}
    && (forall i :: 0 <= i < |entries| ==> entries[i].regular && |entries[i].content| <= ENTRY_LIMIT)
    && (forall i :: 0 <= i < |entries| ==> entries[i].mode == ModeOf(entries[i].name))
  }

  predicate MetadataOk(tools: Tools, m: Metadata, tag: string, commit: string)
    requires |tag| > 0
  {
    && m.gitCommit == Some(commit) && m.releaseTag == Some(tag)
    && m.schemaVersion == Some(1) && m.binary == Some(BINARY) && m.version == Some(tag[1..])
    && m.rustTarget == Some(TARGET) && m.sourceDirty == Some(false)
    && m.buildRevision.Some? && IsRevision(tools, m.buildRevision.value)
  }

  predicate IsTag(tag: string) {
    |tag| > 0 && tag[0] == 'v' && IsVersion(tag[1..])
  }

  /** The three files against the expected tag and commit. */
  function VerifyFiles(tools: Tools, binary: string, sums: string, description: string, tag: string, commit: string)
    : Result<Metadata>
    requires |tag| > 0
  {
    var metadata := tools.decode(description);
    if metadata.None? then Err("metadata is not an object")
    else if !MetadataOk(tools, metadata.value, tag, commit) then Err("metadata does not describe the release")
    else if metadata.value.binaryDigest != Some(tools.digest(binary)) || sums != SumsText(tools, binary)
    then Err("binary hash mismatch")
    else if !tools.staticElf(binary) then Err("not a static executable")
    else Ok(metadata.value)
  }

  /** `verify_archive` */
  function VerifyArchive(tools: Tools, archive: Archive, tag: string, commit: string): Result<Metadata> {
    if !IsTag(tag) || !IsCommit(commit) then Err("invalid expected tag or commit")
    else if archive.name != ArchiveName(tag[1..]) then Err("unexpected archive name")
    else if !EntriesOk(archive.entries, tag[1..]) then Err("unexpected archive entries")
    else VerifyFiles(tools,
                     ContentOf(archive.entries, EntryName(tag[1..], BINARY)),
                     ContentOf(archive.entries, EntryName(tag[1..], SUMS)),
                     ContentOf(archive.entries, EntryName(tag[1..], METADATA)), tag, commit)
  }

  // ---------------------------------------------------------------------------
  // Round trip
  // ---------------------------------------------------------------------------

  /** Entry names differ by their last component, and only the binary's ends in the binary's name. */
  lemma EntryNames(version: string)
    ensures ModeOf(EntryName(version, BINARY)) == EXECUTABLE
    ensures ModeOf(EntryName(version, SUMS)) == READABLE
    ensures ModeOf(EntryName(version, METADATA)) == READABLE
    ensures EntryName(version, BINARY) != EntryName(version, SUMS)
    ensures EntryName(version, BINARY) != EntryName(version, METADATA)
    ensures EntryName(version, SUMS) != EntryName(version, METADATA)
  {
    assert |EntryName(version, BINARY)| == |BaseName(version)| + 29;
    assert |EntryName(version, SUMS)| == |BaseName(version)| + 11;
    assert |EntryName(version, METADATA)| == |BaseName(version)| + 20;
    var b, s, m := EntryName(version, BINARY), EntryName(version, SUMS), EntryName(version, METADATA);
    assert b[|b| - |"/" + BINARY|..] == "/" + BINARY;
    assert s[|s| - 1] == 'S' && m[|m| - 1] == 'n' && ("/" + BINARY)[|"/" + BINARY| - 1] == 'e';
  }

  /** Archive names tell versions apart. */
  lemma ArchiveNameInjective(v: string, w: string)
    requires ArchiveName(v) == ArchiveName(w)
    ensures v == w
  {
    var head, tail := BINARY + "-", "-" + TARGET + ".tar.gz";
    assert ArchiveName(v) == head + v + tail && ArchiveName(w) == head + w + tail;
    assert |v| == |w|;
    assert v == (head + v + tail)[|head|..|head| + |v|];
    assert w == (head + w + tail)[|head|..|head| + |w|];
  }

  /** Every entry of the packaged archive fits the bound the verifier enforces. */
  predicate WithinBound(tools: Tools, source: Source, data: string, commit: string, tag: Option<string>) {
    && |data| <= ENTRY_LIMIT && |SumsText(tools, data)| <= ENTRY_LIMIT
    && |tools.encode(DescribeBuild(tools, source, data, commit, tag))| <= ENTRY_LIMIT
  }

  lemma PackagedEntries(tools: Tools, source: Source, data: string, commit: string, tag: Option<string>)
    ensures var entries := Packaged(tools, source, data, commit, tag).entries;
            && (EntriesOk(entries, source.version) <==> WithinBound(tools, source, data, commit, tag))
            && ContentOf(entries, EntryName(source.version, BINARY)) == data
            && ContentOf(entries, EntryName(source.version, SUMS)) == SumsText(tools, data)
            && ContentOf(entries, EntryName(source.version, METADATA))
               == tools.encode(DescribeBuild(tools, source, data, commit, tag))
  {
    hide ModeOf, EntryName, ArchiveName, SumsText, DescribeBuild;
    EntryNames(source.version);
    var entries := Packaged(tools, source, data, commit, tag).entries;
    var b, s, m := entries[0], entries[1], entries[2];
    assert entries == [b, s, m];
    assert Names(entries) == {b.name, s.name, m.name};
    assert entries[1..] == [s, m] && entries[2..] == [m];
    assert ContentOf(entries[1..], s.name) == s.content;
    assert entries[1..][1..] == [m];
    assert ContentOf(entries[1..], m.name) == ContentOf([m], m.name);
  }

  lemma PackagedFiles(
    tools: Tools, source: Source, data: string, commit: string, tag: Option<string>, wantTag: string, wantCommit: string)
    requires DecodesWhatItEncodes(tools) && CanPackage(tools, source, data, commit, tag)
    requires |wantTag| > 0 && wantTag[1..] == source.version
    ensures VerifyFiles(tools, data, SumsText(tools, data),
                        tools.encode(DescribeBuild(tools, source, data, commit, tag)), wantTag, wantCommit).Ok?
       <==> tag == Some(wantTag) && wantCommit == commit
  {
    hide IsVersion, IsRevision, IsCommit, SumsText;
  }

  /**
    A packaged archive is accepted for its own tag and commit and for no other, provided its
    entries fit the bound; one packaged without a tag is never accepted.
    */
  lemma PackageVerify(
    tools: Tools, source: Source, data: string, commit: string, tag: Option<string>, wantTag: string, wantCommit: string)
    requires DecodesWhatItEncodes(tools) && CanPackage(tools, source, data, commit, tag)
    ensures VerifyArchive(tools, Packaged(tools, source, data, commit, tag), wantTag, wantCommit).Ok?
       <==> tag == Some(wantTag) && wantCommit == commit && WithinBound(tools, source, data, commit, tag)
  {
    hide WithinBound, EntriesOk, VerifyFiles, ContentOf, IsVersion, IsRevision, SumsText, ArchiveName, EntryName,
         DescribeBuild, IsCommit;
    PackagedEntries(tools, source, data, commit, tag);
    var own := "v" + source.version;
    assert own[1..] == source.version;
    assert IsTag(own);
    if |wantTag| > 0 && ArchiveName(source.version) == ArchiveName(wantTag[1..]) {
      ArchiveNameInjective(source.version, wantTag[1..]);
      PackagedFiles(tools, source, data, commit, tag, wantTag, wantCommit);
    }
  }

  /** An accepted archive's metadata pins its binary: no two binaries are accepted under one description. */
  lemma MetadataPinsBinary(tools: Tools, a: Archive, b: Archive, tag: string, commit: string, m: Metadata)
    requires forall x, y :: tools.digest(x) == tools.digest(y) ==> x == y
    requires VerifyArchive(tools, a, tag, commit) == Ok(m) && VerifyArchive(tools, b, tag, commit) == Ok(m)
    ensures ContentOf(a.entries, EntryName(tag[1..], BINARY)) == ContentOf(b.entries, EntryName(tag[1..], BINARY))
  {
    hide EntriesOk, MetadataOk, IsVersion, IsCommit, ContentOf, EntryName, ArchiveName, SumsText;
  }

  // ---------------------------------------------------------------------------
  // What is accepted
  // ---------------------------------------------------------------------------

  /** The entries of a release archive, in the order they are written. */
  function ReleaseEntries(tools: Tools, version: string, data: string, description: string): seq<Entry> {
    [Entry(EntryName(version, BINARY), true, 493, data),
     Entry(EntryName(version, SUMS), true, 420, tools.digest(data) + "  " + BINARY + "\n"),
     Entry(EntryName(version, METADATA), true, 420, description)]
  }

  /**
    The archive is, up to the order of its entries and the wording of its description, one that
    packaging yields for this tag and commit.
    */
  ghost predicate IsRelease(
    tools: Tools, archive: Archive, tag: string, commit: string, m: Metadata, data: string, description: string)
  {
    && IsTag(tag) && IsCommit(commit) && archive.name == ArchiveName(tag[1..])
    && multiset(archive.entries) == multiset(ReleaseEntries(tools, tag[1..], data, description))
    && (forall e :: e in ReleaseEntries(tools, tag[1..], data, description) ==> |e.content| <= ENTRY_LIMIT)
    && tools.staticElf(data) && tools.decode(description) == Some(m)
    && m.buildRevision.Some? && IsRevision(tools, m.buildRevision.value)
    && m == Metadata(Some(1), Some(BINARY), Some(tag[1..]), Some(tag), Some(commit), m.buildRevision,
                     Some(TARGET), Some(false), Some(tools.digest(data)))
  }

  lemma {:induction false} FirstNamed(entries: seq<Entry>, name: string) returns (e: Entry)
    requires exists i :: 0 <= i < |entries| && entries[i].name == name
    ensures e in entries && e.name == name && e.content == ContentOf(entries, name)
  {
    if entries[0].name == name {
      e := entries[0];
    } else {
      var i :| 0 <= i < |entries| && entries[i].name == name;
      assert entries[1..][i - 1] == entries[i];
      e := FirstNamed(entries[1..], name);
    }
  }

  lemma NamedExists(entries: seq<Entry>, name: string)
    requires name in Names(entries)
    ensures exists i :: 0 <= i < |entries| && entries[i].name == name
  {
  }

  /** Three entries with three given names, whatever their order. */
  lemma ThreeEntries(entries: seq<Entry>, a: string, b: string, c: string) returns (x: Entry, y: Entry, z: Entry)
    requires |entries| == 3 && Names(entries) == {a, b, c} && a != b && a != c && b != c
    ensures multiset(entries) == multiset([x, y, z]) && x.name == a && y.name == b && z.name == c
    ensures x.content == ContentOf(entries, a) && y.content == ContentOf(entries, b) && z.content == ContentOf(entries, c)
  {
    hide Names, ContentOf;
    NamedExists(entries, a);
    NamedExists(entries, b);
    NamedExists(entries, c);
    x := FirstNamed(entries, a);
    y := FirstNamed(entries, b);
    z := FirstNamed(entries, c);
    assert x in multiset(entries) && y in multiset(entries) && z in multiset(entries);
    assert multiset([x, y, z]) == multiset{x, y, z};
    MultisetSubsetSameSize(multiset([x, y, z]), multiset(entries));
  }

  lemma AcceptedEntries(archive: Archive, version: string)
    requires EntriesOk(archive.entries, version)
    ensures var entries := archive.entries;
            multiset(entries) == multiset(
              [Entry(EntryName(version, BINARY), true, EXECUTABLE, ContentOf(entries, EntryName(version, BINARY))),
               Entry(EntryName(version, SUMS), true, READABLE, ContentOf(entries, EntryName(version, SUMS))),
               Entry(EntryName(version, METADATA), true, READABLE, ContentOf(entries, EntryName(version, METADATA)))])
  {
    EntryNames(version);
    var (b, s, m) := (EntryName(version, BINARY), EntryName(version, SUMS), EntryName(version, METADATA));
    var entries := archive.entries;
    hide ContentOf, Names, EntryName, ModeOf;
    var x, y, z := ThreeEntries(entries, b, s, m);
    forall e | e in [x, y, z] ensures e.regular && e.mode == ModeOf(e.name) {
      assert e in multiset([x, y, z]);
      assert e in multiset(entries);
      assert e in entries;
    }
    assert x in [x, y, z] && y in [x, y, z] && z in [x, y, z];
  }

  /** Entries that are those of a release in some order pass, and are read back by name. */
  lemma ReleaseEntriesRead(entries: seq<Entry>, x: Entry, y: Entry, z: Entry)
    requires multiset(entries) == multiset([x, y, z]) && x.name != y.name && x.name != z.name && y.name != z.name
    ensures |entries| == 3 && Names(entries) == {x.name, y.name, z.name}
    ensures ContentOf(entries, x.name) == x.content && ContentOf(entries, y.name) == y.content
    ensures ContentOf(entries, z.name) == z.content
    ensures forall e :: e in entries <==> e == x || e == y || e == z
  {
    assert |multiset(entries)| == |multiset([x, y, z])|;
    forall e ensures e in entries <==> e == x || e == y || e == z {
      assert e in entries <==> e in multiset(entries);
      assert e in [x, y, z] <==> e in multiset([x, y, z]);
    }
    assert forall i :: 0 <= i < |entries| ==> entries[i] in entries;
    forall n ensures n in Names(entries) <==> n in {x.name, y.name, z.name} {
      assert x in entries && y in entries && z in entries;
    }
    ReadsByName(entries, x);
    ReadsByName(entries, y);
    ReadsByName(entries, z);
  }

  lemma {:induction false} ReadsByName(entries: seq<Entry>, x: Entry)
    requires x in entries && forall e :: e in entries && e.name == x.name ==> e == x
    ensures ContentOf(entries, x.name) == x.content
  {
    if entries[0].name != x.name {
      assert x in entries[1..];
      ReadsByName(entries[1..], x);
    } else {
      assert entries[0] in entries;
    }
  }

  /** Acceptance means being a release of that tag and commit, and nothing less. */
  lemma AcceptedIffRelease(tools: Tools, archive: Archive, tag: string, commit: string, m: Metadata)
    ensures VerifyArchive(tools, archive, tag, commit) == Ok(m) <==>
            exists data, description :: IsRelease(tools, archive, tag, commit, m, data, description)
  {
    if VerifyArchive(tools, archive, tag, commit) == Ok(m) {
      AcceptedIsRelease(tools, archive, tag, commit, m);
    }
    if data, description :| IsRelease(tools, archive, tag, commit, m, data, description) {
      ReleaseIsAccepted(tools, archive, tag, commit, m, data, description);
    }
  }

  lemma AcceptedIsRelease(tools: Tools, archive: Archive, tag: string, commit: string, m: Metadata)
    requires VerifyArchive(tools, archive, tag, commit) == Ok(m)
    ensures exists data, description :: IsRelease(tools, archive, tag, commit, m, data, description)
  {
    hide IsVersion, IsCommit, IsRevision, ContentOf, EntryName, ArchiveName, EntriesOk;
    var v := tag[1..];
    var data := ContentOf(archive.entries, EntryName(v, BINARY));
    var description := ContentOf(archive.entries, EntryName(v, METADATA));
    AcceptedEntries(archive, v);
    assert multiset(archive.entries) == multiset(ReleaseEntries(tools, v, data, description));
    forall e | e in ReleaseEntries(tools, v, data, description) ensures |e.content| <= ENTRY_LIMIT {
      assert e in multiset(ReleaseEntries(tools, v, data, description));
      assert e in archive.entries;
      EntryBounded(archive.entries, v, e);
    }
    assert IsRelease(tools, archive, tag, commit, m, data, description);
  }

  lemma EntryBounded(entries: seq<Entry>, version: string, e: Entry)
    requires EntriesOk(entries, version) && e in entries
    ensures |e.content| <= ENTRY_LIMIT
  {
    hide EntryName, Names, ModeOf;
  }

  lemma ReleaseIsAccepted(
    tools: Tools, archive: Archive, tag: string, commit: string, m: Metadata, data: string, description: string)
    requires IsRelease(tools, archive, tag, commit, m, data, description)
    ensures VerifyArchive(tools, archive, tag, commit) == Ok(m)
  {
    hide IsVersion, IsCommit, IsRevision, ContentOf, EntryName, ArchiveName, Names, ModeOf;
    var v := tag[1..];
    EntryNames(v);
    var entries := ReleaseEntries(tools, v, data, description);
    ReleaseEntriesRead(archive.entries, entries[0], entries[1], entries[2]);
    assert entries == [entries[0], entries[1], entries[2]];
    forall i | 0 <= i < |archive.entries|
      ensures archive.entries[i].regular && |archive.entries[i].content| <= ENTRY_LIMIT
              && archive.entries[i].mode == ModeOf(archive.entries[i].name)
    {
      assert archive.entries[i] in archive.entries;
    }
    assert EntriesOk(archive.entries, v);
  }

  ghost predicate ThreeNumbers(v: string, a: string, b: string, c: string) {
    && v == a + "." + b + "." + c && Digits(a) && Digits(b) && Digits(c)
    && a != "" && b != "" && c != "" && a[0] != '0'
  }

  /** A commit is forty lower-case hexadecimal digits. */
  lemma CommitIff(c: string)
    ensures IsCommit(c) <==> |c| == 40 && forall x :: x in c ==> x in "0123456789abcdef"
  {
    assert forall i :: 0 <= i < |c| ==> c[i] in c;
    forall x | x in c ensures x in "0123456789abcdef" <==> '0' <= x <= '9' || 'a' <= x <= 'f' {
      HexDigit(x);
    }
  }

  lemma HexDigit(x: char)
    ensures x in "0123456789abcdef" <==> '0' <= x <= '9' || 'a' <= x <= 'f'
  {
    var digits := "0123456789abcdef";
    if '0' <= x <= '9' {
      assert digits[x as int - '0' as int] == x;
    } else if 'a' <= x <= 'f' {
      assert digits[x as int - 'a' as int + 10] == x;
    }
  }

  /** A build label is not empty, at most 1024 characters long, and without spaces or unprintable characters. */
  lemma RevisionIff(tools: Tools, r: string)
    ensures IsRevision(tools, r) <==> r != "" && |r| <= 1024 && forall x :: x in r ==> tools.labelChar(x)
  {
    assert forall i :: 0 <= i < |r| ==> r[i] in r;
  }

  /** A version is three numbers with dots between them, the first without a leading zero. */
  lemma {:induction false} VersionIff(v: string)
    ensures IsVersion(v) <==> exists a, b, c :: ThreeNumbers(v, a, b, c)
  {
    hide DotsAt, ThreeNumbers;
    if i, j :| 0 <= i < |v| && 0 <= j < |v| && DotsAt(v, i, j) {
      VersionSplits(v, i, j);
    }
    if a, b, c :| ThreeNumbers(v, a, b, c) {
      VersionParts(v, a, b, c);
    }
  }

  lemma VersionSplits(v: string, i: int, j: int)
    requires DotsAt(v, i, j)
    ensures exists a, b, c :: ThreeNumbers(v, a, b, c)
  {
    hide Digits;
    assert v == v[..i] + "." + v[i + 1..j] + "." + v[j + 1..];
    assert ThreeNumbers(v, v[..i], v[i + 1..j], v[j + 1..]);
  }

  lemma VersionParts(v: string, a: string, b: string, c: string)
    requires ThreeNumbers(v, a, b, c)
    ensures IsVersion(v)
  {
    hide Digits;
    var i, j := |a|, |a| + 1 + |b|;
    assert v[..i] == a && v[i + 1..j] == b && v[j + 1..] == c;
    assert DotsAt(v, i, j);
  }
}
