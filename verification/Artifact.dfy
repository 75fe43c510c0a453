/** Creating and verifying station artifacts: mnc-artifact.py over an abstract archive, hash and JSON codec. */
module Artifact {
  import opened Configuration
  import opened Text
  import opened PayloadTree
  import Validation

  const MANIFEST_NAME := "manifest.json"
  const SIGNATURE_NAME := "manifest.sig"

  predicate Reserved(name: string) { name == MANIFEST_NAME || name == SIGNATURE_NAME }

  datatype PayloadFile = PayloadFile(path: string, data: Bytes, size: nat, sha256: string, mode: nat)

  datatype Descriptor = Descriptor(size: int, sha256: string, mode: string)

  datatype Labels = Labels(name: string, vendor: string, operation: string, product: string,
                           machine: string, version: string, buildId: string, createdUtc: string)

  datatype Executor = Executor(kind: string, entrypoint: string, tftpRoot: Option<string>)

  datatype Manifest = Manifest(schema: string, formatVersion: int, artifact: Labels, executor: Executor,
                               files: map<string, Descriptor>)

  datatype Member = Member(name: string, mode: nat, uid: nat, gid: nat, regular: bool, data: Bytes)

  /** The hash, the JSON writer and reader and the date parser that the program takes from its library. */
  datatype Codec = Codec(
    sha256: Bytes -> string,
    encode: Manifest -> Bytes,
    decode: Bytes -> Option<Manifest>,
    utc: string -> bool)

  ghost predicate Sound(c: Codec) {
    && (forall d :: Sha256Text(c.sha256(d)))
    && (forall m :: c.decode(c.encode(m)) == Some(m))
  }

  // ---------------------------------------------------------------------------------------------
  // Names, modes and texts
  // ---------------------------------------------------------------------------------------------

  predicate Control(c: char) { c < ' ' || c == 127 as char }

  /** `safe_relative_path`. */
  predicate SafePath(s: string) {
    && s != ""
    && (forall c :: c in s ==> c != '\\' && c != ':' && !Control(c))
    && (forall part :: part in Split(s, '/') ==> part != "" && part != "." && part != "..")
  }

  /** A component that means itself on every system: no dots, separators, drive letters or control characters. */
  predicate SafePart(part: string) {
    && part != "" && part != "." && part != ".."
    && forall i :: 0 <= i < |part| ==>
         part[i] != '/' && part[i] != '\\' && part[i] != ':' && 0x20 <= part[i] as int && part[i] as int != 0x7F
  }

  ghost predicate SafeParts(parts: seq<string>) {
    parts != [] && forall i :: 0 <= i < |parts| ==> SafePart(parts[i])
  }

  /** A path is safe exactly if it prints such components. */
  lemma SafePathExactly(s: string)
    ensures SafePath(s) <==> exists parts :: SafeParts(parts) && s == Join(parts, '/')
  {
    if SafePath(s) {
      SafeSplits(s);
      JoinInverts(s, '/');
    }
    if parts :| SafeParts(parts) && s == Join(parts, '/') { SafeJoins(parts); }
  }

  lemma SafeSplits(s: string)
    requires SafePath(s)
    ensures SafeParts(Split(s, '/'))
  {
    var parts := Split(s, '/');
    SplitClean(s, '/');
    forall i | 0 <= i < |parts|
      ensures SafePart(parts[i])
    {
      SplitCharacters(s, '/', i);
      assert parts[i] in parts;
      forall k | 0 <= k < |parts[i]|
        ensures parts[i][k] != '/' && parts[i][k] in s
      {
      }
    }
  }

  lemma SafeJoins(parts: seq<string>)
    requires SafeParts(parts)
    ensures SafePath(Join(parts, '/'))
  {
    assert SepFree(parts, '/');
    SplitInverts(parts, '/');
    JoinHead(parts, '/');
    forall c | c in Join(parts, '/')
      ensures c != '\\' && c != ':' && !Control(c)
    {
      JoinCharacters(parts, '/', c);
    }
  }

  /** One of the three execute permissions is set. */
  predicate Executable(mode: nat) { Validation.And(mode, 0x49) != 0 }

  /** 0755 for what can be executed by anyone, 0644 for everything else. */
  lemma ModeExactly(mode: nat)
    ensures NormalizedMode(mode) == if Executable(mode) then 0x1ED else 0x1A4
  {
    var a, b := mode / 8, mode / 64;
    Validation.AndOdd(mode, 36);
    Validation.AndEven(mode / 2, 18);
    Validation.AndEven(mode / 4, 9);
    assert mode / 2 / 2 == mode / 4 && mode / 4 / 2 == a;
    Validation.AndOdd(a, 4);
    Validation.AndEven(a / 2, 2);
    Validation.AndEven(a / 4, 1);
    assert a / 2 / 2 == a / 4 && a / 4 / 2 == b;
    Validation.AndOdd(b, 0);
    assert Validation.And(b / 2, 0) == 0;
  }

  function NormalizedMode(mode: nat): nat {
    if mode % 2 == 1 || mode / 8 % 2 == 1 || mode / 64 % 2 == 1 then 0x1ED else 0x1A4
  }

  function OctalDigit(d: nat): char
    requires d < 8
  {
    '0' + d as char
  }

  /** The permission bits printed with four octal digits. */
  function Octal(mode: nat): string {
    var m := mode % 512;
    ['0', OctalDigit(m / 64), OctalDigit(m / 8 % 8), OctalDigit(m % 8)]
  }

  lemma OctalInjective(a: nat, b: nat)
    requires Octal(a) == Octal(b)
    ensures a % 512 == b % 512
  {
    assert Octal(a)[1] == Octal(b)[1] && Octal(a)[2] == Octal(b)[2] && Octal(a)[3] == Octal(b)[3];
    OctalValue(a % 512);
    OctalValue(b % 512);
  }

  lemma OctalValue(m: nat)
    ensures m == m / 64 * 64 + m / 8 % 8 * 8 + m % 8
  {
    assert m / 8 / 8 == m / 64;
  }

  predicate Sha256Text(s: string) {
    |s| == 64 && forall c :: c in s ==> IsDigit(c) || 'a' <= c <= 'f'
  }

  predicate Identifier(s: string) {
    s != "" && IsAlnum(s[0]) && forall c :: c in s ==> IsAlnum(c) || c == '.' || c == '_' || c == '+' || c == '-'
  }

  predicate OneLine(s: string) { s != "" && forall c :: c in s ==> !Control(c) }

  // ---------------------------------------------------------------------------------------------
  // Manifests
  // ---------------------------------------------------------------------------------------------

  predicate LabelsOk(c: Codec, a: Labels) {
    && Identifier(a.name) && Identifier(a.vendor) && Identifier(a.operation) && Identifier(a.product)
    && Identifier(a.machine) && Identifier(a.buildId) && OneLine(a.version)
    && OneLine(a.createdUtc) && c.utc(a.createdUtc)
  }

  predicate DescriptorOk(d: Descriptor) {
    d.size >= 0 && Sha256Text(d.sha256) && (d.mode == "0644" || d.mode == "0755")
  }

  /** `validate_manifest`. */
  predicate ManifestOk(c: Codec, m: Manifest) {
    && m.schema == "mnc-station-artifact" && m.formatVersion == 2
    && LabelsOk(c, m.artifact)
    && Identifier(m.executor.kind) && OneLine(m.executor.entrypoint) && SafePath(m.executor.entrypoint)
    && (m.executor.tftpRoot.Some? ==> OneLine(m.executor.tftpRoot.value) && SafePath(m.executor.tftpRoot.value))
    && m.files != map[]
    && (forall path :: path in m.files ==> SafePath(path) && !Reserved(path) && DescriptorOk(m.files[path]))
    && m.executor.entrypoint in m.files && m.files[m.executor.entrypoint].mode == "0755"
    && (m.executor.tftpRoot.Some? ==> exists path :: path in m.files && m.executor.tftpRoot.value + "/" <= path)
  }

  function Described(f: PayloadFile): Descriptor { Descriptor(f.size, f.sha256, Octal(f.mode)) }

  function FilesOf(files: seq<PayloadFile>): map<string, Descriptor> {
    if files == [] then map[]
    else FilesOf(files[..|files| - 1])[files[|files| - 1].path := Described(files[|files| - 1])]
  }

  /** `build_manifest`; an empty TFTP root is none. */
  function Built(a: Labels, kind: string, entrypoint: string, tftpRoot: string, files: seq<PayloadFile>): Manifest {
    Manifest("mnc-station-artifact", 2, a,
             Executor(kind, entrypoint, if tftpRoot == "" then None else Some(tftpRoot)), FilesOf(files))
  }

  ghost predicate DistinctPaths(files: seq<PayloadFile>) {
    forall i, j :: 0 <= i < j < |files| ==> files[i].path != files[j].path
  }

  ghost function PathsOf(files: seq<PayloadFile>): set<string> { set f | f in files :: f.path }

  lemma {:induction false} FilesOfPaths(files: seq<PayloadFile>)
    ensures FilesOf(files).Keys == PathsOf(files)
  {
    if files != [] {
      FilesOfPaths(files[..|files| - 1]);
      assert files == files[..|files| - 1] + [files[|files| - 1]];
    }
  }

  lemma {:induction false} FilesOfEntry(files: seq<PayloadFile>, k: nat)
    requires DistinctPaths(files) && k < |files|
    ensures files[k].path in FilesOf(files) && FilesOf(files)[files[k].path] == Described(files[k])
  {
    if k < |files| - 1 {
      FilesOfEntry(files[..|files| - 1], k);
    }
  }

  // ---------------------------------------------------------------------------------------------
  // Collection
  // ---------------------------------------------------------------------------------------------

  function PathText(f: Found): string { Join(f.path, '/') }

  function DescribeFound(c: Codec, f: Found): PayloadFile {
    PayloadFile(PathText(f), f.data, |f.data|, c.sha256(f.data), NormalizedMode(f.mode))
  }

  function Files(c: Codec, found: seq<Found>): (files: seq<PayloadFile>) {
    seq(|found|, i requires 0 <= i < |found| => DescribeFound(c, found[i]))
  }

  predicate Admissible(found: seq<Found>) {
    found != [] && forall i :: 0 <= i < |found| ==> SafePath(PathText(found[i])) && !Reserved(PathText(found[i]))
  }

  /** The payload that passes collection. */
  predicate Collectable(root: Node) {
    root.Directory? && Walk(root.entries, []).Some? && Admissible(Walk(root.entries, []).value)
  }

  /** `collect_payload`. */
  method Collect(c: Codec, root: Node) returns (r: Option<seq<PayloadFile>>)
    ensures r.Some? <==> Collectable(root)
    ensures r.Some? ==> r.value == Files(c, Walk(root.entries, []).value)
  {
    if !root.Directory? { return None; }
    var walked := Walk(root.entries, []);
    if walked.None? { return None; }
    var found, files := walked.value, [];
    for i := 0 to |found|
      invariant forall k :: 0 <= k < i ==> SafePath(PathText(found[k])) && !Reserved(PathText(found[k]))
      invariant files == Files(c, found)[..i]
    {
      var relative := PathText(found[i]);
      if !SafePath(relative) || Reserved(relative) { return None; }
      files := files + [PayloadFile(relative, found[i].data, |found[i].data|, c.sha256(found[i].data),
          NormalizedMode(found[i].mode))];
    }
    if files == [] { return None; }
    return Some(files);
  }

  // ---------------------------------------------------------------------------------------------
  // Verification
  // ---------------------------------------------------------------------------------------------

  ghost predicate EntryOk(m: Member) { SafePath(m.name) && m.regular && m.uid == 0 && m.gid == 0 }

  ghost predicate DistinctNames(archive: seq<Member>) {
    forall i, j :: 0 <= i < j < |archive| ==> archive[i].name != archive[j].name
  }

  ghost predicate Matches(c: Codec, m: Member, d: Descriptor) {
    |m.data| == d.size && Octal(m.mode) == d.mode && c.sha256(m.data) == d.sha256
  }

  /** The archive's payload is the manifest's: the same paths, each with its size, mode and digest. */
  ghost predicate PayloadIs(c: Codec, archive: seq<Member>, files: map<string, Descriptor>) {
    && (forall m :: m in archive && !Reserved(m.name) ==> m.name in files && Matches(c, m, files[m.name]))
    && files.Keys <= NamesOf(archive)
  }

  ghost function NamesOf(archive: seq<Member>): set<string> { set m | m in archive :: m.name }

  ghost predicate Envelope(archive: seq<Member>) {
    && (forall m :: m in archive ==> EntryOk(m))
    && DistinctNames(archive)
    && (forall m :: m in archive && Reserved(m.name) ==> m.mode % 512 == 0x1A4)
  }

  /** What acceptance means. */
  ghost predicate Accepts(c: Codec, archive: seq<Member>, manifest: Manifest) {
    && Envelope(archive)
    && (exists m :: m in archive && m.name == MANIFEST_NAME && c.decode(m.data) == Some(manifest))
    && ManifestOk(c, manifest)
    && PayloadIs(c, archive, manifest.files)
  }

  method ReadMembers(archive: seq<Member>) returns (ok: bool, members: map<string, Member>)
    ensures ok <==> (forall m :: m in archive ==> EntryOk(m)) && DistinctNames(archive)
    ensures ok ==> Indexed(archive, members)
  {
    members := map[];
    for i := 0 to |archive|
      invariant (forall m :: m in archive[..i] ==> EntryOk(m)) && DistinctNames(archive[..i])
      invariant Indexed(archive[..i], members)
    {
      var m := archive[i];
      assert m in archive;
      if !SafePath(m.name) { return false, members; }
      if m.name in members {
        assert members[m.name] in archive[..i];
        return false, members;
      }
      if !m.regular || m.uid != 0 || m.gid != 0 { return false, members; }
      assert archive[..i + 1] == archive[..i] + [m];
      members := members[m.name := m];
    }
    assert archive[..|archive|] == archive;
    ok := true;
  }

  ghost predicate Indexed(archive: seq<Member>, members: map<string, Member>) {
    && (forall m :: m in archive ==> m.name in members && members[m.name] == m)
    && (forall n :: n in members ==> members[n] in archive && members[n].name == n)
  }

  method CheckPayload(c: Codec, members: map<string, Member>, files: map<string, Descriptor>) returns (ok: bool)
    requires files.Keys <= members.Keys
    ensures ok <==> forall path :: path in files ==> Matches(c, members[path], files[path])
  {
    var todo := files.Keys;
    while todo != {}
      invariant todo <= files.Keys
      invariant forall path :: path in files && path !in todo ==> Matches(c, members[path], files[path])
    {
      var path :| path in todo;
      var d, m := files[path], members[path];
      if |m.data| != d.size || Octal(m.mode) != d.mode || c.sha256(m.data) != d.sha256 { return false; }
      todo := todo - {path};
    }
    ok := true;
  }

  /** `verify_archive`: accepts exactly the archives whose payload is what their manifest says. */
  method Verify(c: Codec, archive: seq<Member>) returns (r: Option<Manifest>)
    ensures r.Some? ==> Accepts(c, archive, r.value)
    ensures r.None? ==> forall m :: !Accepts(c, archive, m)
  {
    var ok, members := ReadMembers(archive);
    if !ok { return None; }
    forall m
      ensures Accepts(c, archive, m) <==> AcceptsIndexed(c, members, m)
    {
      ByIndex(c, archive, members, m);
    }
    if MANIFEST_NAME !in members || members[MANIFEST_NAME].mode % 512 != 0x1A4 { return None; }
    r := c.decode(members[MANIFEST_NAME].data);
    if r.None? || !ManifestOk(c, r.value) { return None; }
    if SIGNATURE_NAME in members && members[SIGNATURE_NAME].mode % 512 != 0x1A4 { return None; }
    if members.Keys - {MANIFEST_NAME, SIGNATURE_NAME} != r.value.files.Keys { return None; }
    ok := CheckPayload(c, members, r.value.files);
    if !ok { return None; }
  }

  /** Acceptance in terms of the dictionary of members, in the order of the checks. */
  ghost predicate AcceptsIndexed(c: Codec, members: map<string, Member>, manifest: Manifest) {
    && MANIFEST_NAME in members && members[MANIFEST_NAME].mode % 512 == 0x1A4
    && c.decode(members[MANIFEST_NAME].data) == Some(manifest)
    && ManifestOk(c, manifest)
    && (SIGNATURE_NAME in members ==> members[SIGNATURE_NAME].mode % 512 == 0x1A4)
    && members.Keys - {MANIFEST_NAME, SIGNATURE_NAME} == manifest.files.Keys
    && (forall path :: path in manifest.files ==> Matches(c, members[path], manifest.files[path]))
  }

  lemma ByIndex(c: Codec, archive: seq<Member>, members: map<string, Member>, manifest: Manifest)
    requires (forall m :: m in archive ==> EntryOk(m)) && DistinctNames(archive) && Indexed(archive, members)
    ensures Accepts(c, archive, manifest) <==> AcceptsIndexed(c, members, manifest)
  {
    EnvelopeByIndex(archive, members);
    PayloadByIndex(c, archive, members, manifest.files);
  }

  lemma EnvelopeByIndex(archive: seq<Member>, members: map<string, Member>)
    requires Indexed(archive, members)
    ensures (forall m :: m in archive && Reserved(m.name) ==> m.mode % 512 == 0x1A4) <==>
            (forall n :: n in members && Reserved(n) ==> members[n].mode % 512 == 0x1A4)
  {
  }

  lemma PayloadByIndex(c: Codec, archive: seq<Member>, members: map<string, Member>, files: map<string, Descriptor>)
    requires Indexed(archive, members)
    ensures (forall path :: path in files ==> !Reserved(path)) ==> (PayloadIs(c, archive, files) <==>
            && members.Keys - {MANIFEST_NAME, SIGNATURE_NAME} == files.Keys
            && forall path :: path in files ==> Matches(c, members[path], files[path]))
  {
    assert NamesOf(archive) == members.Keys;
  }

  // ---------------------------------------------------------------------------------------------
  // Creation
  // ---------------------------------------------------------------------------------------------

  function MemberOf(f: PayloadFile): Member { Member(f.path, f.mode, 0, 0, true, f.data) }

  function Archived(c: Codec, manifest: Manifest, files: seq<PayloadFile>): seq<Member> {
    [Member(MANIFEST_NAME, 0x1A4, 0, 0, true, c.encode(manifest))]
    + seq(|files|, i requires 0 <= i < |files| => MemberOf(files[i]))
  }

  datatype Request = Request(artifact: Labels, kind: string, entrypoint: string, tftpRoot: string)

  function PayloadOf(c: Codec, root: Node): seq<PayloadFile>
    requires Collectable(root)
  {
    Files(c, Walk(root.entries, []).value)
  }

  function ManifestOf(c: Codec, root: Node, q: Request): Manifest
    requires Collectable(root)
  {
    Built(q.artifact, q.kind, q.entrypoint, q.tftpRoot, PayloadOf(c, root))
  }

  predicate Creatable(c: Codec, root: Node, q: Request) {
    Collectable(root) && ManifestOk(c, ManifestOf(c, root, q))
  }

  function ArchiveOf(c: Codec, root: Node, q: Request): seq<Member>
    requires Collectable(root)
  {
    Archived(c, ManifestOf(c, root, q), PayloadOf(c, root))
  }

  method Pack(c: Codec, manifest: Manifest, files: seq<PayloadFile>) returns (archive: seq<Member>)
    ensures archive == Archived(c, manifest, files)
  {
    archive := [Member(MANIFEST_NAME, 0x1A4, 0, 0, true, c.encode(manifest))];
    for i := 0 to |files|
      invariant archive == Archived(c, manifest, files[..i])
    {
      archive := archive + [Member(files[i].path, files[i].mode, 0, 0, true, files[i].data)];
    }
    assert files[..|files|] == files;
  }

  /** `create_archive`: its own verification never turns down what collection and manifest admit. */
  method Create(c: Codec, root: Node, q: Request) returns (r: Option<seq<Member>>)
    requires Sound(c) && (root.Directory? ==> WellFormed(root.entries))
    ensures r.Some? <==> Creatable(c, root, q)
    ensures r.Some? ==> r.value == ArchiveOf(c, root, q) && Accepts(c, r.value, ManifestOf(c, root, q))
  {
    var files := Collect(c, root);
    if files.None? { return None; }
    var manifest := Built(q.artifact, q.kind, q.entrypoint, q.tftpRoot, files.value);
    if !ManifestOk(c, manifest) { return None; }
    var archive := Pack(c, manifest, files.value);
    CreatedIsAccepted(c, root, q);
    var verified := Verify(c, archive);
    if verified.None? { return None; }
    return Some(archive);
  }

  lemma CreatedIsAccepted(c: Codec, root: Node, q: Request)
    requires Sound(c) && Creatable(c, root, q) && WellFormed(root.entries)
    ensures Accepts(c, ArchiveOf(c, root, q), ManifestOf(c, root, q))
  {
    var files, manifest := PayloadOf(c, root), ManifestOf(c, root, q);
    var archive := ArchiveOf(c, root, q);
    PayloadIsDistinct(c, root);
    EnvelopeHolds(c, manifest, files);
    assert archive[0].name == MANIFEST_NAME && c.decode(archive[0].data) == Some(manifest);
    PayloadHolds(c, manifest, files);
  }

  lemma PayloadIsDistinct(c: Codec, root: Node)
    requires Collectable(root) && WellFormed(root.entries)
    ensures DistinctPaths(PayloadOf(c, root))
    ensures forall f :: f in PayloadOf(c, root) ==> SafePath(f.path) && !Reserved(f.path)
  {
    var found := Walk(root.entries, []).value;
    WalkListsOnce(root.entries, []);
    forall i, j | 0 <= i < j < |found|
      ensures PathText(found[i]) != PathText(found[j])
    {
      WalkNames(root.entries, [], found[i]);
      WalkNames(root.entries, [], found[j]);
      if PathText(found[i]) == PathText(found[j]) { JoinInjective(found[i].path, found[j].path, '/'); }
    }
  }

  lemma EnvelopeHolds(c: Codec, manifest: Manifest, files: seq<PayloadFile>)
    requires DistinctPaths(files) && forall f :: f in files ==> SafePath(f.path) && !Reserved(f.path)
    ensures Envelope(Archived(c, manifest, files))
  {
    var archive := Archived(c, manifest, files);
    ReservedAreSafe();
    assert forall i :: 0 < i < |archive| ==> archive[i] == MemberOf(files[i - 1]) && files[i - 1] in files;
  }

  lemma PlainName(s: string)
    requires |s| > 2 && forall i :: 0 <= i < |s| ==> IsLower(s[i]) || s[i] == '.'
    ensures SafePath(s)
  {
    FindAbsent(s, '/');
  }

  lemma ReservedAreSafe()
    ensures SafePath(MANIFEST_NAME)
  {
    PlainName(MANIFEST_NAME);
  }

  lemma PayloadHolds(c: Codec, manifest: Manifest, files: seq<PayloadFile>)
    requires DistinctPaths(files) && manifest.files == FilesOf(files)
    requires forall f :: f in files ==> Faithful(c, f)
    ensures PayloadIs(c, Archived(c, manifest, files), manifest.files)
  {
    forall m | m in Archived(c, manifest, files) && !Reserved(m.name)
      ensures m.name in manifest.files && Matches(c, m, manifest.files[m.name])
    {
      var k := Origin(c, manifest, files, m);
      MemberMatches(c, files, k);
    }
    FilesOfPaths(files);
    ArchivedNames(c, manifest, files);
  }

  lemma Origin(c: Codec, manifest: Manifest, files: seq<PayloadFile>, m: Member) returns (k: nat)
    requires m in Archived(c, manifest, files) && m.name != MANIFEST_NAME
    ensures k < |files| && m == MemberOf(files[k])
  {
    var at :| 0 <= at < |Archived(c, manifest, files)| && Archived(c, manifest, files)[at] == m;
    k := at - 1;
  }

  /** The descriptor is that of the contents. */
  ghost predicate Faithful(c: Codec, f: PayloadFile) {
    f.size == |f.data| && f.sha256 == c.sha256(f.data)
  }

  lemma MemberMatches(c: Codec, files: seq<PayloadFile>, k: nat)
    requires DistinctPaths(files) && k < |files| && Faithful(c, files[k])
    ensures files[k].path in FilesOf(files) && Matches(c, MemberOf(files[k]), FilesOf(files)[files[k].path])
  {
    FilesOfEntry(files, k);
  }

  lemma ArchivedNames(c: Codec, manifest: Manifest, files: seq<PayloadFile>)
    ensures PathsOf(files) <= NamesOf(Archived(c, manifest, files))
  {
    forall f | f in files
      ensures f.path in NamesOf(Archived(c, manifest, files))
    {
      var k :| 0 <= k < |files| && files[k] == f;
      assert Archived(c, manifest, files)[k + 1] == MemberOf(f);
    }
  }

  /** The archive is the same whatever order the file system enumerates the payload in. */
  lemma CreationIsDeterministic(c: Codec, a: Node, b: Node, q: Request)
    requires a.Directory? && b.Directory? && WellFormed(a.entries) && WellFormed(b.entries) && Same(a, b)
    ensures Creatable(c, a, q) <==> Creatable(c, b, q)
    ensures Creatable(c, a, q) ==> ArchiveOf(c, a, q) == ArchiveOf(c, b, q)
  {
    WalkIsDeterministic(a.entries, b.entries, []);
  }

  // ---------------------------------------------------------------------------------------------
  // What acceptance guarantees
  // ---------------------------------------------------------------------------------------------

  /** No member of the archive collides with a different file of the payload under the digest. */
  ghost predicate NoCollision(c: Codec, root: Node, archive: seq<Member>)
    requires Collectable(root)
  {
    forall m, f :: m in archive && f in PayloadOf(c, root) && c.sha256(m.data) == c.sha256(f.data) ==> m.data == f.data
  }

  /** The member is a file of the tree, under its path, with its contents and its normalized mode. */
  ghost predicate FromTree(root: Node, m: Member)
    requires root.Directory?
  {
    exists path, mode :: Holds(root.entries, path, m.data, mode) && Join(path, '/') == m.name
        && m.mode % 512 == (if Executable(mode) then 0x1ED else 0x1A4)
  }

  /** A member that matches a file's descriptor has the file's contents and mode. */
  lemma MatchIsCopy(c: Codec, m: Member, f: PayloadFile)
    requires Faithful(c, f) && f.mode < 512 && Matches(c, m, Described(f))
    requires c.sha256(m.data) == c.sha256(f.data) ==> m.data == f.data
    ensures m.data == f.data && m.mode % 512 == f.mode
  {
    OctalInjective(m.mode, f.mode);
  }

  /** In an archive whose payload is the files', each payload member is a copy of one of them. */
  lemma CopyOfOne(c: Codec, files: seq<PayloadFile>, archive: seq<Member>, m: Member) returns (k: nat)
    requires DistinctPaths(files) && PayloadIs(c, archive, FilesOf(files)) && m in archive && !Reserved(m.name)
    requires forall f :: f in files ==>
             Faithful(c, f) && f.mode < 512 && (c.sha256(m.data) == f.sha256 ==> m.data == f.data)
    ensures k < |files| && files[k].path == m.name && files[k].data == m.data && files[k].mode == m.mode % 512
  {
    FilesOfPaths(files);
    var f :| f in files && f.path == m.name;
    k :| 0 <= k < |files| && files[k] == f;
    FilesOfEntry(files, k);
    MatchIsCopy(c, m, f);
  }

  /** And each of the files has such a copy. */
  lemma CopyOfEach(c: Codec, files: seq<PayloadFile>, archive: seq<Member>, k: nat) returns (m: Member)
    requires DistinctPaths(files) && PayloadIs(c, archive, FilesOf(files)) && k < |files| && !Reserved(files[k].path)
    requires Faithful(c, files[k]) && files[k].mode < 512
    requires forall x :: x in archive && c.sha256(x.data) == files[k].sha256 ==> x.data == files[k].data
    ensures m in archive && files[k].path == m.name && files[k].data == m.data && files[k].mode == m.mode % 512
  {
    FilesOfEntry(files, k);
    m :| m in archive && m.name == files[k].path;
    MatchIsCopy(c, m, files[k]);
  }

  lemma FoundIsHeld(es: seq<Entry>, path: seq<string>, data: Bytes, mode: nat)
    requires Walk(es, []).Some?
    ensures Found(path, data, mode) in Walk(es, []).value <==> Holds(es, path, data, mode)
  {
    WalkRefuses(es, []);
    WalkIsExact(es, [], path, data, mode);
    assert [] + path == path;
  }

  /** Whoever accepts an archive under a payload's manifest received files of that payload only. */
  lemma NothingElseArrives(c: Codec, root: Node, q: Request, archive: seq<Member>, m: Member)
    requires Collectable(root) && WellFormed(root.entries) && NoCollision(c, root, archive)
    requires Accepts(c, archive, ManifestOf(c, root, q)) && m in archive && !Reserved(m.name)
    ensures FromTree(root, m)
  {
    PayloadIsDistinct(c, root);
    PayloadIsFaithful(c, root);
    var k := CopyOfOne(c, PayloadOf(c, root), archive, m);
    CopyIsFromTree(c, root, k, m);
  }

  lemma PayloadIsFaithful(c: Codec, root: Node)
    requires Collectable(root)
    ensures forall f :: f in PayloadOf(c, root) ==> Faithful(c, f) && f.mode < 512
  {
  }

  lemma CopyIsFromTree(c: Codec, root: Node, k: nat, m: Member)
    requires Collectable(root) && k < |PayloadOf(c, root)|
    requires var f := PayloadOf(c, root)[k]; f.path == m.name && f.data == m.data && f.mode == m.mode % 512
    ensures FromTree(root, m)
  {
    var found := Walk(root.entries, []).value[k];
    FoundIsHeld(root.entries, found.path, found.data, found.mode);
    ModeExactly(found.mode);
    assert Holds(root.entries, found.path, m.data, found.mode);
  }

  /** And received all of it. */
  lemma EverythingArrives(c: Codec, root: Node, q: Request, archive: seq<Member>, path: seq<string>, data: Bytes,
      mode: nat)
    requires Collectable(root) && WellFormed(root.entries) && NoCollision(c, root, archive)
    requires Accepts(c, archive, ManifestOf(c, root, q)) && Holds(root.entries, path, data, mode)
    ensures exists m :: m in archive && m.name == Join(path, '/') && m.data == data
              && m.mode % 512 == (if Executable(mode) then 0x1ED else 0x1A4)
  {
    var found := Walk(root.entries, []).value;
    FoundIsHeld(root.entries, path, data, mode);
    var k :| 0 <= k < |found| && found[k] == Found(path, data, mode);
    PayloadIsDistinct(c, root);
    assert PayloadOf(c, root)[k] in PayloadOf(c, root);
    ModeExactly(mode);
    var m := CopyOfEach(c, PayloadOf(c, root), archive, k);
  }

  // ---------------------------------------------------------------------------------------------
  // What can be created
  // ---------------------------------------------------------------------------------------------

  /** The tree holds an executable file under this name. */
  ghost predicate Runs(root: Node, name: string)
    requires root.Directory?
  {
    exists path, data, mode :: Holds(root.entries, path, data, mode) && Join(path, '/') == name && Executable(mode)
  }

  /** The tree holds some file below this directory. */
  ghost predicate Serves(root: Node, directory: string)
    requires root.Directory?
  {
    exists path, data, mode :: Holds(root.entries, path, data, mode) && directory + "/" <= Join(path, '/')
  }

  /** A payload that passes collection is turned down exactly for its labels, its entrypoint or its TFTP root. */
  lemma CreatableExactly(c: Codec, root: Node, q: Request)
    requires Sound(c) && Collectable(root) && WellFormed(root.entries)
    ensures Creatable(c, root, q) <==>
              && LabelsOk(c, q.artifact) && Identifier(q.kind) && Runs(root, q.entrypoint)
              && (q.tftpRoot != "" ==> SafePath(q.tftpRoot) && Serves(root, q.tftpRoot))
  {
    FilesAreOk(c, root);
    EntrypointExactly(c, root, q.entrypoint);
    RootExactly(c, root, q.tftpRoot);
    SafeIsOneLine(q.entrypoint);
    SafeIsOneLine(q.tftpRoot);
  }

  lemma SafeIsOneLine(s: string)
    ensures SafePath(s) ==> OneLine(s)
  {
  }

  lemma FilesAreOk(c: Codec, root: Node)
    requires Sound(c) && Collectable(root) && WellFormed(root.entries)
    ensures var files := FilesOf(PayloadOf(c, root));
            && files != map[]
            && forall path :: path in files ==> SafePath(path) && !Reserved(path) && DescriptorOk(files[path])
  {
    var payload := PayloadOf(c, root);
    PayloadIsDistinct(c, root);
    FilesOfPaths(payload);
    FilesOfEntry(payload, 0);
    forall path | path in FilesOf(payload)
      ensures SafePath(path) && !Reserved(path) && DescriptorOk(FilesOf(payload)[path])
    {
      var k := EntryFor(c, root, path);
      DescribedOk(c, Walk(root.entries, []).value[k]);
    }
  }

  /** Where a manifest path comes from. */
  lemma EntryFor(c: Codec, root: Node, path: string) returns (k: nat)
    requires Collectable(root) && WellFormed(root.entries) && path in FilesOf(PayloadOf(c, root))
    ensures k < |PayloadOf(c, root)| && PayloadOf(c, root)[k].path == path
    ensures FilesOf(PayloadOf(c, root))[path] == Described(PayloadOf(c, root)[k])
  {
    var payload := PayloadOf(c, root);
    PayloadIsDistinct(c, root);
    FilesOfPaths(payload);
    var f :| f in payload && f.path == path;
    k :| 0 <= k < |payload| && payload[k] == f;
    FilesOfEntry(payload, k);
  }

  lemma DescribedOk(c: Codec, f: Found)
    requires Sound(c)
    ensures DescriptorOk(Described(DescribeFound(c, f)))
    ensures Described(DescribeFound(c, f)).mode == if Executable(f.mode) then "0755" else "0644"
  {
    ModeExactly(f.mode);
    OctalOf755();
  }

  lemma OctalOf755()
    ensures Octal(0x1ED) == "0755" && Octal(0x1A4) == "0644"
  {
    assert 0x1ED % 512 == 493 && 493 / 64 == 7 && 493 / 8 % 8 == 5 && 493 % 8 == 5;
    assert 0x1A4 % 512 == 420 && 420 / 64 == 6 && 420 / 8 % 8 == 4 && 420 % 8 == 4;
  }

  lemma EntrypointExactly(c: Codec, root: Node, name: string)
    requires Sound(c) && Collectable(root) && WellFormed(root.entries)
    ensures var files := FilesOf(PayloadOf(c, root));
            name in files && files[name].mode == "0755" <==> Runs(root, name)
  {
    var found, payload := Walk(root.entries, []).value, PayloadOf(c, root);
    PayloadIsDistinct(c, root);
    if name in FilesOf(payload) && FilesOf(payload)[name].mode == "0755" {
      var k := EntryFor(c, root, name);
      DescribedOk(c, found[k]);
      FoundIsHeld(root.entries, found[k].path, found[k].data, found[k].mode);
    }
    if path, data, mode :| Holds(root.entries, path, data, mode) && Join(path, '/') == name && Executable(mode) {
      var k := ListedAt(root, path, data, mode);
      FilesOfEntry(payload, k);
      DescribedOk(c, found[k]);
    }
  }

  lemma ListedAt(root: Node, path: seq<string>, data: Bytes, mode: nat) returns (k: nat)
    requires Collectable(root) && Holds(root.entries, path, data, mode)
    ensures k < |Walk(root.entries, []).value| && Walk(root.entries, []).value[k] == Found(path, data, mode)
  {
    FoundIsHeld(root.entries, path, data, mode);
    var found := Walk(root.entries, []).value;
    k :| 0 <= k < |found| && found[k] == Found(path, data, mode);
  }

  lemma RootExactly(c: Codec, root: Node, directory: string)
    requires Collectable(root) && WellFormed(root.entries)
    ensures (exists path :: path in FilesOf(PayloadOf(c, root)) && directory + "/" <= path) <==> Serves(root, directory)
  {
    var found, payload := Walk(root.entries, []).value, PayloadOf(c, root);
    PayloadIsDistinct(c, root);
    if path :| path in FilesOf(payload) && directory + "/" <= path {
      var k := EntryFor(c, root, path);
      FoundIsHeld(root.entries, found[k].path, found[k].data, found[k].mode);
    }
    if path, data, mode :| Holds(root.entries, path, data, mode) && directory + "/" <= Join(path, '/') {
      var k := ListedAt(root, path, data, mode);
      FilesOfEntry(payload, k);
    }
  }
}
