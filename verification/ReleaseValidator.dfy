/** The independent check of a release directory (tools/dataset-validator/src/release.ts) and the database's check of
    its object keys (services/api/internal/database/release.go). */
module ReleaseValidator {
  import opened Common
  import opened Sorting
  import opened ReleaseFiles

  /** `idOf` derives a release identifier from the configuration hash; exporter and validator share it. */
  type Naming = Configuration -> string

  predicate SortedUnique(values: seq<string>) {
    forall i | 0 < i < |values| :: Less(values[i - 1], values[i])
  }

  /** A clean relative path: what posix.normalize leaves alone and what does not leave the directory. */
  predicate SafeRelativePath(path: string) {
    var parts := Split(path);
    && path != "" && path[0] != '/' && '\\' !in path
    && (forall i | 0 <= i < |parts| :: parts[i] != "." && (parts[i] == ".." ==> |parts| == 1))
    && (forall i | 0 <= i < |parts| - 1 :: parts[i] != "")
  }

  /** The media type the path demands, "" when it demands none. */
  function ExpectedMedia(path: string): string {
    if path == README then "text/markdown"
    else if path == SCHEMA then "application/schema+json"
    else if path == CHECKSUMS then "text/plain"
    else if path == JSONL then "application/x-ndjson"
    else if StartsWith(path, "trajectories/") && EndsWith(path, ".json") then "application/json"
    else if StartsWith(path, "videos/") && EndsWith(path, ".mp4") then "video/mp4"
    else ""
  }

  predicate WellFormedEntry(f: FileEntry) {
    && SafeRelativePath(f.path) && 1 <= f.size && f.mediaType != ""
    && (ExpectedMedia(f.path) != "" ==> f.mediaType == ExpectedMedia(f.path))
  }

  predicate VideoName(s: string) {
    EndsWith(s, ".mp4") && IdText(s[..|s| - 4])
  }

  /** videos/<source session>/<segment>.mp4 */
  predicate VideoPlaced(f: FileEntry, sources: seq<string>) {
    StartsWith(f.path, "videos/") ==>
      var parts := Split(f.path);
      |parts| == 3 && parts[1] in sources && VideoName(parts[2])
  }

  function PathsOf(files: seq<FileEntry>): (paths: seq<string>)
    ensures |paths| == |files| && forall i | 0 <= i < |files| :: paths[i] == files[i].path
  {
    seq(|files|, i requires 0 <= i < |files| => files[i].path)
  }

  function SessionsOf(plans: seq<PlanReference>): (sessions: seq<string>)
    ensures |sessions| == |plans| && forall i | 0 <= i < |plans| :: sessions[i] == plans[i].session
  {
    seq(|plans|, i requires 0 <= i < |plans| => plans[i].session)
  }

  predicate HasVideoOf(files: seq<FileEntry>, session: string) {
    exists f | f in files :: EndsWith(f.path, ".mp4") && StartsWith(f.path, "videos/" + session + "/")
  }

  predicate ConfigurationShaped(c: Configuration) {
    && c.project != "" && c.name != "" && c.sources != [] && SortedUnique(c.sources)
    && SortedUnique(SessionsOf(c.plans)) && (forall p | p in c.plans :: p.planId != "" && 1 <= p.version)
    && (c.profile == TrajectoryOnly ==> c.plans == [])
    && (c.profile == RedactedVideo ==> SessionsOf(c.plans) == c.sources)
  }

  predicate RequiredListed(paths: seq<string>) {
    JSONL in paths && README in paths && SCHEMA in paths && CHECKSUMS in paths
  }

  predicate VideosShaped(c: Configuration, files: seq<FileEntry>) {
    && (c.profile == TrajectoryOnly ==> forall f | f in files :: !(StartsWith(f.path, "videos/") && EndsWith(f.path, ".mp4")))
    && (c.profile == RedactedVideo ==> forall s | s in c.sources :: HasVideoOf(files, s))
  }

  /** validateManifestShape */
  predicate Shaped(m: Manifest) {
    && m.releaseId != "" && ConfigurationShaped(m.configuration)
    && m.files != [] && SortedUnique(PathsOf(m.files))
    && (forall f | f in m.files :: WellFormedEntry(f) && VideoPlaced(f, m.configuration.sources))
    && RequiredListed(PathsOf(m.files)) && VideosShaped(m.configuration, m.files)
  }

  /** The session a trajectory file is named after. */
  function NamedSession(path: string): string
    requires StartsWith(path, "trajectories/") && EndsWith(path, ".json") && |path| >= 18
  {
    path[13..|path| - 5]
  }

  predicate IsTrajectoryFile(path: string) {
    StartsWith(path, "trajectories/") && EndsWith(path, ".json") && |path| >= 18
  }

  /** The file is there with its size and hash. */
  predicate EntryStored(f: FileEntry, dir: map<string, Content>) {
    f.path in dir && Size(dir[f.path]) == f.size && dir[f.path] == f.digest
  }

  predicate EntryHolds(f: FileEntry, dir: map<string, Content>) {
    && EntryStored(f, dir)
    && (StartsWith(f.path, "videos/") ==> dir[f.path].Footage? && dir[f.path].mp4)
    && (IsTrajectoryFile(f.path) ==>
          dir[f.path].Trajectory? && dir[f.path].valid && dir[f.path].session == NamedSession(f.path))
  }

  function ChecksumLines(files: seq<FileEntry>): seq<Line> {
    if files == [] then []
    else (if files[0].path == CHECKSUMS then [] else [Line(files[0].digest, files[0].path)]) + ChecksumLines(files[1..])
  }

  /** Line i of the JSONL file is source i's own trajectory file. */
  predicate LineHolds(dir: map<string, Content>, files: seq<FileEntry>, line: Content, session: string) {
    && line.Trajectory? && line.valid && line.session == session
    && Text(TrajectoryPath(session)) in PathsOf(files) && Text(TrajectoryPath(session)) in dir
    && dir[Text(TrajectoryPath(session))] == line
  }

  /** The four fixed files. */
  predicate FixedFilesHold(m: Manifest, dir: map<string, Content>) {
    && CHECKSUMS in dir && dir[CHECKSUMS] == Checksums(ChecksumLines(m.files))
    && README in dir && dir[README].Readme? && dir[README].text != ""
    && SCHEMA in dir && dir[SCHEMA] == Schema(true)
    && JSONL in dir && dir[JSONL].JsonLines?
    && |dir[JSONL].lines| == |m.configuration.sources|
  }

  predicate LinesHold(m: Manifest, dir: map<string, Content>)
    requires FixedFilesHold(m, dir)
  {
    var lines, sources := dir[JSONL].lines, m.configuration.sources;
    forall i | 0 <= i < |sources| :: LineHolds(dir, m.files, lines[i], sources[i])
  }

  predicate NothingUndeclared(m: Manifest, dir: map<string, Content>) {
    forall p | p in dir :: p in PathsOf(m.files)
  }

  predicate Holds(m: Manifest, dir: map<string, Content>, idOf: Naming) {
    && m.configurationHash == m.configuration && m.releaseId == idOf(m.configurationHash)
    && (forall f | f in m.files :: EntryHolds(f, dir))
    && FixedFilesHold(m, dir) && LinesHold(m, dir) && NothingUndeclared(m, dir)
  }

  predicate Accepted(m: Manifest, dir: map<string, Content>, idOf: Naming) {
    Shaped(m) && Holds(m, dir, idOf)
  }

  /** validateReleaseDirectory: errors are collected, the shape first and alone. */
  method ValidateRelease(m: Manifest, dir: map<string, Content>, idOf: Naming) returns (errors: seq<string>)
    ensures errors == [] <==> Accepted(m, dir, idOf)
  {
    if !Shaped(m) {
      return ["manifest structure"];
    }
    errors := CheckIdentity(m, idOf);
    var entryErrors, releaseFiles, individual := CheckEntries(m, dir);
    var fixedErrors := CheckFixedFiles(m, dir, releaseFiles);
    errors := errors + entryErrors + fixedErrors;
    if fixedErrors != [] {
      return;
    }
    var lineErrors := CheckLines(m, dir, releaseFiles, individual);
    errors := errors + lineErrors;
    if dir.Keys != set p | p in PathsOf(m.files) {
      errors := errors + ["release contains undeclared files or is missing declared files"];
    }
    InventoryMeans(m, dir);
  }

  /** Once every declared file is there, the inventories agree exactly when nothing else is. */
  lemma InventoryMeans(m: Manifest, dir: map<string, Content>)
    ensures (forall f | f in m.files :: EntryHolds(f, dir)) ==>
              (dir.Keys == (set p | p in PathsOf(m.files)) <==> NothingUndeclared(m, dir))
  {
    if (forall f | f in m.files :: EntryHolds(f, dir)) && NothingUndeclared(m, dir) {
      forall p | p in PathsOf(m.files) ensures p in dir {
        var i :| 0 <= i < |m.files| && PathsOf(m.files)[i] == p;
        assert m.files[i] in m.files && EntryHolds(m.files[i], dir);
      }
    }
  }

  method CheckIdentity(m: Manifest, idOf: Naming) returns (errors: seq<string>)
    ensures errors == [] <==> m.configurationHash == m.configuration && m.releaseId == idOf(m.configurationHash)
  {
    errors := [];
    if m.configuration != m.configurationHash {
      errors := errors + ["configuration_hash does not match the manifest configuration"];
    }
    if m.releaseId != idOf(m.configurationHash) {
      errors := errors + ["release_id is not derived from configuration_hash"];
    }
  }

  /** What was read of the declared files. */
  ghost predicate ReadFrom(dir: map<string, Content>, paths: seq<string>, releaseFiles: map<string, Content>) {
    forall p :: (p in releaseFiles <==> p in paths && p in dir) && (p in releaseFiles ==> releaseFiles[p] == dir[p])
  }

  /** The trajectories among them, under the sessions their files are named after. */
  ghost predicate NamedAfter(releaseFiles: map<string, Content>, individual: map<string, Content>) {
    forall s :: var path := Text(TrajectoryPath(s));
      && (s in individual <==> path in releaseFiles && releaseFiles[path].Trajectory?)
      && (s in individual ==> individual[s] == releaseFiles[path])
  }

  lemma NamedPath(path: string)
    requires IsTrajectoryFile(path)
    ensures Text(TrajectoryPath(NamedSession(path))) == path
  {
    var (head, name, tail) := (path[..13], path[13..|path| - 5], path[|path| - 5..]);
    assert head == "trajectories/" && tail == ".json" && path == head + name + tail;
  }

  lemma TrajectoryText(s: string)
    ensures IsTrajectoryFile(Text(TrajectoryPath(s))) && NamedSession(Text(TrajectoryPath(s))) == s
  {
    var path := Text(TrajectoryPath(s));
    assert path[..13] == "trajectories/" && path[|path| - 5..] == ".json" && path[13..|path| - 5] == s;
  }

  /** Reading one more file keeps the two maps in step. */
  lemma ReadOneMore(before: map<string, Content>, individual: map<string, Content>, path: string, c: Content)
    requires NamedAfter(before, individual) && (path in before ==> before[path] == c)
    ensures NamedAfter(before[path := c],
                       if IsTrajectoryFile(path) && c.Trajectory? then individual[NamedSession(path) := c] else individual)
  {
    var after := before[path := c];
    var named := if IsTrajectoryFile(path) && c.Trajectory? then individual[NamedSession(path) := c] else individual;
    if IsTrajectoryFile(path) {
      NamedPath(path);
    }
    forall s
      ensures s in named <==> Text(TrajectoryPath(s)) in after && after[Text(TrajectoryPath(s))].Trajectory?
      ensures s in named ==> named[s] == after[Text(TrajectoryPath(s))]
    {
      TrajectoryText(s);
    }
  }

  lemma ReadFromOneMore(dir: map<string, Content>, paths: seq<string>, path: string, releaseFiles: map<string, Content>)
    requires ReadFrom(dir, paths, releaseFiles)
    ensures ReadFrom(dir, paths + [path], if path in dir then releaseFiles[path := dir[path]] else releaseFiles)
  {
  }

  /** A file that was read is kept, and a trajectory also under its session. */
  method Keep(path: string, contents: Content, releaseFiles: map<string, Content>, individual: map<string, Content>)
    returns (files: map<string, Content>, named: map<string, Content>)
    requires NamedAfter(releaseFiles, individual) && (path in releaseFiles ==> releaseFiles[path] == contents)
    ensures files == releaseFiles[path := contents] && NamedAfter(files, named)
  {
    ReadOneMore(releaseFiles, individual, path, contents);
    files, named := releaseFiles[path := contents], individual;
    if IsTrajectoryFile(path) && contents.Trajectory? {
      named := named[NamedSession(path) := contents];
    }
  }

  /** The checks of one file that could be read. */
  method CheckEntry(f: FileEntry, dir: map<string, Content>) returns (errors: seq<string>)
    requires f.path in dir
    ensures errors == [] <==> EntryHolds(f, dir)
  {
    errors := [];
    var contents := dir[f.path];
    if Size(contents) != f.size {
      errors := errors + ["size mismatch"];
    }
    if contents != f.digest {
      errors := errors + ["SHA-256 mismatch"];
    }
    if StartsWith(f.path, "videos/") && !(contents.Footage? && contents.mp4) {
      errors := errors + ["does not contain an ISO BMFF/MP4 header"];
    }
    if IsTrajectoryFile(f.path) {
      if !contents.Trajectory? {
        errors := errors + ["not JSON"];
      } else {
        if !contents.valid {
          errors := errors + ["invalid trajectory"];
        }
        if contents.session != NamedSession(f.path) {
          errors := errors + ["provenance.session_id does not match filename"];
        }
      }
    }
  }

  method ReadEntry(f: FileEntry, dir: map<string, Content>, ghost paths: seq<string>, releaseFiles: map<string, Content>,
                   individual: map<string, Content>)
    returns (errors: seq<string>, files: map<string, Content>, named: map<string, Content>)
    requires ReadFrom(dir, paths, releaseFiles) && NamedAfter(releaseFiles, individual)
    ensures errors == [] <==> EntryHolds(f, dir)
    ensures ReadFrom(dir, paths + [f.path], files) && NamedAfter(files, named)
  {
    ReadFromOneMore(dir, paths, f.path, releaseFiles);
    if f.path !in dir {
      return ["no such file"], releaseFiles, individual;
    }
    errors := CheckEntry(f, dir);
    files, named := Keep(f.path, dir[f.path], releaseFiles, individual);
  }

  predicate AllHold(files: seq<FileEntry>, dir: map<string, Content>) {
    files == [] || (AllHold(files[..|files| - 1], dir) && EntryHolds(files[|files| - 1], dir))
  }

  lemma {:induction false} AllHoldMeans(files: seq<FileEntry>, dir: map<string, Content>)
    ensures AllHold(files, dir) <==> forall f | f in files :: EntryHolds(f, dir)
  {
    if files != [] {
      var (prefix, last) := (files[..|files| - 1], files[|files| - 1]);
      AllHoldMeans(prefix, dir);
      assert last in files && files == prefix + [last];
    }
  }

  method CheckEntries(m: Manifest, dir: map<string, Content>)
    returns (errors: seq<string>, releaseFiles: map<string, Content>, individual: map<string, Content>)
    ensures errors == [] <==> forall f | f in m.files :: EntryHolds(f, dir)
    ensures ReadFrom(dir, PathsOf(m.files), releaseFiles) && NamedAfter(releaseFiles, individual)
  {
    errors, releaseFiles, individual := [], map[], map[];
    for i := 0 to |m.files|
      invariant errors == [] <==> AllHold(m.files[..i], dir)
      invariant ReadFrom(dir, PathsOf(m.files[..i]), releaseFiles) && NamedAfter(releaseFiles, individual)
    {
      var entryErrors;
      entryErrors, releaseFiles, individual := ReadEntry(m.files[i], dir, PathsOf(m.files[..i]), releaseFiles, individual);
      errors := errors + entryErrors;
      assert PathsOf(m.files[..i + 1]) == PathsOf(m.files[..i]) + [m.files[i].path];
      assert m.files[..i + 1][..i] == m.files[..i];
    }
    assert m.files[..|m.files|] == m.files;
    AllHoldMeans(m.files, dir);
  }

  /** The lines checksums.sha256 must hold: every declared file but itself, in order. */
  method ExpectedChecksums(files: seq<FileEntry>) returns (lines: seq<Line>)
    ensures lines == ChecksumLines(files)
  {
    lines := [];
    assert files[0..] == files;
    for i := 0 to |files|
      invariant lines + ChecksumLines(files[i..]) == ChecksumLines(files)
    {
      assert files[i..][0] == files[i] && files[i..][1..] == files[i + 1..];
      if files[i].path != CHECKSUMS {
        lines := lines + [Line(files[i].digest, files[i].path)];
      }
    }
  }

  method CheckFixedFiles(m: Manifest, dir: map<string, Content>, releaseFiles: map<string, Content>) returns (errors: seq<string>)
    requires RequiredListed(PathsOf(m.files)) && ReadFrom(dir, PathsOf(m.files), releaseFiles)
    ensures errors == [] <==> FixedFilesHold(m, dir)
  {
    errors := [];
    var expectedChecksums := ExpectedChecksums(m.files);
    if CHECKSUMS !in releaseFiles || releaseFiles[CHECKSUMS] != Checksums(expectedChecksums) {
      errors := errors + ["checksums.sha256 does not exactly match the declared release files"];
    }
    if README !in releaseFiles || !releaseFiles[README].Readme? || releaseFiles[README].text == "" {
      errors := errors + ["README.md is missing or empty"];
    }
    if SCHEMA !in releaseFiles || releaseFiles[SCHEMA] != Schema(true) {
      errors := errors + ["schema.json is not trajectory/v1"];
    }
    if JSONL !in dir || !dir[JSONL].JsonLines? {
      errors := errors + ["no trajectories.jsonl"];
    } else if |dir[JSONL].lines| != |m.configuration.sources| {
      errors := errors + ["trajectories.jsonl line count does not match source_session_ids"];
    }
  }

  /** A line is held against the manifest's order and the file of the session it names. */
  method CheckLine(line: Content, session: string, individual: map<string, Content>) returns (errors: seq<string>)
    ensures errors == [] <==>
            line.Trajectory? && line.valid && line.session == session && session in individual && individual[session] == line
  {
    if !line.Trajectory? {
      return ["not JSON"];
    }
    errors := [];
    if !line.valid {
      errors := errors + ["invalid trajectory"];
    }
    if line.session != session {
      errors := errors + ["unexpected session order"];
    }
    if line.session !in individual || individual[line.session] != line {
      errors := errors + ["differs from individual trajectory file"];
    }
  }

  lemma LineChecked(m: Manifest, dir: map<string, Content>, releaseFiles: map<string, Content>, individual: map<string, Content>,
                    line: Content, session: string)
    requires ReadFrom(dir, PathsOf(m.files), releaseFiles) && NamedAfter(releaseFiles, individual)
    ensures LineHolds(dir, m.files, line, session) <==>
            line.Trajectory? && line.valid && line.session == session && session in individual && individual[session] == line
  {
    assert session in individual <==> Text(TrajectoryPath(session)) in releaseFiles && releaseFiles[Text(TrajectoryPath(session))].Trajectory?;
  }

  method CheckAllIndividual(sources: seq<string>, individual: map<string, Content>) returns (errors: seq<string>)
    ensures errors == [] <==> forall i | 0 <= i < |sources| :: sources[i] in individual
  {
    errors := [];
    for i := 0 to |sources|
      invariant errors == [] <==> forall k | 0 <= k < i :: sources[k] in individual
    {
      if sources[i] !in individual {
        errors := errors + ["missing individual trajectory"];
      }
    }
  }

  method CheckLines(m: Manifest, dir: map<string, Content>, ghost releaseFiles: map<string, Content>,
                    individual: map<string, Content>)
    returns (errors: seq<string>)
    requires FixedFilesHold(m, dir) && ReadFrom(dir, PathsOf(m.files), releaseFiles) && NamedAfter(releaseFiles, individual)
    ensures errors == [] <==> LinesHold(m, dir)
  {
    errors := [];
    var lines, sources := dir[JSONL].lines, m.configuration.sources;
    for i := 0 to |lines|
      invariant errors == [] <==> forall k | 0 <= k < i :: LineHolds(dir, m.files, lines[k], sources[k])
      invariant errors == [] ==> forall k | 0 <= k < i :: sources[k] in individual
    {
      LineChecked(m, dir, releaseFiles, individual, lines[i], sources[i]);
      var lineErrors := CheckLine(lines[i], sources[i], individual);
      errors := errors + lineErrors;
    }
    var missing := CheckAllIndividual(sources, individual);
    errors := errors + missing;
  }

  // validReleaseObjectKeys

  predicate Climbs(key: string) {
    exists i | 0 <= i < |key| - 2 :: key[i] == '.' && key[i + 1] == '.' && key[i + 2] == '/'
  }

  function Prefix(id: string): string {
    "releases/" + id + "/"
  }

  function Bundle(id: string): string {
    "bundles/" + id + ".zip"
  }

  predicate KeyOk(id: string, key: string) {
    && key != "" && '\\' !in key && !Climbs(key)
    && (key == Bundle(id) || StartsWith(key, Prefix(id)))
  }

  predicate ValidKeys(id: string, keys: seq<string>) {
    && id != "" && 7 <= |keys| && SortedUnique(keys) && (forall k | k in keys :: KeyOk(id, k))
    && Prefix(id) + "manifest.json" in keys && Bundle(id) in keys
  }

  method ValidReleaseObjectKeys(id: string, keys: seq<string>) returns (ok: bool)
    ensures ok <==> ValidKeys(id, keys)
  {
    if id == "" || |keys| < 7 {
      return false;
    }
    var prefix, bundle := Prefix(id), Bundle(id);
    var seenManifest, seenBundle := false, false;
    for index := 0 to |keys|
      invariant forall k | k in keys[..index] :: KeyOk(id, k)
      invariant SortedUnique(keys[..index])
      invariant seenManifest <==> prefix + "manifest.json" in keys[..index]
      invariant seenBundle <==> bundle in keys[..index]
    {
      var key := keys[index];
      assert key in keys && keys[..index + 1] == keys[..index] + [key];
      if key == "" || '\\' in key || Climbs(key) {
        return false;
      }
      if index > 0 && !Less(keys[index - 1], key) {
        return false;
      }
      if key != bundle && !StartsWith(key, prefix) {
        return false;
      }
      seenManifest := seenManifest || key == prefix + "manifest.json";
      seenBundle := seenBundle || key == bundle;
    }
    assert keys[..|keys|] == keys;
    return seenManifest && seenBundle;
  }
}
