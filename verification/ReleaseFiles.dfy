/** The files of a dataset release, as the exporter writes them and the validator reads them
    (services/api/internal/releases/exporter.go, tools/dataset-validator/src/release.ts). */
module ReleaseFiles {
  import opened Common
  import opened Sorting

  /** What a file holds. A digest is as good as the contents: the hash function is taken to be injective. */
  datatype Content =
    | Readme(text: string)
    | Schema(trajectoryV1: bool)
    | Trajectory(session: string, valid: bool, body: int)   // one line of JSON with its provenance.session_id
    | JsonLines(lines: seq<Content>)
    | Checksums(entries: seq<Line>)
    | Footage(mp4: bool, size: nat, bytes: int)

  datatype Line = Line(digest: Content, path: string)

  function Size(c: Content): nat {
    match c
    case Readme(text) => |text|
    case Schema(_) => 1
    case Trajectory(_, _, _) => 1
    case JsonLines(lines) => |lines|
    case Checksums(entries) => |entries|
    case Footage(_, size, _) => size
  }

  datatype FileEntry = FileEntry(path: string, size: nat, digest: Content, mediaType: string)
  datatype Profile = TrajectoryOnly | RedactedVideo
  datatype PlanReference = PlanReference(session: string, planId: string, version: int)
  datatype Configuration = Configuration(
    project: string, name: string, profile: Profile, sources: seq<string>, plans: seq<PlanReference>)
  datatype Manifest = Manifest(
    releaseId: string, configuration: Configuration, configurationHash: Configuration, files: seq<FileEntry>)

  function PathOf(f: FileEntry): string {
    f.path
  }

  // Text.

  predicate StartsWith(s: string, prefix: string) {
    prefix <= s
  }

  predicate EndsWith(s: string, suffix: string) {
    |suffix| <= |s| && s[|s| - |suffix|..] == suffix
  }

  /** The parts between slashes. */
  function Split(s: string): (parts: seq<string>)
    ensures |parts| >= 1
  {
    if s == "" then [""]
    else
      var rest := Split(s[1..]);
      if s[0] == '/' then [""] + rest else [[s[0]] + rest[0]] + rest[1..]
  }

  lemma {:induction false} SplitPlain(s: string)
    requires '/' !in s
    ensures Split(s) == [s]
  {
    if s != "" {
      assert s[0] in s && forall c | c in s[1..] :: c in s;
      SplitPlain(s[1..]);
      assert [s[0]] + s[1..] == s;
    }
  }

  lemma {:induction false} SplitJoin(a: string, b: string)
    requires '/' !in a
    ensures Split(a + "/" + b) == [a] + Split(b)
  {
    var whole := a + "/" + b;
    if a == "" {
      assert whole[1..] == b;
    } else {
      assert a[0] in a && forall c | c in a[1..] :: c in a;
      SplitJoin(a[1..], b);
      assert whole[1..] == a[1..] + "/" + b && whole[0] == a[0];
      assert [a[0]] + a[1..] == a;
    }
  }

  // Paths within a release.

  datatype Path =
    | ReadmePath | SchemaPath | ChecksumsPath | JsonlPath
    | TrajectoryPath(session: string) | VideoPath(session: string, segment: string)

  const README := "README.md"
  const SCHEMA := "schema.json"
  const CHECKSUMS := "checksums.sha256"
  const JSONL := "trajectories.jsonl"

  function Text(p: Path): string {
    match p
    case ReadmePath => README
    case SchemaPath => SCHEMA
    case ChecksumsPath => CHECKSUMS
    case JsonlPath => JSONL
    case TrajectoryPath(s) => "trajectories/" + s + ".json"
    case VideoPath(s, g) => "videos/" + s + "/" + g + ".mp4"
  }

  predicate PlainPath(p: Path) {
    (p.TrajectoryPath? || p.VideoPath? ==> IdText(p.session)) && (p.VideoPath? ==> IdText(p.segment))
  }

  lemma Cancel(a: string, x: string, y: string, b: string)
    requires a + x + b == a + y + b
    ensures x == y
  {
    assert |x| == |y|;
    forall i | 0 <= i < |x| ensures x[i] == y[i] {
      assert (a + x + b)[|a| + i] == (a + y + b)[|a| + i];
    }
  }

  /** Only the first slash separates, so both sides come back. */
  lemma FirstSlash(a: string, b: string, c: string, d: string)
    requires '/' !in a && '/' !in c && a + "/" + b == c + "/" + d
    ensures a == c && b == d
  {
    SplitJoin(a, b);
    SplitJoin(c, d);
    assert ([a] + Split(b))[0] == ([c] + Split(d))[0];
    assert |b| == |d|;
    forall i | 0 <= i < |b| ensures b[i] == d[i] {
      assert (a + "/" + b)[|a| + 1 + i] == (c + "/" + d)[|c| + 1 + i];
    }
  }

  lemma NoSlash(s: string)
    requires IdText(s)
    ensures '/' !in s && '.' !in s && '\\' !in s
  {
  }

  /** The first characters tell the kinds of paths apart. */
  lemma SameKind(p: Path, q: Path)
    requires Text(p) == Text(q)
    ensures p.TrajectoryPath? <==> q.TrajectoryPath?
    ensures p.VideoPath? <==> q.VideoPath?
    ensures !p.TrajectoryPath? && !p.VideoPath? ==> p == q
  {
    TextHead(p);
    TextHead(q);
  }

  lemma VideoInjective(s: string, g: string, t: string, h: string)
    requires IdText(s) && IdText(t) && Text(VideoPath(s, g)) == Text(VideoPath(t, h))
    ensures s == t && g == h
  {
    NoSlash(s);
    NoSlash(t);
    assert Text(VideoPath(s, g)) == "videos/" + (s + "/" + g) + ".mp4" && Text(VideoPath(t, h)) == "videos/" + (t + "/" + h) + ".mp4";
    Cancel("videos/", s + "/" + g, t + "/" + h, ".mp4");
    FirstSlash(s, g, t, h);
  }

  /** Different paths of plain identifiers have different texts. */
  lemma TextInjective(p: Path, q: Path)
    requires PlainPath(p) && PlainPath(q) && Text(p) == Text(q)
    ensures p == q
  {
    SameKind(p, q);
    if p.TrajectoryPath? {
      Cancel("trajectories/", p.session, q.session, ".json");
    } else if p.VideoPath? {
      VideoInjective(p.session, p.segment, q.session, q.segment);
    }
  }

  lemma TextHead(p: Path)
    ensures |Text(p)| > 0
    ensures Text(p)[0] == match p {
              case ReadmePath => 'R' case SchemaPath => 's' case ChecksumsPath => 'c'
              case JsonlPath => 't' case TrajectoryPath(_) => 't' case VideoPath(_, _) => 'v' }
    ensures p.JsonlPath? ==> Text(p)[12] == '.'
    ensures p.TrajectoryPath? ==> |Text(p)| > 12 && Text(p)[12] == '/'
  {
  }

  function MediaType(p: Path): string {
    match p
    case ReadmePath => "text/markdown"
    case SchemaPath => "application/schema+json"
    case ChecksumsPath => "text/plain"
    case JsonlPath => "application/x-ndjson"
    case TrajectoryPath(_) => "application/json"
    case VideoPath(_, _) => "video/mp4"
  }
}
