/** Writing a dataset release (services/api/internal/releases/exporter.go, CreateWithProfile from the listed candidates
    on), and why the validator accepts it. */
module Exporter {
  import opened Common
  import opened Sorting
  import opened ReleaseFiles
  import opened ReleaseValidator

  datatype Candidate = Candidate(session: string, trajectory: Content)
  datatype Video = Video(segment: string, content: Content)
  datatype Redaction = Redaction(reference: PlanReference, outputs: seq<Video>)

  datatype Request = Request(
    project: string, name: string, profile: Profile, candidates: seq<Candidate>, redactions: map<string, Redaction>,
    schema: Content)

  function EntryOf(p: Path, c: Content): FileEntry {
    FileEntry(Text(p), Size(c), c, MediaType(p))
  }

  function Sources(candidates: seq<Candidate>): (sources: seq<string>)
    ensures |sources| == |candidates| && forall i | 0 <= i < |candidates| :: sources[i] == candidates[i].session
  {
    seq(|candidates|, i requires 0 <= i < |candidates| => candidates[i].session)
  }

  function Trajectories(candidates: seq<Candidate>): (lines: seq<Content>)
    ensures |lines| == |candidates| && forall i | 0 <= i < |candidates| :: lines[i] == candidates[i].trajectory
  {
    seq(|candidates|, i requires 0 <= i < |candidates| => candidates[i].trajectory)
  }

  /** Every candidate has a loaded redaction when video is published. */
  predicate Loaded(r: Request) {
    r.profile == RedactedVideo ==> forall c | c in r.candidates :: c.session in r.redactions
  }

  function References(r: Request, candidates: seq<Candidate>): (references: seq<PlanReference>)
    requires forall c | c in candidates :: c.session in r.redactions
    ensures |references| == |candidates|
    ensures forall i | 0 <= i < |candidates| ::
              candidates[i].session in r.redactions && references[i] == r.redactions[candidates[i].session].reference
  {
    if candidates == [] then []
    else
      var last := candidates[|candidates| - 1];
      assert last in candidates;
      References(r, candidates[..|candidates| - 1]) + [r.redactions[last.session].reference]
  }

  function ConfigurationOf(r: Request): Configuration
    requires Loaded(r)
  {
    Configuration(r.project, r.name, r.profile, Sources(r.candidates),
                  if r.profile == RedactedVideo then References(r, r.candidates) else [])
  }

  // The files, as paths with contents, in the order they are written.

  datatype Item = Item(path: Path, content: Content)

  function VideoItems(session: string, outputs: seq<Video>): seq<Item> {
    if outputs == [] then []
    else
      var last := outputs[|outputs| - 1];
      VideoItems(session, outputs[..|outputs| - 1]) + [Item(VideoPath(session, last.segment), last.content)]
  }

  function CandidateItems(r: Request, c: Candidate): seq<Item> {
    [Item(TrajectoryPath(c.session), c.trajectory)]
    + if r.profile == RedactedVideo && c.session in r.redactions then VideoItems(c.session, r.redactions[c.session].outputs) else []
  }

  function AllCandidateItems(r: Request, candidates: seq<Candidate>): seq<Item> {
    if candidates == [] then []
    else AllCandidateItems(r, candidates[..|candidates| - 1]) + CandidateItems(r, candidates[|candidates| - 1])
  }

  function ReadmeOf(r: Request): Content {
    Readme("# " + r.name)
  }

  function BaseItems(r: Request): seq<Item> {
    [Item(ReadmePath, ReadmeOf(r)), Item(SchemaPath, r.schema)]
    + AllCandidateItems(r, r.candidates)
    + [Item(JsonlPath, JsonLines(Trajectories(r.candidates)))]
  }

  function Entries(items: seq<Item>): (files: seq<FileEntry>)
    ensures |files| == |items| && forall i | 0 <= i < |items| :: files[i] == EntryOf(items[i].path, items[i].content)
  {
    seq(|items|, i requires 0 <= i < |items| => EntryOf(items[i].path, items[i].content))
  }

  /** The list is sorted before the checksums are written, and again with them. */
  function Listed(r: Request): seq<FileEntry> {
    Sorted(Entries(BaseItems(r)), PathOf)
  }

  function ChecksumEntry(r: Request): FileEntry {
    EntryOf(ChecksumsPath, Checksums(ChecksumLines(Listed(r))))
  }

  function Files(r: Request): seq<FileEntry> {
    Sorted(Listed(r) + [ChecksumEntry(r)], PathOf)
  }

  function ManifestOf(r: Request, idOf: Naming): Manifest
    requires Loaded(r)
  {
    var configuration := ConfigurationOf(r);
    Manifest(idOf(configuration), configuration, configuration, Files(r))
  }

  /** The directory those writes leave. */
  function DirOf(files: seq<FileEntry>): map<string, Content> {
    if files == [] then map[]
    else DirOf(files[..|files| - 1])[files[|files| - 1].path := files[|files| - 1].digest]
  }

  // What the exporter is given.

  predicate GoodOutputs(outputs: seq<Video>) {
    && outputs != []
    && (forall i | 0 <= i < |outputs| :: IdText(outputs[i].segment)
          && outputs[i].content.Footage? && outputs[i].content.size >= 1)
    && (forall i, j | 0 <= i < j < |outputs| :: outputs[i].segment != outputs[j].segment)
  }

  predicate GoodCandidate(r: Request, c: Candidate) {
    && IdText(c.session) && c.trajectory.Trajectory?
    && (r.profile == RedactedVideo ==>
          && c.session in r.redactions && r.redactions[c.session].reference.session == c.session
          && r.redactions[c.session].reference.planId != "" && r.redactions[c.session].reference.version >= 1
          && GoodOutputs(r.redactions[c.session].outputs))
  }

  /** Candidates come from the listing query in ascending order, one row per session, and for video with redactions
      that match their approved plan. */
  predicate Good(r: Request) {
    && r.project != "" && r.name != "" && r.schema.Schema?
    && r.candidates != [] && (forall c | c in r.candidates :: GoodCandidate(r, c))
    && Ordered(Sources(r.candidates), Same)
  }

  predicate OwnTrajectory(c: Candidate) {
    c.trajectory.Trajectory? && c.trajectory.valid && c.trajectory.session == c.session
  }

  predicate SoundCandidate(r: Request, c: Candidate) {
    && OwnTrajectory(c)
    && (r.profile == RedactedVideo && c.session in r.redactions ==>
          forall v | v in r.redactions[c.session].outputs :: v.content.Footage? && v.content.mp4)
  }

  /** What the exporter takes on trust and does not look at: the configured schema is trajectory/v1, every normalized
      trajectory satisfies it and names its own session, and the redactor's outputs are MP4 files. */
  predicate Sound(r: Request) {
    r.schema == Schema(true) && forall c | c in r.candidates :: SoundCandidate(r, c)
  }

  function Same(s: string): string {
    s
  }

  // All paths are different.

  predicate NoRepeats(items: seq<Item>) {
    forall i, j | 0 <= i < j < |items| :: items[i].path != items[j].path
  }

  predicate Plain(items: seq<Item>) {
    forall i | 0 <= i < |items| :: PlainPath(items[i].path)
  }

  lemma Joined(a: seq<Item>, b: seq<Item>)
    requires NoRepeats(a) && NoRepeats(b) && forall x, y | x in a && y in b :: x.path != y.path
    ensures NoRepeats(a + b)
  {
    forall i, j | 0 <= i < j < |a + b| ensures (a + b)[i].path != (a + b)[j].path {
      if i < |a| <= j {
        assert a[i] in a && b[j - |a|] in b;
      }
    }
  }

  lemma {:induction false} VideoItemsDo(session: string, outputs: seq<Video>)
    requires IdText(session) && forall i | 0 <= i < |outputs| :: IdText(outputs[i].segment)
    requires forall i, j | 0 <= i < j < |outputs| :: outputs[i].segment != outputs[j].segment
    ensures var items := VideoItems(session, outputs);
            && |items| == |outputs| && NoRepeats(items) && Plain(items)
            && forall i | 0 <= i < |outputs| :: items[i] == Item(VideoPath(session, outputs[i].segment), outputs[i].content)
  {
    if outputs != [] {
      VideoItemsDo(session, outputs[..|outputs| - 1]);
    }
  }

  lemma CandidateItemsDo(r: Request, c: Candidate)
    requires GoodCandidate(r, c)
    ensures var items := CandidateItems(r, c);
            && NoRepeats(items) && Plain(items) && items[0] == Item(TrajectoryPath(c.session), c.trajectory)
            && forall x | x in items :: (x.path.TrajectoryPath? || x.path.VideoPath?) && x.path.session == c.session
  {
    if r.profile == RedactedVideo {
      VideoItemsDo(c.session, r.redactions[c.session].outputs);
    }
  }

  lemma {:induction false} AllCandidateItemsDo(r: Request, candidates: seq<Candidate>)
    requires forall c | c in candidates :: GoodCandidate(r, c)
    requires forall i, j | 0 <= i < j < |candidates| :: candidates[i].session != candidates[j].session
    ensures var items := AllCandidateItems(r, candidates);
            && NoRepeats(items) && Plain(items)
            && (forall x | x in items ::
                  (x.path.TrajectoryPath? || x.path.VideoPath?) && exists c | c in candidates :: x.path.session == c.session)
  {
    if candidates != [] {
      var (prefix, last) := (candidates[..|candidates| - 1], candidates[|candidates| - 1]);
      assert last in candidates;
      AllCandidateItemsDo(r, prefix);
      CandidateItemsDo(r, last);
      var (a, b) := (AllCandidateItems(r, prefix), CandidateItems(r, last));
      forall x, y | x in a && y in b ensures x.path != y.path {
        var c :| c in prefix && x.path.session == c.session;
      }
      Joined(a, b);
    }
  }

  lemma SessionsDiffer(r: Request)
    requires Good(r)
    ensures forall i, j | 0 <= i < j < |r.candidates| :: r.candidates[i].session != r.candidates[j].session
  {
    forall i, j | 0 <= i < j < |r.candidates| ensures r.candidates[i].session != r.candidates[j].session {
      assert Less(Same(Sources(r.candidates)[i]), Same(Sources(r.candidates)[j]));
      LessTotal(r.candidates[i].session, r.candidates[j].session);
    }
  }

  /** The fixed files go before and after those of the candidates. */
  lemma AroundItems(middle: seq<Item>, readme: Content, schema: Content, lines: Content)
    requires NoRepeats(middle) && Plain(middle) && forall x | x in middle :: x.path.TrajectoryPath? || x.path.VideoPath?
    ensures var items := [Item(ReadmePath, readme), Item(SchemaPath, schema)] + middle + [Item(JsonlPath, lines)];
            NoRepeats(items) && Plain(items) && forall x | x in items :: x.path != ChecksumsPath
  {
    var (head, tail) := ([Item(ReadmePath, readme), Item(SchemaPath, schema)], [Item(JsonlPath, lines)]);
    Joined(head, middle);
    Joined(head + middle, tail);
  }

  lemma BaseItemsDo(r: Request)
    requires Good(r)
    ensures NoRepeats(BaseItems(r)) && Plain(BaseItems(r)) && forall x | x in BaseItems(r) :: x.path != ChecksumsPath
  {
    SessionsDiffer(r);
    AllCandidateItemsDo(r, r.candidates);
    AroundItems(AllCandidateItems(r, r.candidates), ReadmeOf(r), r.schema, JsonLines(Trajectories(r.candidates)));
  }

  /** Different paths make different file names. */
  lemma EntriesDistinct(items: seq<Item>)
    requires NoRepeats(items) && Plain(items)
    ensures Distinct(Entries(items), PathOf)
  {
    forall i, j | 0 <= i < j < |items| ensures PathOf(Entries(items)[i]) != PathOf(Entries(items)[j]) {
      if Text(items[i].path) == Text(items[j].path) {
        TextInjective(items[i].path, items[j].path);
      }
    }
  }

  // The sorted list.

  lemma ListedDoes(r: Request)
    requires Good(r)
    ensures Ordered(Listed(r), PathOf) && multiset(Listed(r)) == multiset(Entries(BaseItems(r)))
    ensures forall f :: f in Listed(r) <==> f in Entries(BaseItems(r))
    ensures Sorted(Listed(r), PathOf) == Listed(r)
  {
    BaseItemsDo(r);
    EntriesDistinct(BaseItems(r));
    SortedDoes(Entries(BaseItems(r)), PathOf);
    SameMembers(Listed(r), Entries(BaseItems(r)));
    OrderedDistinct(Listed(r));
    SortedDoes(Listed(r), PathOf);
    OrderedUnique(Sorted(Listed(r), PathOf), Listed(r), PathOf);
  }

  lemma OrderedDistinct(files: seq<FileEntry>)
    requires Ordered(files, PathOf)
    ensures Distinct(files, PathOf)
  {
    forall i, j | 0 <= i < j < |files| ensures PathOf(files[i]) != PathOf(files[j]) {
      LessTotal(PathOf(files[i]), PathOf(files[j]));
    }
  }

  /** Every entry describes its item, and every item has its entry. */
  lemma ItemOf(r: Request, f: FileEntry) returns (x: Item)
    requires Good(r) && f in Listed(r)
    ensures x in BaseItems(r) && f == EntryOf(x.path, x.content) && PlainPath(x.path) && x.path != ChecksumsPath
  {
    ListedDoes(r);
    BaseItemsDo(r);
    var i :| 0 <= i < |BaseItems(r)| && Entries(BaseItems(r))[i] == f;
    x := BaseItems(r)[i];
  }

  lemma ItemListed(r: Request, x: Item)
    requires Good(r) && x in BaseItems(r)
    ensures EntryOf(x.path, x.content) in Listed(r)
  {
    ListedDoes(r);
    var i :| 0 <= i < |BaseItems(r)| && BaseItems(r)[i] == x;
    assert Entries(BaseItems(r))[i] in Entries(BaseItems(r));
  }

  lemma NotChecksum(r: Request, f: FileEntry)
    requires Good(r) && f in Listed(r)
    ensures f.path != CHECKSUMS
  {
    var x := ItemOf(r, f);
    if Text(x.path) == Text(ChecksumsPath) {
      TextInjective(x.path, ChecksumsPath);
    }
  }

  lemma {:induction false} InsertSkips(c: FileEntry, files: seq<FileEntry>)
    requires c.path == CHECKSUMS && forall f | f in files :: f.path != CHECKSUMS
    ensures ChecksumLines(Insert(c, files, PathOf)) == ChecksumLines(files)
  {
    if files != [] && Less(PathOf(files[0]), PathOf(c)) {
      var tail := Insert(c, files[1..], PathOf);
      InsertSkips(c, files[1..]);
      assert ([files[0]] + tail)[1..] == tail;
    } else {
      assert ([c] + files)[1..] == files;
    }
  }

  /** The final list is the sorted list with the checksum file put in its place, and its checksum lines are those that
      were written. */
  lemma FilesDo(r: Request)
    requires Good(r)
    ensures Files(r) == Insert(ChecksumEntry(r), Listed(r), PathOf)
    ensures Ordered(Files(r), PathOf)
    ensures forall f :: f in Files(r) <==> f in Listed(r) || f == ChecksumEntry(r)
    ensures ChecksumLines(Files(r)) == ChecksumLines(Listed(r))
    ensures |Files(r)| == |BaseItems(r)| + 1
  {
    ListedDoes(r);
    forall f | f in Listed(r) ensures f.path != CHECKSUMS {
      NotChecksum(r, f);
    }
    var (listed, c) := (Listed(r), ChecksumEntry(r));
    assert (listed + [c])[..|listed|] == listed;
    forall k | 0 <= k < |listed| ensures PathOf(listed[k]) != PathOf(c) {
      assert listed[k] in listed;
    }
    InsertOrders(c, listed, PathOf);
    InsertAdds(c, listed, PathOf);
    SameMembers(Files(r), listed + [c]);
    SameMembers(listed, Entries(BaseItems(r)));
    InsertSkips(c, listed);
  }

  lemma FileCase(r: Request, f: FileEntry)
    requires Good(r) && f in Files(r)
    ensures f in Listed(r) || f == ChecksumEntry(r)
  {
    FilesDo(r);
  }

  lemma OrderedIsUnique(files: seq<FileEntry>)
    requires Ordered(files, PathOf)
    ensures SortedUnique(PathsOf(files))
  {
    forall i | 0 < i < |files| ensures Less(PathsOf(files)[i - 1], PathsOf(files)[i]) {
      assert Less(PathOf(files[i - 1]), PathOf(files[i]));
    }
  }

  lemma {:induction false} DirOfDoes(files: seq<FileEntry>)
    requires Distinct(files, PathOf)
    ensures forall f | f in files :: f.path in DirOf(files) && DirOf(files)[f.path] == f.digest
    ensures forall p :: p in DirOf(files) <==> p in PathsOf(files)
  {
    if files != [] {
      var (prefix, last) := (files[..|files| - 1], files[|files| - 1]);
      DirOfDoes(prefix);
      assert PathsOf(files) == PathsOf(prefix) + [last.path];
      forall f | f in files ensures f.path in DirOf(files) && DirOf(files)[f.path] == f.digest {
        if f in prefix {
          var i :| 0 <= i < |prefix| && prefix[i] == f;
          assert PathOf(files[i]) != PathOf(last);
        }
      }
    }
  }

  // Each entry by itself.

  /** Text of the video prefix and suffix, and of the trajectories'. */
  lemma TextShape(p: Path)
    requires PlainPath(p)
    ensures StartsWith(Text(p), "videos/") <==> p.VideoPath?
    ensures p.VideoPath? ==> EndsWith(Text(p), ".mp4") && StartsWith(Text(p), "videos/" + p.session + "/")
    ensures StartsWith(Text(p), "trajectories/") <==> p.TrajectoryPath?
    ensures p.TrajectoryPath? ==> EndsWith(Text(p), ".json") && |Text(p)| >= 18 && NamedSession(Text(p)) == p.session
    ensures ExpectedMedia(Text(p)) == MediaType(p)
  {
    TextHead(p);
    assert "videos/"[0] == 'v' && "trajectories/"[0] == 't' && "trajectories/"[12] == '/';
    match p
    case VideoPath(s, g) =>
      assert Text(p) == ("videos/" + s + "/") + g + ".mp4";
      assert Text(p)[|Text(p)| - 4..] == ".mp4";
    case TrajectoryPath(s) =>
      assert Text(p)[..13] == "trajectories/" && Text(p)[|Text(p)| - 5..] == ".json";
      assert Text(p)[13..|Text(p)| - 5] == s;
    case _ =>
  }

  lemma VideoParts(s: string, g: string)
    requires IdText(s) && IdText(g)
    ensures Split(Text(VideoPath(s, g))) == ["videos", s, g + ".mp4"]
  {
    NoSlash(s);
    NoSlash(g);
    assert Text(VideoPath(s, g)) == "videos" + "/" + (s + "/" + (g + ".mp4"));
    SplitJoin("videos", s + "/" + (g + ".mp4"));
    SplitJoin(s, g + ".mp4");
    SplitPlain(g + ".mp4");
  }

  lemma TrajectoryParts(s: string)
    requires IdText(s)
    ensures Split(Text(TrajectoryPath(s))) == ["trajectories", s + ".json"]
  {
    NoSlash(s);
    assert Text(TrajectoryPath(s)) == "trajectories" + "/" + (s + ".json");
    SplitJoin("trajectories", s + ".json");
    SplitPlain(s + ".json");
  }

  /** A clean path of one, two or three parts. */
  lemma CleanParts(path: string)
    requires path != "" && path[0] != '/' && '\\' !in path
    requires forall i | 0 <= i < |Split(path)| :: |Split(path)[i]| > 2
    ensures SafeRelativePath(path)
  {
  }

  lemma TextSafe(p: Path)
    requires PlainPath(p)
    ensures SafeRelativePath(Text(p))
  {
    match p
    case VideoPath(s, g) => VideoSafe(s, g);
    case TrajectoryPath(s) => TrajectorySafe(s);
    case _ => FixedSafe(p);
  }

  lemma PlainSafe(s: string)
    requires '/' !in s && '\\' !in s && |s| > 2
    ensures SafeRelativePath(s)
  {
    SplitPlain(s);
  }

  lemma FixedSafe(p: Path)
    requires !p.VideoPath? && !p.TrajectoryPath?
    ensures SafeRelativePath(Text(p))
  {
    match p
    case ReadmePath => PlainSafe(README);
    case SchemaPath => PlainSafe(SCHEMA);
    case ChecksumsPath => PlainSafe(CHECKSUMS);
    case JsonlPath => PlainSafe(JSONL);
  }

  lemma TrajectorySafe(s: string)
    requires IdText(s)
    ensures SafeRelativePath(Text(TrajectoryPath(s)))
  {
    NoSlash(s);
    TrajectoryParts(s);
    CleanParts(Text(TrajectoryPath(s)));
  }

  lemma VideoSafe(s: string, g: string)
    requires IdText(s) && IdText(g)
    ensures SafeRelativePath(Text(VideoPath(s, g)))
  {
    VideoParts(s, g);
    NoSlash(s);
    NoSlash(g);
    assert s[0] in s;
    assert s != "." && s != "..";
  }

  // Acceptance.

  /** A video file is an MP4, and a trajectory file a valid trajectory of the session it is named after. */
  predicate TrueToPath(f: FileEntry) {
    && (StartsWith(f.path, "videos/") ==> f.digest.Footage? && f.digest.mp4)
    && (IsTrajectoryFile(f.path) ==> f.digest.Trajectory? && f.digest.valid && f.digest.session == NamedSession(f.path))
  }

  /** The same of contents and the path they are written to. */
  predicate TrueItem(p: Path, c: Content) {
    && (p.VideoPath? ==> c.Footage? && c.mp4)
    && (p.TrajectoryPath? ==> c.Trajectory? && c.valid && c.session == p.session)
  }

  /** Each listed entry is well formed and where it belongs. */
  lemma EntryGood(r: Request, f: FileEntry, sources: seq<string>)
    requires Good(r) && f in Files(r) && sources == Sources(r.candidates)
    ensures WellFormedEntry(f) && VideoPlaced(f, sources)
    ensures StartsWith(f.path, "videos/") ==> r.profile == RedactedVideo
    ensures Sound(r) ==> TrueToPath(f)
    ensures Size(f.digest) == f.size
  {
    var p, c := EntryItem(r, f, sources);
    PlacedGood(r, p, c, sources);
  }

  /** The path and contents behind a file of the release. */
  lemma EntryItem(r: Request, f: FileEntry, sources: seq<string>) returns (p: Path, c: Content)
    requires Good(r) && f in Files(r) && sources == Sources(r.candidates)
    ensures f == EntryOf(p, c) && PlainPath(p) && 1 <= Size(c)
    ensures p.VideoPath? ==> r.profile == RedactedVideo && p.session in sources
    ensures Sound(r) ==> TrueItem(p, c)
  {
    FileCase(r, f);
    if f in Listed(r) {
      var x := ItemOf(r, f);
      ItemGood(r, x);
      p, c := x.path, x.content;
    } else {
      p, c := ChecksumsPath, Checksums(ChecksumLines(Listed(r)));
      ChecksumsNotEmpty(r);
    }
  }

  /** An entry whose contents suit its path. */
  lemma PlacedGood(r: Request, p: Path, c: Content, sources: seq<string>)
    requires PlainPath(p) && 1 <= Size(c)
    requires p.VideoPath? ==> p.session in sources
    ensures var f := EntryOf(p, c);
            && WellFormedEntry(f) && VideoPlaced(f, sources)
            && (StartsWith(f.path, "videos/") ==> p.VideoPath?)
            && (TrueItem(p, c) ==> TrueToPath(f))
  {
    TextShape(p);
    TextSafe(p);
    if p.VideoPath? {
      VideoParts(p.session, p.segment);
      NamedVideo(p.segment);
    }
  }

  lemma NamedVideo(g: string)
    requires IdText(g)
    ensures VideoName(g + ".mp4")
  {
    assert (g + ".mp4")[..|g + ".mp4"| - 4] == g && (g + ".mp4")[|g + ".mp4"| - 4..] == ".mp4";
  }

  lemma ChecksumsNotEmpty(r: Request)
    requires Good(r)
    ensures ChecksumLines(Listed(r)) != []
  {
    ItemListed(r, BaseItems(r)[0]);
    var f := Listed(r)[0];
    NotChecksum(r, f);
  }

  /** What an item holds agrees with its path. */
  lemma ItemGood(r: Request, x: Item)
    requires Good(r) && x in BaseItems(r)
    ensures 1 <= Size(x.content)
    ensures x.path.VideoPath? ==> r.profile == RedactedVideo && x.path.session in Sources(r.candidates)
    ensures Sound(r) ==> TrueItem(x.path, x.content)
  {
    if x in AllCandidateItems(r, r.candidates) {
      CandidateItemGood(r, r.candidates, x);
    }
  }

  lemma {:induction false} CandidateItemGood(r: Request, candidates: seq<Candidate>, x: Item)
    requires (forall c | c in candidates :: GoodCandidate(r, c)) && x in AllCandidateItems(r, candidates)
    ensures (x.path.TrajectoryPath? || x.path.VideoPath?) && x.path.session in Sources(candidates) && 1 <= Size(x.content)
    ensures x.path.VideoPath? ==> r.profile == RedactedVideo
    ensures (forall c | c in candidates :: SoundCandidate(r, c)) ==> TrueItem(x.path, x.content)
  {
    var (prefix, last) := (candidates[..|candidates| - 1], candidates[|candidates| - 1]);
    assert Sources(candidates) == Sources(prefix) + [last.session];
    if x in AllCandidateItems(r, prefix) {
      CandidateItemGood(r, prefix, x);
    } else {
      assert last in candidates && GoodCandidate(r, last) && x in CandidateItems(r, last);
      if r.profile == RedactedVideo {
        VideoItemsDo(last.session, r.redactions[last.session].outputs);
      }
    }
  }

  /** A candidate's trajectory is among the items. */
  lemma {:induction false} CandidateListed(r: Request, candidates: seq<Candidate>, c: Candidate)
    requires c in candidates && forall x | x in candidates :: GoodCandidate(r, x)
    ensures forall x | x in CandidateItems(r, c) :: x in AllCandidateItems(r, candidates)
    ensures Item(TrajectoryPath(c.session), c.trajectory) in AllCandidateItems(r, candidates)
  {
    var (prefix, last) := (candidates[..|candidates| - 1], candidates[|candidates| - 1]);
    assert CandidateItems(r, c)[0] in CandidateItems(r, c);
    if c in prefix {
      CandidateListed(r, prefix, c);
    } else {
      assert c == last;
    }
  }

  /** So is each of its videos. */
  lemma VideoListed(r: Request, c: Candidate, i: nat)
    requires Good(r) && r.profile == RedactedVideo && c in r.candidates && GoodCandidate(r, c)
    requires i < |r.redactions[c.session].outputs|
    ensures var v := r.redactions[c.session].outputs[i]; Item(VideoPath(c.session, v.segment), v.content) in BaseItems(r)
  {
    var outputs := r.redactions[c.session].outputs;
    VideoItemsDo(c.session, outputs);
    assert VideoItems(c.session, outputs)[i] in CandidateItems(r, c);
    CandidateListed(r, r.candidates, c);
  }

  lemma ReferencesSorted(r: Request)
    requires Good(r) && r.profile == RedactedVideo
    ensures Loaded(r) && SessionsOf(References(r, r.candidates)) == Sources(r.candidates)
    ensures forall p | p in References(r, r.candidates) :: p.planId != "" && 1 <= p.version
  {
    forall i | 0 <= i < |r.candidates|
      ensures References(r, r.candidates)[i].session == r.candidates[i].session
      ensures References(r, r.candidates)[i].planId != "" && 1 <= References(r, r.candidates)[i].version
    {
      assert r.candidates[i] in r.candidates;
    }
  }

  lemma SourcesUnique(r: Request)
    requires Good(r)
    ensures SortedUnique(Sources(r.candidates))
  {
    forall i | 0 < i < |r.candidates| ensures Less(Sources(r.candidates)[i - 1], Sources(r.candidates)[i]) {
      assert Less(Same(Sources(r.candidates)[i - 1]), Same(Sources(r.candidates)[i]));
    }
  }

  lemma FileIn(files: seq<FileEntry>, f: FileEntry)
    requires f in files
    ensures f.path in PathsOf(files)
  {
    var i :| 0 <= i < |files| && files[i] == f;
    assert PathsOf(files)[i] == f.path;
  }

  lemma Listing(r: Request, x: Item)
    requires Good(r) && x in BaseItems(r)
    ensures EntryOf(x.path, x.content) in Files(r) && Text(x.path) in PathsOf(Files(r))
  {
    FilesDo(r);
    ItemListed(r, x);
    FileIn(Files(r), EntryOf(x.path, x.content));
  }

  /** The three fixed items. */
  lemma FixedItems(r: Request)
    ensures Item(ReadmePath, ReadmeOf(r)) in BaseItems(r) && Item(SchemaPath, r.schema) in BaseItems(r)
    ensures Item(JsonlPath, JsonLines(Trajectories(r.candidates))) in BaseItems(r)
  {
    var items := BaseItems(r);
    assert items[0] in items && items[1] in items && items[|items| - 1] in items;
  }

  lemma RequiredFrom(paths: seq<string>)
    requires Text(JsonlPath) in paths && Text(ReadmePath) in paths && Text(SchemaPath) in paths && Text(ChecksumsPath) in paths
    ensures RequiredListed(paths)
  {
  }

  lemma RequiredFiles(r: Request)
    requires Good(r)
    ensures RequiredListed(PathsOf(Files(r)))
  {
    FixedItems(r);
    Listing(r, Item(ReadmePath, ReadmeOf(r)));
    Listing(r, Item(SchemaPath, r.schema));
    Listing(r, Item(JsonlPath, JsonLines(Trajectories(r.candidates))));
    FilesDo(r);
    FileIn(Files(r), ChecksumEntry(r));
    RequiredFrom(PathsOf(Files(r)));
  }

  lemma VideosForAll(r: Request)
    requires Good(r) && r.profile == RedactedVideo
    ensures forall s | s in Sources(r.candidates) :: HasVideoOf(Files(r), s)
  {
    forall s | s in Sources(r.candidates) ensures HasVideoOf(Files(r), s) {
      var i :| 0 <= i < |r.candidates| && r.candidates[i].session == s;
      var c := r.candidates[i];
      assert GoodCandidate(r, c);
      VideoListed(r, c, 0);
      var v := r.redactions[s].outputs[0];
      Listing(r, Item(VideoPath(s, v.segment), v.content));
      TextShape(VideoPath(s, v.segment));
    }
  }

  lemma ConfigurationFine(r: Request)
    requires Good(r) && Loaded(r)
    ensures ConfigurationShaped(ConfigurationOf(r))
  {
    SourcesUnique(r);
    if r.profile == RedactedVideo {
      ReferencesSorted(r);
    }
  }

  lemma VideosFine(r: Request)
    requires Good(r) && Loaded(r)
    ensures VideosShaped(ConfigurationOf(r), Files(r))
  {
    if r.profile == RedactedVideo {
      VideosForAll(r);
    } else {
      forall f | f in Files(r) ensures !StartsWith(f.path, "videos/") {
        EntryGood(r, f, Sources(r.candidates));
      }
    }
  }

  lemma ManifestShaped(r: Request, idOf: Naming)
    requires Good(r) && Loaded(r) && idOf(ConfigurationOf(r)) != ""
    ensures Shaped(ManifestOf(r, idOf))
  {
    FilesDo(r);
    OrderedIsUnique(Files(r));
    RequiredFiles(r);
    ConfigurationFine(r);
    VideosFine(r);
    forall f | f in Files(r) ensures WellFormedEntry(f) && VideoPlaced(f, Sources(r.candidates)) {
      EntryGood(r, f, Sources(r.candidates));
    }
  }

  /** The directory holds what the list says, and nothing else. */
  lemma DirectoryHolds(r: Request)
    requires Good(r)
    ensures forall f | f in Files(r) :: EntryStored(f, DirOf(Files(r)))
    ensures Sound(r) ==> forall f | f in Files(r) :: EntryHolds(f, DirOf(Files(r)))
    ensures forall p | p in DirOf(Files(r)) :: p in PathsOf(Files(r))
  {
    FilesDo(r);
    OrderedDistinct(Files(r));
    DirOfDoes(Files(r));
    forall f | f in Files(r)
      ensures EntryStored(f, DirOf(Files(r))) && (Sound(r) ==> EntryHolds(f, DirOf(Files(r))))
    {
      EntryGood(r, f, Sources(r.candidates));
    }
  }

  lemma ItemStored(r: Request, x: Item)
    requires Good(r) && x in BaseItems(r)
    ensures Text(x.path) in DirOf(Files(r)) && DirOf(Files(r))[Text(x.path)] == x.content
  {
    FilesDo(r);
    OrderedDistinct(Files(r));
    DirOfDoes(Files(r));
    Listing(r, x);
  }

  lemma ChecksumsStored(r: Request)
    requires Good(r)
    ensures Text(ChecksumsPath) in DirOf(Files(r))
    ensures DirOf(Files(r))[Text(ChecksumsPath)] == Checksums(ChecksumLines(Files(r)))
  {
    FilesDo(r);
    OrderedDistinct(Files(r));
    DirOfDoes(Files(r));
    assert ChecksumEntry(r) in Files(r);
  }

  /** The line of a candidate is its trajectory file, and holds exactly when the trajectory is valid and its own. */
  lemma LineMatches(r: Request, i: nat)
    requires Good(r) && i < |r.candidates|
    ensures var c := r.candidates[i];
            LineHolds(DirOf(Files(r)), Files(r), c.trajectory, c.session) <==> OwnTrajectory(c)
  {
    var c := r.candidates[i];
    assert c in r.candidates && GoodCandidate(r, c);
    CandidateListed(r, r.candidates, c);
    Listing(r, Item(TrajectoryPath(c.session), c.trajectory));
    ItemStored(r, Item(TrajectoryPath(c.session), c.trajectory));
  }

  lemma FixedFiles(r: Request, idOf: Naming)
    requires Good(r) && Loaded(r)
    ensures FixedFilesHold(ManifestOf(r, idOf), DirOf(Files(r))) <==> r.schema == Schema(true)
    ensures JSONL in DirOf(Files(r)) && DirOf(Files(r))[JSONL] == JsonLines(Trajectories(r.candidates))
  {
    FixedItems(r);
    ItemStored(r, Item(ReadmePath, ReadmeOf(r)));
    ItemStored(r, Item(SchemaPath, r.schema));
    ItemStored(r, Item(JsonlPath, JsonLines(Trajectories(r.candidates))));
    ChecksumsStored(r);
  }

  lemma LinesMatch(r: Request, idOf: Naming)
    requires Good(r) && Loaded(r) && r.schema == Schema(true)
    ensures FixedFilesHold(ManifestOf(r, idOf), DirOf(Files(r)))
    ensures LinesHold(ManifestOf(r, idOf), DirOf(Files(r))) <==>
            forall i | 0 <= i < |r.candidates| :: OwnTrajectory(r.candidates[i])
  {
    FixedFiles(r, idOf);
    var lines := DirOf(Files(r))[JSONL].lines;
    forall i | 0 <= i < |r.candidates|
      ensures LineHolds(DirOf(Files(r)), Files(r), lines[i], Sources(r.candidates)[i])
              <==> OwnTrajectory(r.candidates[i])
    {
      assert r.candidates[i] in r.candidates && GoodCandidate(r, r.candidates[i]);
      LineMatches(r, i);
    }
  }

  /** A video whose entry holds is an MP4 file. */
  lemma VideoHolds(r: Request, c: Candidate, i: nat)
    requires Good(r) && r.profile == RedactedVideo && c in r.candidates && GoodCandidate(r, c)
    requires i < |r.redactions[c.session].outputs|
    requires forall f | f in Files(r) :: EntryHolds(f, DirOf(Files(r)))
    ensures r.redactions[c.session].outputs[i].content.mp4
  {
    var v := r.redactions[c.session].outputs[i];
    var x := Item(VideoPath(c.session, v.segment), v.content);
    VideoListed(r, c, i);
    Listing(r, x);
    ItemStored(r, x);
    TextShape(x.path);
    assert EntryHolds(EntryOf(x.path, x.content), DirOf(Files(r)));
  }

  lemma AcceptedIsSound(r: Request, idOf: Naming)
    requires Good(r) && Loaded(r) && Holds(ManifestOf(r, idOf), DirOf(Files(r)), idOf)
    ensures Sound(r)
  {
    FixedFiles(r, idOf);
    LinesMatch(r, idOf);
    forall c | c in r.candidates ensures SoundCandidate(r, c) {
      assert GoodCandidate(r, c);
      var k :| 0 <= k < |r.candidates| && r.candidates[k] == c;
      if r.profile == RedactedVideo {
        forall v | v in r.redactions[c.session].outputs ensures v.content.Footage? && v.content.mp4 {
          var i :| 0 <= i < |r.redactions[c.session].outputs| && r.redactions[c.session].outputs[i] == v;
          VideoHolds(r, c, i);
        }
      }
    }
  }

  lemma SoundHolds(r: Request, idOf: Naming)
    requires Good(r) && Loaded(r) && Sound(r)
    ensures Holds(ManifestOf(r, idOf), DirOf(Files(r)), idOf)
  {
    DirectoryHolds(r);
    forall i | 0 <= i < |r.candidates| ensures OwnTrajectory(r.candidates[i]) {
      assert SoundCandidate(r, r.candidates[i]);
    }
    LinesMatch(r, idOf);
  }

  /** The validator accepts the release the exporter writes exactly when what the exporter took on trust is so. */
  lemma ReleaseAccepted(r: Request, idOf: Naming)
    requires Good(r) && Loaded(r) && idOf(ConfigurationOf(r)) != ""
    ensures Accepted(ManifestOf(r, idOf), DirOf(Files(r)), idOf) <==> Sound(r)
  {
    ManifestShaped(r, idOf);
    if Sound(r) {
      SoundHolds(r, idOf);
    }
    if Holds(ManifestOf(r, idOf), DirOf(Files(r)), idOf) {
      AcceptedIsSound(r, idOf);
    }
  }

  // Object keys.

  function KeysOf(prefix: string, files: seq<FileEntry>): (keys: seq<string>)
    ensures |keys| == |files| && forall i | 0 <= i < |files| :: keys[i] == prefix + files[i].path
  {
    seq(|files|, i requires 0 <= i < |files| => prefix + files[i].path)
  }

  /** Every object the export wrote: the listed files, the manifest and the bundle. */
  function WrittenKeys(id: string, files: seq<FileEntry>): seq<string> {
    KeysOf(Prefix(id), files) + [Prefix(id) + "manifest.json", Bundle(id)]
  }

  function ObjectKeys(id: string, files: seq<FileEntry>): seq<string> {
    Sorted(WrittenKeys(id, files), Same)
  }

  /** No dot is followed by another, so no part climbs. */
  predicate SingleDots(s: string) {
    forall i | 0 <= i < |s| - 1 :: s[i] == '.' ==> s[i + 1] != '.'
  }

  lemma DotsJoin(a: string, b: string)
    requires SingleDots(a) && SingleDots(b) && (a == "" || a[|a| - 1] != '.')
    ensures SingleDots(a + b)
  {
    forall i | 0 <= i < |a + b| - 1 && (a + b)[i] == '.' ensures (a + b)[i + 1] != '.' {
      if i + 1 < |a| {
        assert a[i] == '.' && a[i + 1] != '.';
      } else if i >= |a| {
        assert b[i - |a|] == '.' && b[i - |a| + 1] != '.';
      }
    }
  }

  lemma PlainDots(s: string)
    requires IdText(s)
    ensures SingleDots(s) && s[|s| - 1] != '.'
  {
  }

  lemma TrajectoryDots(s: string)
    requires IdText(s)
    ensures SingleDots(Text(TrajectoryPath(s))) && '\\' !in Text(TrajectoryPath(s))
  {
    NoSlash(s);
    PlainDots(s);
    DotsJoin("trajectories/", s);
    DotsJoin("trajectories/" + s, ".json");
  }

  lemma VideoDots(s: string, g: string)
    requires IdText(s) && IdText(g)
    ensures SingleDots(Text(VideoPath(s, g))) && '\\' !in Text(VideoPath(s, g))
  {
    NoSlash(s);
    NoSlash(g);
    PlainDots(s);
    PlainDots(g);
    DotsJoin("videos/", s);
    DotsJoin("videos/" + s, "/");
    DotsJoin("videos/" + s + "/", g);
    DotsJoin("videos/" + s + "/" + g, ".mp4");
  }

  lemma FixedDots(p: Path)
    requires !p.VideoPath? && !p.TrajectoryPath?
    ensures SingleDots(Text(p)) && '\\' !in Text(p)
  {
  }

  lemma TextDots(p: Path)
    requires PlainPath(p)
    ensures SingleDots(Text(p)) && '\\' !in Text(p)
  {
    match p
    case TrajectoryPath(s) => TrajectoryDots(s);
    case VideoPath(s, g) => VideoDots(s, g);
    case _ => FixedDots(p);
  }

  lemma PrefixDots(id: string)
    requires IdText(id)
    ensures SingleDots(Prefix(id)) && '\\' !in Prefix(id) && Prefix(id)[|Prefix(id)| - 1] != '.'
    ensures SingleDots(Bundle(id)) && '\\' !in Bundle(id)
  {
    NoSlash(id);
    PlainDots(id);
    DotsJoin("releases/", id);
    DotsJoin("releases/" + id, "/");
    DotsJoin("bundles/", id);
    DotsJoin("bundles/" + id, ".zip");
  }

  lemma KeyFine(id: string, path: string)
    requires IdText(id) && SingleDots(path) && '\\' !in path
    ensures KeyOk(id, Prefix(id) + path) && KeyOk(id, Bundle(id))
  {
    PrefixDots(id);
    DotsJoin(Prefix(id), path);
    assert (Prefix(id) + path)[..|Prefix(id)|] == Prefix(id);
  }

  lemma Apart(prefix: string, x: string, y: string)
    requires x != y
    ensures prefix + x != prefix + y
  {
    assert (prefix + x)[|prefix|..] == x && (prefix + y)[|prefix|..] == y;
  }

  lemma BundleApart(id: string, x: string)
    ensures Prefix(id) + x != Bundle(id)
  {
    assert (Prefix(id) + x)[0] == 'r' && Bundle(id)[0] == 'b';
  }

  /** The keys are all different: the paths are, the manifest is not among them, and the bundle lies elsewhere. */
  lemma KeysDistinct(r: Request, id: string)
    requires Good(r)
    ensures Distinct(WrittenKeys(id, Files(r)), Same)
  {
    FilesDo(r);
    OrderedDistinct(Files(r));
    forall f | f in Files(r) ensures f.path != "manifest.json" {
      ManifestApart(r, f);
    }
    DistinctKeys(id, Files(r));
  }

  lemma DistinctKeys(id: string, files: seq<FileEntry>)
    requires Distinct(files, PathOf) && forall f | f in files :: f.path != "manifest.json"
    ensures Distinct(WrittenKeys(id, files), Same)
  {
    var keys := WrittenKeys(id, files);
    forall i, j | 0 <= i < j < |keys| ensures keys[i] != keys[j] {
      if j < |files| {
        assert PathOf(files[i]) != PathOf(files[j]);
        Apart(Prefix(id), files[i].path, files[j].path);
      } else if i < |files| && j == |files| {
        assert files[i] in files;
        Apart(Prefix(id), files[i].path, "manifest.json");
      } else if i < |files| {
        BundleApart(id, files[i].path);
      } else {
        BundleApart(id, "manifest.json");
      }
    }
  }

  lemma ManifestApart(r: Request, f: FileEntry)
    requires Good(r) && f in Files(r)
    ensures f.path != "manifest.json"
  {
    var p, c := EntryItem(r, f, Sources(r.candidates));
    TextHead(p);
  }

  /** The recorded object keys are exactly what was written, and the database accepts them. */
  lemma ObjectKeysValid(r: Request, id: string)
    requires Good(r) && IdText(id)
    ensures multiset(ObjectKeys(id, Files(r))) == multiset(WrittenKeys(id, Files(r)))
    ensures ValidKeys(id, ObjectKeys(id, Files(r)))
  {
    var (written, keys) := (WrittenKeys(id, Files(r)), ObjectKeys(id, Files(r)));
    KeysDistinct(r, id);
    SortedDoes(written, Same);
    SameMembers(keys, written);
    forall k | k in keys ensures KeyOk(id, k) {
      WrittenKeyFine(r, id, k);
    }
    KeysOrdered(keys);
    FilesDo(r);
    EnoughItems(r);
    assert written[|Files(r)|] in written && written[|Files(r)| + 1] in written;
  }

  lemma KeysOrdered(keys: seq<string>)
    requires Ordered(keys, Same)
    ensures SortedUnique(keys)
  {
    forall i | 0 < i < |keys| ensures Less(keys[i - 1], keys[i]) {
      assert Less(Same(keys[i - 1]), Same(keys[i]));
    }
  }

  lemma WrittenKeyFine(r: Request, id: string, k: string)
    requires Good(r) && IdText(id) && k in WrittenKeys(id, Files(r))
    ensures KeyOk(id, k)
  {
    var i :| 0 <= i < |WrittenKeys(id, Files(r))| && WrittenKeys(id, Files(r))[i] == k;
    if i < |Files(r)| {
      var p, c := EntryItem(r, Files(r)[i], Sources(r.candidates));
      TextDots(p);
      KeyFine(id, Text(p));
    } else {
      KeyFine(id, "manifest.json");
    }
  }

  lemma EnoughItems(r: Request)
    requires Good(r)
    ensures 4 <= |BaseItems(r)|
  {
    var last := r.candidates[|r.candidates| - 1];
    assert CandidateItems(r, last) != [];
  }

  // The program.

  lemma EntriesAppend(items: seq<Item>, x: Item)
    ensures Entries(items + [x]) == Entries(items) + [EntryOf(x.path, x.content)]
    ensures DirOf(Entries(items + [x])) == DirOf(Entries(items))[Text(x.path) := x.content]
  {
    assert Entries(items + [x])[..|items|] == Entries(items);
  }

  lemma DirWithin(a: seq<FileEntry>, b: seq<FileEntry>)
    requires Distinct(a, PathOf) && Distinct(b, PathOf) && forall x | x in a :: x in b
    ensures forall p | p in DirOf(a) :: p in DirOf(b) && DirOf(b)[p] == DirOf(a)[p]
  {
    DirOfDoes(a);
    DirOfDoes(b);
    forall p | p in DirOf(a) ensures p in DirOf(b) && DirOf(b)[p] == DirOf(a)[p] {
      var i :| 0 <= i < |a| && PathsOf(a)[i] == p;
      assert a[i] in a;
      var j :| 0 <= j < |b| && b[j] == a[i];
    }
  }

  /** Writing the same entries in another order leaves the same directory. */
  lemma DirSame(a: seq<FileEntry>, b: seq<FileEntry>)
    requires multiset(a) == multiset(b) && Distinct(a, PathOf)
    ensures DirOf(a) == DirOf(b)
  {
    DistinctPermutes(a, b, PathOf);
    SameMembers(a, b);
    DirWithin(a, b);
    DirWithin(b, a);
  }

  method SortFiles(files: seq<FileEntry>) returns (sorted: seq<FileEntry>)
    requires Distinct(files, PathOf)
    ensures sorted == Sorted(files, PathOf)
  {
    var a := new FileEntry[|files|](i requires 0 <= i < |files| => files[i]);
    assert a[..] == files;
    SortInPlace(a, PathOf);
    sorted := a[..];
  }

  /** One file is written and listed. */
  method Put(x: Item, ghost before: seq<Item>, files: seq<FileEntry>, dir: map<string, Content>)
    returns (more: seq<FileEntry>, after: map<string, Content>)
    requires files == Entries(before) && dir == DirOf(files)
    ensures more == Entries(before + [x]) && after == DirOf(more)
  {
    EntriesAppend(before, x);
    more, after := files + [EntryOf(x.path, x.content)], dir[Text(x.path) := x.content];
  }

  /** The redacted videos of one session, after what is already written. */
  method PutVideos(session: string, outputs: seq<Video>, ghost before: seq<Item>, files: seq<FileEntry>, dir: map<string, Content>)
    returns (more: seq<FileEntry>, after: map<string, Content>)
    requires files == Entries(before) && dir == DirOf(files)
    ensures more == Entries(before + VideoItems(session, outputs)) && after == DirOf(more)
  {
    more, after := files, dir;
    assert before + VideoItems(session, []) == before;
    for i := 0 to |outputs|
      invariant more == Entries(before + VideoItems(session, outputs[..i])) && after == DirOf(more)
    {
      var x := Item(VideoPath(session, outputs[i].segment), outputs[i].content);
      assert outputs[..i + 1][..i] == outputs[..i];
      assert before + VideoItems(session, outputs[..i + 1]) == before + VideoItems(session, outputs[..i]) + [x];
      more, after := Put(x, before + VideoItems(session, outputs[..i]), more, after);
    }
    assert outputs[..|outputs|] == outputs;
  }

  /** The files of one candidate. */
  method PutCandidate(r: Request, c: Candidate, ghost before: seq<Item>, files: seq<FileEntry>, dir: map<string, Content>)
    returns (more: seq<FileEntry>, after: map<string, Content>)
    requires Loaded(r) && c in r.candidates && files == Entries(before) && dir == DirOf(files)
    ensures more == Entries(before + CandidateItems(r, c)) && after == DirOf(more)
  {
    var x := Item(TrajectoryPath(c.session), c.trajectory);
    more, after := Put(x, before, files, dir);
    if r.profile == RedactedVideo {
      more, after := PutVideos(c.session, r.redactions[c.session].outputs, before + [x], more, after);
      assert before + CandidateItems(r, c) == before + [x] + VideoItems(c.session, r.redactions[c.session].outputs);
    } else {
      assert CandidateItems(r, c) == [x];
    }
  }

  lemma OneMoreCandidate(r: Request, before: seq<Item>, i: nat)
    requires i < |r.candidates|
    ensures before + AllCandidateItems(r, r.candidates[..i + 1])
            == before + AllCandidateItems(r, r.candidates[..i]) + CandidateItems(r, r.candidates[i])
    ensures Trajectories(r.candidates[..i + 1]) == Trajectories(r.candidates[..i]) + [r.candidates[i].trajectory]
  {
    assert r.candidates[..i + 1][..i] == r.candidates[..i];
  }

  method PutCandidates(r: Request, ghost before: seq<Item>, files: seq<FileEntry>, dir: map<string, Content>)
    returns (more: seq<FileEntry>, after: map<string, Content>, jsonLines: seq<Content>)
    requires Loaded(r) && files == Entries(before) && dir == DirOf(files)
    ensures more == Entries(before + AllCandidateItems(r, r.candidates)) && after == DirOf(more)
    ensures jsonLines == Trajectories(r.candidates)
  {
    more, after, jsonLines := files, dir, [];
    assert before + AllCandidateItems(r, []) == before;
    for i := 0 to |r.candidates|
      invariant more == Entries(before + AllCandidateItems(r, r.candidates[..i])) && after == DirOf(more)
      invariant jsonLines == Trajectories(r.candidates[..i])
    {
      var c := r.candidates[i];
      OneMoreCandidate(r, before, i);
      more, after := PutCandidate(r, c, before + AllCandidateItems(r, r.candidates[..i]), more, after);
      jsonLines := jsonLines + [c.trajectory];
    }
    assert r.candidates[..|r.candidates|] == r.candidates;
  }

  method PutBase(r: Request) returns (files: seq<FileEntry>, dir: map<string, Content>)
    requires Loaded(r)
    ensures files == Entries(BaseItems(r)) && dir == DirOf(files)
  {
    var (readme, schema) := (Item(ReadmePath, ReadmeOf(r)), Item(SchemaPath, r.schema));
    files, dir := Put(readme, [], [], map[]);
    files, dir := Put(schema, [] + [readme], files, dir);
    var jsonLines;
    files, dir, jsonLines := PutCandidates(r, [] + [readme] + [schema], files, dir);
    assert [] + [readme] + [schema] == [readme, schema];
    files, dir := Put(Item(JsonlPath, JsonLines(jsonLines)), [readme, schema] + AllCandidateItems(r, r.candidates), files, dir);
  }

  /** The list is sorted, the checksums are written from it, and the list is sorted again with them. */
  method Seal(r: Request, base: seq<FileEntry>, before: map<string, Content>)
    returns (files: seq<FileEntry>, dir: map<string, Content>)
    requires Good(r) && base == Entries(BaseItems(r)) && before == DirOf(base)
    ensures files == Files(r) && dir == DirOf(files)
  {
    BaseItemsDo(r);
    EntriesDistinct(BaseItems(r));
    ListedDoes(r);
    DirSame(base, Listed(r));
    files := SortFiles(base);
    var checksums := EntryOf(ChecksumsPath, Checksums(ChecksumLines(files)));
    dir := before[checksums.path := checksums.digest];
    assert (files + [checksums])[..|files|] == files;
    ChecksumLast(r);
    SortedDoes(files + [checksums], PathOf);
    DirSame(files + [checksums], Files(r));
    files := SortFiles(files + [checksums]);
  }

  method SortKeys(written: seq<string>) returns (keys: seq<string>)
    requires Distinct(written, Same)
    ensures keys == Sorted(written, Same)
  {
    var a := new string[|written|](i requires 0 <= i < |written| => written[i]);
    assert a[..] == written;
    SortInPlace(a, Same);
    keys := a[..];
  }

  /** CreateWithProfile, from the listed candidates to the commit. */
  method Export(r: Request, idOf: Naming) returns (m: Manifest, dir: map<string, Content>, keys: seq<string>)
    requires Good(r) && Loaded(r)
    ensures m == ManifestOf(r, idOf) && dir == DirOf(m.files) && keys == ObjectKeys(m.releaseId, m.files)
  {
    var configuration := ConfigurationOf(r);
    var id := idOf(configuration);
    var base, before := PutBase(r);
    var files;
    files, dir := Seal(r, base, before);
    m := Manifest(id, configuration, configuration, files);
    KeysDistinct(r, id);
    keys := SortKeys(WrittenKeys(id, files));
  }

  lemma ChecksumLast(r: Request)
    requires Good(r)
    ensures Distinct(Listed(r) + [ChecksumEntry(r)], PathOf)
  {
    ListedDoes(r);
    OrderedDistinct(Listed(r));
    forall f | f in Listed(r) ensures f.path != CHECKSUMS {
      NotChecksum(r, f);
    }
    assert forall k | 0 <= k < |Listed(r)| :: Listed(r)[k] in Listed(r);
  }

  /** The whole chain: what is exported passes the database's key check, with the keys of the files, the manifest and
      the bundle, and passes the validator exactly when the exporter's inputs are sound. */
  lemma ExportAccepted(r: Request, idOf: Naming)
    requires Good(r) && Loaded(r) && IdText(idOf(ConfigurationOf(r)))
    ensures var m := ManifestOf(r, idOf);
            && (Accepted(m, DirOf(m.files), idOf) <==> Sound(r))
            && ValidKeys(m.releaseId, ObjectKeys(m.releaseId, m.files))
            && multiset(ObjectKeys(m.releaseId, m.files)) == multiset(WrittenKeys(m.releaseId, m.files))
  {
    ReleaseAccepted(r, idOf);
    ObjectKeysValid(r, idOf(ConfigurationOf(r)));
  }
}
