/** The collector's capture directory, the recorder and the commands that drive them, as functions on one state
    (collector-core/src/spool.rs, recorder.rs and src-tauri/src/lib.rs). Times are nanoseconds of capture time. */
module SpoolSteps {
  import opened Common

  const U64_MAX: int := 0xFFFF_FFFF_FFFF_FFFF

  datatype Stage = Ready | Recording | Paused | Finalizing | Finalized | Failed

  /** What a file holds. Two files have equal digests only if they hold the same. */
  datatype Content =
    | Footage(size: nat, bytes: Id)
    | Lines(events: seq<nat>, blanks: nat)
    | Attachment(size: nat, bytes: Id)

  /** In bytes for footage and attachments; for event logs only whether there is any line matters. */
  function Size(c: Content): nat {
    match c
    case Footage(size, _) => size
    case Lines(events, blanks) => |events| + blanks
    case Attachment(size, _) => size
  }

  datatype Path = Video(index: nat) | Events(index: nat) | Output(name: string)

  datatype Active = Active(index: nat, start: nat)
  datatype Segment = Segment(index: nat, start: nat, end: nat, footage: Content)
  datatype State = State(
    stage: Stage, elapsed: nat, lastEvent: Option<nat>, active: Option<Active>, segments: seq<Segment>)

  datatype Entry = Entry(path: Path, size: nat, digest: Content, mediaType: string)
  datatype Manifest = Manifest(duration: nat, segments: seq<Segment>, artifacts: seq<Entry>)

  /** The files of one session, with state.json, manifest.json and submission.json set apart. */
  datatype Dir = Dir(files: map<Path, Content>, stored: Option<State>, manifest: Option<Manifest>, submitted: bool)

  datatype Spool = Spool(state: State, dir: Dir)

  /** A refusal can leave the state changed, in memory or on disk. */
  datatype Outcome = Done(spool: Spool) | Refused(spool: Spool)

  function Persisted(s: Spool): Spool {
    s.(dir := s.dir.(stored := Some(s.state)))
  }

  function Saved(s: Spool, state: State): Outcome {
    Done(Persisted(s.(state := state)))
  }

  const NEW_STATE := State(Ready, 0, None, None, [])

  function Create(): Spool {
    Persisted(Spool(NEW_STATE, Dir(map[], None, None, false)))
  }

  function CheckpointElapsed(s: Spool, elapsed: nat): Outcome {
    if s.state.stage != Recording && s.state.stage != Paused then Refused(s)
    else if elapsed < s.state.elapsed then Refused(s)
    else Saved(s, s.state.(elapsed := elapsed))
  }

  function Start(s: Spool): Outcome {
    if s.state.stage != Ready then Refused(s) else Saved(s, s.state.(stage := Recording))
  }

  function Pause(s: Spool, elapsed: nat): Outcome {
    if s.state.stage != Recording || s.state.active.Some? then Refused(s)
    else Saved(s, s.state.(elapsed := elapsed, stage := Paused))
  }

  function Resume(s: Spool): Outcome {
    if s.state.stage != Paused then Refused(s) else Saved(s, s.state.(stage := Recording))
  }

  /** The index is the next free one, so an aborted segment's index is used again. */
  function BeginVideoSegment(s: Spool, start: nat): Outcome {
    if s.state.stage != Recording || s.state.active.Some? then Refused(s)
    else
      var index := |s.state.segments| + 1;
      var begun := Persisted(s.(state := s.state.(active := Some(Active(index, start)))));
      if Events(index) in begun.dir.files then Refused(begun)
      else Done(begun.(dir := begun.dir.(files := begun.dir.files[Events(index) := Lines([], 0)])))
  }

  function AbortVideoSegment(s: Spool): Outcome {
    if s.state.active.None? then Refused(s)
    else
      var index := s.state.active.value.index;
      var removed := s.(dir := s.dir.(files := s.dir.files - {Events(index), Video(index)}));
      Saved(removed, s.state.(active := None))
  }

  /** When the video file is missing the active segment is forgotten in memory and not on disk. */
  function FinishVideoSegment(s: Spool, end: nat): Outcome {
    if s.state.active.None? then Refused(s)
    else
      var active := s.state.active.value;
      if end <= active.start then Refused(s)
      else if Video(active.index) !in s.dir.files then Refused(s.(state := s.state.(active := None)))
      else
        var footage := s.dir.files[Video(active.index)];
        if Size(footage) == 0 then Refused(s)
        else Saved(s, s.state.(active := None, elapsed := end,
                               segments := s.state.segments + [Segment(active.index, active.start, end, footage)]))
  }

  function Max(a: nat, b: nat): nat {
    if a < b then b else a
  }

  function SaturatingNext(t: nat): nat {
    if t < U64_MAX then t + 1 else t
  }

  function PrepareRecovery(s: Spool): Outcome {
    if s.state.stage == Finalized then Refused(s)
    else if s.state.active.None? then Saved(s, s.state.(stage := Paused))
    else
      var active := s.state.active.value;
      var settled := if Video(active.index) in s.dir.files && Size(s.dir.files[Video(active.index)]) > 0
                     then FinishVideoSegment(s, Max(s.state.elapsed, SaturatingNext(active.start)))
                     else AbortVideoSegment(s);
      if settled.Refused? then settled else Saved(settled.spool, settled.spool.state.(stage := Paused))
  }

  /** `allowed` is the policy's decision on the event's context. */
  function RecordEvent(s: Spool, timestamp: nat, allowed: bool): Outcome {
    if s.state.stage != Recording || !allowed then Refused(s)
    else if s.state.lastEvent.Some? && timestamp < s.state.lastEvent.value then Refused(s)
    else if s.state.active.None? then Refused(s)
    else
      var path := Events(s.state.active.value.index);
      if path !in s.dir.files || !s.dir.files[path].Lines? then Refused(s)
      else
        var log := s.dir.files[path];
        var appended := s.(dir := s.dir.(files := s.dir.files[path := log.(events := log.events + [timestamp])]));
        Saved(appended, s.state.(lastEvent := Some(timestamp), elapsed := Max(s.state.elapsed, timestamp)))
  }

  function BeginFinalization(s: Spool, elapsed: nat): Outcome {
    if s.state.stage != Recording && s.state.stage != Paused then Refused(s)
    else if s.state.active.Some? then Refused(s)
    else Saved(s, s.state.(elapsed := elapsed, stage := Finalizing))
  }

  // Finalization.

  /** An output file to attach: its name, what it holds, and whether the name and type are acceptable. */
  datatype Source = Source(name: string, content: Option<Content>, acceptable: bool)

  predicate Attachable(source: Source) {
    source.acceptable && source.content.Some? && Size(source.content.value) > 0
  }

  /** An empty event log gets one blank line. */
  function NonemptyLog(c: Content): Content {
    if Size(c) == 0 && c.Lines? then c.(blanks := 1) else c
  }

  function FilledLogs(files: map<Path, Content>, segments: seq<Segment>): map<Path, Content> {
    if segments == [] then files
    else
      var before := FilledLogs(files, segments[..|segments| - 1]);
      var path := Events(segments[|segments| - 1].index);
      if path in before then before[path := NonemptyLog(before[path])] else before
  }

  function Copied(files: map<Path, Content>, outputs: seq<Source>): map<Path, Content> {
    if outputs == [] then files
    else
      var before := Copied(files, outputs[..|outputs| - 1]);
      var last := outputs[|outputs| - 1];
      if last.content.Some? then before[Output(last.name) := last.content.value] else before
  }

  function MediaType(path: Path): string {
    match path
    case Video(_) => "video/mp4"
    case Events(_) => "application/x-ndjson"
    case Output(_) => "application/octet-stream"
  }

  function EntryOf(path: Path, c: Content): Entry {
    Entry(path, Size(c), c, MediaType(path))
  }

  /** The segment's video is there and not empty, and so is its event log once a blank line may be added. */
  predicate Usable(files: map<Path, Content>, g: Segment) {
    && Video(g.index) in files && Size(files[Video(g.index)]) > 0
    && Events(g.index) in files && Size(NonemptyLog(files[Events(g.index)])) > 0
  }

  predicate SegmentsUsable(files: map<Path, Content>, segments: seq<Segment>) {
    forall g | g in segments :: Usable(files, g)
  }

  /** The manifest entries, in the order they are made: video and events of each segment, then the outputs. */
  function SegmentEntries(files: map<Path, Content>, segments: seq<Segment>): seq<Entry>
    requires SegmentsUsable(files, segments)
  {
    if segments == [] then []
    else
      var g := segments[|segments| - 1];
      assert Usable(files, g);
      SegmentEntries(files, segments[..|segments| - 1])
      + [EntryOf(Video(g.index), files[Video(g.index)]), EntryOf(Events(g.index), NonemptyLog(files[Events(g.index)]))]
  }

  function OutputEntries(outputs: seq<Source>): seq<Entry>
    requires forall o | o in outputs :: Attachable(o)
  {
    if outputs == [] then []
    else
      var last := outputs[|outputs| - 1];
      assert Attachable(last);
      OutputEntries(outputs[..|outputs| - 1]) + [EntryOf(Output(last.name), last.content.value)]
  }

  function FinalManifest(s: Spool, outputs: seq<Source>): Manifest
    requires SegmentsUsable(s.dir.files, s.state.segments) && forall o | o in outputs :: Attachable(o)
  {
    Manifest(s.state.elapsed, s.state.segments, SegmentEntries(s.dir.files, s.state.segments) + OutputEntries(outputs))
  }

  predicate Finalizable(s: Spool, outputs: seq<Source>) {
    && s.state.stage == Finalizing && s.state.segments != []
    && (s.state.lastEvent.Some? ==> s.state.lastEvent.value <= s.state.elapsed)
    && SegmentsUsable(s.dir.files, s.state.segments)
    && forall o | o in outputs :: Attachable(o)
  }

  /** Finalization stopped after filling the first `logs` event logs and copying the first `copies` outputs, and after
      writing the manifest or not. */
  function Interrupted(s: Spool, outputs: seq<Source>, logs: nat, copies: nat, manifestWritten: bool): Spool
    requires logs <= |s.state.segments| && copies <= |outputs|
    requires manifestWritten ==> Finalizable(s, outputs)
  {
    var files := Copied(FilledLogs(s.dir.files, s.state.segments[..logs]), outputs[..copies]);
    s.(dir := s.dir.(files := files, manifest := if manifestWritten then Some(FinalManifest(s, outputs)) else s.dir.manifest))
  }

  /** How many segments are usable before the first that is not. */
  function UsablePrefix(files: map<Path, Content>, segments: seq<Segment>): (n: nat)
    ensures n <= |segments| && (n == |segments| <==> SegmentsUsable(files, segments))
  {
    if segments == [] then 0
    else
      var last := |segments| - 1;
      var n := UsablePrefix(files, segments[..last]);
      assert segments == segments[..last] + [segments[last]];
      if n < last || !Usable(files, segments[last]) then n else |segments|
  }

  lemma {:induction false} UsablePrefixIs(files: map<Path, Content>, segments: seq<Segment>, i: nat)
    requires i < |segments| && !Usable(files, segments[i]) && forall k | 0 <= k < i :: Usable(files, segments[k])
    ensures UsablePrefix(files, segments) == i
  {
    if i < |segments| - 1 {
      UsablePrefixIs(files, segments[..|segments| - 1], i);
    } else {
      assert forall g | g in segments[..i] :: Usable(files, g);
    }
  }

  lemma {:induction false} AttachablePrefixIs(outputs: seq<Source>, i: nat)
    requires i < |outputs| && !Attachable(outputs[i]) && forall k | 0 <= k < i :: Attachable(outputs[k])
    ensures AttachablePrefix(outputs) == i
  {
    if i < |outputs| - 1 {
      AttachablePrefixIs(outputs[..|outputs| - 1], i);
    } else {
      assert forall o | o in outputs[..i] :: Attachable(o);
    }
  }

  /** How many outputs can be attached before the first that cannot. */
  function AttachablePrefix(outputs: seq<Source>): (n: nat)
    ensures n <= |outputs| && (n == |outputs| <==> forall o | o in outputs :: Attachable(o))
  {
    if outputs == [] then 0
    else
      var last := |outputs| - 1;
      var n := AttachablePrefix(outputs[..last]);
      assert outputs == outputs[..last] + [outputs[last]];
      if n < last || !Attachable(outputs[last]) then n else |outputs|
  }

  /** An unusable segment stops finalization with the logs before it filled; an output that cannot be attached stops
      it with the outputs before it copied, and with its own copy if it was merely empty. */
  function Finalize(s: Spool, outputs: seq<Source>): Outcome {
    var usable := UsablePrefix(s.dir.files, s.state.segments);
    var n := AttachablePrefix(outputs);
    if s.state.stage != Finalizing || s.state.segments == [] then Refused(s)
    else if s.state.lastEvent.Some? && s.state.lastEvent.value > s.state.elapsed then Refused(s)
    else if usable < |s.state.segments| then Refused(Interrupted(s, outputs, usable, 0, false))
    else if n < |outputs| then
      Refused(Interrupted(s, outputs, usable, if outputs[n].acceptable && outputs[n].content.Some? then n + 1 else n, false))
    else Saved(Interrupted(s, outputs, usable, n, true), s.state.(stage := Finalized))
  }
}
