/** What the collector seals, both consumers accept. */
module Acceptance {
  import opened Common
  import opened SpoolSteps
  import opened CaptureSteps
  import opened SpoolSafety
  import opened Submission
  import opened Timeline

  /** Two outputs of one name hold the same, so the second copy does not spoil the first one's digest. */
  predicate NamesAgree(outputs: seq<Source>) {
    forall i, j | 0 <= i < j < |outputs| :: outputs[i].name == outputs[j].name ==> outputs[i].content == outputs[j].content
  }

  /** The entry describes the file as it is. */
  predicate Describes(files: map<Path, Content>, e: Entry) {
    e.path in files && e == EntryOf(e.path, files[e.path])
  }

  predicate AllDescribed(files: map<Path, Content>, entries: seq<Entry>) {
    forall e | e in entries :: Describes(files, e)
  }

  lemma {:induction false} SegmentEntriesDescribe(files: map<Path, Content>, segments: seq<Segment>, final: map<Path, Content>)
    requires SegmentsUsable(files, segments)
    requires forall g | g in segments :: Video(g.index) in final && final[Video(g.index)] == files[Video(g.index)]
    requires forall g | g in segments :: Events(g.index) in final && final[Events(g.index)] == NonemptyLog(files[Events(g.index)])
    ensures AllDescribed(final, SegmentEntries(files, segments))
  {
    if segments != [] {
      SegmentEntriesDescribe(files, segments[..|segments| - 1], final);
      assert segments[|segments| - 1] in segments;
    }
  }

  /** A copied output is there, with the contents of the last source of its name. */
  lemma {:induction false} CopiedHolds(files: map<Path, Content>, outputs: seq<Source>, i: nat)
    requires i < |outputs| && forall o | o in outputs :: Attachable(o)
    ensures Attachable(outputs[i]) && Output(outputs[i].name) in Copied(files, outputs)
    ensures (forall j | i < j < |outputs| :: outputs[j].name == outputs[i].name ==> outputs[j].content == outputs[i].content) ==>
              Copied(files, outputs)[Output(outputs[i].name)] == outputs[i].content.value
  {
    assert Attachable(outputs[|outputs| - 1]);
    if i < |outputs| - 1 {
      CopiedHolds(files, outputs[..|outputs| - 1], i);
    }
  }

  lemma {:induction false} OutputEntriesAt(outputs: seq<Source>, i: nat)
    requires i < |outputs| && forall o | o in outputs :: Attachable(o)
    ensures |OutputEntries(outputs)| == |outputs| && Attachable(outputs[i])
    ensures OutputEntries(outputs)[i] == EntryOf(Output(outputs[i].name), outputs[i].content.value)
  {
    var prefix := outputs[..|outputs| - 1];
    assert Attachable(outputs[i]) && Attachable(outputs[|outputs| - 1]);
    if i < |prefix| {
      OutputEntriesAt(prefix, i);
    } else if |prefix| > 0 {
      OutputEntriesAt(prefix, 0);
    }
  }

  /** The output entries describe the copied files exactly when outputs of one name agree. */
  lemma OutputEntriesDescribe(files: map<Path, Content>, outputs: seq<Source>)
    requires forall o | o in outputs :: Attachable(o)
    ensures AllDescribed(Copied(files, outputs), OutputEntries(outputs)) <==> NamesAgree(outputs)
  {
    var final, entries := Copied(files, outputs), OutputEntries(outputs);
    if outputs != [] {
      OutputEntriesAt(outputs, 0);
    }
    if NamesAgree(outputs) {
      forall e | e in entries ensures Describes(final, e) {
        var i :| 0 <= i < |entries| && entries[i] == e;
        OutputEntriesAt(outputs, i);
        CopiedHolds(files, outputs, i);
      }
    }
    if AllDescribed(final, entries) {
      forall i, j | 0 <= i < j < |outputs| && outputs[i].name == outputs[j].name ensures outputs[i].content == outputs[j].content {
        OutputEntriesAt(outputs, i);
        OutputEntriesAt(outputs, j);
        assert Describes(final, entries[i]) && Describes(final, entries[j]);
        assert Attachable(outputs[i]) && Attachable(outputs[j]);
      }
    }
  }

  /** The state a finalization leaves when it succeeds. */
  function FinalFiles(s: Spool, outputs: seq<Source>): map<Path, Content> {
    Copied(FilledLogs(s.dir.files, s.state.segments), outputs)
  }

  ghost predicate Sealable(s: Spool, outputs: seq<Source>) {
    && SpoolOk(s, false) && s.dir.stored == Some(s.state) && s.state.elapsed > 0 && Finalizable(s, outputs)
  }

  /** verify_manifest accepts the capture exactly when an output is attached and outputs of one name agree. */
  lemma ManifestVerified(s: Spool, outputs: seq<Source>)
    requires Sealable(s, outputs)
    ensures Verified(FinalFiles(s, outputs), FinalManifest(s, outputs)) <==> outputs != [] && NamesAgree(outputs)
    ensures NamesAgree(outputs) ==> AllDescribed(FinalFiles(s, outputs), FinalManifest(s, outputs).artifacts)
  {
    var filled, final := FilledLogs(s.dir.files, s.state.segments), FinalFiles(s, outputs);
    var segmentEntries, outputEntries := SegmentEntries(s.dir.files, s.state.segments), OutputEntries(outputs);
    var artifacts := segmentEntries + outputEntries;
    FilledLogsDo(s.dir.files, s.state.segments);
    CopiedAddsOutputs(filled, outputs);
    forall g | g in s.state.segments
      ensures Video(g.index) in final && final[Video(g.index)] == s.dir.files[Video(g.index)]
      ensures Events(g.index) in final && final[Events(g.index)] == NonemptyLog(s.dir.files[Events(g.index)])
    {
      assert Sealed(s.dir.files, g);
    }
    SegmentEntriesDescribe(s.dir.files, s.state.segments, final);
    OutputEntriesDescribe(filled, outputs);
    if outputs == [] {
      SegmentEntriesNoOutput(s.dir.files, s.state.segments);
    } else {
      OutputEntriesAt(outputs, 0);
      assert artifacts[|segmentEntries|] == outputEntries[0] && outputEntries[0] in artifacts;
    }
    OutputEntriesTyped(outputs);
    if forall e | e in artifacts :: Intact(final, e) {
      forall e | e in outputEntries ensures Describes(final, e) {
        assert e in artifacts && Intact(final, e);
      }
    }
    assert forall e | e in artifacts :: e in segmentEntries || e in outputEntries;
  }

  lemma {:induction false} SegmentEntriesNoOutput(files: map<Path, Content>, segments: seq<Segment>)
    requires SegmentsUsable(files, segments)
    ensures forall e | e in SegmentEntries(files, segments) :: !e.path.Output?
  {
    if segments != [] {
      SegmentEntriesNoOutput(files, segments[..|segments| - 1]);
    }
  }

  /** Every output entry is made from its path and digest. */
  lemma {:induction false} OutputEntriesTyped(outputs: seq<Source>)
    requires forall o | o in outputs :: Attachable(o)
    ensures forall e | e in OutputEntries(outputs) :: e == EntryOf(e.path, e.digest) && e.path.Output?
  {
    if outputs != [] {
      assert Attachable(outputs[|outputs| - 1]);
      OutputEntriesTyped(outputs[..|outputs| - 1]);
    }
  }

  // The logs of a manifest.

  lemma EventIndicesConcat(a: seq<Entry>, b: seq<Entry>)
    ensures EventIndices(a + b) == EventIndices(a) + EventIndices(b)
  {
    if b == [] {
      assert a + b == a;
    } else {
      assert (a + b)[..|a + b| - 1] == a + b[..|b| - 1];
      EventIndicesConcat(a, b[..|b| - 1]);
    }
  }

  lemma PairLogs(video: Entry, log: Entry)
    requires video.path.Video? && log.path.Events?
    ensures EventIndices([video, log]) == [log.path.index]
  {
    assert [video, log][..1] == [video] && EventIndices([video]) == [];
  }

  lemma {:induction false} SegmentLogs(files: map<Path, Content>, segments: seq<Segment>)
    requires SegmentsUsable(files, segments) && Chain(segments)
    ensures EventIndices(SegmentEntries(files, segments)) == UpTo(|segments|)
  {
    if segments != [] {
      var (prefix, g) := (segments[..|segments| - 1], segments[|segments| - 1]);
      SegmentLogs(files, prefix);
      assert Usable(files, g);
      var (video, log) := (EntryOf(Video(g.index), files[Video(g.index)]), EntryOf(Events(g.index), NonemptyLog(files[Events(g.index)])));
      EventIndicesConcat(SegmentEntries(files, prefix), [video, log]);
      PairLogs(video, log);
      assert SegmentEntries(files, segments) == SegmentEntries(files, prefix) + [video, log];
    }
  }

  lemma {:induction false} OutputsHaveNoLogs(outputs: seq<Source>)
    requires forall o | o in outputs :: Attachable(o)
    ensures EventIndices(OutputEntries(outputs)) == []
  {
    if outputs != [] {
      assert Attachable(outputs[|outputs| - 1]);
      OutputsHaveNoLogs(outputs[..|outputs| - 1]);
    }
  }

  // What was uploaded from the manifest.

  function Registered(artifacts: seq<Entry>): map<Path, Entry> {
    if artifacts == [] then map[]
    else
      var last := artifacts[|artifacts| - 1];
      Registered(artifacts[..|artifacts| - 1])[last.path := last]
  }

  lemma {:induction false} DescribedIsRegistered(files: map<Path, Content>, artifacts: seq<Entry>)
    requires AllDescribed(files, artifacts)
    ensures forall e | e in artifacts :: e.path in Registered(artifacts) && Registered(artifacts)[e.path] == e
    ensures forall p | p in Registered(artifacts) :: Registered(artifacts)[p] in artifacts && Registered(artifacts)[p].path == p
  {
    if artifacts != [] {
      DescribedIsRegistered(files, artifacts[..|artifacts| - 1]);
      assert Describes(files, artifacts[|artifacts| - 1]);
      assert forall e | e in artifacts :: Describes(files, e) && (e in artifacts[..|artifacts| - 1] || e == artifacts[|artifacts| - 1]);
    }
  }

  lemma {:induction false} OutputsAmong(artifacts: seq<Entry>)
    ensures forall o | o in OutputsOf(artifacts) :: o in artifacts
  {
    if artifacts != [] {
      OutputsAmong(artifacts[..|artifacts| - 1]);
    }
  }

  lemma {:induction false} SegmentVideoListed(files: map<Path, Content>, segments: seq<Segment>, g: Segment)
    requires SegmentsUsable(files, segments) && g in segments
    ensures Usable(files, g) && EntryOf(Video(g.index), files[Video(g.index)]) in SegmentEntries(files, segments)
  {
    assert Usable(files, g);
    if g != segments[|segments| - 1] {
      SegmentVideoListed(files, segments[..|segments| - 1], g);
    }
  }

  /** The document made from a sealed capture passes the server's cross-reference checks once the manifest's files
      are registered, and both timeline checks, exactly when the log names do not scramble its events. */
  lemma CaptureAccepted(s: Spool, outputs: seq<Source>, order: seq<nat>)
    requires Sealable(s, outputs) && NamesAgree(outputs)
    requires SortedByName(order, EventIndices(FinalManifest(s, outputs).artifacts))
    ensures var (m, actions) := (FinalManifest(s, outputs), EventsOf(FinalFiles(s, outputs), order));
            && (OnTimeline(actions, m.duration) <==> !Scrambled(FinalFiles(s, outputs), |s.state.segments|))
            && (OnTimeline(actions, m.duration) <==> Consistent(TrajectoryOf(m, actions), Registered(m.artifacts)))
  {
    ManifestLogs(s, outputs);
    SealedLogsFinal(s, outputs);
    OnTimelineExactly(FinalFiles(s, outputs), s.state.segments, order, s.state.elapsed);
    DocumentConsistent(s, outputs, EventsOf(FinalFiles(s, outputs), order));
  }

  /** Whatever the actions, only their timeline can make the document inconsistent. */
  lemma DocumentConsistent(s: Spool, outputs: seq<Source>, actions: seq<nat>)
    requires Sealable(s, outputs) && NamesAgree(outputs)
    ensures var m := FinalManifest(s, outputs);
            OnTimeline(actions, m.duration) <==> Consistent(TrajectoryOf(m, actions), Registered(m.artifacts))
  {
    UploadsMatch(s, outputs);
    Steps(actions, s.state.elapsed);
  }

  lemma ManifestLogs(s: Spool, outputs: seq<Source>)
    requires Sealable(s, outputs)
    ensures EventIndices(FinalManifest(s, outputs).artifacts) == UpTo(|s.state.segments|)
  {
    EventIndicesConcat(SegmentEntries(s.dir.files, s.state.segments), OutputEntries(outputs));
    SegmentLogs(s.dir.files, s.state.segments);
    OutputsHaveNoLogs(outputs);
  }

  /** Every segment and output of the document finds its upload. */
  lemma UploadsMatch(s: Spool, outputs: seq<Source>)
    requires Sealable(s, outputs) && NamesAgree(outputs)
    ensures var artifacts := FinalManifest(s, outputs).artifacts;
            && (forall g | g in s.state.segments :: SegmentRegistered(Registered(artifacts), g))
            && (forall o | o in OutputsOf(artifacts) :: OutputRegistered(Registered(artifacts), o))
  {
    var artifacts := FinalManifest(s, outputs).artifacts;
    ManifestVerified(s, outputs);
    DescribedIsRegistered(FinalFiles(s, outputs), artifacts);
    OutputsAmong(artifacts);
    forall g | g in s.state.segments ensures SegmentRegistered(Registered(artifacts), g) {
      SegmentVideoListed(s.dir.files, s.state.segments, g);
      assert EntryOf(Video(g.index), s.dir.files[Video(g.index)]) in artifacts;
      assert Sealed(s.dir.files, g);
    }
  }

  lemma SealedLogsFinal(s: Spool, outputs: seq<Source>)
    requires Sealable(s, outputs)
    ensures Logged(FinalFiles(s, outputs), s.state.segments)
  {
    FilledLogsDo(s.dir.files, s.state.segments);
    CopiedAddsOutputs(FilledLogs(s.dir.files, s.state.segments), outputs);
    forall g | g in s.state.segments ensures Timed(LogOf(FinalFiles(s, outputs), g.index), g.start, g.end) {
      assert Sealed(s.dir.files, g);
    }
  }
}
