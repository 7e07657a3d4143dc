/** The collector's objects: SessionSpool, SegmentedRecorder and ActiveCapture, updated in place. */
module Collector {
  import opened Common
  import Steps = SpoolSteps
  import Driver = CaptureSteps
  import opened SpoolSteps
  import Safety = SpoolSafety

  class SessionSpool {
    var dir: Dir
    var state: State

    /** The spool's directory and state as one value. */
    function View(): Spool
      reads this
    {
      Spool(state, dir)
    }

    /** A new session directory. */
    constructor Create()
      ensures View() == Steps.Create()
    {
      state := NEW_STATE;
      dir := Dir(map[], Some(NEW_STATE), None, false);
    }

    /** After a crash only the directory is left, and the state is read back from it. */
    constructor Open(dir: Dir)
      requires dir.stored.Some?
      ensures View() == Spool(dir.stored.value, dir)
    {
      this.dir, state := dir, dir.stored.value;
    }

    method PersistState()
      modifies this
      ensures View() == Persisted(old(View()))
    {
      dir := dir.(stored := Some(state));
    }

    method CheckpointElapsed(elapsed: nat) returns (ok: bool)
      modifies this
      ensures View() == Steps.CheckpointElapsed(old(View()), elapsed).spool
      ensures ok == Steps.CheckpointElapsed(old(View()), elapsed).Done?
    {
      if state.stage != Recording && state.stage != Paused {
        return false;
      }
      if elapsed < state.elapsed {
        return false;
      }
      state := state.(elapsed := elapsed);
      PersistState();
      return true;
    }

    method PrepareRecovery() returns (ok: bool)
      modifies this
      ensures View() == Steps.PrepareRecovery(old(View())).spool
      ensures ok == Steps.PrepareRecovery(old(View())).Done?
    {
      if state.stage == Finalized {
        return false;
      }
      if state.active.Some? {
        var active := state.active.value;
        if Video(active.index) in dir.files && Size(dir.files[Video(active.index)]) > 0 {
          var end := Max(state.elapsed, SaturatingNext(active.start));
          ok := FinishVideoSegment(end);
        } else {
          ok := AbortVideoSegment();
        }
        if !ok {
          return;
        }
      }
      state := state.(stage := Paused);
      PersistState();
      return true;
    }

    method Start() returns (ok: bool)
      modifies this
      ensures View() == Steps.Start(old(View())).spool
      ensures ok == Steps.Start(old(View())).Done?
    {
      if state.stage != Ready {
        return false;
      }
      state := state.(stage := Recording);
      PersistState();
      return true;
    }

    method Pause(elapsed: nat) returns (ok: bool)
      modifies this
      ensures View() == Steps.Pause(old(View()), elapsed).spool
      ensures ok == Steps.Pause(old(View()), elapsed).Done?
    {
      if state.stage != Recording {
        return false;
      }
      if state.active.Some? {
        return false;
      }
      state := state.(elapsed := elapsed);
      state := state.(stage := Paused);
      PersistState();
      return true;
    }

    method Resume() returns (ok: bool)
      modifies this
      ensures View() == Steps.Resume(old(View())).spool
      ensures ok == Steps.Resume(old(View())).Done?
    {
      if state.stage != Paused {
        return false;
      }
      state := state.(stage := Recording);
      PersistState();
      return true;
    }

    method BeginVideoSegment(start: nat) returns (ok: bool)
      modifies this
      ensures View() == Steps.BeginVideoSegment(old(View()), start).spool
      ensures ok == Steps.BeginVideoSegment(old(View()), start).Done?
    {
      if state.stage != Recording {
        return false;
      }
      if state.active.Some? {
        return false;
      }
      var index := |state.segments| + 1;
      state := state.(active := Some(Active(index, start)));
      PersistState();
      if Events(index) in dir.files {
        return false;
      }
      dir := dir.(files := dir.files[Events(index) := Lines([], 0)]);
      return true;
    }

    method AbortVideoSegment() returns (ok: bool)
      modifies this
      ensures View() == Steps.AbortVideoSegment(old(View())).spool
      ensures ok == Steps.AbortVideoSegment(old(View())).Done?
    {
      if state.active.None? {
        return false;
      }
      var active := state.active.value;
      state := state.(active := None);
      dir := dir.(files := dir.files - {Events(active.index), Video(active.index)});
      PersistState();
      return true;
    }

    method FinishVideoSegment(end: nat) returns (ok: bool)
      modifies this
      ensures View() == Steps.FinishVideoSegment(old(View()), end).spool
      ensures ok == Steps.FinishVideoSegment(old(View()), end).Done?
    {
      if state.active.None? {
        return false;
      }
      var active := state.active.value;
      state := state.(active := None);
      if end <= active.start {
        state := state.(active := Some(active));
        return false;
      }
      var path := Video(active.index);
      if path !in dir.files {
        return false;
      }
      var footage := dir.files[path];
      if Size(footage) == 0 {
        state := state.(active := Some(active));
        return false;
      }
      state := state.(elapsed := end);
      state := state.(segments := state.segments + [Segment(active.index, active.start, end, footage)]);
      PersistState();
      return true;
    }

    method RecordEvent(timestamp: nat, allowed: bool) returns (ok: bool)
      modifies this
      ensures View() == Steps.RecordEvent(old(View()), timestamp, allowed).spool
      ensures ok == Steps.RecordEvent(old(View()), timestamp, allowed).Done?
    {
      if state.stage != Recording {
        return false;
      }
      if !allowed {
        return false;
      }
      if state.lastEvent.Some? && timestamp < state.lastEvent.value {
        return false;
      }
      if state.active.None? {
        return false;
      }
      var path := Events(state.active.value.index);
      if path !in dir.files || !dir.files[path].Lines? {
        return false;
      }
      var log := dir.files[path];
      dir := dir.(files := dir.files[path := log.(events := log.events + [timestamp])]);
      state := state.(lastEvent := Some(timestamp));
      state := state.(elapsed := Max(state.elapsed, timestamp));
      PersistState();
      return true;
    }

    method BeginFinalization(elapsed: nat) returns (ok: bool)
      modifies this
      ensures View() == Steps.BeginFinalization(old(View()), elapsed).spool
      ensures ok == Steps.BeginFinalization(old(View()), elapsed).Done?
    {
      if state.stage != Recording && state.stage != Paused {
        return false;
      }
      if state.active.Some? {
        return false;
      }
      state := state.(elapsed := elapsed);
      state := state.(stage := Finalizing);
      PersistState();
      return true;
    }

    method CollectSegment(segment: Segment) returns (ok: bool, entries: seq<Entry>)
      modifies this
      ensures state == old(state) && (ok <==> Usable(old(dir.files), segment)) && (!ok ==> dir == old(dir))
      ensures ok ==>
                var (files, video, events) := (old(dir.files), Video(segment.index), Events(segment.index));
                && entries == [EntryOf(video, files[video]), EntryOf(events, NonemptyLog(files[events]))]
                && dir == old(dir).(files := if Size(files[events]) == 0 then files[events := NonemptyLog(files[events])] else files)
    {
      var (video, events) := (Video(segment.index), Events(segment.index));
      if video !in dir.files || Size(dir.files[video]) == 0 {
        return false, [];
      }
      if events !in dir.files || Size(NonemptyLog(dir.files[events])) == 0 {
        return false, [];
      }
      entries := [EntryOf(video, dir.files[video])];
      if Size(dir.files[events]) == 0 {
        dir := dir.(files := dir.files[events := NonemptyLog(dir.files[events])]);
      }
      entries := entries + [EntryOf(events, dir.files[events])];
      return true, entries;
    }

    /** The manifest entries of the sealed segments, with a blank line put into every empty event log on the way. */
    method CollectSegments(ghost outputs: seq<Source>) returns (ok: bool, artifacts: seq<Entry>)
      modifies this
      ensures ok <==> SegmentsUsable(old(dir.files), old(state.segments))
      ensures View() == Interrupted(old(View()), outputs, UsablePrefix(old(dir.files), old(state.segments)), 0, false)
      ensures ok ==> artifacts == SegmentEntries(old(dir.files), old(state.segments))
    {
      artifacts := [];
      ghost var before := dir.files;
      ghost var segments := state.segments;
      for i := 0 to |state.segments|
        invariant state == old(state) && dir == old(dir).(files := FilledLogs(before, segments[..i]))
        invariant forall g | g in segments[..i] :: Usable(before, g)
        invariant artifacts == SegmentEntries(before, segments[..i])
      {
        var segment := state.segments[i];
        FilledKeepsUsable(before, segments[..i], segment);
        FilledStep(before, segments[..i], segment);
        assert segments[..i + 1][..i] == segments[..i] && segments[..i + 1] == segments[..i] + [segment];
        var entries;
        ok, entries := CollectSegment(segment);
        if !ok {
          UsablePrefixIs(before, segments, i);
          return false, artifacts;
        }
        artifacts := artifacts + entries;
      }
      assert segments[..|segments|] == segments;
      return true, artifacts;
    }

    /** The manifest entries of the outputs, each copied into the session directory first. */
    method CollectOutputs(outputs: seq<Source>, ghost filled: map<Path, Content>) returns (ok: bool, artifacts: seq<Entry>)
      requires dir.files == filled
      modifies this
      ensures ok <==> AttachablePrefix(outputs) == |outputs|
      ensures state == old(state)
      ensures var n := AttachablePrefix(outputs);
              var copies := if n < |outputs| && outputs[n].acceptable && outputs[n].content.Some? then n + 1 else n;
              dir == old(dir).(files := Copied(filled, outputs[..copies]))
      ensures ok ==> artifacts == OutputEntries(outputs)
    {
      artifacts := [];
      for j := 0 to |outputs|
        invariant state == old(state) && dir == old(dir).(files := Copied(filled, outputs[..j]))
        invariant forall o | o in outputs[..j] :: Attachable(o)
        invariant artifacts == OutputEntries(outputs[..j])
      {
        var source := outputs[j];
        assert outputs[..j + 1][..j] == outputs[..j] && outputs[..j + 1] == outputs[..j] + [source];
        if !source.acceptable || source.content.None? {
          AttachablePrefixIs(outputs, j);
          return false, artifacts;
        }
        dir := dir.(files := dir.files[Output(source.name) := source.content.value]);
        if Size(source.content.value) == 0 {
          AttachablePrefixIs(outputs, j);
          return false, artifacts;
        }
        artifacts := artifacts + [EntryOf(Output(source.name), source.content.value)];
      }
      assert outputs[..|outputs|] == outputs;
      return true, artifacts;
    }

    /** The manifest is written before the stage changes. */
    method Finalize(outputs: seq<Source>) returns (ok: bool)
      modifies this
      ensures View() == Steps.Finalize(old(View()), outputs).spool
      ensures ok == Steps.Finalize(old(View()), outputs).Done?
    {
      if state.stage != Finalizing {
        return false;
      }
      if state.segments == [] {
        return false;
      }
      if state.lastEvent.Some? && state.lastEvent.value > state.elapsed {
        return false;
      }
      var segmentEntries, outputEntries;
      ok, segmentEntries := CollectSegments(outputs);
      if !ok {
        return false;
      }
      ok, outputEntries := CollectOutputs(outputs, dir.files);
      if !ok {
        return false;
      }
      var manifest := Manifest(state.elapsed, state.segments, segmentEntries + outputEntries);
      dir := dir.(manifest := Some(manifest));
      state := state.(stage := Finalized);
      PersistState();
      return true;
    }
  }

  /** Filling other logs leaves a segment as usable as it was. */
  lemma FilledKeepsUsable(files: map<Path, Content>, segments: seq<Segment>, g: Segment)
    ensures var filled := FilledLogs(files, segments);
            && (Video(g.index) in filled <==> Video(g.index) in files) && (Events(g.index) in filled <==> Events(g.index) in files)
            && (Video(g.index) in files ==> filled[Video(g.index)] == files[Video(g.index)])
            && (Events(g.index) in files ==> NonemptyLog(filled[Events(g.index)]) == NonemptyLog(files[Events(g.index)]))
  {
    Safety.FilledLogsDo(files, segments);
  }

  /** Only an empty log is rewritten. */
  lemma FilledStep(files: map<Path, Content>, segments: seq<Segment>, g: Segment)
    ensures var before := FilledLogs(files, segments);
            FilledLogs(files, segments + [g]) ==
            if Events(g.index) in before && Size(before[Events(g.index)]) == 0
            then before[Events(g.index) := NonemptyLog(before[Events(g.index)])] else before
  {
    var before := FilledLogs(files, segments);
    assert (segments + [g])[..|segments + [g]| - 1] == segments;
    if Events(g.index) in before && Size(before[Events(g.index)]) != 0 {
      assert before[Events(g.index) := before[Events(g.index)]] == before;
    }
  }

  // recorder.rs

  class SegmentedRecorder {
    var process: bool

    constructor ()
      ensures !process
    {
      process := false;
    }

    method Start(spool: SessionSpool, start: nat, spawned: bool) returns (ok: bool)
      modifies this, spool
      ensures var a := Driver.StartSegment(old(spool.View()), old(process), start, spawned);
              spool.View() == a.spool && process == a.process && ok == a.ok
    {
      if process {
        return false;
      }
      ok := spool.BeginVideoSegment(start);
      if !ok {
        return false;
      }
      if spawned {
        process := true;
        return true;
      }
      var _ := spool.AbortVideoSegment();
      return false;
    }

    method StopActive(spool: SessionSpool, timestamp: nat, stopped: bool) returns (ok: bool)
      modifies this, spool
      ensures var a := Driver.StopActive(old(spool.View()), old(process), timestamp, stopped);
              spool.View() == a.spool && process == a.process && ok == a.ok
    {
      var held := process;
      process := false;
      if !held {
        return false;
      }
      if !stopped {
        return false;
      }
      ok := spool.FinishVideoSegment(timestamp);
    }

    method Rotate(spool: SessionSpool, timestamp: nat, stopped: bool, spawned: bool) returns (ok: bool)
      modifies this, spool
      ensures var a := Driver.RotateSegment(old(spool.View()), old(process), timestamp, stopped, spawned);
              spool.View() == a.spool && process == a.process && ok == a.ok
    {
      ok := StopActive(spool, timestamp, stopped);
      if ok {
        ok := Start(spool, timestamp, spawned);
      }
    }

    method Pause(spool: SessionSpool, timestamp: nat, stopped: bool) returns (ok: bool)
      modifies this, spool
      ensures var a := Driver.PauseRecorder(old(spool.View()), old(process), timestamp, stopped);
              spool.View() == a.spool && process == a.process && ok == a.ok
    {
      ok := StopActive(spool, timestamp, stopped);
      if ok {
        ok := spool.Pause(timestamp);
      }
    }

    method Resume(spool: SessionSpool, timestamp: nat, spawned: bool) returns (ok: bool)
      modifies this, spool
      ensures var a := Driver.ResumeRecorder(old(spool.View()), old(process), timestamp, spawned);
              spool.View() == a.spool && process == a.process && ok == a.ok
    {
      ok := spool.Resume();
      if ok {
        ok := Start(spool, timestamp, spawned);
      }
    }
  }

  // lib.rs

  class ActiveCapture {
    const spool: SessionSpool
    const recorder: SegmentedRecorder
    var base: nat
    var running: bool
    ghost var last: nat   // the latest time any command has read

    constructor (spool: SessionSpool, recorder: SegmentedRecorder, base: nat, running: bool)
      ensures this.spool == spool && this.recorder == recorder && this.base == base && this.running == running && last == base
    {
      this.spool, this.recorder, this.base, this.running, this.last := spool, recorder, base, running, base;
    }

    ghost function View(): Driver.World
      reads this, spool, recorder
    {
      Driver.World(spool.dir, Some(Driver.Capture(spool.state, recorder.process, base, running, last)))
    }

    /** What the capture is, once its clock has been read. */
    ghost function Capture(): Driver.Capture
      reads this, spool, recorder
    {
      Driver.Capture(spool.state, recorder.process, base, running, last)
    }

    method Record(reading: nat, allowed: bool)
      requires Driver.Reads(Capture(), reading)
      modifies this, spool
      ensures View() == Driver.Next(old(View()), Driver.Record(reading, allowed))
      ensures Safety.WorldOk(old(View())) ==> Safety.WorldOk(View())
    {
      if Safety.WorldOk(View()) {
        Safety.NextOk(View(), Driver.Record(reading, allowed));
      }
      var _ := spool.RecordEvent(reading, allowed);
      last := reading;
    }

    method Checkpoint(reading: nat)
      requires Driver.Reads(Capture(), reading)
      modifies this, spool
      ensures View() == Driver.Next(old(View()), Driver.Checkpoint(reading))
      ensures Safety.WorldOk(old(View())) ==> Safety.WorldOk(View())
    {
      if Safety.WorldOk(View()) {
        Safety.NextOk(View(), Driver.Checkpoint(reading));
      }
      var _ := spool.CheckpointElapsed(reading);
      last := reading;
    }

    method Rotate(reading: nat, stopped: bool, spawned: bool)
      requires Driver.Reads(Capture(), reading)
      modifies this, spool, recorder
      ensures View() == Driver.Next(old(View()), Driver.Rotate(reading, stopped, spawned))
      ensures Safety.WorldOk(old(View())) ==> Safety.WorldOk(View())
    {
      if Safety.WorldOk(View()) {
        Safety.NextOk(View(), Driver.Rotate(reading, stopped, spawned));
      }
      var elapsed := Driver.AtLeastOne(reading);
      var ok := recorder.Rotate(spool, elapsed, stopped, spawned);
      last := elapsed;
      if !ok {
        var _ := spool.PrepareRecovery();
        base := elapsed;
        running := false;
      }
    }

    method Pause(reading: nat, stopped: bool)
      requires Driver.Reads(Capture(), reading)
      modifies this, spool, recorder
      ensures View() == Driver.Next(old(View()), Driver.PauseCapture(reading, stopped))
      ensures Safety.WorldOk(old(View())) ==> Safety.WorldOk(View())
    {
      if Safety.WorldOk(View()) {
        Safety.NextOk(View(), Driver.PauseCapture(reading, stopped));
      }
      var elapsed := Driver.AtLeastOne(reading);
      var ok := recorder.Pause(spool, elapsed, stopped);
      if !ok {
        var _ := spool.PrepareRecovery();
      }
      base := elapsed;
      running := false;
      last := elapsed;
    }

    method Resume(spawned: bool)
      modifies this, spool, recorder
      ensures View() == Driver.Next(old(View()), Driver.ResumeCapture(spawned))
      ensures Safety.WorldOk(old(View())) ==> Safety.WorldOk(View())
    {
      if Safety.WorldOk(View()) {
        Safety.NextOk(View(), Driver.ResumeCapture(spawned));
      }
      var ok := recorder.Resume(spool, base, spawned);
      if ok {
        running := true;
      }
    }

    /** The caller has already let go of the capture. */
    method Finish(reading: nat, stopped: bool, outputs: seq<Source>) returns (ok: bool)
      requires Driver.Reads(Capture(), reading)
      modifies this, spool, recorder
      ensures Driver.World(spool.dir, None) == Driver.Next(old(View()), Driver.Finish(reading, stopped, outputs))
      ensures Safety.WorldOk(old(View())) ==> Safety.WorldOk(Driver.World(spool.dir, None))
    {
      if Safety.WorldOk(View()) {
        Safety.NextOk(View(), Driver.Finish(reading, stopped, outputs));
      }
      var elapsed := Driver.AtLeastOne(reading);
      if spool.state.stage == Recording {
        ok := recorder.StopActive(spool, elapsed, stopped);
        if !ok {
          var _ := spool.PrepareRecovery();
          return false;
        }
      }
      ok := spool.BeginFinalization(elapsed);
      if !ok {
        return false;
      }
      ok := spool.Finalize(outputs);
    }
  }

  /** start_capture: the session is held only if its first segment could be started. */
  method StartCapture(spawned: bool) returns (dir: Dir, active: ActiveCapture?)
    ensures dir == Driver.BeginCapture(Driver.NEW_WORLD, spawned).dir
    ensures active != null ==>
              fresh(active) && active.View() == Driver.BeginCapture(Driver.NEW_WORLD, spawned)
    ensures active == null <==> Driver.BeginCapture(Driver.NEW_WORLD, spawned).capture.None?
    ensures active != null ==> Safety.WorldOk(active.View())
  {
    Safety.BeginCaptureOk(Driver.NEW_WORLD, spawned);
    var spool := new SessionSpool.Create();
    var _ := spool.Start();
    var recorder := new SegmentedRecorder();
    var ok := recorder.Start(spool, 0, spawned);
    if !ok {
      var _ := spool.Pause(0);
      return spool.dir, null;
    }
    active := new ActiveCapture(spool, recorder, 0, true);
    dir := spool.dir;
  }

  /** recover_session: a finalized session is refused, and so is any session while a capture is held, but only after the
      directory has been recovered. */
  method RecoverSession(dir: Dir, occupied: bool) returns (after: Dir, active: ActiveCapture?)
    requires dir.stored.Some?
    ensures after == Driver.RecoverStep(dir, dir.stored.value).dir == Driver.RecoverBehind(dir)
    ensures active != null ==> fresh(active) && active.View() == Driver.RecoverStep(dir, dir.stored.value)
    ensures active == null <==> occupied || Driver.RecoverStep(dir, dir.stored.value).capture.None?
    ensures Safety.WorldOk(Driver.World(dir, None)) && active != null ==> Safety.WorldOk(active.View())
  {
    if Safety.WorldOk(Driver.World(dir, None)) {
      Safety.RecoverStepOk(dir);
    }
    var spool := new SessionSpool.Open(dir);
    var ok := spool.PrepareRecovery();
    if !ok {
      return spool.dir, null;
    }
    if occupied {
      return spool.dir, null;
    }
    var recorder := new SegmentedRecorder();
    active := new ActiveCapture(spool, recorder, spool.state.elapsed, false);
    after := spool.dir;
  }

  /** recover_session for the very session that is held: its capture finds the directory changed underneath it. */
  method RecoverHeld(held: ActiveCapture)
    requires held.spool.dir.stored.Some?
    modifies held.spool
    ensures held.View() == Driver.Next(old(held.View()), Driver.Recover)
    ensures Safety.WorldOk(old(held.View())) && !Driver.Filming(old(held.View())) ==> Safety.WorldOk(held.View())
  {
    if Safety.WorldOk(held.View()) && !Driver.Filming(held.View()) {
      Safety.NextOk(held.View(), Driver.Recover);
    }
    var after, active := RecoverSession(held.spool.dir, true);
    held.spool.dir := after;
  }
}
