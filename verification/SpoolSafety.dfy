/** What every run of the collector keeps, with crashes at any command and inside finalization. */
module SpoolSafety {
  import opened Common
  import opened SpoolSteps
  import opened CaptureSteps

  /** Event times that never go back and stay within [lo, hi]. */
  ghost predicate Timed(events: seq<nat>, lo: nat, hi: nat) {
    && (forall i | 0 <= i < |events| :: lo <= events[i] <= hi)
    && (forall i, j | 0 <= i < j < |events| :: events[i] <= events[j])
  }

  /** Sealed segments are numbered from one, last some time, and follow each other. */
  ghost predicate Chain(segments: seq<Segment>) {
    && (forall i | 0 <= i < |segments| :: segments[i].index == i + 1 && segments[i].start < segments[i].end)
    && (forall i, j | 0 <= i < j < |segments| :: segments[i].end <= segments[j].start)
  }

  /** A sealed segment's footage is as it was sealed, and its events lie inside it. */
  ghost predicate Sealed(files: map<Path, Content>, g: Segment) {
    && Video(g.index) in files && files[Video(g.index)] == g.footage && Size(g.footage) > 0
    && Events(g.index) in files && files[Events(g.index)].Lines?
    && Timed(files[Events(g.index)].events, g.start, g.end)
  }

  ghost predicate AllSealed(files: map<Path, Content>, segments: seq<Segment>) {
    forall g | g in segments :: Sealed(files, g)
  }

  ghost predicate EndedBy(segments: seq<Segment>, t: nat) {
    forall g | g in segments :: g.end <= t
  }

  /** Nothing lies beyond the segment after the last sealed one. */
  ghost predicate Tidy(files: map<Path, Content>, next: nat) {
    forall j: nat | next < j :: Video(j) !in files && Events(j) !in files
  }

  /** The active segment's log holds only what was recorded since it began. */
  ghost predicate Clean(st: State, files: map<Path, Content>)
    requires st.active.Some?
  {
    var log := Events(st.active.value.index);
    && log in files && files[log].Lines?
    && Timed(files[log].events, st.active.value.start, st.elapsed)
    && (forall e | e in files[log].events :: st.lastEvent.Some? && e <= st.lastEvent.value)
  }

  /** Without an active segment there may be a log of an abandoned attempt under the next index, or footage without a
      log, but not both. With one, either its log is clean or it is such a leftover and nothing films. */
  ghost predicate Pending(st: State, files: map<Path, Content>, filming: bool) {
    var next := |st.segments| + 1;
    match st.active
    case None => !filming && (Video(next) !in files || Events(next) !in files)
    case Some(a) =>
      && a.index == next && st.stage == Recording && EndedBy(st.segments, a.start)
      && (Clean(st, files) || (!filming && Video(next) !in files))
  }

  ghost predicate StateOk(st: State, files: map<Path, Content>, filming: bool) {
    && Chain(st.segments) && AllSealed(files, st.segments) && EndedBy(st.segments, st.elapsed)
    && Tidy(files, |st.segments| + 1) && Pending(st, files, filming)
    && (st.lastEvent.Some? ==> st.lastEvent.value <= st.elapsed)
    && st.elapsed <= U64_MAX && (st.active.Some? ==> st.active.value.start <= U64_MAX)
    && (st.stage == Ready ==> st == NEW_STATE)
  }

  /** What is on disk is what is in memory, except that one of them may have forgotten an active segment that nothing
      films, and that a recovery of the directory may have paused it there alone. */
  ghost predicate Mirrors(state: State, stored: State) {
    && stored == state.(stage := stored.stage, active := stored.active)
    && (state.active.Some? && stored.active.Some? ==> state.active == stored.active)
    && (stored.stage == state.stage || (state.stage == Recording && stored.stage == Paused))
  }

  ghost predicate SpoolOk(s: Spool, filming: bool) {
    && StateOk(s.state, s.dir.files, filming)
    && s.dir.stored.Some? && Mirrors(s.state, s.dir.stored.value) && StateOk(s.dir.stored.value, s.dir.files, filming)
    && (s.dir.stored.value.stage == Finalized ==> s.dir.manifest.Some?)
    && (filming ==> s.dir.stored == Some(s.state))
  }

  /** The clock of a capture is never behind the spool; it runs exactly while something films. */
  ghost predicate ClockOk(c: Capture) {
    && c.process == c.running && (c.running ==> c.state.active.Some? && c.state.stage == Recording)
    && (!c.running ==> c.last == c.base)
    && c.state.elapsed <= c.last <= U64_MAX
    && (c.state.active.Some? ==> c.state.active.value.start <= c.last)
    && (c.state.stage == Recording || c.state.stage == Paused)
  }

  /** A capture and its directory in step. */
  ghost predicate Steady(c: Capture, dir: Dir) {
    && SpoolOk(Held(c, dir), c.process) && ClockOk(c)
    && (!c.running && c.state.active.Some? ==>
          Video(c.state.active.value.index) !in dir.files || c.state.active.value.start == U64_MAX)
  }

  /** A capture that films a segment begun at the clock's last instant, after its directory was recovered: the clock can
      never be read again, so nothing reaches the directory but footage without a log. */
  ghost predicate Dead(c: Capture, dir: Dir) {
    && c.process && c.running && c.state.stage == Recording
    && c.state.active == Some(Active(|c.state.segments| + 1, U64_MAX))
    && dir.stored.Some? && dir.stored.value.segments == c.state.segments
    && dir.stored.value.active.None? && dir.stored.value.stage == Paused
    && SpoolOk(Spool(dir.stored.value, dir), false) && Events(|c.state.segments| + 1) !in dir.files
  }

  ghost predicate WorldOk(w: World) {
    match w.capture
    case Some(c) => Steady(c, w.dir) || Dead(c, w.dir)
    case None =>
      if w.dir.stored.None? then w.dir.files == map[] && w.dir.manifest == None && !w.dir.submitted
      else SpoolOk(Spool(w.dir.stored.value, w.dir), false)
  }

  // Spool operations.

  lemma CreateOk()
    ensures SpoolOk(Create(), false)
  {
  }

  /** Changing the stage or the elapsed time forward. */
  lemma SavedOk(s: Spool, state: State, filming: bool)
    requires SpoolOk(s, filming)
    requires state == s.state.(stage := state.stage, elapsed := state.elapsed)
    requires s.state.elapsed <= state.elapsed <= U64_MAX
    requires state.stage != Ready && (s.state.active.Some? ==> state.stage == Recording)
    requires state.stage == Finalized ==> s.dir.manifest.Some?
    ensures SpoolOk(Persisted(s.(state := state)), filming)
  {
  }

  lemma BeginOk(s: Spool, start: nat)
    requires SpoolOk(s, false) && s.state.elapsed <= start <= U64_MAX
    ensures SpoolOk(BeginVideoSegment(s, start).spool, BeginVideoSegment(s, start).Done?)
  {
  }

  lemma AbortOk(s: Spool)
    requires SpoolOk(s, false)
    ensures SpoolOk(AbortVideoSegment(s).spool, false)
  {
  }

  /** Sealing the active segment once its footage is there. */
  lemma SealOk(s: Spool, end: nat, g: Segment)
    requires SpoolOk(s, false) && s.state.active.Some? && s.state.elapsed <= end <= U64_MAX
    requires g == Segment(s.state.active.value.index, s.state.active.value.start, end, g.footage) && g.start < end
    requires Video(g.index) in s.dir.files && s.dir.files[Video(g.index)] == g.footage && Size(g.footage) > 0
    ensures StateOk(s.state.(active := None, elapsed := end, segments := s.state.segments + [g]), s.dir.files, false)
  {
    var events := s.dir.files[Events(g.index)].events;
    assert Timed(events, g.start, s.state.elapsed);
    assert Sealed(s.dir.files, g);
    assert EndedBy(s.state.segments, g.start);
    forall x | x in s.state.segments + [g] ensures Sealed(s.dir.files, x) && x.end <= end {
    }
  }

  lemma FinishOk(s: Spool, end: nat)
    requires SpoolOk(s, false) && s.state.elapsed <= end <= U64_MAX
    ensures SpoolOk(FinishVideoSegment(s, end).spool, false)
  {
    var r := FinishVideoSegment(s, end);
    if r.Done? {
      SealOk(s, end, r.spool.state.segments[|s.state.segments|]);
    }
  }

  /** The active segment began at the last instant the clock can show, so it can never be given an end. */
  ghost predicate Stuck(s: Spool) {
    s.state.active.Some? && s.state.active.value.start == U64_MAX
  }

  lemma RecoveryOk(s: Spool)
    requires SpoolOk(s, false)
    ensures SpoolOk(PrepareRecovery(s).spool, false)
    ensures PrepareRecovery(s).Refused? ==> PrepareRecovery(s).spool == s && (s.state.stage == Finalized || Stuck(s))
    ensures PrepareRecovery(s).Done? ==> PrepareRecovery(s).spool.state.stage == Paused
  {
    if s.state.stage != Finalized {
      if s.state.active.None? {
        SavedOk(s, s.state.(stage := Paused), false);
      } else if Video(s.state.active.value.index) in s.dir.files && Size(s.dir.files[Video(s.state.active.value.index)]) > 0 {
        var end := Max(s.state.elapsed, SaturatingNext(s.state.active.value.start));
        FinishOk(s, end);
        var finished := FinishVideoSegment(s, end);
        if finished.Done? {
          SavedOk(finished.spool, finished.spool.state.(stage := Paused), false);
        }
      } else {
        AbortOk(s);
        var aborted := AbortVideoSegment(s).spool;
        SavedOk(aborted, aborted.state.(stage := Paused), false);
      }
    }
  }

  lemma RecordOk(s: Spool, t: nat, allowed: bool, filming: bool)
    requires SpoolOk(s, filming) && s.state.elapsed <= t <= U64_MAX
    requires s.state.active.Some? ==> s.state.active.value.start <= t
    ensures SpoolOk(RecordEvent(s, t, allowed).spool, filming)
  {
    var r := RecordEvent(s, t, allowed);
    if r.Done? {
      RecordedOk(s, t, r.spool.dir.files, filming);
    }
  }

  lemma RecordedOk(s: Spool, t: nat, files: map<Path, Content>, filming: bool)
    requires SpoolOk(s, filming) && s.state.elapsed <= t <= U64_MAX && s.state.active.Some?
    requires s.state.active.value.start <= t && (s.state.lastEvent.Some? ==> s.state.lastEvent.value <= t)
    requires var log := Events(s.state.active.value.index);
             log in s.dir.files && s.dir.files[log].Lines?
             && files == s.dir.files[log := s.dir.files[log].(events := s.dir.files[log].events + [t])]
    ensures StateOk(s.state.(lastEvent := Some(t), elapsed := t), files, filming)
  {
    var after := s.state.(lastEvent := Some(t), elapsed := t);
    forall g | g in s.state.segments ensures Sealed(files, g) {
      assert Sealed(s.dir.files, g);
    }
    if Clean(s.state, s.dir.files) {
      assert Clean(after, files);
    }
  }

  // Finalization.

  lemma {:induction false} FilledLogsDo(files: map<Path, Content>, segments: seq<Segment>)
    ensures var after := FilledLogs(files, segments);
            && after.Keys == files.Keys
            && (forall p | p in files :: after[p] == files[p] || (p.Events? && after[p] == NonemptyLog(files[p])))
            && (forall g | g in segments && Events(g.index) in files :: after[Events(g.index)] == NonemptyLog(files[Events(g.index)]))
  {
    if segments != [] {
      FilledLogsDo(files, segments[..|segments| - 1]);
      assert forall g :: g in segments <==> g in segments[..|segments| - 1] || g == segments[|segments| - 1];
    }
  }

  lemma {:induction false} CopiedAddsOutputs(files: map<Path, Content>, outputs: seq<Source>)
    ensures var after := Copied(files, outputs);
            && (forall p | p in files && !p.Output? :: p in after && after[p] == files[p])
            && (forall p | p in after && !p.Output? :: p in files)
  {
    if outputs != [] {
      CopiedAddsOutputs(files, outputs[..|outputs| - 1]);
    }
  }

  /** A blank line changes no event. */
  lemma FramedOk(st: State, files: map<Path, Content>, after: map<Path, Content>)
    requires StateOk(st, files, false) && st.active.None?
    requires forall j :: Video(j) in after <==> Video(j) in files
    requires forall j | Video(j) in files :: after[Video(j)] == files[Video(j)]
    requires forall j :: Events(j) in after <==> Events(j) in files
    requires forall j | Events(j) in files :: after[Events(j)] == files[Events(j)] || after[Events(j)] == NonemptyLog(files[Events(j)])
    ensures StateOk(st, after, false)
  {
    forall g | g in st.segments ensures Sealed(after, g) {
      assert Sealed(files, g);
    }
  }

  lemma InterruptedOk(s: Spool, outputs: seq<Source>, logs: nat, copies: nat, manifestWritten: bool)
    requires SpoolOk(s, false) && s.dir.stored == Some(s.state) && s.state.active.None?
    requires logs <= |s.state.segments| && copies <= |outputs| && (manifestWritten ==> Finalizable(s, outputs))
    ensures SpoolOk(Interrupted(s, outputs, logs, copies, manifestWritten), false)
  {
    var filled := FilledLogs(s.dir.files, s.state.segments[..logs]);
    var files := Copied(filled, outputs[..copies]);
    FilledLogsDo(s.dir.files, s.state.segments[..logs]);
    CopiedAddsOutputs(filled, outputs[..copies]);
    FramedOk(s.state, s.dir.files, files);
  }

  /** In a reachable state every sealed segment is usable, so only the outputs can stop a finalization. */
  lemma SealedIsUsable(files: map<Path, Content>, segments: seq<Segment>)
    requires AllSealed(files, segments)
    ensures SegmentsUsable(files, segments)
  {
    forall g | g in segments ensures Usable(files, g) {
      assert Sealed(files, g);
    }
  }

  lemma FinalizeOk(s: Spool, outputs: seq<Source>)
    requires SpoolOk(s, false) && s.dir.stored == Some(s.state) && s.state.stage == Finalizing
    ensures SpoolOk(Finalize(s, outputs).spool, false)
    ensures Finalize(s, outputs).Done? <==> s.state.segments != [] && forall o | o in outputs :: Attachable(o)
  {
    SealedIsUsable(s.dir.files, s.state.segments);
    var usable := UsablePrefix(s.dir.files, s.state.segments);
    var n := AttachablePrefix(outputs);
    if s.state.segments != [] {
      if n < |outputs| {
        InterruptedOk(s, outputs, usable, if outputs[n].acceptable && outputs[n].content.Some? then n + 1 else n, false);
      } else {
        var stopped := Interrupted(s, outputs, usable, n, true);
        InterruptedOk(s, outputs, usable, n, true);
        SavedOk(stopped, s.state.(stage := Finalized), false);
      }
    }
  }

  // Commands.

  lemma StartSegmentOk(s: Spool, start: nat, spawned: bool)
    requires SpoolOk(s, false) && s.state.elapsed <= start <= U64_MAX
    ensures var a := StartSegment(s, false, start, spawned);
            && SpoolOk(a.spool, a.process) && a.ok == a.process && a.spool.state.elapsed == s.state.elapsed
            && a.spool.state.stage == s.state.stage
            && (a.spool.state.active.Some? ==> a.spool.state.active.value.start <= start || a.spool.state.active == s.state.active)
            && (a.ok ==> a.spool.state.active == Some(Active(|s.state.segments| + 1, start)) && s.state.stage == Recording)
  {
    BeginOk(s, start);
    if BeginVideoSegment(s, start).Done? && !spawned {
      var begun := BeginVideoSegment(s, start).spool;
      AbortOk(begun);
    }
  }

  /** When nothing films any more, what was filmed stays in order. */
  lemma Unfilmed(s: Spool, filming: bool)
    requires SpoolOk(s, filming)
    ensures SpoolOk(s, false)
  {
  }

  lemma StopActiveOk(s: Spool, process: bool, now: nat, stopped: bool)
    requires SpoolOk(s, process) && s.state.elapsed <= now <= U64_MAX
    ensures var a := StopActive(s, process, now, stopped);
            && SpoolOk(a.spool, false) && !a.process && a.spool.state.elapsed <= now && a.spool.state.stage == s.state.stage
            && (a.ok ==> a.spool.state.active.None? && a.spool.dir.stored == Some(a.spool.state))
            && (a.spool.state.active.Some? ==> a.spool.state.active == s.state.active)
  {
    Unfilmed(s, process);
    FinishOk(s, now);
  }

  /** The active segment began before now, or has no footage. */
  ghost predicate Timely(s: Spool, now: nat) {
    s.state.active.Some? ==>
      s.state.active.value.start < now || Video(s.state.active.value.index) !in s.dir.files || Stuck(s)
  }

  /** What a command that stops the clock leaves: a recoverable spool, PAUSED, not past the time it stopped at. */
  lemma RecoveredOk(a: Attempt, now: nat)
    requires SpoolOk(a.spool, false) && a.spool.state.elapsed <= now && a.spool.state.stage != Finalized
    requires a.ok ==> a.spool.state.stage == Paused
    requires Timely(a.spool, now)
    ensures SpoolOk(Recovered(a), false) && Recovered(a).state.elapsed <= now
    ensures Recovered(a).state.stage == Paused || (Recovered(a) == a.spool && Stuck(a.spool))
    ensures Recovered(a).state.stage == Paused ==> Recovered(a).state.active.None?
  {
    if !a.ok {
      RecoveryOk(a.spool);
    }
  }

  lemma BeginCaptureOk(w: World, spawned: bool)
    ensures WorldOk(BeginCapture(w, spawned))
  {
    CreateOk();
    SavedOk(Create(), NEW_STATE.(stage := Recording), false);
    var ready := Start(Create()).spool;
    StartSegmentOk(ready, 0, spawned);
    var started := StartSegment(ready, false, 0, spawned);
    if !started.ok && Pause(started.spool, 0).Done? {
      SavedOk(started.spool, started.spool.state.(stage := Paused), false);
    }
  }

  lemma RotateCaptureOk(c: Capture, dir: Dir, reading: nat, stopped: bool, spawned: bool)
    requires WorldOk(World(dir, Some(c))) && Reads(c, reading)
    ensures WorldOk(RotateCapture(c, dir, reading, stopped, spawned))
  {
    var now := AtLeastOne(reading);
    var halted := StopActive(Held(c, dir), c.process, now, stopped);
    StopActiveOk(Held(c, dir), c.process, now, stopped);
    var a := RotateSegment(Held(c, dir), c.process, now, stopped, spawned);
    if halted.ok {
      StartSegmentOk(halted.spool, now, spawned);
    }
    if !a.ok {
      RecoveredOk(a, now);
    }
  }

  lemma PauseStepOk(c: Capture, dir: Dir, reading: nat, stopped: bool)
    requires WorldOk(World(dir, Some(c))) && Reads(c, reading)
    ensures WorldOk(PauseStep(c, dir, reading, stopped))
  {
    var now := AtLeastOne(reading);
    var halted := StopActive(Held(c, dir), c.process, now, stopped);
    StopActiveOk(Held(c, dir), c.process, now, stopped);
    if halted.ok {
      SavedOk(halted.spool, halted.spool.state.(elapsed := now, stage := Paused), false);
    }
    RecoveredOk(PauseRecorder(Held(c, dir), c.process, now, stopped), now);
  }

  lemma ResumeStepOk(c: Capture, dir: Dir, spawned: bool)
    requires WorldOk(World(dir, Some(c)))
    ensures WorldOk(ResumeStep(c, dir, spawned))
  {
    if c.state.stage == Paused {
      SavedOk(Held(c, dir), c.state.(stage := Recording), false);
      StartSegmentOk(Resume(Held(c, dir)).spool, c.base, spawned);
    }
  }

  lemma WoundOk(c: Capture, dir: Dir, reading: nat, stopped: bool)
    requires WorldOk(World(dir, Some(c))) && Reads(c, reading)
    ensures var wound := Wound(c, dir, reading, stopped);
            && SpoolOk(wound.spool, false)
            && (wound.Done? ==> wound.spool.state.stage == Finalizing && wound.spool.dir.stored == Some(wound.spool.state)
                                && wound.spool.state.active.None? && wound.spool.state.elapsed == AtLeastOne(reading))
  {
    var now := AtLeastOne(reading);
    if c.state.stage == Recording {
      StopActiveOk(Held(c, dir), c.process, now, stopped);
      var a := StopActive(Held(c, dir), c.process, now, stopped);
      if a.ok {
        SavedOk(a.spool, a.spool.state.(elapsed := now, stage := Finalizing), false);
      } else {
        RecoveredOk(a, now);
      }
    } else {
      Unfilmed(Held(c, dir), c.process);
      SavedOk(Held(c, dir), c.state.(elapsed := now, stage := Finalizing), false);
    }
  }

  /** Giving up a capture leaves what is on disk. */
  lemma DroppedOk(s: Spool)
    requires SpoolOk(s, false)
    ensures WorldOk(World(s.dir, None))
  {
  }

  lemma FinishStepOk(c: Capture, dir: Dir, reading: nat, stopped: bool, outputs: seq<Source>)
    requires WorldOk(World(dir, Some(c))) && Reads(c, reading)
    ensures WorldOk(FinishStep(c, dir, reading, stopped, outputs))
  {
    WoundOk(c, dir, reading, stopped);
    var wound := Wound(c, dir, reading, stopped);
    if wound.Done? {
      FinalizeOk(wound.spool, outputs);
      DroppedOk(Finalize(wound.spool, outputs).spool);
    } else {
      DroppedOk(wound.spool);
    }
  }

  lemma FinishCrashOk(c: Capture, dir: Dir, reading: nat, stopped: bool, outputs: seq<Source>, logs: nat, copies: nat, written: bool)
    requires WorldOk(World(dir, Some(c))) && Reads(c, reading)
    ensures WorldOk(FinishCrashStep(c, dir, reading, stopped, outputs, logs, copies, written))
  {
    WoundOk(c, dir, reading, stopped);
    var wound := Wound(c, dir, reading, stopped);
    if wound.Done? && StopsAt(wound.spool, outputs, logs, copies, written) {
      InterruptedOk(wound.spool, outputs, logs, copies, written);
      DroppedOk(Interrupted(wound.spool, outputs, logs, copies, written));
    } else {
      DroppedOk(wound.spool);
    }
  }

  lemma RecoverStepOk(dir: Dir)
    requires WorldOk(World(dir, None)) && dir.stored.Some?
    ensures WorldOk(RecoverStep(dir, dir.stored.value))
  {
    RecoveryOk(Spool(dir.stored.value, dir));
  }

  lemma RecordStepOk(c: Capture, dir: Dir, reading: nat, allowed: bool)
    requires WorldOk(World(dir, Some(c))) && Reads(c, reading)
    ensures WorldOk(Next(World(dir, Some(c)), Record(reading, allowed)))
  {
    RecordOk(Held(c, dir), reading, allowed, c.process);
  }

  lemma CheckpointOk(c: Capture, dir: Dir, reading: nat)
    requires WorldOk(World(dir, Some(c))) && Reads(c, reading)
    ensures WorldOk(Next(World(dir, Some(c)), Checkpoint(reading)))
  {
    SavedOk(Held(c, dir), c.state.(elapsed := reading), c.process);
  }

  lemma EncodeOk(c: Capture, dir: Dir, size: nat, bytes: Id)
    requires WorldOk(World(dir, Some(c)))
    ensures WorldOk(Next(World(dir, Some(c)), Encode(size, bytes)))
  {
    if c.process && c.state.active.Some? {
      var video := Video(c.state.active.value.index);
      var files := dir.files[video := Footage(size, bytes)];
      forall g | g in c.state.segments ensures Sealed(files, g) {
        assert Sealed(dir.files, g);
      }
    }
  }

  lemma CrashOk(c: Capture, dir: Dir)
    requires WorldOk(World(dir, Some(c)))
    ensures WorldOk(World(dir, None))
  {
    if Steady(c, dir) {
      Unfilmed(Held(c, dir), c.process);
      DroppedOk(Held(c, dir));
    }
  }

  /** The directory's own copy of a consistent spool is consistent. */
  lemma StoredOk(s: Spool)
    requires SpoolOk(s, false)
    ensures SpoolOk(Spool(s.dir.stored.value, s.dir), false)
  {
  }

  lemma PausedBehindOk(c: Capture, dir: Dir)
    requires Steady(c, dir) && !c.process && dir.stored.value.active.None?
    ensures Steady(c, RecoverBehind(dir))
  {
    var d := dir.stored.value;
    StoredOk(Held(c, dir));
    SavedOk(Spool(d, dir), d.(stage := Paused), false);
  }

  lemma AbortedBehindOk(c: Capture, dir: Dir)
    requires Steady(c, dir) && !c.process && dir.stored.value.active.Some?
    requires !(Video(|c.state.segments| + 1) in dir.files && Size(dir.files[Video(|c.state.segments| + 1)]) > 0)
    ensures Steady(c, RecoverBehind(dir))
  {
    StoredOk(Held(c, dir));
    RecoveryOk(Spool(dir.stored.value, dir));
    WithoutLog(c.state, dir.files);
  }

  /** Recovering the directory behind a capture that films nothing takes at most a leftover log away, which the capture
      does without. */
  lemma IdleRecoveryOk(c: Capture, dir: Dir)
    requires Steady(c, dir) && !c.process
    ensures Steady(c, RecoverBehind(dir))
  {
    var d := dir.stored.value;
    if d.active.None? {
      PausedBehindOk(c, dir);
    } else if Video(d.active.value.index) in dir.files && Size(dir.files[Video(d.active.value.index)]) > 0 {
      assert RecoverBehind(dir) == dir;
    } else {
      AbortedBehindOk(c, dir);
    }
  }

  lemma WithoutLog(st: State, files: map<Path, Content>)
    requires StateOk(st, files, false)
    ensures StateOk(st, files - {Events(|st.segments| + 1), Video(|st.segments| + 1)}, false)
  {
    var after := files - {Events(|st.segments| + 1), Video(|st.segments| + 1)};
    forall g | g in st.segments ensures Sealed(after, g) {
      assert Sealed(files, g);
    }
  }

  /** At the clock's last instant recovery is refused, or leaves a capture that can do no more harm. */
  lemma LastInstantRecoveryOk(c: Capture, dir: Dir)
    requires Steady(c, dir) && c.process && c.state.active.value.start == U64_MAX
    ensures WorldOk(World(RecoverBehind(dir), Some(c)))
  {
    Unfilmed(Held(c, dir), c.process);
    RecoveryOk(Held(c, dir));
  }

  lemma RecoverBehindOk(c: Capture, dir: Dir)
    requires WorldOk(World(dir, Some(c))) && !Filming(World(dir, Some(c)))
    ensures WorldOk(World(RecoverBehind(dir), Some(c)))
  {
    if Steady(c, dir) {
      if c.process {
        LastInstantRecoveryOk(c, dir);
      } else {
        IdleRecoveryOk(c, dir);
      }
    }
  }

  lemma NextOk(w: World, command: Command)
    requires WorldOk(w) && (command.Recover? ==> !Filming(w))
    ensures WorldOk(Next(w, command))
  {
    if w.capture.None? {
      match command
      case Begin(spawned) => BeginCaptureOk(w, spawned);
      case Recover => if w.dir.stored.Some? { RecoverStepOk(w.dir); }
      case _ =>
    } else {
      HeldNextOk(w.capture.value, w.dir, command);
    }
  }

  lemma HeldNextOk(c: Capture, dir: Dir, command: Command)
    requires WorldOk(World(dir, Some(c))) && (command.Recover? ==> !Filming(World(dir, Some(c))))
    ensures WorldOk(Next(World(dir, Some(c)), command))
  {
    match command
    case Crash => CrashOk(c, dir);
    case Recover => RecoverBehindOk(c, dir);
    case Encode(size, bytes) => EncodeOk(c, dir, size, bytes);
    case ResumeCapture(spawned) => ResumeStepOk(c, dir, spawned);
    case Begin(_) =>
    case Submit =>
    case _ => if Reads(c, command.reading) { ClockedOk(c, dir, command); }
  }

  /** A command that reads the clock. */
  lemma ClockedOk(c: Capture, dir: Dir, command: Command)
    requires WorldOk(World(dir, Some(c)))
    requires !command.Crash? && !command.Recover? && !command.Encode? && !command.ResumeCapture? && !command.Begin? && !command.Submit?
    requires Reads(c, command.reading)
    ensures WorldOk(Next(World(dir, Some(c)), command))
  {
    match command
    case Record(reading, allowed) => RecordStepOk(c, dir, reading, allowed);
    case Checkpoint(reading) => CheckpointOk(c, dir, reading);
    case Rotate(reading, stopped, spawned) => RotateCaptureOk(c, dir, reading, stopped, spawned);
    case PauseCapture(reading, stopped) => PauseStepOk(c, dir, reading, stopped);
    case Finish(reading, stopped, outputs) => FinishStepOk(c, dir, reading, stopped, outputs);
    case FinishCrash(reading, stopped, outputs, logs, copies, written) =>
      FinishCrashOk(c, dir, reading, stopped, outputs, logs, copies, written);
  }

  lemma CarefulPrefix(w: World, commands: seq<Command>)
    requires Careful(w, commands) && commands != []
    ensures Careful(w, commands[..|commands| - 1])
    ensures commands[|commands| - 1].Recover? ==> !Filming(RunFrom(w, commands[..|commands| - 1]))
  {
    var prefix := commands[..|commands| - 1];
    forall k | 0 <= k < |prefix| && prefix[k].Recover? ensures !Filming(RunFrom(w, prefix[..k])) {
      assert prefix[..k] == commands[..k];
    }
  }

  /** Every command, crash and recovery keeps the directory and the held capture consistent, unless the session is
      recovered while it is being filmed. */
  lemma {:induction false} RunOk(w: World, commands: seq<Command>)
    requires WorldOk(w) && Careful(w, commands)
    ensures WorldOk(RunFrom(w, commands))
  {
    if commands != [] {
      CarefulPrefix(w, commands);
      RunOk(w, commands[..|commands| - 1]);
      NextOk(RunFrom(w, commands[..|commands| - 1]), commands[|commands| - 1]);
    }
  }

  lemma NewWorldOk()
    ensures WorldOk(NEW_WORLD)
  {
  }
}
