/** What the collector promises over whole runs, including crashes and recoveries. */
module CollectorGuarantees {
  import opened Common
  import opened SpoolSteps
  import opened CaptureSteps
  import opened SpoolSafety
  import opened Submission
  import opened Timeline
  import opened Acceptance

  /** After any run the sealed segments are numbered from one, last some time, do not overlap, and hold only events of
      their own time; an active segment has the next number. */
  lemma SegmentsInOrder(commands: seq<Command>, d: State)
    requires Careful(NEW_WORLD, commands) && RunOf(commands).dir.stored == Some(d)
    ensures Chain(d.segments) && EndedBy(d.segments, d.elapsed)
    ensures forall g | g in d.segments :: Sealed(RunOf(commands).dir.files, g)
    ensures d.active.Some? ==> d.active.value.index == |d.segments| + 1
  {
    NewWorldOk();
    RunOk(NEW_WORLD, commands);
  }

  // Nothing sealed is lost.

  /** Segments are only appended, and a manifest or a receipt does not disappear. */
  ghost predicate Keeps(s: Spool, t: Spool) {
    && s.state.segments <= t.state.segments
    && (s.dir.manifest.Some? ==> t.dir.manifest.Some?) && s.dir.submitted == t.dir.submitted
  }

  lemma RecoveryKeeps(s: Spool)
    ensures Keeps(s, PrepareRecovery(s).spool)
  {
  }

  lemma StopKeeps(s: Spool, process: bool, now: nat, stopped: bool)
    ensures Keeps(s, StopActive(s, process, now, stopped).spool)
  {
  }

  lemma StartKeeps(s: Spool, process: bool, start: nat, spawned: bool)
    ensures Keeps(s, StartSegment(s, process, start, spawned).spool)
  {
  }

  lemma RotateKeeps(s: Spool, process: bool, now: nat, stopped: bool, spawned: bool)
    ensures Keeps(s, RotateSegment(s, process, now, stopped, spawned).spool)
    ensures Keeps(s, Recovered(RotateSegment(s, process, now, stopped, spawned)))
  {
    StopKeeps(s, process, now, stopped);
    var halted := StopActive(s, process, now, stopped);
    StartKeeps(halted.spool, halted.process, now, spawned);
    RecoveryKeeps(RotateSegment(s, process, now, stopped, spawned).spool);
  }

  lemma PauseKeeps(s: Spool, process: bool, now: nat, stopped: bool)
    ensures Keeps(s, Recovered(PauseRecorder(s, process, now, stopped)))
  {
    StopKeeps(s, process, now, stopped);
    RecoveryKeeps(PauseRecorder(s, process, now, stopped).spool);
  }

  lemma WoundKeeps(c: Capture, dir: Dir, reading: nat, stopped: bool)
    ensures Keeps(Held(c, dir), Wound(c, dir, reading, stopped).spool)
  {
    var now := AtLeastOne(reading);
    StopKeeps(Held(c, dir), c.process, now, stopped);
    RecoveryKeeps(StopActive(Held(c, dir), c.process, now, stopped).spool);
  }

  /** The segments a world knows of. */
  function SegmentsOf(w: World): seq<Segment> {
    match w.capture
    case Some(c) => c.state.segments
    case None => if w.dir.stored.Some? then w.dir.stored.value.segments else []
  }

  ghost predicate Grows(w: World, v: World) {
    && SegmentsOf(w) <= SegmentsOf(v)
    && (w.dir.stored.Some? ==> v.dir.stored.Some?)
    && (w.dir.manifest.Some? ==> v.dir.manifest.Some?) && (w.dir.submitted ==> v.dir.submitted)
    && (IsFinalized(w.dir) ==> v.dir == w.dir.(submitted := v.dir.submitted) && v.capture.None?)
  }

  predicate IsFinalized(dir: Dir) {
    dir.stored.Some? && dir.stored.value.stage == Finalized
  }

  /** Memory and disk agree on the segments. */
  lemma SameSegments(w: World)
    requires WorldOk(w) && w.dir.stored.Some?
    ensures SegmentsOf(w) == w.dir.stored.value.segments
    ensures IsFinalized(w.dir) ==> w.capture.None?
  {
  }

  lemma FinishKeeps(c: Capture, dir: Dir, reading: nat, stopped: bool, outputs: seq<Source>)
    ensures var wound := Wound(c, dir, reading, stopped);
            wound.Done? ==> Keeps(wound.spool, Finalize(wound.spool, outputs).spool)
  {
  }

  /** What is left on disk when a capture is given up. */
  lemma DropGrows(w: World, c: Capture, s: Spool)
    requires WorldOk(w) && w.capture == Some(c) && SpoolOk(s, false) && Keeps(Held(c, w.dir), s)
    ensures Grows(w, World(s.dir, None))
  {
    SameSegments(w);
  }

  lemma FinishGrows(w: World, c: Capture, reading: nat, stopped: bool, outputs: seq<Source>)
    requires WorldOk(w) && w.capture == Some(c) && Reads(c, reading)
    ensures Grows(w, FinishStep(c, w.dir, reading, stopped, outputs))
  {
    WoundOk(c, w.dir, reading, stopped);
    WoundKeeps(c, w.dir, reading, stopped);
    var wound := Wound(c, w.dir, reading, stopped);
    if wound.Done? {
      FinalizeOk(wound.spool, outputs);
      FinishKeeps(c, w.dir, reading, stopped, outputs);
      DropGrows(w, c, Finalize(wound.spool, outputs).spool);
    } else {
      DropGrows(w, c, wound.spool);
    }
  }

  lemma FinishCrashGrows(w: World, c: Capture, reading: nat, stopped: bool, outputs: seq<Source>, logs: nat, copies: nat, written: bool)
    requires WorldOk(w) && w.capture == Some(c) && Reads(c, reading)
    ensures Grows(w, FinishCrashStep(c, w.dir, reading, stopped, outputs, logs, copies, written))
  {
    WoundOk(c, w.dir, reading, stopped);
    WoundKeeps(c, w.dir, reading, stopped);
    var wound := Wound(c, w.dir, reading, stopped);
    if wound.Done? && StopsAt(wound.spool, outputs, logs, copies, written) {
      InterruptedOk(wound.spool, outputs, logs, copies, written);
      DropGrows(w, c, Interrupted(wound.spool, outputs, logs, copies, written));
    } else {
      DropGrows(w, c, wound.spool);
    }
  }

  /** A command that keeps the capture. */
  lemma KeptGrows(w: World, c: Capture, v: World)
    requires WorldOk(w) && w.capture == Some(c) && WorldOk(v) && v.capture.Some?
    requires Keeps(Held(c, w.dir), Held(v.capture.value, v.dir))
    ensures Grows(w, v)
  {
    SameSegments(w);
  }

  lemma DroppingGrows(w: World, c: Capture, command: Command)
    requires WorldOk(w) && w.capture == Some(c) && (command.Crash? || command.Finish? || command.FinishCrash?)
    ensures Grows(w, Next(w, command))
  {
    if command.Crash? {
      SameSegments(w);
    } else if !Reads(c, command.reading) {
      KeptGrows(w, c, w);
    } else if command.Finish? {
      FinishGrows(w, c, command.reading, command.stopped, command.outputs);
    } else {
      FinishCrashGrows(w, c, command.reading, command.stopped, command.outputs, command.logs, command.copies, command.manifestWritten);
    }
  }

  lemma HeldGrows(w: World, c: Capture, command: Command)
    requires WorldOk(w) && w.capture == Some(c) && (command.Recover? ==> !Filming(w))
    ensures Grows(w, Next(w, command))
  {
    if command.Crash? || command.Finish? || command.FinishCrash? {
      DroppingGrows(w, c, command);
    } else {
      NextOk(w, command);
      CommandKeeps(w, c, command);
      KeptGrows(w, c, Next(w, command));
    }
  }

  lemma BehindKeeps(dir: Dir)
    ensures RecoverBehind(dir).manifest == dir.manifest && RecoverBehind(dir).submitted == dir.submitted
  {
  }

  lemma CommandKeeps(w: World, c: Capture, command: Command)
    requires w.capture == Some(c) && !command.Crash? && !command.Finish? && !command.FinishCrash?
    ensures Next(w, command).capture.Some?
    ensures Keeps(Held(c, w.dir), Held(Next(w, command).capture.value, Next(w, command).dir))
  {
    match command
    case Rotate(reading, stopped, spawned) => RotateKeeps(Held(c, w.dir), c.process, AtLeastOne(reading), stopped, spawned);
    case PauseCapture(reading, stopped) => PauseKeeps(Held(c, w.dir), c.process, AtLeastOne(reading), stopped);
    case ResumeCapture(spawned) => StartKeeps(Resume(Held(c, w.dir)).spool, c.process, c.base, spawned);
    case Recover => BehindKeeps(w.dir);
    case _ =>
  }

  lemma NextGrows(w: World, command: Command)
    requires WorldOk(w) && (command.Recover? ==> !Filming(w))
    ensures Grows(w, Next(w, command))
  {
    if w.capture.Some? {
      HeldGrows(w, w.capture.value, command);
    } else if command.Recover? && w.dir.stored.Some? {
      NextOk(w, command);
      RecoveryKeeps(Spool(w.dir.stored.value, w.dir));
    }
  }

  lemma GrowsOn(u: World, v: World, w: World)
    requires Grows(u, v) && Grows(v, w)
    ensures Grows(u, w)
  {
  }

  lemma GrowsSelf(w: World)
    requires WorldOk(w)
    ensures Grows(w, w)
  {
  }

  /** Over any continuation sealed segments are only appended to, a finalized session stays as it is, and a manifest
      once written stays. */
  lemma {:induction false} RunGrows(w: World, more: seq<Command>)
    requires WorldOk(w) && Careful(w, more)
    ensures Grows(w, RunFrom(w, more))
  {
    if more == [] {
      GrowsSelf(w);
    } else {
      var shorter := more[..|more| - 1];
      CarefulPrefix(w, more);
      RunGrows(w, shorter);
      RunOk(w, shorter);
      NextGrows(RunFrom(w, shorter), more[|more| - 1]);
      GrowsOn(w, RunFrom(w, shorter), RunFrom(w, more));
    }
  }

  // Recovering a session that is being captured. recover_session rewrites the directory before it looks whether a capture
  // is held, so the capture goes on with a segment that its directory has already sealed or thrown away.

  /** What is sealed on disk is in order and complete. */
  ghost predicate Intact(dir: Dir) {
    dir.stored.Some? ==> Chain(dir.stored.value.segments) && AllSealed(dir.files, dir.stored.value.segments)
  }

  /** Whatever follows, nothing sealed before is lost and everything sealed is complete. */
  ghost predicate Harmless(w: World) {
    forall more | Careful(Next(w, Recover), more) ::
      Grows(w, RunFrom(Next(w, Recover), more)) && Intact(RunFrom(Next(w, Recover), more).dir)
  }

  lemma WorldIntact(w: World)
    requires WorldOk(w)
    ensures Intact(w.dir)
  {
  }

  /** With footage the segment is sealed as it is; filming on changes the footage under the seal. */
  lemma SealedWhileFilmed(w: World, c: Capture, b: Id)
    requires WorldOk(w) && w.capture == Some(c) && Filming(w)
    requires Video(c.state.active.value.index) in w.dir.files && Size(w.dir.files[Video(c.state.active.value.index)]) > 0
    requires w.dir.files[Video(c.state.active.value.index)] != Footage(1, b)
    ensures !Intact(Next(Next(w, Recover), Encode(1, b)).dir)
  {
    var active := c.state.active.value;
    var behind := RecoverBehind(w.dir);
    assert behind.stored.value.segments[|c.state.segments|].index == active.index;
    assert behind.stored.value.segments[|c.state.segments|] in behind.stored.value.segments;
  }

  /** Without footage the segment is thrown away with its log; the capture seals it all the same. */
  lemma ForgottenWhileFilmed(w: World, c: Capture, reading: nat)
    requires WorldOk(w) && w.capture == Some(c) && Filming(w)
    requires Video(c.state.active.value.index) in w.dir.files ==> Size(w.dir.files[Video(c.state.active.value.index)]) == 0
    requires c.last <= reading <= U64_MAX && c.state.active.value.start < reading
    ensures !Intact(Next(Next(Next(w, Recover), Encode(1, 0)), PauseCapture(reading, true)).dir)
  {
    var active := c.state.active.value;
    var filmed := Next(Next(w, Recover), Encode(1, 0));
    assert Reads(c, reading) && filmed.capture == Some(c) && Events(active.index) !in filmed.dir.files;
    var sealed := FinishVideoSegment(Held(c, filmed.dir), reading);
    assert sealed.Done? && sealed.spool.state.segments[|c.state.segments|].index == active.index;
    var paused := Next(filmed, PauseCapture(reading, true)).dir;
    assert paused.stored.value.segments == sealed.spool.state.segments && Events(active.index) !in paused.files;
    assert sealed.spool.state.segments[|c.state.segments|] in sealed.spool.state.segments;
  }

  lemma TwoCommands(w: World, a: Command, b: Command)
    ensures RunFrom(w, [a]) == Next(w, a) && RunFrom(w, [a, b]) == Next(Next(w, a), b)
  {
    assert [a][..0] == [] && [a, b][..1] == [a];
  }

  lemma FilmingHarms(w: World, c: Capture)
    requires WorldOk(w) && w.capture == Some(c) && Filming(w)
    ensures !Harmless(w)
  {
    var video := Video(c.state.active.value.index);
    if video in w.dir.files && Size(w.dir.files[video]) > 0 {
      var b := if w.dir.files[video] == Footage(1, 0) then 1 else 0;
      SealedWhileFilmed(w, c, b);
      TwoCommands(Next(w, Recover), Encode(1, b), Crash);
      assert Careful(Next(w, Recover), [Encode(1, b)]);
    } else {
      var reading := Max(c.last, c.state.active.value.start + 1);
      ForgottenWhileFilmed(w, c, reading);
      TwoCommands(Next(w, Recover), Encode(1, 0), PauseCapture(reading, true));
      assert Careful(Next(w, Recover), [Encode(1, 0), PauseCapture(reading, true)]);
    }
  }

  /** Recovering a session does harm exactly while it is being filmed. */
  lemma RecoveryHarmlessExactly(commands: seq<Command>)
    requires Careful(NEW_WORLD, commands)
    ensures Harmless(RunOf(commands)) <==> !Filming(RunOf(commands))
  {
    var w := RunOf(commands);
    NewWorldOk();
    RunOk(NEW_WORLD, commands);
    if Filming(w) {
      FilmingHarms(w, w.capture.value);
    } else {
      NextOk(w, Recover);
      NextGrows(w, Recover);
      forall more | Careful(Next(w, Recover), more)
        ensures Grows(w, RunFrom(Next(w, Recover), more)) && Intact(RunFrom(Next(w, Recover), more).dir)
      {
        RunGrows(Next(w, Recover), more);
        GrowsOn(w, Next(w, Recover), RunFrom(Next(w, Recover), more));
        RunOk(Next(w, Recover), more);
        WorldIntact(RunFrom(Next(w, Recover), more));
      }
    }
  }

  /** A segment that a recovery sealed on disk, and the capture sealed again when it paused. */
  lemma ReplacedRun() returns (before: seq<Command>, after: seq<Command>)
    ensures before <= after
    ensures RunOf(before).dir.stored.Some? && RunOf(after).dir.stored.Some?
    ensures RunOf(before).dir.stored.value.segments == [Segment(1, 0, 1, Footage(1, 0))]
    ensures RunOf(after).dir.stored.value.segments == [Segment(1, 0, 10, Footage(1, 0))]
  {
    before := [Begin(true), Encode(1, 0), Recover];
    after := [Begin(true), Encode(1, 0), Recover, PauseCapture(10, true)];
    assert after[..3] == before && before[..2] == [Begin(true), Encode(1, 0)];
    TwoCommands(NEW_WORLD, Begin(true), Encode(1, 0));
  }

  lemma PausedEmpty()
    ensures var w := RunOf([Begin(true), PauseCapture(10, true)]);
            && w.capture.Some? && w.capture.value.state == State(Paused, 0, None, None, []) && !w.capture.value.process
            && w.dir.stored == Some(w.capture.value.state) && Events(1) in w.dir.files
  {
    TwoCommands(NEW_WORLD, Begin(true), PauseCapture(10, true));
  }

  lemma LeftBehind(w: World, c: Capture)
    requires w.capture == Some(c) && c.state == State(Paused, 0, None, None, []) && !c.process && Events(1) in w.dir.files
    ensures var v := Next(w, ResumeCapture(true));
            v.capture.Some? && !v.capture.value.process && v.dir.stored.Some? && v.dir.stored.value.active.Some?
  {
  }

  /** An active segment on disk is not enough for harm: after a pause without footage, a resumption finds the old log in the
      way and leaves one that nothing films. */
  lemma LeftoverRun() returns (commands: seq<Command>)
    ensures RunOf(commands).capture.Some? && RunOf(commands).dir.stored.Some? && RunOf(commands).dir.stored.value.active.Some?
    ensures !Filming(RunOf(commands)) && Harmless(RunOf(commands))
  {
    commands := [Begin(true), PauseCapture(10, true), ResumeCapture(true)];
    var paused := [Begin(true), PauseCapture(10, true)];
    assert commands[..2] == paused;
    PausedEmpty();
    LeftBehind(RunOf(paused), RunOf(paused).capture.value);
    RecoveryHarmlessExactly(commands);
  }

  lemma LostLog() returns (commands: seq<Command>)
    ensures var w := RunOf(commands);
            && w.capture.Some? && w.capture.value.state == State(Paused, 10, None, None, [Segment(1, 0, 10, Footage(1, 0))])
            && w.dir.stored == Some(w.capture.value.state) && !w.capture.value.running && w.capture.value.base == 10
            && Events(1) !in w.dir.files
  {
    var filmed := [Begin(true), Recover, Encode(1, 0)];
    commands := [Begin(true), Recover, Encode(1, 0), PauseCapture(10, true)];
    assert filmed[..2] == [Begin(true), Recover] && commands[..3] == filmed;
    TwoCommands(NEW_WORLD, Begin(true), Recover);
  }

  lemma UnusableRefused(s: Spool, outputs: seq<Source>)
    requires s.state.stage == Finalizing && s.state.lastEvent == None && |s.state.segments| == 1
    requires Events(s.state.segments[0].index) !in s.dir.files
    ensures Finalize(s, outputs) == Refused(s)
  {
    UsablePrefixIs(s.dir.files, s.state.segments, 0);
    assert s.state.segments[..0] == [] && outputs[..0] == [];
  }

  /** A segment that a recovery threw away, sealed without its log: the session cannot be finalized any more, whatever
      outputs are there to attach. */
  lemma LostLogRun(outputs: seq<Source>) returns (commands: seq<Command>)
    ensures var dir := RunOf(commands).dir;
            && dir.stored == Some(State(Finalizing, 10, None, None, [Segment(1, 0, 10, Footage(1, 0))]))
            && Events(1) !in dir.files && Finalize(Spool(dir.stored.value, dir), outputs).Refused?
  {
    var paused := LostLog();
    var w := RunOf(paused);
    commands := paused + [Finish(10, true, outputs)];
    assert commands[..|paused|] == paused;
    var wound := Wound(w.capture.value, w.dir, 10, true);
    assert wound.Done? && wound.spool.state == w.capture.value.state.(stage := Finalizing);
    UnusableRefused(wound.spool, outputs);
  }

  // The two lists of the collector's start screen.

  predicate Recoverable(dir: Dir) {
    dir.stored.Some? && dir.stored.value.stage != Finalized
  }

  predicate AwaitingSubmission(dir: Dir) {
    dir.stored.Some? && dir.manifest.Some? && !dir.submitted && dir.stored.value.stage == Finalized
  }

  /** FINALIZED is stored with a manifest only, and never while a capture is held. */
  predicate FinalWithManifest(w: World) {
    && (IsFinalized(w.dir) ==> w.dir.manifest.Some?)
    && (w.capture.Some? ==> !IsFinalized(w.dir) && w.capture.value.state.stage != Finalized)
  }

  predicate NotFinal(s: Spool) {
    s.state.stage != Finalized && !IsFinalized(s.dir)
  }

  lemma RecoveryNotFinal(s: Spool)
    requires NotFinal(s)
    ensures NotFinal(PrepareRecovery(s).spool)
  {
  }

  lemma StopNotFinal(s: Spool, process: bool, now: nat, stopped: bool)
    requires NotFinal(s)
    ensures NotFinal(StopActive(s, process, now, stopped).spool)
  {
  }

  lemma StartNotFinal(s: Spool, process: bool, start: nat, spawned: bool)
    requires NotFinal(s)
    ensures NotFinal(StartSegment(s, process, start, spawned).spool)
  {
  }

  lemma RotateNotFinal(s: Spool, process: bool, now: nat, stopped: bool, spawned: bool)
    requires NotFinal(s)
    ensures NotFinal(RotateSegment(s, process, now, stopped, spawned).spool)
    ensures NotFinal(Recovered(RotateSegment(s, process, now, stopped, spawned)))
  {
    var halted := StopActive(s, process, now, stopped);
    StopNotFinal(s, process, now, stopped);
    StartNotFinal(halted.spool, halted.process, now, spawned);
    RecoveryNotFinal(RotateSegment(s, process, now, stopped, spawned).spool);
  }

  lemma PauseNotFinal(s: Spool, process: bool, now: nat, stopped: bool)
    requires NotFinal(s)
    ensures NotFinal(Recovered(PauseRecorder(s, process, now, stopped)))
  {
    StopNotFinal(s, process, now, stopped);
    RecoveryNotFinal(PauseRecorder(s, process, now, stopped).spool);
  }

  lemma WindingNotFinal(c: Capture, dir: Dir, reading: nat, stopped: bool)
    requires NotFinal(Held(c, dir))
    ensures NotFinal(Wound(c, dir, reading, stopped).spool)
  {
    var now := AtLeastOne(reading);
    StopNotFinal(Held(c, dir), c.process, now, stopped);
    RecoveryNotFinal(StopActive(Held(c, dir), c.process, now, stopped).spool);
  }

  lemma FinalizeWithManifest(s: Spool, outputs: seq<Source>)
    requires NotFinal(s)
    ensures IsFinalized(Finalize(s, outputs).spool.dir) ==> Finalize(s, outputs).spool.dir.manifest.Some?
  {
  }

  lemma BehindNotFinal(dir: Dir)
    requires !IsFinalized(dir)
    ensures !IsFinalized(RecoverBehind(dir))
  {
    if dir.stored.Some? {
      RecoveryNotFinal(Spool(dir.stored.value, dir));
    }
  }

  lemma HeldFinalWithManifest(w: World, c: Capture, command: Command)
    requires FinalWithManifest(w) && w.capture == Some(c)
    ensures FinalWithManifest(Next(w, command))
  {
    var s := Held(c, w.dir);
    match command
    case Rotate(reading, stopped, spawned) => RotateNotFinal(s, c.process, AtLeastOne(reading), stopped, spawned);
    case PauseCapture(reading, stopped) => PauseNotFinal(s, c.process, AtLeastOne(reading), stopped);
    case ResumeCapture(spawned) => StartNotFinal(Resume(s).spool, c.process, c.base, spawned);
    case Finish(reading, stopped, outputs) =>
      WindingNotFinal(c, w.dir, reading, stopped);
      FinalizeWithManifest(Wound(c, w.dir, reading, stopped).spool, outputs);
    case FinishCrash(reading, stopped, _, _, _, _) => WindingNotFinal(c, w.dir, reading, stopped);
    case Recover => BehindNotFinal(w.dir);
    case _ =>
  }

  lemma NextFinalWithManifest(w: World, command: Command)
    requires FinalWithManifest(w)
    ensures FinalWithManifest(Next(w, command))
  {
    if w.capture.Some? {
      HeldFinalWithManifest(w, w.capture.value, command);
    } else if command.Begin? && w.dir.stored.None? {
      StartNotFinal(Start(Create()).spool, false, 0, command.spawned);
    } else if command.Recover? && w.dir.stored.Some? && !IsFinalized(w.dir) {
      RecoveryNotFinal(Spool(w.dir.stored.value, w.dir));
    }
  }

  lemma {:induction false} RunFinalWithManifest(commands: seq<Command>)
    ensures FinalWithManifest(RunOf(commands))
  {
    if commands != [] {
      RunFinalWithManifest(commands[..|commands| - 1]);
      NextFinalWithManifest(RunOf(commands[..|commands| - 1]), commands[|commands| - 1]);
    }
  }

  /** A created session without a receipt is on exactly one of the lists, whatever was recovered when. */
  lemma ListedOnce(commands: seq<Command>)
    ensures var dir := RunOf(commands).dir;
            dir.stored.Some? && !dir.submitted ==> Recoverable(dir) != AwaitingSubmission(dir)
  {
    RunFinalWithManifest(commands);
  }

  // Acceptance of whatever a run finalizes.

  /** What the submitter and the server check of a finalized session's files. */
  ghost predicate Acceptable(dir: Dir) {
    && dir.manifest.Some? && Verified(dir.files, dir.manifest.value)
    && forall order | SortedByName(order, EventIndices(dir.manifest.value.artifacts)) ::
         && OnTimeline(EventsOf(dir.files, order), dir.manifest.value.duration)
         && Consistent(TrajectoryOf(dir.manifest.value, EventsOf(dir.files, order)), Registered(dir.manifest.value.artifacts))
  }

  lemma HeldNotFinalized(w: World, c: Capture, command: Command)
    requires FinalWithManifest(w) && w.capture == Some(c) && !command.Finish?
    ensures !IsFinalized(Next(w, command).dir)
  {
    if command.FinishCrash? {
      WindingNotFinal(c, w.dir, command.reading, command.stopped);
    } else if !command.Crash? {
      CommandKeeps(w, c, command);
      HeldFinalWithManifest(w, c, command);
    }
  }

  lemma FinishNotRefused(c: Capture, dir: Dir, reading: nat, stopped: bool, outputs: seq<Source>)
    requires NotFinal(Held(c, dir)) && IsFinalized(FinishStep(c, dir, reading, stopped, outputs).dir)
    ensures Wound(c, dir, reading, stopped).Done?
  {
    WindingNotFinal(c, dir, reading, stopped);
  }

  /** Only a completed finish command finalizes. */
  lemma OnlyFinishFinalizes(w: World, command: Command)
    requires WorldOk(w) && !IsFinalized(w.dir) && IsFinalized(Next(w, command).dir)
    ensures w.capture.Some? && command.Finish? && Reads(w.capture.value, command.reading)
    ensures Wound(w.capture.value, w.dir, command.reading, command.stopped).Done?
  {
    if w.capture.Some? {
      var c := w.capture.value;
      if !command.Finish? {
        HeldNotFinalized(w, c, command);
      } else if Reads(c, command.reading) {
        FinishNotRefused(c, w.dir, command.reading, command.stopped, command.outputs);
      }
    } else if command.Begin? && w.dir.stored.None? {
      StartNotFinal(Start(Create()).spool, false, 0, command.spawned);
    } else if command.Recover? && w.dir.stored.Some? {
      RecoveryNotFinal(Spool(w.dir.stored.value, w.dir));
    }
  }

  /** The whole effect of a successful finalization. */
  lemma FinalizeDoes(s: Spool, outputs: seq<Source>)
    requires Finalizable(s, outputs)
    ensures Finalize(s, outputs).Done?
    ensures Finalize(s, outputs).spool.dir ==
            s.dir.(files := FinalFiles(s, outputs), manifest := Some(FinalManifest(s, outputs)),
                   stored := Some(s.state.(stage := Finalized)))
  {
    assert s.state.segments[..|s.state.segments|] == s.state.segments && outputs[..|outputs|] == outputs;
  }

  lemma FinalizeAccepted(s: Spool, outputs: seq<Source>)
    requires Sealable(s, outputs)
    ensures Acceptable(Finalize(s, outputs).spool.dir) <==>
            outputs != [] && NamesAgree(outputs) && !Scrambled(FinalFiles(s, outputs), |s.state.segments|)
  {
    FinalizeDoes(s, outputs);
    ManifestVerified(s, outputs);
    ManifestLogs(s, outputs);
    if NamesAgree(outputs) {
      forall order | SortedByName(order, EventIndices(FinalManifest(s, outputs).artifacts))
        ensures var actions := EventsOf(FinalFiles(s, outputs), order);
                && (OnTimeline(actions, FinalManifest(s, outputs).duration) <==> !Scrambled(FinalFiles(s, outputs), |s.state.segments|))
                && (OnTimeline(actions, FinalManifest(s, outputs).duration) <==>
                    Consistent(TrajectoryOf(FinalManifest(s, outputs), actions), Registered(FinalManifest(s, outputs).artifacts)))
      {
        CaptureAccepted(s, outputs, order);
      }
      var order := NameOrderExists(|s.state.segments|);
      assert SortedByName(order, EventIndices(FinalManifest(s, outputs).artifacts));
    }
  }

  /** A finish command that ends in FINALIZED has finalized the spool that was wound up. */
  lemma FinishFinalizes(c: Capture, dir: Dir, reading: nat, stopped: bool, outputs: seq<Source>)
    requires WorldOk(World(dir, Some(c))) && Reads(c, reading) && Wound(c, dir, reading, stopped).Done?
    requires IsFinalized(FinishStep(c, dir, reading, stopped, outputs).dir)
    ensures Sealable(Wound(c, dir, reading, stopped).spool, outputs)
    ensures FinishStep(c, dir, reading, stopped, outputs).dir == Finalize(Wound(c, dir, reading, stopped).spool, outputs).spool.dir
  {
    WoundOk(c, dir, reading, stopped);
    var s := Wound(c, dir, reading, stopped).spool;
    FinalizeOk(s, outputs);
    SealedIsUsable(s.dir.files, s.state.segments);
  }

  lemma AcceptableStays(dir: Dir, submitted: bool)
    ensures Acceptable(dir.(submitted := submitted)) <==> Acceptable(dir)
  {
  }

  /** Whatever happened before, a session that ends up finalized is accepted by both consumers exactly when the names of
      its logs do not scramble its events, provided its finish commands attach outputs whose names agree and it was not
      recovered while it was filmed. Below a million segments it always is. */
  lemma {:induction false} FinalizedRunAccepted(commands: seq<Command>)
    requires forall k | 0 <= k < |commands| && commands[k].Finish? :: commands[k].outputs != [] && NamesAgree(commands[k].outputs)
    requires Careful(NEW_WORLD, commands) && IsFinalized(RunOf(commands).dir)
    ensures var dir := RunOf(commands).dir;
            && (Acceptable(dir) <==> !Scrambled(dir.files, |dir.stored.value.segments|))
            && (|dir.stored.value.segments| < 1_000_000 ==> Acceptable(dir))
  {
    NeverScrambled(RunOf(commands).dir.files, if |RunOf(commands).dir.stored.value.segments| < 1_000_000
                                              then |RunOf(commands).dir.stored.value.segments| else 0);
    if commands != [] {
      var prefix := commands[..|commands| - 1];
      NewWorldOk();
      CarefulPrefix(NEW_WORLD, commands);
      RunOk(NEW_WORLD, prefix);
      NextGrows(RunOf(prefix), commands[|commands| - 1]);
      if IsFinalized(RunOf(prefix).dir) {
        FinalizedRunAccepted(prefix);
        AcceptableStays(RunOf(prefix).dir, RunOf(commands).dir.submitted);
      } else {
        FinishingAccepted(RunOf(prefix), commands[|commands| - 1]);
      }
    }
  }

  /** The command that finalizes is a finish command, and what it leaves is accepted exactly when it attached outputs, those
      of one name agree, and the names of the logs do not scramble the events. */
  lemma FinishingAccepted(w: World, command: Command)
    requires WorldOk(w) && !IsFinalized(w.dir) && IsFinalized(Next(w, command).dir)
    ensures command.Finish?
    ensures var dir := Next(w, command).dir;
            Acceptable(dir) <==>
            command.outputs != [] && NamesAgree(command.outputs) && !Scrambled(dir.files, |dir.stored.value.segments|)
  {
    OnlyFinishFinalizes(w, command);
    var c := w.capture.value;
    FinishFinalizes(c, w.dir, command.reading, command.stopped, command.outputs);
    var s := Wound(c, w.dir, command.reading, command.stopped).spool;
    FinalizeDoes(s, command.outputs);
    FinalizeAccepted(s, command.outputs);
  }
}
