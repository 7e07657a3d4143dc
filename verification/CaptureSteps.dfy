/** The segment recorder and the collector's commands, over the capture directory. */
module CaptureSteps {
  import opened Common
  import opened SpoolSteps

  // recorder.rs: `process` says whether a capture process is held.

  datatype Attempt = Attempt(spool: Spool, process: bool, ok: bool)

  /** `spawned` is whether the capture process could be started. */
  function StartSegment(s: Spool, process: bool, start: nat, spawned: bool): Attempt {
    if process then Attempt(s, process, false)
    else
      var begun := BeginVideoSegment(s, start);
      if begun.Refused? then Attempt(begun.spool, false, false)
      else if spawned then Attempt(begun.spool, true, true)
      else Attempt(AbortVideoSegment(begun.spool).spool, false, false)
  }

  /** `stopped` is whether the process ended cleanly; it is given up either way. */
  function StopActive(s: Spool, process: bool, timestamp: nat, stopped: bool): Attempt {
    if !process || !stopped then Attempt(s, false, false)
    else
      var finished := FinishVideoSegment(s, timestamp);
      Attempt(finished.spool, false, finished.Done?)
  }

  function RotateSegment(s: Spool, process: bool, timestamp: nat, stopped: bool, spawned: bool): Attempt {
    var halted := StopActive(s, process, timestamp, stopped);
    if !halted.ok then halted else StartSegment(halted.spool, halted.process, timestamp, spawned)
  }

  function PauseRecorder(s: Spool, process: bool, timestamp: nat, stopped: bool): Attempt {
    var halted := StopActive(s, process, timestamp, stopped);
    if !halted.ok then halted
    else
      var paused := Pause(halted.spool, timestamp);
      Attempt(paused.spool, halted.process, paused.Done?)
  }

  function ResumeRecorder(s: Spool, process: bool, timestamp: nat, spawned: bool): Attempt {
    var resumed := Resume(s);
    if resumed.Refused? then Attempt(resumed.spool, process, false)
    else StartSegment(resumed.spool, process, timestamp, spawned)
  }

  // lib.rs: the active capture and its clock. `last` is the latest time any command has read.

  datatype Capture = Capture(state: State, process: bool, base: nat, running: bool, last: nat)

  /** One session: its directory, and the capture held in memory while the collector works on it. */
  datatype World = World(dir: Dir, capture: Option<Capture>)

  datatype Command =
    | Begin(spawned: bool)
    | Encode(size: nat, bytes: Id)
    | Record(reading: nat, allowed: bool)
    | Checkpoint(reading: nat)
    | Rotate(reading: nat, stopped: bool, spawned: bool)
    | PauseCapture(reading: nat, stopped: bool)
    | ResumeCapture(spawned: bool)
    | Finish(reading: nat, stopped: bool, outputs: seq<Source>)
    | FinishCrash(reading: nat, stopped: bool, outputs: seq<Source>, logs: nat, copies: nat, manifestWritten: bool)
    | Crash
    | Recover
    | Submit

  /** A running clock never goes back and has moved past the start of the active segment; a stopped one shows the
      time it stopped at. */
  predicate Reads(c: Capture, reading: nat) {
    if c.running then
      c.last <= reading <= U64_MAX && (c.state.active.Some? ==> c.state.active.value.start < reading)
    else reading == c.base
  }

  function AtLeastOne(reading: nat): nat {
    Max(reading, 1)
  }

  function Held(c: Capture, dir: Dir): Spool {
    Spool(c.state, dir)
  }

  /** After a recorder failure the spool is put into a recoverable state. */
  function Recovered(a: Attempt): Spool {
    if a.ok then a.spool else PrepareRecovery(a.spool).spool
  }

  function BeginCapture(w: World, spawned: bool): World {
    var started := StartSegment(Start(Create()).spool, false, 0, spawned);
    if started.ok then World(started.spool.dir, Some(Capture(started.spool.state, true, 0, true, 0)))
    else World(Pause(started.spool, 0).spool.dir, None)
  }

  function RotateCapture(c: Capture, dir: Dir, reading: nat, stopped: bool, spawned: bool): World {
    var now := AtLeastOne(reading);
    var a := RotateSegment(Held(c, dir), c.process, now, stopped, spawned);
    if a.ok then World(a.spool.dir, Some(c.(state := a.spool.state, process := a.process, last := now)))
    else World(Recovered(a).dir, Some(Capture(Recovered(a).state, a.process, now, false, now)))
  }

  /** Also what a failing input hook and an event the policy denies lead to. */
  function PauseStep(c: Capture, dir: Dir, reading: nat, stopped: bool): World {
    var now := AtLeastOne(reading);
    var a := PauseRecorder(Held(c, dir), c.process, now, stopped);
    World(Recovered(a).dir, Some(Capture(Recovered(a).state, a.process, now, false, now)))
  }

  /** A resumption that fails leaves the clock stopped. */
  function ResumeStep(c: Capture, dir: Dir, spawned: bool): World {
    var a := ResumeRecorder(Held(c, dir), c.process, c.base, spawned);
    World(a.spool.dir, Some(c.(state := a.spool.state, process := a.process, running := a.ok || c.running)))
  }

  /** Stops a running recorder and enters FINALIZING; a refusal carries what is left on disk. */
  function Wound(c: Capture, dir: Dir, reading: nat, stopped: bool): Outcome {
    var now := AtLeastOne(reading);
    if c.state.stage == Recording then
      var a := StopActive(Held(c, dir), c.process, now, stopped);
      if a.ok then BeginFinalization(a.spool, now) else Refused(Recovered(a))
    else BeginFinalization(Held(c, dir), now)
  }

  /** The capture is given up whatever the outcome. */
  function FinishStep(c: Capture, dir: Dir, reading: nat, stopped: bool, outputs: seq<Source>): World {
    var wound := Wound(c, dir, reading, stopped);
    if wound.Refused? then World(wound.spool.dir, None)
    else World(Finalize(wound.spool, outputs).spool.dir, None)
  }

  predicate StopsAt(s: Spool, outputs: seq<Source>, logs: nat, copies: nat, manifestWritten: bool) {
    && logs <= UsablePrefix(s.dir.files, s.state.segments) && copies <= |outputs|
    && (copies > 0 || manifestWritten ==> logs == |s.state.segments|)
    && (manifestWritten ==> Finalizable(s, outputs) && copies == |outputs|)
  }

  function FinishCrashStep(c: Capture, dir: Dir, reading: nat, stopped: bool, outputs: seq<Source>, logs: nat, copies: nat,
                           manifestWritten: bool): World
  {
    var wound := Wound(c, dir, reading, stopped);
    if wound.Done? && StopsAt(wound.spool, outputs, logs, copies, manifestWritten)
    then World(Interrupted(wound.spool, outputs, logs, copies, manifestWritten).dir, None)
    else World(wound.spool.dir, None)
  }

  function RecoverStep(dir: Dir, state: State): World {
    var r := PrepareRecovery(Spool(state, dir));
    if r.Done? then World(r.spool.dir, Some(Capture(r.spool.state, false, r.spool.state.elapsed, false, r.spool.state.elapsed)))
    else World(r.spool.dir, None)
  }

  /** recover_session while a capture of the session is held: the directory is recovered before the capture is found, and
      the capture stays as it was. */
  function RecoverBehind(dir: Dir): Dir {
    if dir.stored.Some? then PrepareRecovery(Spool(dir.stored.value, dir)).spool.dir else dir
  }

  /** Commands that read the clock wrongly, or that the state does not offer, do nothing. */
  function Next(w: World, command: Command): World {
    if w.capture.None? then
      match command
      case Begin(spawned) => if w.dir.stored.None? then BeginCapture(w, spawned) else w
      case Recover => if w.dir.stored.Some? then RecoverStep(w.dir, w.dir.stored.value) else w
      case Submit => if w.dir.manifest.Some? then w.(dir := w.dir.(submitted := true)) else w
      case _ => w
    else
      var (c, dir) := (w.capture.value, w.dir);
      match command
      case Crash => World(dir, None)
      case Recover => w.(dir := RecoverBehind(dir))
      case Encode(size, bytes) =>
        if c.process && c.state.active.Some?
        then w.(dir := dir.(files := dir.files[Video(c.state.active.value.index) := Footage(size, bytes)])) else w
      case Record(reading, allowed) =>
        if !Reads(c, reading) then w
        else
          var s := RecordEvent(Held(c, dir), reading, allowed).spool;
          World(s.dir, Some(c.(state := s.state, last := reading)))
      case Checkpoint(reading) =>
        if !Reads(c, reading) then w
        else
          var s := CheckpointElapsed(Held(c, dir), reading).spool;
          World(s.dir, Some(c.(state := s.state, last := reading)))
      case Rotate(reading, stopped, spawned) =>
        if !Reads(c, reading) then w else RotateCapture(c, dir, reading, stopped, spawned)
      case PauseCapture(reading, stopped) => if !Reads(c, reading) then w else PauseStep(c, dir, reading, stopped)
      case ResumeCapture(spawned) => ResumeStep(c, dir, spawned)
      case Finish(reading, stopped, outputs) =>
        if !Reads(c, reading) then w else FinishStep(c, dir, reading, stopped, outputs)
      case FinishCrash(reading, stopped, outputs, logs, copies, written) =>
        if !Reads(c, reading) then w else FinishCrashStep(c, dir, reading, stopped, outputs, logs, copies, written)
      case _ => w
  }

  const NEW_WORLD := World(Dir(map[], None, None, false), None)

  function RunFrom(w: World, commands: seq<Command>): World {
    if commands == [] then w else Next(RunFrom(w, commands[..|commands| - 1]), commands[|commands| - 1])
  }

  function RunOf(commands: seq<Command>): World {
    RunFrom(NEW_WORLD, commands)
  }

  // Recovering a session that is being captured.

  /** A process is filming a segment that can still be sealed. */
  predicate Filming(w: World) {
    w.capture.Some? && w.capture.value.process && w.capture.value.state.active.Some?
    && w.capture.value.state.active.value.start < U64_MAX
  }

  /** The session is not recovered while it is being filmed. */
  predicate Careful(w: World, commands: seq<Command>) {
    forall k | 0 <= k < |commands| && commands[k].Recover? :: !Filming(RunFrom(w, commands[..k]))
  }
}
