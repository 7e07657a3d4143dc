/** Uploading raw artifacts. Every storage or database call of a handler is one step; handlers of any number of
    requests interleave, and any call may fail before or after it takes effect
    (services/api/internal/httpapi/multipart_uploads.go and artifacts.go, database/multipart_uploads.go,
    blobstore/r2.go and local.go). */
module Uploads {
  import opened Common

  datatype Key = Key(session: Id, path: string)

  /** An object's bytes, known by their length and digest. */
  datatype Blob = Blob(size: int, sha256: Id)

  datatype UploadState = Active | Completed | Aborted
  datatype Upload = Upload(key: Key, stage: Id, declared: Blob, mediaType: string, state: UploadState)
  datatype Artifact = Artifact(blob: Blob, mediaType: string)

  /** Where a handler stands. The first group belongs to the completion of a multipart upload, whose snapshot of the
      upload row the handler keeps; the second to a direct upload; both end in the last two. */
  datatype Point =
    | StatRaw | StatStage | Assemble | StatAgain | Discard | AbortRow | Promote | FinalStat | CleanStage
    | Put | StatExisting
    | Register | CloseRow | Finished

  /** `upload` names the row a completion works for; a direct upload has none and no stage. */
  datatype Handler = Handler(at: Point, upload: Option<Id>, key: Key, stage: Id, blob: Blob, mediaType: string)

  datatype System = System(
    raw: map<Key, Blob>, staging: map<Id, Blob>,
    artifacts: map<Key, Artifact>, uploads: map<Id, Upload>,
    handlers: map<Id, Handler>,
    doomed: set<Key>)   // keys that a leased purge or deletion has covered at some time

  datatype Fault = NoFault | FailsBefore | FailsAfter

  datatype Event =
    | StartUpload(id: Id, row: Upload)
    | RestartUpload(id: Id, row: Upload)
    | AbortUpload(id: Id)
    | BeginCompletion(handler: Id, upload: Id)
    | BeginDirect(handler: Id, key: Key, blob: Blob, mediaType: string)
    | Proceed(handler: Id, fault: Fault, assembled: Blob, admitted: bool)
    | Doom(key: Key)
    | PurgeObject(key: Key)

  /** A compare-and-set on the upload row. */
  function SetState(sys: System, upload: Option<Id>, to: UploadState): System {
    if upload.Some? && upload.value in sys.uploads && sys.uploads[upload.value].state == Active
    then sys.(uploads := sys.uploads[upload.value := sys.uploads[upload.value].(state := to)]) else sys
  }

  /** What one call leaves, and where the handler goes on. */
  datatype Step = Step(sys: System, at: Point)

  function Unstaged(sys: System, stage: Id, fault: Fault): System {
    if fault == FailsBefore then sys else sys.(staging := sys.staging - {stage})
  }

  /** Calls up to the promotion touch the staging area and the upload row only. `assembled` is what storage makes of
      the parts the client sent. */
  function StagingCall(sys: System, r: Handler, fault: Fault, assembled: Blob): Step {
    match r.at
    case StatRaw =>
      // A failed look is taken for a missing object.
      if fault != NoFault || r.key !in sys.raw then Step(sys, StatStage)
      else Step(sys, if sys.raw[r.key] == r.blob then FinalStat else Finished)
    case StatStage =>
      if fault != NoFault || r.stage !in sys.staging then Step(sys, Assemble)
      else Step(sys, if sys.staging[r.stage] == r.blob then Promote else Discard)
    case Assemble =>
      if fault == FailsBefore then Step(sys, Finished)
      else Step(sys.(staging := sys.staging[r.stage := assembled]), if fault == NoFault then StatAgain else Finished)
    case StatAgain =>
      if fault == NoFault && r.stage in sys.staging && sys.staging[r.stage] == r.blob then Step(sys, Promote)
      else Step(sys, Discard)
    case Discard => Step(Unstaged(sys, r.stage, fault), AbortRow)
    case AbortRow => Step(if fault == FailsBefore then sys else SetState(sys, r.upload, Aborted), Finished)
    case _ => Step(sys, r.at)
  }

  /** Calls that write or look at the raw object. Raw objects are created, never replaced. */
  function RawCall(sys: System, r: Handler, fault: Fault): Step {
    match r.at
    case Promote =>
      if fault == FailsBefore then Step(sys, Finished)
      else if r.key in sys.raw then Step(sys, FinalStat)
      else if r.stage !in sys.staging then Step(sys, Finished)
      else
        var copied := sys.(raw := sys.raw[r.key := sys.staging[r.stage]]);
        if fault == FailsAfter then Step(copied, Finished)
        else Step(copied.(staging := copied.staging - {r.stage}), FinalStat)
    case FinalStat =>
      if fault == NoFault && r.key in sys.raw && sys.raw[r.key] == r.blob then Step(sys, CleanStage) else Step(sys, Finished)
    case CleanStage => Step(Unstaged(sys, r.stage, fault), Register)
    case Put =>
      if fault == FailsBefore then Step(sys, Finished)
      else if r.key in sys.raw then Step(sys, StatExisting)
      else Step(sys.(raw := sys.raw[r.key := r.blob]), if fault == NoFault then Register else Finished)
    case StatExisting =>
      if fault == NoFault && r.key in sys.raw && sys.raw[r.key] == r.blob then Step(sys, Register) else Step(sys, Finished)
    case _ => Step(sys, r.at)
  }

  /** The database calls at the end. `admitted` is whether the database takes the registration: it may refuse for the
      session's state. */
  function CommitCall(sys: System, r: Handler, fault: Fault, admitted: bool): Step {
    match r.at
    case Register =>
      var row := Artifact(r.blob, r.mediaType);
      if fault == FailsBefore || !admitted || (r.key in sys.artifacts && sys.artifacts[r.key] != row) then Step(sys, Finished)
      else Step(sys.(artifacts := sys.artifacts[r.key := row]), if fault == NoFault then CloseRow else Finished)
    case CloseRow => Step(if fault == FailsBefore then sys else SetState(sys, r.upload, Completed), Finished)
    case _ => Step(sys, r.at)
  }

  predicate Staging(at: Point) {
    at == StatRaw || at == StatStage || at == Assemble || at == StatAgain || at == Discard || at == AbortRow
  }

  /** One call of a handler. */
  function Called(sys: System, r: Handler, fault: Fault, assembled: Blob, admitted: bool): Step {
    if Staging(r.at) then StagingCall(sys, r, fault, assembled)
    else if r.at == Register || r.at == CloseRow then CommitCall(sys, r, fault, admitted)
    else RawCall(sys, r, fault)
  }

  function Proceeded(sys: System, h: Id, fault: Fault, assembled: Blob, admitted: bool): System
    requires h in sys.handlers
  {
    var step := Called(sys, sys.handlers[h], fault, assembled, admitted);
    step.sys.(handlers := sys.handlers[h := sys.handlers[h].(at := step.at)])
  }

  function Next(sys: System, event: Event): System {
    match event
    case StartUpload(id, row) =>
      // One row per key; a conflicting insert does nothing.
      if id in sys.uploads || row.state != Active || (exists u | u in sys.uploads :: sys.uploads[u].key == row.key) then sys
      else sys.(uploads := sys.uploads[id := row])
    case RestartUpload(id, row) =>
      if id in sys.uploads && sys.uploads[id].state == Aborted && row.key == sys.uploads[id].key && row.state == Active
      then sys.(uploads := sys.uploads[id := row]) else sys
    case AbortUpload(id) => SetState(sys, Some(id), Aborted)
    case BeginCompletion(h, id) =>
      if h in sys.handlers || id !in sys.uploads || sys.uploads[id].state != Active then sys
      else
        var u := sys.uploads[id];
        sys.(handlers := sys.handlers[h := Handler(StatRaw, Some(id), u.key, u.stage, u.declared, u.mediaType)])
    case BeginDirect(h, key, blob, mediaType) =>
      if h in sys.handlers then sys
      else sys.(handlers := sys.handlers[h := Handler(Put, None, key, 0, blob, mediaType)])
    case Proceed(h, fault, assembled, admitted) =>
      if h in sys.handlers then Proceeded(sys, h, fault, assembled, admitted) else sys
    case Doom(key) => sys.(doomed := sys.doomed + {key})
    case PurgeObject(key) => if key in sys.doomed then sys.(raw := sys.raw - {key}) else sys
  }

  function Run(sys: System, events: seq<Event>): System {
    if events == [] then sys else Next(Run(sys, events[..|events| - 1]), events[|events| - 1])
  }

  const EMPTY := System(map[], map[], map[], map[], map[], {})

  // Raw objects.

  /** Every raw object of `before` is still there, the same, unless a purge covered it. */
  ghost predicate RawKept(before: System, after: System) {
    && before.doomed <= after.doomed
    && forall k | k in before.raw && k !in after.doomed :: k in after.raw && after.raw[k] == before.raw[k]
  }

  /** Whatever handlers do and whichever calls fail, a raw key's bytes never change until a purge of it is leased. */
  lemma NextKeepsRaw(sys: System, event: Event)
    ensures RawKept(sys, Next(sys, event))
  {
    if event.Proceed? && event.handler in sys.handlers {
      CallKeepsRaw(sys, sys.handlers[event.handler], event.fault, event.assembled, event.admitted);
    }
  }

  lemma CallKeepsRaw(sys: System, r: Handler, fault: Fault, assembled: Blob, admitted: bool)
    ensures RawKept(sys, Called(sys, r, fault, assembled, admitted).sys)
  {
    StagingCallKeeps(sys, r, fault, assembled);
    RawCallKeeps(sys, r, fault);
    CommitCallKeeps(sys, r, fault, admitted);
  }

  /** Staging calls leave raw objects, artifacts and handlers alone, and upload rows keep their keys. */
  lemma StagingCallKeeps(sys: System, r: Handler, fault: Fault, assembled: Blob)
    ensures var after := StagingCall(sys, r, fault, assembled).sys;
            && after == sys.(staging := after.staging, uploads := after.uploads)
            && (after.uploads == sys.uploads || after == SetState(sys, r.upload, Aborted))
  {
  }

  lemma CommitCallKeeps(sys: System, r: Handler, fault: Fault, admitted: bool)
    ensures var after := CommitCall(sys, r, fault, admitted).sys;
            && after == sys.(artifacts := after.artifacts, uploads := after.uploads)
            && (forall k | k in sys.artifacts :: k in after.artifacts)
            && (forall u | u in sys.uploads :: u in after.uploads && after.uploads[u].key == sys.uploads[u].key)
  {
  }

  lemma {:induction false} RawIsImmutable(sys: System, events: seq<Event>)
    ensures RawKept(sys, Run(sys, events))
  {
    if events != [] {
      RawIsImmutable(sys, events[..|events| - 1]);
      NextKeepsRaw(Run(sys, events[..|events| - 1]), events[|events| - 1]);
    }
  }

  // Registered artifacts.

  /** The key holds exactly these bytes, or a purge of it has been leased. */
  predicate Holds(raw: map<Key, Blob>, doomed: set<Key>, key: Key, blob: Blob) {
    key in doomed || (key in raw && raw[key] == blob)
  }

  /** Once a handler has seen the bytes, it may register them at any later time. */
  predicate Seen(at: Point) {
    at == CleanStage || at == Register || at == CloseRow
  }

  predicate HandlerOk(sys: System, r: Handler) {
    && (Seen(r.at) ==> Holds(sys.raw, sys.doomed, r.key, r.blob))
    && (r.at == CloseRow ==> r.key in sys.artifacts)
    && (r.upload.Some? ==> r.upload.value in sys.uploads && sys.uploads[r.upload.value].key == r.key)
  }

  predicate ArtifactsHeld(sys: System) {
    forall k | k in sys.artifacts :: Holds(sys.raw, sys.doomed, k, sys.artifacts[k].blob)
  }

  predicate CompletedRegistered(sys: System) {
    forall u | u in sys.uploads && sys.uploads[u].state == Completed :: sys.uploads[u].key in sys.artifacts
  }

  predicate Grounded(sys: System) {
    ArtifactsHeld(sys) && CompletedRegistered(sys) && forall h | h in sys.handlers :: HandlerOk(sys, sys.handlers[h])
  }

  /** Growth of everything that handlers rely on. */
  ghost predicate Extends(before: System, after: System) {
    && RawKept(before, after) && (forall k | k in before.artifacts :: k in after.artifacts)
    && UploadsKept(before.uploads, after.uploads)
  }

  ghost predicate UploadsKept(before: map<Id, Upload>, after: map<Id, Upload>) {
    forall u | u in before :: u in after && after[u].key == before[u].key
  }

  lemma HeldStays(before: System, after: System, key: Key, blob: Blob)
    requires RawKept(before, after) && Holds(before.raw, before.doomed, key, blob)
    ensures Holds(after.raw, after.doomed, key, blob)
  {
  }

  lemma HandlerStaysOk(before: System, after: System, r: Handler)
    requires HandlerOk(before, r) && Extends(before, after)
    ensures HandlerOk(after, r)
  {
    if Seen(r.at) {
      HeldStays(before, after, r.key, r.blob);
    }
    if r.upload.Some? {
      var u := r.upload.value;
      assert u in before.uploads;
      assert u in after.uploads && after.uploads[u].key == r.key;
    }
  }

  lemma RawCallKeeps(sys: System, r: Handler, fault: Fault)
    ensures var after := RawCall(sys, r, fault).sys;
            after == sys.(raw := after.raw, staging := after.staging) && RawKept(sys, after)
  {
    if r.at == Promote {
      PromoteKeeps(sys, r, fault);
    }
  }

  lemma PromoteKeeps(sys: System, r: Handler, fault: Fault)
    requires r.at == Promote
    ensures var after := RawCall(sys, r, fault).sys;
            after == sys.(raw := after.raw, staging := after.staging) && RawKept(sys, after)
  {
  }

  lemma CallExtends(sys: System, r: Handler, fault: Fault, assembled: Blob, admitted: bool)
    ensures Extends(sys, Called(sys, r, fault, assembled, admitted).sys)
    ensures Called(sys, r, fault, assembled, admitted).sys.handlers == sys.handlers
  {
    StagingCallKeeps(sys, r, fault, assembled);
    RawCallKeeps(sys, r, fault);
    CommitCallKeeps(sys, r, fault, admitted);
  }

  lemma StagingCallGrounded(sys: System, r: Handler, fault: Fault, assembled: Blob)
    requires ArtifactsHeld(sys) && CompletedRegistered(sys) && HandlerOk(sys, r) && Staging(r.at)
    ensures var step := StagingCall(sys, r, fault, assembled);
            ArtifactsHeld(step.sys) && CompletedRegistered(step.sys) && HandlerOk(step.sys, r.(at := step.at))
  {
    StagingCallKeeps(sys, r, fault, assembled);
  }

  lemma RawCallGrounded(sys: System, r: Handler, fault: Fault)
    requires ArtifactsHeld(sys) && CompletedRegistered(sys) && HandlerOk(sys, r)
    ensures var step := RawCall(sys, r, fault);
            ArtifactsHeld(step.sys) && CompletedRegistered(step.sys) && HandlerOk(step.sys, r.(at := step.at))
  {
    RawCallKeeps(sys, r, fault);
    var step := RawCall(sys, r, fault);
    forall k | k in sys.artifacts ensures Holds(step.sys.raw, step.sys.doomed, k, sys.artifacts[k].blob) {
      HeldStays(sys, step.sys, k, sys.artifacts[k].blob);
    }
  }

  lemma CommitCallGrounded(sys: System, r: Handler, fault: Fault, admitted: bool)
    requires ArtifactsHeld(sys) && CompletedRegistered(sys) && HandlerOk(sys, r)
    ensures var step := CommitCall(sys, r, fault, admitted);
            ArtifactsHeld(step.sys) && CompletedRegistered(step.sys) && HandlerOk(step.sys, r.(at := step.at))
  {
  }

  /** A call leaves everything grounded and the handler fit for its next point. */
  lemma CallGrounded(sys: System, r: Handler, fault: Fault, assembled: Blob, admitted: bool)
    requires ArtifactsHeld(sys) && CompletedRegistered(sys) && HandlerOk(sys, r)
    ensures var step := Called(sys, r, fault, assembled, admitted);
            ArtifactsHeld(step.sys) && CompletedRegistered(step.sys) && HandlerOk(step.sys, r.(at := step.at))
  {
    if Staging(r.at) {
      StagingCallGrounded(sys, r, fault, assembled);
    } else if r.at == Register || r.at == CloseRow {
      CommitCallGrounded(sys, r, fault, admitted);
    } else {
      RawCallGrounded(sys, r, fault);
    }
  }

  lemma ProceededGrounded(sys: System, h: Id, fault: Fault, assembled: Blob, admitted: bool)
    requires Grounded(sys) && h in sys.handlers
    ensures Grounded(Proceeded(sys, h, fault, assembled, admitted))
  {
    var r := sys.handlers[h];
    assert HandlerOk(sys, r);
    CallGrounded(sys, r, fault, assembled, admitted);
    CallExtends(sys, r, fault, assembled, admitted);
    var step := Called(sys, r, fault, assembled, admitted);
    forall x | x in sys.handlers ensures HandlerOk(step.sys, sys.handlers[x]) {
      HandlerStaysOk(sys, step.sys, sys.handlers[x]);
    }
  }

  /** Everything but a handler's call. */
  lemma OtherEventGrounded(sys: System, event: Event)
    requires Grounded(sys) && !event.Proceed?
    ensures Grounded(Next(sys, event))
  {
    var after := Next(sys, event);
    NextKeepsRaw(sys, event);
    OtherEventExtends(sys, event);
    forall x | x in sys.handlers ensures HandlerOk(after, sys.handlers[x]) {
      HandlerStaysOk(sys, after, sys.handlers[x]);
    }
    forall k | k in sys.artifacts ensures Holds(after.raw, after.doomed, k, sys.artifacts[k].blob) {
      HeldStays(sys, after, k, sys.artifacts[k].blob);
    }
  }

  lemma OtherEventUploads(sys: System, event: Event)
    requires CompletedRegistered(sys) && !event.Proceed?
    ensures UploadsKept(sys.uploads, Next(sys, event).uploads) && CompletedRegistered(Next(sys, event))
  {
  }

  lemma OtherEventExtends(sys: System, event: Event)
    requires Grounded(sys) && !event.Proceed?
    ensures Extends(sys, Next(sys, event)) && CompletedRegistered(Next(sys, event)) && Next(sys, event).artifacts == sys.artifacts
  {
    NextKeepsRaw(sys, event);
    OtherEventUploads(sys, event);
  }

  lemma NextGrounded(sys: System, event: Event)
    requires Grounded(sys)
    ensures Grounded(Next(sys, event))
  {
    if !event.Proceed? {
      OtherEventGrounded(sys, event);
    } else if event.handler in sys.handlers {
      ProceededGrounded(sys, event.handler, event.fault, event.assembled, event.admitted);
    }
  }

  /** In every reachable state a registered artifact's key holds bytes of the registered size and digest until a purge
      of it is leased, and a completed upload's key is registered. */
  lemma {:induction false} RunGrounded(events: seq<Event>)
    ensures Grounded(Run(EMPTY, events))
  {
    if events != [] {
      RunGrounded(events[..|events| - 1]);
      NextGrounded(Run(EMPTY, events[..|events| - 1]), events[|events| - 1]);
    }
  }

  lemma RegisteredBytes(events: seq<Event>, key: Key)
    requires var sys := Run(EMPTY, events); key in sys.artifacts && key !in sys.doomed
    ensures var sys := Run(EMPTY, events); key in sys.raw && sys.raw[key] == sys.artifacts[key].blob
  {
    RunGrounded(events);
  }

  // Retrying.

  /** A fault-free rest of a handler, call by call. */
  function Rest(sys: System, r: Handler, assembled: Blob, calls: nat): Step
    decreases calls
  {
    if calls == 0 || r.at == Finished then Step(sys, r.at)
    else
      var step := Called(sys, r, NoFault, assembled, true);
      Rest(step.sys, r.(at := step.at), assembled, calls - 1)
  }

  /** Where an interrupted completion can have left the objects: committed, staged, or not yet put together. */
  predicate Resumable(sys: System, r: Handler, assembled: Blob) {
    if r.key in sys.raw then sys.raw[r.key] == r.blob
    else if r.stage in sys.staging then sys.staging[r.stage] == r.blob
    else assembled == r.blob
  }

  /** The row is closed as completed, and the artifact is registered over the declared bytes. */
  predicate Committed(sys: System, r: Handler) {
    && r.upload.Some? && r.upload.value in sys.uploads && sys.uploads[r.upload.value].state == Completed
    && r.key in sys.artifacts && sys.artifacts[r.key] == Artifact(r.blob, r.mediaType)
    && r.key in sys.raw && sys.raw[r.key] == r.blob
  }

  /** The row is still open and no other artifact occupies the key. */
  predicate Open(sys: System, r: Handler) {
    && r.upload.Some? && r.upload.value in sys.uploads && sys.uploads[r.upload.value].state == Active
    && (r.key in sys.artifacts ==> sys.artifacts[r.key] == Artifact(r.blob, r.mediaType))
  }

  lemma RestUnrolls(sys: System, r: Handler, assembled: Blob, calls: nat)
    requires calls > 0 && r.at != Finished
    ensures var step := Called(sys, r, NoFault, assembled, true);
            Rest(sys, r, assembled, calls) == Rest(step.sys, r.(at := step.at), assembled, calls - 1)
  {
  }

  lemma RegistrationCommits(sys: System, r: Handler, assembled: Blob, calls: nat)
    requires r.at == Register && Open(sys, r) && r.key in sys.raw && sys.raw[r.key] == r.blob && 2 <= calls
    ensures Rest(sys, r, assembled, calls).at == Finished && Committed(Rest(sys, r, assembled, calls).sys, r)
  {
    var s1 := Called(sys, r, NoFault, assembled, true);
    RestUnrolls(sys, r, assembled, calls);
    RestUnrolls(s1.sys, r.(at := s1.at), assembled, calls - 1);
  }

  lemma CleaningCommits(sys: System, r: Handler, assembled: Blob, calls: nat)
    requires r.at == CleanStage && Open(sys, r) && r.key in sys.raw && sys.raw[r.key] == r.blob && 3 <= calls
    ensures Rest(sys, r, assembled, calls).at == Finished && Committed(Rest(sys, r, assembled, calls).sys, r)
  {
    RestUnrolls(sys, r, assembled, calls);
    RegistrationCommits(Called(sys, r, NoFault, assembled, true).sys, r.(at := Register), assembled, calls - 1);
  }

  lemma TailCommits(sys: System, r: Handler, assembled: Blob, calls: nat)
    requires r.at == FinalStat && Open(sys, r) && r.key in sys.raw && sys.raw[r.key] == r.blob && 4 <= calls
    ensures Rest(sys, r, assembled, calls).at == Finished && Committed(Rest(sys, r, assembled, calls).sys, r)
  {
    RestUnrolls(sys, r, assembled, calls);
    CleaningCommits(sys, r.(at := CleanStage), assembled, calls - 1);
  }

  lemma PromotionCommits(sys: System, r: Handler, assembled: Blob, calls: nat)
    requires r.at == Promote && Open(sys, r) && r.key !in sys.raw && r.stage in sys.staging && sys.staging[r.stage] == r.blob
    requires 5 <= calls
    ensures Rest(sys, r, assembled, calls).at == Finished && Committed(Rest(sys, r, assembled, calls).sys, r)
  {
    var s1 := Called(sys, r, NoFault, assembled, true);
    RestUnrolls(sys, r, assembled, calls);
    TailCommits(s1.sys, r.(at := s1.at), assembled, calls - 1);
  }

  /** A handler that found other bytes throws them away and gives the row up. */
  lemma DiscardAborts(sys: System, r: Handler, assembled: Blob, calls: nat)
    requires r.at == Discard && Open(sys, r) && 2 <= calls
    ensures var end := Rest(sys, r, assembled, calls);
            && end.at == Finished && end.sys.raw == sys.raw && end.sys.artifacts == sys.artifacts
            && r.upload.value in end.sys.uploads && end.sys.uploads[r.upload.value].state == Aborted
  {
    var s1 := Called(sys, r, NoFault, assembled, true);
    RestUnrolls(sys, r, assembled, calls);
    RestUnrolls(s1.sys, r.(at := s1.at), assembled, calls - 1);
  }

  /** A completion begun again after any interruption commits exactly when the bytes it finds first are the declared
      ones; otherwise it registers nothing and leaves raw storage alone. */
  lemma RetryCompletes(sys: System, r: Handler, assembled: Blob)
    requires r.at == StatRaw && Open(sys, r)
    ensures var end := Rest(sys, r, assembled, 9);
            && end.at == Finished
            && (Resumable(sys, r, assembled) ==> Committed(end.sys, r))
            && (!Resumable(sys, r, assembled) ==> !Committed(end.sys, r) && end.sys.raw == sys.raw && end.sys.artifacts == sys.artifacts)
  {
    var s1 := Called(sys, r, NoFault, assembled, true);
    RestUnrolls(sys, r, assembled, 9);
    if r.key in sys.raw {
      if sys.raw[r.key] == r.blob {
        TailCommits(s1.sys, r.(at := s1.at), assembled, 8);
      }
    } else {
      StagedRetry(sys, r.(at := StatStage), assembled);
    }
  }

  lemma StagedRetry(sys: System, r: Handler, assembled: Blob)
    requires r.at == StatStage && Open(sys, r) && r.key !in sys.raw
    ensures var end := Rest(sys, r, assembled, 8);
            && end.at == Finished
            && (Resumable(sys, r, assembled) ==> Committed(end.sys, r))
            && (!Resumable(sys, r, assembled) ==> !Committed(end.sys, r) && end.sys.raw == sys.raw && end.sys.artifacts == sys.artifacts)
  {
    var s2 := Called(sys, r, NoFault, assembled, true);
    RestUnrolls(sys, r, assembled, 8);
    if r.stage in sys.staging {
      if sys.staging[r.stage] == r.blob {
        PromotionCommits(sys, r.(at := Promote), assembled, 7);
      } else {
        DiscardAborts(sys, r.(at := Discard), assembled, 7);
      }
    } else {
      var s3 := Called(s2.sys, r.(at := s2.at), NoFault, assembled, true);
      RestUnrolls(s2.sys, r.(at := s2.at), assembled, 7);
      RestUnrolls(s3.sys, r.(at := s3.at), assembled, 6);
      if assembled == r.blob {
        PromotionCommits(s3.sys, r.(at := Promote), assembled, 5);
      } else {
        DiscardAborts(s3.sys, r.(at := Discard), assembled, 5);
      }
    }
  }
}
