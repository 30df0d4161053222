// One upload of one (user, filename) pair, cut into the steps between which a
// process can be killed: every file-system call, every frame sent and every
// frame received. The server runs under the filename lock.

module UploadSteps {
  import opened Protocol
  import opened Files
  import opened Transfer

  // The locals of handle_upload: the request, `received`, and the bytes fed to
  // the running digest.
  datatype Job = Job(total: nat, hint: nat, received: nat, fed: Bytes)

  datatype Save = Make | Dump | Swap(attempt: nat)

  // Where a pair of _remove_quietly calls leads.
  datatype Then = ToDecide(j: Job) | ToOpen(j: Job) | ToReply(m: Msg) | ToRest(closing: bool)

  datatype Phase =
    | Idle                                              // dispatcher waits for a frame
    | Closed                                            // the session has ended
    | Starting(j: Job)                                  // path, mkdir, exists, expiry
    | Deciding(j: Job)                                  // resume decision
    | Purging(metaOnly: bool, then_: Then)              // remove .part, then .part.meta
    | Opening(j: Job)
    | Truncating(j: Job)
    | Saving(j: Job, data: Bytes, save: Save)           // save_part_metadata
    | Acking(j: Job)
    | Receiving(j: Job)
    | Writing(j: Job, data: Bytes, done: nat)
    | Syncing(j: Job)
    | Linking(j: Job)
    | Unlinking(j: Job)
    | RollingBack(j: Job, e: OsError)
    | Dropping(j: Job)
    | Confirming(j: Job)
    | Replying(m: Msg, purge: bool)

  datatype Effect = Effect(op: DiskOp, next: Phase)

  const REPLACE_ATTEMPTS := 6

  function Refuse(op: Opcode, code: ErrorCode): Phase {
    Replying(Error(op, code), false)
  }

  function Discard(op: Opcode, code: ErrorCode): Phase {
    Replying(Error(op, code), true)
  }

  // The frame the server is about to send.
  function Outgoing(p: Phase): Option<Msg> {
    match p
    case Acking(j) => Some(Ack(FILE_UPLOAD, j.received))
    case Confirming(j) => Some(Ack(FILE_CHECKSUM, j.received))
    case Replying(m, _) => Some(m)
    case _ => None
  }

  predicate Listening(p: Phase) {
    p.Idle? || p.Receiving?
  }

  // Lines 114-194 of handle_upload: compare .part, .part.meta and the request.
  function Decide(env: Env, d: Disk, j: Job, o: Outcome): Phase {
    if d.part.Some? != d.meta.Some? then Purging(false, ToOpen(j))
    else if d.part.None? then Opening(j)
    else if o.Unreadable? || d.meta.value.Torn? then Purging(false, ToOpen(j))
    else
      var m := d.meta.value.meta;
      if m.user != env.user || m.name != env.name || m.total != j.total || m.uploaded > j.total then
        if j.hint != 0 then Refuse(FILE_UPLOAD, RESUME_METADATA_MISMATCH)
        else Purging(false, ToOpen(j))
      else if o.Fault? then Refuse(FILE_UPLOAD, OsErrorCode(o.e))
      else if |d.part.value| > j.total || m.uploaded > |d.part.value| then
        Purging(false, ToReply(Error(FILE_UPLOAD, RESUME_METADATA_MISMATCH)))
      else Opening(j.(received := m.uploaded, fed := d.part.value[..m.uploaded]))
  }

  // One frame taken by the receive loop of handle_upload.
  function Receive(env: Env, j: Job, m: Msg): Phase {
    match m
    case Chunk(offset, data) =>
      if !(0 < |data| <= env.chunk) then Discard(FILE_CHUNK, INVALID_PAYLOAD)
      else if offset != j.received then Refuse(FILE_CHUNK, OFFSET_MISMATCH)
      else if j.received + |data| > j.total then Discard(FILE_CHUNK, SIZE_MISMATCH)
      else Writing(j, data, 0)
    case Checksum(size, digest) =>
      if j.received != j.total || size != j.total then Discard(FILE_CHECKSUM, SIZE_MISMATCH)
      else if digest != env.hash(j.fed) then Discard(FILE_CHECKSUM, CHECKSUM_MISMATCH)
      else Syncing(j)
    case _ => Discard(Kind(m), INVALID_STATE)
  }

  function Purge(env: Env, metaOnly: bool, then_: Then, o: Outcome): Effect {
    var kept := o.Fault? && env.quietFails;
    if !metaOnly then Effect(if kept then Nop else UnlinkPart, Purging(true, then_))
    else
      Effect(if kept then Nop else UnlinkMeta,
             match then_
             case ToDecide(j) => Deciding(j)
             case ToOpen(j) => Opening(j)
             case ToReply(m) => Replying(m, false)
             case ToRest(closing) => if closing then Closed else Idle)
  }

  // The three parts of save_part_metadata: mkstemp, json.dump, os.replace with
  // retries. A failure that escapes closes the session (it is no ProtocolError).
  function SaveStep(env: Env, j: Job, data: Bytes, save: Save, o: Outcome): Effect {
    match save
    case Make =>
      if o.Fault? then Effect(Nop, Closed) else Effect(MakeTemp, Saving(j, data, Dump))
    case Dump =>
      if o.Fault? then Effect(UnlinkTemp, Closed)
      else Effect(DumpTemp(Meta(env.user, env.name, j.total, j.received)), Saving(j, data, Swap(0)))
    case Swap(attempt) =>
      if !o.Fault? then Effect(SwapTemp, if data == [] then Acking(j) else Receiving(j))
      else if attempt + 1 < REPLACE_ATTEMPTS then Effect(Nop, Saving(j, data, Swap(attempt + 1)))
      else Effect(UnlinkTemp, Closed)
  }

  // A step that is a file operation.
  function Local(env: Env, d: Disk, p: Phase, o: Outcome): Effect {
    match p
    case Starting(j) =>
      Effect(Nop,
             if o.Fault? then Refuse(FILE_UPLOAD, OsErrorCode(o.e))
             else if d.target.Some? then Refuse(FILE_UPLOAD, FILE_EXISTS)
             else if o.Expired? then Purging(false, ToDecide(j))
             else Deciding(j))
    case Deciding(j) => Effect(Nop, Decide(env, d, j, o))
    case Purging(metaOnly, then_) => Purge(env, metaOnly, then_, o)
    case Opening(j) =>
      if o.Fault? then Effect(Nop, Refuse(FILE_UPLOAD, OsErrorCode(o.e)))
      else Effect(if d.part.Some? then Nop else CreatePart, Truncating(j))
    case Truncating(j) =>
      if o.Fault? then Effect(Nop, Closed)
      else
        var content := if d.part.Some? then d.part.value else [];
        Effect(WritePart(if j.received <= |content| then content[..j.received] else content),
               Saving(j, [], Make))
    case Saving(j, data, save) => SaveStep(env, j, data, save, o)
    case Writing(j, data, done) =>
      if o.Fault? then Effect(Nop, Refuse(FILE_CHUNK, OsErrorCode(o.e)))
      else if o.Short? && 0 < o.n && done + o.n < |data| then
        Effect(WritePart(j.fed + data[..done + o.n]), Writing(j, data, done + o.n))
      else
        Effect(WritePart(j.fed + data),
               Saving(j.(received := j.received + |data|, fed := j.fed + data), data, Make))
    case Syncing(j) =>
      Effect(Nop, if o.Fault? then Refuse(FILE_CHECKSUM, OsErrorCode(o.e)) else Linking(j))
    case Linking(j) =>
      if o.Fault? then Effect(Nop, Refuse(FILE_CHECKSUM, OsErrorCode(o.e)))
      else if d.target.Some? then Effect(Nop, Discard(FILE_CHECKSUM, FILE_EXISTS))
      else Effect(LinkPart, Unlinking(j))
    case Unlinking(j) =>
      if o.Fault? then Effect(Nop, RollingBack(j, o.e)) else Effect(UnlinkPart, Dropping(j))
    case RollingBack(j, e) =>
      Effect(if o.Fault? && env.quietFails then Nop else UnlinkTarget,
             Refuse(FILE_CHECKSUM, OsErrorCode(e)))
    case Dropping(j) =>
      Effect(if o.Fault? && env.quietFails then Nop else UnlinkMeta, Confirming(j))
    case _ => Effect(Nop, p)
  }

  // The server's next step. An action the phase does not expect changes nothing.
  function Next(env: Env, d: Disk, p: Phase, a: Action): Effect {
    match a
    case Io(o) => Local(env, d, p, o)
    case Got(m) =>
      Effect(Nop,
             if p.Idle? then
               if m.Upload? then Starting(Job(m.total, m.hint, 0, [])) else Replying(Unhandled(env, m), false)
             else if p.Receiving? then Receive(env, p.j, m)
             else p)
    case Garbled(code) =>
      Effect(Nop, if p.Receiving? then Refuse(FILE_UPLOAD, code) else p)
    case Gone => Effect(Nop, if Listening(p) then Closed else p)
    case Sent =>
      Effect(Nop,
             match p
             case Acking(j) => Receiving(j)
             case Confirming(j) => Purging(false, ToRest(false))
             case Replying(m, purge) => if purge then Purging(false, ToRest(false)) else Idle
             case _ => p)
    case Broken =>
      Effect(Nop,
             match p
             case Acking(j) => Closed
             case Confirming(j) => Purging(false, ToRest(true))
             case Replying(m, purge) => if purge then Purging(false, ToRest(true)) else Closed
             case _ => p)
  }
}
