// One file downloaded by one client, retried over any number of sessions: the
// server handler, the client, its disk, and the two frame queues.

module DownloadSystem {
  import opened Protocol
  import opened Transfer

  // ----- the server: handle_download -----

  datatype Server =
    | Idle
    | Closed
    | Locating(offset: nat)
    | Offering(offset: nat)
    | AwaitInfo(offset: nat)
    | Sending(offset: nat, sent: nat)
    | AwaitFinal
    | Replying(m: Msg)

  // The file at `file` does not change while it is downloaded.
  function Locate(file: Option<Bytes>, offset: nat, o: Outcome): Server {
    if file.None? then Replying(Error(FILE_DOWNLOAD, FILE_NOT_FOUND))
    else if o.Fault? then Replying(Error(FILE_DOWNLOAD, OsErrorCode(o.e)))
    else if offset > |file.value| then Replying(Error(FILE_DOWNLOAD, INVALID_PAYLOAD))
    else Offering(offset)
  }

  // _validate_ack: None when the frame is the expected acknowledgement.
  function ValidateAck(m: Msg, op: Opcode, next: nat): Option<ErrorCode> {
    if m.Error? then Some(m.code)
    else if !m.Ack? || m.op != op then Some(INVALID_STATE)
    else if m.next != next then Some(OFFSET_MISMATCH)
    else None
  }

  function Judge(m: Msg, op: Opcode, next: nat, good: Server): Server {
    var verdict := ValidateAck(m, op, next);
    if verdict.None? then good
    else if m.Error? then Idle
    else Replying(Error(op, verdict.value))
  }

  function ServerTakes(env: Env, file: Option<Bytes>, p: Server, m: Msg): Server {
    match p
    case Idle => if m.Download? then Locating(m.offset) else Replying(Unhandled(env, m))
    case AwaitInfo(offset) => Judge(m, FILE_INFO, offset, Sending(offset, offset))
    case AwaitFinal => Judge(m, FILE_CHECKSUM, if file.Some? then |file.value| else 0, Idle)
    case _ => p
  }

  predicate Listening(p: Server) {
    p.Idle? || p.AwaitInfo? || p.AwaitFinal?
  }

  function Outgoing(env: Env, file: Bytes, p: Server): Option<Msg> {
    match p
    case Offering(offset) => Some(Info(|file|, offset))
    case Sending(offset, sent) =>
      if sent < |file| then Some(Chunk(sent, file[sent..Min(sent + env.chunk, |file|)]))
      else Some(Checksum(|file|, env.hash(file)))
    case Replying(m) => Some(m)
    case _ => None
  }

  function AfterSend(env: Env, file: Bytes, p: Server): Server {
    match p
    case Offering(offset) => AwaitInfo(offset)
    case Sending(offset, sent) =>
      if sent < |file| then Sending(offset, Min(sent + env.chunk, |file|)) else AwaitFinal
    case Replying(_) => Idle
    case _ => p
  }

  // ----- the client: download_file -----

  // The client's files: destination, .part, and what Python still holds in the
  // buffer of the open .part file. `shared` is as in module Files.
  datatype Local = Local(final: Option<Bytes>, part: Option<Bytes>, buffer: Bytes, shared: bool)

  // `received` and the bytes hashed, against the announced size.
  datatype Count = Count(total: nat, received: nat, hashed: Bytes)

  datatype CallResult = Fresh | Returned(size: nat, digest: Bytes) | Raised(code: ErrorCode)

  datatype Client =
    | Ready(last: CallResult)
    | Severed                                     // session closed, or process dead
    | Asking(resume: nat)
    | Preparing(resume: nat, total: nat, start: nat)
    | Opening(c: Count, start: nat)
    | Accepting(c: Count, start: nat)
    | Receiving(c: Count)
    | Syncing(c: Count)
    | Linking(c: Count)
    | Unlinking(c: Count)
    | Confirming(c: Count)
    | Reporting(m: Msg, fatal: bool)              // _raise_local_failure
    | Cleaning(code: ErrorCode)                   // except ProtocolError

  function Report(op: Opcode, e: OsError, fatal: bool): Client {
    Reporting(Error(op, OsErrorCode(e)), fatal)
  }

  // The client holds the .part file open.
  predicate Holding(c: Client) {
    c.Accepting? || c.Receiving? || c.Syncing?
  }

  // Closing the .part file writes its buffer out.
  function Close(d: Local): Local {
    if d.part.Some? && d.buffer != [] then Append(d, d.buffer).(buffer := []) else d.(buffer := [])
  }

  function Append(d: Local, data: Bytes): Local
    requires d.part.Some?
  {
    var content := d.part.value + data;
    d.(part := Some(content), final := if d.shared then Some(content) else d.final)
  }

  function RemovePart(d: Local): Local {
    d.(part := None, shared := false)
  }

  // How much of .part the client hashes before it appends to it.
  function Hashed(d: Local, start: nat): Bytes {
    if d.part.None? then [] else d.part.value[..Min(start, |d.part.value|)]
  }

  datatype Effect = Effect(disk: Local, next: Client)

  function ClientIo(d: Local, c: Client, o: Outcome): Effect {
    match c
    case Preparing(resume, total, start) =>
      var e := if start != resume && start == 0 then RemovePart(d) else d;
      if o.Fault? then Effect(e, Report(FILE_INFO, o.e, false))
      else Effect(e, Opening(Count(total, start, if start > 0 then Hashed(e, start) else []), start))
    case Opening(n, start) =>
      if o.Fault? then Effect(d, Report(FILE_INFO, o.e, false))
      else Effect(if d.part.None? then d.(part := Some([]), buffer := [], shared := false) else d, Accepting(n, start))
    case Syncing(n) =>
      if o.Fault? then Effect(Close(d), Report(FILE_CHECKSUM, o.e, false)) else Effect(Close(d), Linking(n))
    case Linking(n) =>
      if o.Fault? then Effect(d, Report(FILE_CHECKSUM, o.e, false))
      else if d.final.Some? then Effect(d, Report(FILE_CHECKSUM, OtherOsError, false))
      else Effect(d.(final := d.part, shared := true), Unlinking(n))
    case Unlinking(n) =>
      if o.Fault? then Effect(d, Report(FILE_CHECKSUM, o.e, false)) else Effect(RemovePart(d), Confirming(n))
    case Cleaning(code) =>
      Effect(if o.Fault? then d else RemovePart(d), Ready(Raised(if o.Fault? then FILE_IO_ERROR else code)))
    case _ => Effect(d, c)
  }

  // A frame for the receive loop; `writes` says how output.write goes.
  function TakeFrame(env: Env, d: Local, n: Count, m: Msg, writes: Outcome): Effect {
    match m
    case Error(_, code) => Effect(Close(d), Cleaning(code))
    case Chunk(offset, data) =>
      if !(0 < |data| <= env.chunk) then Effect(Close(d), Cleaning(INVALID_PAYLOAD))
      else if offset != n.received then Effect(Close(d), Reporting(Error(FILE_CHUNK, OFFSET_MISMATCH), false))
      else if n.received + |data| > n.total then Effect(Close(d), Reporting(Error(FILE_CHUNK, SIZE_MISMATCH), false))
      else if writes.Fault? then Effect(Close(d), Report(FILE_CHUNK, writes.e, true))
      else Effect(d.(buffer := d.buffer + data), Receiving(Count(n.total, n.received + |data|, n.hashed + data)))
    case Checksum(size, digest) =>
      if size != n.total || n.received != n.total then
        Effect(Close(d), Reporting(Error(FILE_CHECKSUM, SIZE_MISMATCH), false))
      else if digest != env.hash(n.hashed) then
        Effect(Close(d), Reporting(Error(FILE_CHECKSUM, CHECKSUM_MISMATCH), false))
      else Effect(d, Syncing(n))
    case _ => Effect(Close(d), Reporting(Error(Kind(m), INVALID_STATE), false))
  }

  function ClientTakes(env: Env, d: Local, c: Client, m: Msg, writes: Outcome): Effect {
    match c
    case Asking(resume) =>
      if m.Error? then Effect(d, Cleaning(m.code))
      else if m.Info? then Effect(d, Preparing(resume, m.total, m.start))
      else Effect(d, Cleaning(INVALID_PAYLOAD))
    case Receiving(n) => TakeFrame(env, d, n, m, writes)
    case _ => Effect(d, c)
  }

  function ClientSays(c: Client): Option<Msg> {
    match c
    case Accepting(_, start) => Some(Ack(FILE_INFO, start))
    case Confirming(n) => Some(Ack(FILE_CHECKSUM, n.received))
    case Reporting(m, _) => Some(m)
    case _ => None
  }

  function AfterSaying(env: Env, c: Client): Client {
    match c
    case Accepting(n, _) => Receiving(n)
    case Confirming(n) => Ready(Returned(n.received, env.hash(n.hashed)))
    case Reporting(m, fatal) => if fatal then Severed else Cleaning(if m.Error? then m.code else FILE_IO_ERROR)
    case _ => c
  }

  // ----- together -----

  datatype System = System(
    file: Option<Bytes>,
    server: Server,
    client: Client,
    disk: Local,
    up: seq<Msg>,
    down: seq<Msg>,
    connected: bool)

  datatype Label =
    | Begin(stat: bool)              // download_file called on an open session
    | Reconnect(stat: bool)          // and on a new one, the old one released
    | ClientOp(o: Outcome)
    | ClientReceive(writes: Outcome)
    | ClientSend
    | ClientAbort                    // connection error or interrupt in the client
    | ClientKill                     // the client process dies
    | Flush(n: nat)                  // the buffer reaches the disk early
    | ServerIo(o: Outcome)
    | ServerReceive
    | ServerSend(ok: bool)
    | Loss(keepUp: nat, keepDown: nat)
    | ServerKill

  function Take<T>(q: seq<T>, n: nat): seq<T> {
    if n <= |q| then q[..n] else q
  }

  function Deliver(s: System, m: Msg): seq<Msg> {
    if s.connected then s.up + [m] else s.up
  }

  // The connection ends when either end closes.
  function Become(s: System, e: Effect): System {
    s.(disk := e.disk, client := e.next, connected := s.connected && !e.next.Severed?)
  }

  // When the size of .part cannot be read, the code asks for offset 0.
  function Start(d: Local, stat: bool): Client {
    if d.final.Some? then Ready(Raised(FILE_EXISTS))
    else Asking(if d.part.Some? && stat then |d.part.value| else 0)
  }

  function Step(env: Env, s: System, l: Label): System {
    match l
    case Begin(stat) =>
      if !s.client.Ready? then s
      else
        var c := Start(s.disk, stat);
        s.(client := c, up := if c.Asking? then Deliver(s, Download(c.resume)) else s.up)
    case Reconnect(stat) =>
      if !s.server.Closed? || !(s.client.Severed? || s.client.Ready?) then s
      else
        var c := Start(s.disk, stat);
        s.(server := Idle, client := c, connected := true, down := [],
           up := if c.Asking? then [Download(c.resume)] else [])
    case ClientOp(o) => Become(s, ClientIo(s.disk, s.client, o))
    case ClientReceive(writes) =>
      if !(s.client.Asking? || s.client.Receiving?) then s
      else if s.down == [] then
        if s.connected then s else s.(client := Severed, disk := Close(s.disk))
      else Become(s.(down := s.down[1..]), ClientTakes(env, s.disk, s.client, s.down[0], writes))
    case ClientSend =>
      if ClientSays(s.client).None? then s
      else Become(s.(up := Deliver(s, ClientSays(s.client).value)), Effect(s.disk, AfterSaying(env, s.client)))
    case ClientAbort => s.(client := Severed, connected := false, disk := Close(s.disk))
    case ClientKill => s.(client := Severed, connected := false, disk := s.disk.(buffer := []))
    case Flush(n) =>
      if Holding(s.client) && s.disk.part.Some? && n <= |s.disk.buffer| then
        s.(disk := Append(s.disk, s.disk.buffer[..n]).(buffer := s.disk.buffer[n..]))
      else s
    case ServerIo(o) =>
      if s.server.Locating? then s.(server := Locate(s.file, s.server.offset, o)) else s
    case ServerReceive =>
      if !Listening(s.server) then s
      else if s.up == [] then
        if s.connected then s else s.(server := Closed)
      else s.(up := s.up[1..], server := ServerTakes(env, s.file, s.server, s.up[0]))
    case ServerSend(ok) =>
      var file := if s.file.Some? then s.file.value else [];
      if Outgoing(env, file, s.server).None? || (s.connected && !ok) then s
      else
        s.(server := if ok then AfterSend(env, file, s.server) else Closed,
           down := if s.connected then s.down + [Outgoing(env, file, s.server).value] else s.down)
    case Loss(keepUp, keepDown) =>
      s.(connected := false, up := Take(s.up, keepUp), down := Take(s.down, keepDown))
    case ServerKill => s.(server := Closed, connected := false, up := [])
  }

  predicate Init(s: System) {
    && s.disk.final.None? && !s.disk.shared && s.disk.buffer == []
    && s.server.Closed? && s.client.Severed? && !s.connected && s.up == [] && s.down == []
  }

  function Run(env: Env, s: System, schedule: seq<Label>): System {
    if schedule == [] then s
    else Step(env, Run(env, s, schedule[..|schedule| - 1]), schedule[|schedule| - 1])
  }
}
