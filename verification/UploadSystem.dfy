// Client, server, the two frame queues between them, and the server's disk.
// A schedule lists every choice the environment makes; running it is a function.

module UploadSystem {
  import opened Protocol
  import opened Files
  import opened Transfer
  import opened Tiling
  import opened UploadSteps

  // How upload_file ended while its session stayed open.
  datatype CallResult = Fresh | Returned(size: nat, digest: Bytes) | Raised(code: ErrorCode)

  datatype Client =
    | Ready(last: CallResult)                     // session open, no call under way
    | Severed                                   // session closed (SessionError)
    | AwaitOffset
    | Streaming(sent: nat, fed: Bytes)
    | AwaitFinal(sent: nat, digest: Bytes)

  // `source` is the file of the current (or last) upload_file call. `accepted`
  // is history: the data of the chunks whose metadata the server has saved,
  // since its metadata last said 0.
  datatype System = System(
    disk: Disk,
    server: Phase,
    client: Client,
    source: Bytes,
    up: seq<Msg>,
    down: seq<Msg>,
    connected: bool,
    accepted: Bytes)

  datatype Label =
    | Begin(source: Bytes)         // upload_file called again on an open session
    | Reconnect(source: Bytes)     // new session; needs the old one released
    | ClientSend
    | ClientReceive
    | ClientAbort                  // read failure, interrupt, or failing send
    | ServerIo(o: Outcome)
    | ServerReceive
    | ServerSend(ok: bool)
    | Loss(keepUp: nat, keepDown: nat)
    | Kill                         // the server process dies
    | Sweep(op: DiskOp)            // startup cleanup of an expired pair

  function ClientTakes(env: Env, s: System, m: Msg): Client {
    match s.client
    case AwaitOffset =>
      if m.Error? && m.op == FILE_UPLOAD then Ready(Raised(m.code))
      else if m.Ack? && m.op == FILE_UPLOAD && m.next <= |s.source| then
        Streaming(m.next, s.source[..m.next])
      else Severed
    case AwaitFinal(sent, digest) =>
      if m.Error? && m.op == FILE_CHECKSUM then Ready(Raised(m.code))
      else if m.Ack? && m.op == FILE_CHECKSUM && m.next == sent then Ready(Returned(sent, digest))
      else Severed
    case _ => s.client
  }

  function Deliver(s: System, m: Msg): seq<Msg> {
    if s.connected then s.up + [m] else s.up
  }

  function Take<T>(q: seq<T>, n: nat): seq<T> {
    if n <= |q| then q[..n] else q
  }

  // Carry out a server effect; nothing happens if the file system would refuse it.
  function Perform(s: System, e: Effect): System {
    if !Allowed(s.disk, e.op) then s
    else s.(disk := Apply(s.disk, e.op),
            server := e.next,
            connected := s.connected && !e.next.Closed?,
            accepted := Accepted(s, e))
  }

  function Accepted(s: System, e: Effect): Bytes {
    if s.server.Saving? && e.op.SwapTemp? then
      if s.server.j.received == 0 then [] else s.accepted + s.server.data
    else s.accepted
  }

  function Step(env: Env, s: System, l: Label): System {
    match l
    case Begin(source) =>
      if s.client.Ready? then
        s.(client := AwaitOffset, source := source, up := Deliver(s, Upload(|source|, 0)))
      else s
    case Reconnect(source) =>
      if s.server.Closed? && (s.client.Severed? || s.client.Ready?) then
        s.(server := Idle, client := AwaitOffset, source := source,
           up := [Upload(|source|, 0)], down := [], connected := true)
      else s
    case ClientSend =>
      if s.client.Streaming? then
        var m := NextFrame(env, s.source, s.client.sent, s.client.fed);
        s.(up := Deliver(s, m),
           client := if m.Chunk? then Streaming(s.client.sent + |m.data|, s.client.fed + m.data)
                     else AwaitFinal(s.client.sent, env.hash(s.client.fed)))
      else s
    case ClientReceive =>
      if !(s.client.AwaitOffset? || s.client.AwaitFinal?) then s
      else if s.down == [] then
        if s.connected then s else s.(client := Severed)
      else
        var c := ClientTakes(env, s, s.down[0]);
        s.(client := c, down := s.down[1..], connected := s.connected && !c.Severed?)
    case ClientAbort => s.(client := Severed, connected := false)
    case ServerIo(o) => Perform(s, Next(env, s.disk, s.server, Io(o)))
    case ServerReceive =>
      if !Listening(s.server) then s
      else if s.up == [] then
        if s.connected then s else Perform(s, Next(env, s.disk, s.server, Gone))
      else Perform(s.(up := s.up[1..]), Next(env, s.disk, s.server, Got(s.up[0])))
    case ServerSend(ok) =>
      if Outgoing(s.server).None? || (s.connected && !ok) then s
      else
        var t := Perform(s, Next(env, s.disk, s.server, if ok then Sent else Broken));
        t.(down := if s.connected then s.down + [Outgoing(s.server).value] else s.down)
    case Loss(keepUp, keepDown) =>
      s.(connected := false, up := Take(s.up, keepUp), down := Take(s.down, keepDown))
    case Kill =>
      s.(server := Closed, connected := false, up := [])
    case Sweep(op) =>
      if s.server.Closed? && (op.UnlinkPart? || op.UnlinkMeta?) then
        s.(disk := Apply(s.disk, op))
      else s
  }

  // A server start: nothing under way, no partial pair, any published file.
  predicate Init(s: System) {
    && s.disk.part.None? && s.disk.meta.None? && !s.disk.shared
    && s.server.Closed? && s.client.Severed?
    && s.up == [] && s.down == [] && !s.connected && s.accepted == []
  }

  function Run(env: Env, s: System, schedule: seq<Label>): System {
    if schedule == [] then s
    else Step(env, Run(env, s, schedule[..|schedule| - 1]), schedule[|schedule| - 1])
  }
}
