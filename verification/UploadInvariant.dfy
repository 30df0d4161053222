// What holds in every state that any schedule of uploads can reach.

module UploadInvariant {
  import opened Protocol
  import opened Files
  import opened Transfer
  import opened Tiling
  import opened UploadSteps
  import opened UploadSystem

  // ----- the disk -----

  // The crash invariant for the partial pair. Removing a file can only fail
  // quietly, and then stale metadata may outlive its data file for a while.
  ghost predicate PairOk(env: Env, d: Disk, accepted: Bytes) {
    && (d.meta.Some? ==>
          && d.meta.value.Saved?
          && var m := d.meta.value.meta;
          && m.user == env.user && m.name == env.name
          && m.uploaded <= m.total && |accepted| == m.uploaded
          && (d.part.Some? ==>
                && |d.part.value| <= m.total
                && (m.uploaded <= |d.part.value| ==> accepted == d.part.value[..m.uploaded])
                && (!env.quietFails ==> m.uploaded <= |d.part.value|)))
    && (d.shared ==> d.part.Some? && d.target == d.part)
  }

  // The pair records exactly the bytes `fed`, of a file of `total` bytes.
  ghost predicate Recorded(env: Env, d: Disk, total: nat, fed: Bytes) {
    d.meta == Some(Saved(Meta(env.user, env.name, total, |fed|)))
  }

  ghost predicate Published(env: Env, d: Disk, source: Bytes) {
    d.target.Some? && Matches(env, d.target.value, source)
  }

  // ----- the server -----

  ghost predicate Fresh(j: Job, source: Bytes) {
    j == Job(|source|, 0, 0, [])
  }

  ghost predicate Counted(j: Job, source: Bytes) {
    j.total == |source| && j.received == |j.fed| <= j.total
  }

  // Where the receive loop stands: metadata, data file and digest agree.
  ghost predicate InStep(env: Env, d: Disk, j: Job, source: Bytes, accepted: Bytes) {
    && Counted(j, source)
    && d.target.None?
    && accepted == j.fed
    && Recorded(env, d, j.total, j.fed)
  }

  ghost predicate Resumed(env: Env, d: Disk, j: Job, source: Bytes, accepted: Bytes) {
    && Counted(j, source)
    && d.target.None?
    && if j.received > 0 then
         && Recorded(env, d, j.total, j.fed) && accepted == j.fed
         && d.part.Some? && j.fed <= d.part.value
       else !env.quietFails ==>
              (d.meta.Some? ==> d.part.Some? && d.meta.value.Saved? && d.meta.value.meta.uploaded == 0)
  }

  ghost predicate Linked(env: Env, d: Disk, j: Job, source: Bytes, accepted: Bytes) {
    && Counted(j, source)
    && d.target == Some(j.fed) && d.part == Some(j.fed) && d.shared
    && Recorded(env, d, j.total, j.fed) && accepted == j.fed
    && Matches(env, j.fed, source)
  }

  ghost predicate SavingOk(env: Env, d: Disk, j: Job, data: Bytes, save: Save, source: Bytes, accepted: Bytes) {
    && Counted(j, source) && d.target.None? && d.part == Some(j.fed)
    && (if data == [] then
          && (j.received > 0 ==> Recorded(env, d, j.total, j.fed) && accepted == j.fed)
        else
          && accepted + data == j.fed
          && Recorded(env, d, j.total, accepted))
    && (!save.Make? ==> d.temp.Some?)
    && (save.Swap? ==> d.temp == Some(Saved(Meta(env.user, env.name, j.total, j.received))))
  }

  ghost predicate PurgingOk(env: Env, d: Disk, metaOnly: bool, then_: Then, source: Bytes) {
    && (metaOnly && !env.quietFails ==> d.part.None?)
    && (match then_
        case ToDecide(j) => Fresh(j, source) && d.target.None?
        case ToOpen(j) => Fresh(j, source) && d.target.None?
        case ToReply(m) => m == Error(FILE_UPLOAD, RESUME_METADATA_MISMATCH) && env.quietFails
        case ToRest(closing) => true)
  }

  // Codes this server never sends to this client: the two ends always agree on
  // position and order, and on the pair unless an unlink failed.
  ghost predicate Expected(env: Env, code: ErrorCode) {
    && code != OFFSET_MISMATCH && code != SIZE_MISMATCH && code != INVALID_STATE
    && (code == RESUME_METADATA_MISMATCH ==> env.quietFails)
  }

  ghost predicate ServerOk(env: Env, d: Disk, p: Phase, source: Bytes, accepted: Bytes) {
    match p
    case Starting(j) => Fresh(j, source)
    case Deciding(j) => Fresh(j, source) && d.target.None?
    case Purging(metaOnly, then_) => PurgingOk(env, d, metaOnly, then_, source)
    case Opening(j) => Resumed(env, d, j, source, accepted)
    case Truncating(j) => Resumed(env, d, j, source, accepted) && d.part.Some?
    case Saving(j, data, save) => SavingOk(env, d, j, data, save, source, accepted)
    case Acking(j) => InStep(env, d, j, source, accepted) && d.part == Some(j.fed)
    case Receiving(j) => InStep(env, d, j, source, accepted) && d.part == Some(j.fed)
    case Writing(j, data, done) =>
      && InStep(env, d, j, source, accepted) && ChunkOk(env, data) && done <= |data|
      && j.received + |data| <= j.total
      && d.part == Some(j.fed + data[..done])
    case Syncing(j) => InStep(env, d, j, source, accepted) && d.part == Some(j.fed) && Matches(env, j.fed, source)
    case Linking(j) => InStep(env, d, j, source, accepted) && d.part == Some(j.fed) && Matches(env, j.fed, source)
    case Unlinking(j) => Linked(env, d, j, source, accepted)
    case RollingBack(j, e) => Linked(env, d, j, source, accepted)
    case Dropping(j) => Counted(j, source) && d.target == Some(j.fed) && Matches(env, j.fed, source)
    case Confirming(j) => Counted(j, source) && d.target == Some(j.fed) && Matches(env, j.fed, source)
    case Replying(m, purge) => m.Error? && Expected(env, m.code)
    case Idle => true
    case Closed => true
  }

  // ----- the queues -----

  // The position the server expects next, when it takes part in a transfer.
  ghost predicate Flowing(p: Phase) {
    p.Receiving? || p.Writing? || (p.Saving? && p.data != [])
  }

  ghost function Position(p: Phase): nat
    requires Flowing(p)
  {
    if p.Writing? then p.j.received + |p.data| else p.j.received
  }

  // Between requests, or after the reply that ends one: the server will send
  // nothing more of its own accord and returns to the dispatcher.
  predicate Resting(p: Phase) {
    p.Idle? || p.Closed? || (p.Purging? && p.then_.ToRest?)
  }

  ghost predicate UpOk(env: Env, p: Phase, up: seq<Msg>, source: Bytes) {
    match p
    case Idle => up == [Upload(|source|, 0)] || Stray(up)
    case Closed => true
    case Replying(m, purge) => Stray(up)
    case Purging(metaOnly, then_) =>
      if then_.ToRest? then up == [Upload(|source|, 0)] || Stray(up) else up == []
    case _ => if Flowing(p) then Tiles(env, up, Position(p), source) else up == []
  }

  // ----- client and server together -----

  ghost predicate Answered(s: System, m: Msg) {
    s.down == [m] && s.up == [] && Resting(s.server)
  }

  // An ERROR about a chunk is on its way; the client will close on it, and the
  // server answers what is left in the queue frame by frame.
  ghost predicate Doomed(s: System) {
    && Stray(s.up) && (Resting(s.server) || s.server.Replying?)
    && (|| (s.down != [] && s.down[0].Error? && s.down[0].op == FILE_CHUNK)
        || (s.down == [] && s.server.Replying? && s.server.m.Error? && s.server.m.op == FILE_CHUNK))
  }

  ghost predicate Negotiating(p: Phase) {
    || p.Starting? || p.Deciding? || p.Opening? || p.Truncating? || p.Acking?
    || (p.Saving? && p.data == [])
    || (p.Purging? && !p.then_.ToRest?)
    || (p.Replying? && p.m.Error? && p.m.op == FILE_UPLOAD)
  }

  ghost predicate Finishing(p: Phase) {
    || p.Syncing? || p.Linking? || p.Unlinking? || p.RollingBack? || p.Dropping? || p.Confirming?
    || (p.Replying? && p.m.Error? && p.m.op == FILE_CHECKSUM)
  }

  ghost predicate Together(env: Env, s: System) {
    match s.client
    case Ready(last) =>
      && s.up == [] && s.down == [] && Resting(s.server)
      && (last.Returned? ==> last.size == |s.source| && last.digest == env.hash(s.source)
                             && Published(env, s.disk, s.source))
    case Severed => !s.connected
    case AwaitOffset =>
      || (&& s.down == []
          && (s.connected ==>
                || (s.up == [Upload(|s.source|, 0)] && Resting(s.server))
                || (s.up == [] && Negotiating(s.server))))
      || (&& s.down != [] && s.down[0].Error? && s.down[0].op == FILE_UPLOAD && Answered(s, s.down[0]))
      || (&& s.down != [] && s.down[0].Ack? && s.down[0].op == FILE_UPLOAD && s.up == [] && |s.down| == 1
          && s.down[0].next <= |s.source|
          && (s.connected ==> s.server.Receiving? && s.server.j.received == s.down[0].next))
    case Streaming(sent, fed) =>
      && sent <= |s.source| && fed == s.source[..sent]
      && (|| Doomed(s)
          || (&& s.down == []
              && (s.connected ==> && Flowing(s.server) && EndOf(s.up, Position(s.server)) == sent
                                  && (forall m :: m in s.up ==> m.Chunk?))))
    case AwaitFinal(sent, digest) =>
      && sent == |s.source| && digest == env.hash(s.source)
      && (|| Doomed(s)
          || (&& s.down == []
              && (s.connected ==>
                    || (Flowing(s.server) && s.up != [] && s.up[|s.up| - 1].Checksum?)
                    || (s.up == [] && Finishing(s.server))))
          || (&& s.down != [] && s.down[0].Error? && s.down[0].op == FILE_CHECKSUM && Answered(s, s.down[0]))
          || (&& Answered(s, Ack(FILE_CHECKSUM, |s.source|))
              && Published(env, s.disk, s.source)))
  }

  ghost predicate Inv(env: Env, s: System) {
    && PairOk(env, s.disk, s.accepted)
    && ServerOk(env, s.disk, s.server, s.source, s.accepted)
    && UpOk(env, s.server, s.up, s.source)
    && Together(env, s)
    && (s.server.Closed? ==> !s.connected)
  }
}
