// The files of one (user, filename) pair, and the file-system calls the
// transfer code makes on them.

module Files {
  import opened Protocol

  // What a .part.meta file records. The time stamp only feeds the expiry
  // policy, which the model leaves to the environment.
  datatype Meta = Meta(user: string, name: string, total: nat, uploaded: nat)

  // A metadata file is Torn while json.dump is writing it.
  datatype MetaFile = Torn | Saved(meta: Meta)

  // `shared` says that `target` and `part` are two names of one inode, as they
  // are between os.link and unlink. `temp` is the temporary file of a
  // save_part_metadata call in progress.
  datatype Disk = Disk(
    target: Option<Bytes>,
    part: Option<Bytes>,
    meta: Option<MetaFile>,
    temp: Option<MetaFile>,
    shared: bool)

  datatype DiskOp =
    | Nop
    | UnlinkTarget
    | UnlinkPart
    | UnlinkMeta
    | CreatePart
    | WritePart(content: Bytes)
    | LinkPart
    | MakeTemp
    | DumpTemp(record: Meta)
    | SwapTemp
    | UnlinkTemp

  // os.link refuses an existing target; the other calls below are used only
  // where they cannot fail for a missing or existing file.
  predicate Allowed(d: Disk, op: DiskOp) {
    match op
    case CreatePart => d.part.None?
    case WritePart(_) => d.part.Some?
    case LinkPart => d.part.Some? && d.target.None?
    case DumpTemp(_) => d.temp.Some?
    case SwapTemp => d.temp.Some?
    case _ => true
  }

  function Apply(d: Disk, op: DiskOp): Disk
    requires Allowed(d, op)
  {
    match op
    case Nop => d
    case UnlinkTarget => d.(target := None, shared := false)
    case UnlinkPart => d.(part := None, shared := false)
    case UnlinkMeta => d.(meta := None)
    case CreatePart => d.(part := Some([]), shared := false)
    case WritePart(b) => d.(part := Some(b), target := if d.shared then Some(b) else d.target)
    case LinkPart => d.(target := d.part, shared := true)
    case MakeTemp => d.(temp := Some(Torn))
    case DumpTemp(m) => d.(temp := Some(Saved(m)))
    case SwapTemp => d.(meta := d.temp, temp := None)
    case UnlinkTemp => d.(temp := None)
  }
}
