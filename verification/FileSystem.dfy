// The shared disk below the per-file view of module Files: a directory of
// names, and inodes that several names may share. Transfers of different
// (user, filename) pairs touch disjoint names and inodes.

module FileSystem {
  import opened Protocol
  import opened Files

  datatype Key = Key(user: string, name: string)

  datatype Path = Path(dir: string, file: string)

  datatype Blob = Data(bytes: Bytes) | Json(meta: MetaFile)

  // `temps` holds, for a key whose metadata is being saved, the name mkstemp chose.
  datatype Fs = Fs(names: map<Path, nat>, blobs: map<nat, Blob>, next: nat, temps: map<Key, Path>)

  // ----- names -----

  predicate EndsWith(s: string, suffix: string) {
    |suffix| <= |s| && s[|s| - |suffix|..] == suffix
  }

  const INTERNAL_NAMES := {".hcmus_socket.lock", ".hcmus_socket.log", "server.log", ".DS_Store", "Thumbs.db"}

  predicate IsInternal(name: string) {
    EndsWith(name, ".part") || EndsWith(name, ".part.meta") || name in INTERNAL_NAMES
  }

  // The checks resolve_namespace_path makes on the name alone.
  predicate AcceptedName(name: string) {
    && name != "" && name != "." && name != ".."
    && '/' !in name && '\\' !in name && '\0' !in name
    && !IsInternal(name)
  }

  function TargetPath(k: Key): Path { Path(k.user, k.name) }

  function PartPath(k: Key): Path { Path(k.user, k.name + ".part") }

  function MetaPath(k: Key): Path { Path(k.user, k.name + ".part.meta") }

  function TempPath(k: Key, random: string): Path {
    Path(k.user, "." + k.name + ".part.meta." + random + ".tmp")
  }

  predicate EndsIn(p: Path, c: char) {
    |p.file| > 0 && p.file[|p.file| - 1] == c
  }

  lemma Appended(s: string, suffix: string)
    ensures EndsWith(s + suffix, suffix)
    ensures |suffix| > 0 ==> (s + suffix)[|s + suffix| - 1] == suffix[|suffix| - 1]
  {
  }

  lemma AppendInjective(a: string, b: string, suffix: string)
    ensures a + suffix == b + suffix ==> a == b
  {
    if a + suffix == b + suffix {
      assert a == (a + suffix)[..|a|] == (b + suffix)[..|b|] == b;
    }
  }

  // The three paths of one accepted name, and those of two, never coincide.
  lemma PathsDistinct(k: Key, j: Key)
    requires AcceptedName(k.name) && AcceptedName(j.name)
    ensures TargetPath(k) != PartPath(j) && TargetPath(k) != MetaPath(j) && PartPath(k) != MetaPath(j)
    ensures k != j ==> TargetPath(k) != TargetPath(j) && PartPath(k) != PartPath(j) && MetaPath(k) != MetaPath(j)
  {
    Appended(k.name, ".part");
    Appended(j.name, ".part");
    Appended(j.name, ".part.meta");
    AppendInjective(k.name, j.name, ".part");
    AppendInjective(k.name, j.name, ".part.meta");
  }

  lemma TempDistinct(k: Key, random: string, j: Key)
    ensures EndsIn(TempPath(k, random), 'p')
    ensures TempPath(k, random) != PartPath(j) && TempPath(k, random) != MetaPath(j)
  {
    Appended("." + k.name + ".part.meta." + random, ".tmp");
    Appended(j.name, ".part");
    Appended(j.name, ".part.meta");
  }

  // ----- calls -----

  // One file-system call of the transfer of `key`. `random` is mkstemp's choice.
  datatype Call = Call(key: Key, op: DiskOp, random: string)

  function Look(fs: Fs, p: Path): Option<Blob> {
    if p in fs.names && fs.names[p] in fs.blobs then Some(fs.blobs[fs.names[p]]) else None
  }

  function DataAt(fs: Fs, p: Path): Option<Bytes> {
    var b := Look(fs, p);
    if b.Some? && b.value.Data? then Some(b.value.bytes) else None
  }

  function JsonAt(fs: Fs, p: Path): Option<MetaFile> {
    var b := Look(fs, p);
    if b.Some? && b.value.Json? then Some(b.value.meta) else None
  }

  // What the transfer of `k` sees of the disk.
  function View(fs: Fs, k: Key): Disk {
    Disk(
      DataAt(fs, TargetPath(k)),
      DataAt(fs, PartPath(k)),
      JsonAt(fs, MetaPath(k)),
      if k in fs.temps then JsonAt(fs, fs.temps[k]) else None,
      TargetPath(k) in fs.names && PartPath(k) in fs.names && fs.names[TargetPath(k)] == fs.names[PartPath(k)])
  }

  function Create(fs: Fs, p: Path, b: Blob): Fs {
    fs.(names := fs.names[p := fs.next], blobs := fs.blobs[fs.next := b], next := fs.next + 1)
  }

  function Write(fs: Fs, p: Path, b: Blob): Fs
    requires p in fs.names
  {
    fs.(blobs := fs.blobs[fs.names[p] := b])
  }

  function Unlink(fs: Fs, p: Path): Fs {
    fs.(names := fs.names - {p})
  }

  function Rename(fs: Fs, from: Path, to: Path): Fs
    requires from in fs.names
  {
    fs.(names := (fs.names - {from})[to := fs.names[from]])
  }

  function Do(fs: Fs, c: Call): Fs
    requires Allowed(View(fs, c.key), c.op)
  {
    var k := c.key;
    match c.op
    case Nop => fs
    case UnlinkTarget => Unlink(fs, TargetPath(k))
    case UnlinkPart => Unlink(fs, PartPath(k))
    case UnlinkMeta => Unlink(fs, MetaPath(k))
    case CreatePart => Create(fs, PartPath(k), Data([]))
    case WritePart(b) => Write(fs, PartPath(k), Data(b))
    case LinkPart => fs.(names := fs.names[TargetPath(k) := fs.names[PartPath(k)]])
    case MakeTemp => Create(fs, TempPath(k, c.random), Json(Torn)).(temps := fs.temps[k := TempPath(k, c.random)])
    case DumpTemp(m) => Write(fs, fs.temps[k], Json(Saved(m)))
    case SwapTemp => Rename(fs, fs.temps[k], MetaPath(k)).(temps := fs.temps - {k})
    case UnlinkTemp => if k in fs.temps then Unlink(fs, fs.temps[k]).(temps := fs.temps - {k}) else fs
  }

  // ----- invariant -----

  // The two names that may share an inode: target and data file of one key.
  ghost predicate Pair(p: Path, q: Path, k: Key) {
    (p == TargetPath(k) && q == PartPath(k)) || (q == TargetPath(k) && p == PartPath(k))
  }

  ghost predicate Typed(fs: Fs, k: Key) {
    && (TargetPath(k) in fs.names ==> DataAt(fs, TargetPath(k)).Some?)
    && (PartPath(k) in fs.names ==> DataAt(fs, PartPath(k)).Some?)
    && (MetaPath(k) in fs.names ==> JsonAt(fs, MetaPath(k)).Some?)
    && (k in fs.temps ==> JsonAt(fs, fs.temps[k]).Some? && EndsIn(fs.temps[k], 'p'))
  }

  ghost predicate TempsOk(temps: map<Key, Path>, keys: set<Key>) {
    && (forall k, j :: k in temps && j in keys ==> temps[k] != TargetPath(j))
    && (forall k, j :: k in temps && j in temps && k != j ==> temps[k] != temps[j])
    && temps.Keys <= keys
  }

  ghost predicate FsOk(fs: Fs, keys: set<Key>) {
    && (forall p :: p in fs.names ==> fs.names[p] in fs.blobs && fs.names[p] < fs.next)
    && (forall p, q :: p in fs.names && q in fs.names && p != q && fs.names[p] == fs.names[q] ==>
          exists k :: k in keys && Pair(p, q, k))
    && (forall k :: k in keys ==> AcceptedName(k.name) && Typed(fs, k))
    && TempsOk(fs.temps, keys)
  }

  // A call the server may make: its file exists where it must, and mkstemp
  // picks an unused name that no transfer uses as its filename.
  predicate Legal(fs: Fs, keys: set<Key>, c: Call) {
    && c.key in keys
    && Allowed(View(fs, c.key), c.op)
    && (c.op.MakeTemp? ==>
          && TempPath(c.key, c.random) !in fs.names
          && forall j :: j in keys ==> TempPath(c.key, c.random) != TargetPath(j))
  }

  ghost predicate Owns(fs: Fs, k: Key, p: Path) {
    p == TargetPath(k) || p == PartPath(k) || p == MetaPath(k) || (k in fs.temps && p == fs.temps[k])
  }

  lemma LastOfPaths(k: Key)
    ensures EndsIn(PartPath(k), 't') && EndsIn(MetaPath(k), 'a')
  {
    Appended(k.name, ".part");
    Appended(k.name, ".part.meta");
  }

  // Paths of different keys differ, and so do their inodes.
  lemma KeysApart(fs: Fs, keys: set<Key>, k: Key, p: Path, j: Key, q: Path)
    requires FsOk(fs, keys) && k in keys && j in keys && Owns(fs, k, p) && Owns(fs, j, q)
    ensures k != j ==> p != q
    ensures k != j && p in fs.names && q in fs.names ==> fs.names[p] != fs.names[q]
  {
    PathsDistinct(k, j);
    PathsDistinct(j, k);
    assert Typed(fs, k) && Typed(fs, j);
    LastOfPaths(k);
    LastOfPaths(j);
    if k != j && p in fs.names && q in fs.names && fs.names[p] == fs.names[q] {
      var i :| i in keys && Pair(p, q, i);
      OwnerOfPair(fs, keys, i, k, p);
      OwnerOfPair(fs, keys, i, j, q);
    }
  }

  lemma OwnerOfPair(fs: Fs, keys: set<Key>, i: Key, k: Key, p: Path)
    requires FsOk(fs, keys) && i in keys && k in keys && Owns(fs, k, p)
    requires p == TargetPath(i) || p == PartPath(i)
    ensures i == k
  {
    PathsDistinct(i, k);
    PathsDistinct(k, i);
    assert Typed(fs, k);
    LastOfPaths(i);
  }

  // Of the paths of one key, only target and part share an inode.
  lemma OwnApart(fs: Fs, keys: set<Key>, k: Key, p: Path, q: Path)
    requires FsOk(fs, keys) && k in keys && Owns(fs, k, p) && Owns(fs, k, q) && p != q
    requires p in fs.names && q in fs.names && fs.names[p] == fs.names[q]
    ensures Pair(p, q, k)
  {
    var i :| i in keys && Pair(p, q, i);
    OwnerOfPair(fs, keys, i, k, p);
  }

  // ----- one call -----

  ghost predicate Kept(fs: Fs, gs: Fs, q: Path) {
    && (q in fs.names <==> q in gs.names)
    && (q in fs.names ==> gs.names[q] == fs.names[q])
    && Look(gs, q) == Look(fs, q)
  }

  lemma KeptView(fs: Fs, gs: Fs, k: Key)
    requires Kept(fs, gs, TargetPath(k)) && Kept(fs, gs, PartPath(k)) && Kept(fs, gs, MetaPath(k))
    requires k in fs.temps <==> k in gs.temps
    requires k in fs.temps ==> gs.temps[k] == fs.temps[k] && Kept(fs, gs, fs.temps[k])
    ensures View(gs, k) == View(fs, k)
  {
  }

  predicate SameInode(fs: Fs, p: Path, q: Path) {
    p in fs.names && q in fs.names && fs.names[p] == fs.names[q]
  }

  // The path a call works on, and the inode it may write.
  function Touched(fs: Fs, c: Call): set<Path> {
    match c.op
    case Nop => {}
    case UnlinkTarget => {TargetPath(c.key)}
    case UnlinkPart => {PartPath(c.key)}
    case UnlinkMeta => {MetaPath(c.key)}
    case CreatePart => {PartPath(c.key)}
    case WritePart(_) => {PartPath(c.key)}
    case LinkPart => {TargetPath(c.key)}
    case MakeTemp => {TempPath(c.key, c.random)}
    case DumpTemp(_) => if c.key in fs.temps then {fs.temps[c.key]} else {}
    case SwapTemp => if c.key in fs.temps then {fs.temps[c.key], MetaPath(c.key)} else {}
    case UnlinkTemp => if c.key in fs.temps then {fs.temps[c.key]} else {}
  }

  predicate OnTemp(op: DiskOp) { op.MakeTemp? || op.DumpTemp? || op.SwapTemp? || op.UnlinkTemp? }

  lemma UntouchedByTemp(fs: Fs, keys: set<Key>, c: Call, q: Path)
    requires FsOk(fs, keys) && Legal(fs, keys, c) && OnTemp(c.op) && q !in Touched(fs, c)
    requires forall p :: p in Touched(fs, c) && SameInode(fs, p, q) ==> !c.op.DumpTemp?
    ensures Kept(fs, Do(fs, c), q)
  {
  }

  lemma UntouchedKept(fs: Fs, keys: set<Key>, c: Call, q: Path)
    requires FsOk(fs, keys) && Legal(fs, keys, c) && q !in Touched(fs, c)
    requires forall p :: p in Touched(fs, c) && SameInode(fs, p, q) ==> !c.op.WritePart? && !c.op.DumpTemp?
    ensures Kept(fs, Do(fs, c), q)
  {
    if OnTemp(c.op) {
      UntouchedByTemp(fs, keys, c, q);
    } else {
      assert Typed(fs, c.key);
    }
  }

  lemma OtherTemps(fs: Fs, c: Call, j: Key)
    requires Allowed(View(fs, c.key), c.op) && j != c.key
    ensures j in Do(fs, c).temps <==> j in fs.temps
    ensures j in fs.temps ==> Do(fs, c).temps[j] == fs.temps[j]
  {
  }

  // A call of one key leaves what every other key sees as it was.
  lemma OtherView(fs: Fs, keys: set<Key>, c: Call, j: Key)
    requires FsOk(fs, keys) && Legal(fs, keys, c) && j in keys && j != c.key
    ensures View(Do(fs, c), j) == View(fs, j)
  {
    OtherPath(fs, keys, c, j, TargetPath(j));
    OtherPath(fs, keys, c, j, PartPath(j));
    OtherPath(fs, keys, c, j, MetaPath(j));
    if j in fs.temps { OtherPath(fs, keys, c, j, fs.temps[j]); }
    OtherTemps(fs, c, j);
    KeptView(fs, Do(fs, c), j);
  }

  lemma OtherPath(fs: Fs, keys: set<Key>, c: Call, j: Key, q: Path)
    requires FsOk(fs, keys) && Legal(fs, keys, c) && j in keys && j != c.key && Owns(fs, j, q)
    ensures Kept(fs, Do(fs, c), q)
  {
    assert Typed(fs, j);
    TempDistinct(c.key, c.random, j);
    forall p | p in Touched(fs, c)
      ensures p != q && (SameInode(fs, p, q) ==> !c.op.WritePart? && !c.op.DumpTemp?)
    {
      if !c.op.MakeTemp? { KeysApart(fs, keys, c.key, p, j, q); }
    }
    UntouchedKept(fs, keys, c, q);
  }

  // An own path that a call neither names nor shares an inode with.
  lemma OwnUnshared(fs: Fs, keys: set<Key>, c: Call, q: Path, p: Path)
    requires FsOk(fs, keys) && Legal(fs, keys, c) && Owns(fs, c.key, q) && !c.op.MakeTemp?
    requires q !in Touched(fs, c) && !(c.op.WritePart? && q == TargetPath(c.key)) && p in Touched(fs, c)
    requires SameInode(fs, p, q)
    ensures !c.op.WritePart? && !c.op.DumpTemp?
  {
    if c.op.WritePart? || c.op.DumpTemp? {
      assert Typed(fs, c.key);
      LastOfPaths(c.key);
      OwnApart(fs, keys, c.key, p, q);
    }
  }

  // It stays as it was.
  lemma OwnPath(fs: Fs, keys: set<Key>, c: Call, q: Path)
    requires FsOk(fs, keys) && Legal(fs, keys, c) && Owns(fs, c.key, q)
    ensures q !in Touched(fs, c) && !(c.op.WritePart? && q == TargetPath(c.key)) ==> Kept(fs, Do(fs, c), q)
  {
    if q !in Touched(fs, c) && !(c.op.WritePart? && q == TargetPath(c.key)) {
      forall p | p in Touched(fs, c) && SameInode(fs, p, q)
        ensures !c.op.WritePart? && !c.op.DumpTemp?
      {
        if !c.op.MakeTemp? { OwnUnshared(fs, keys, c, q, p); }
      }
      UntouchedKept(fs, keys, c, q);
    }
  }

  ghost predicate OwnKept(fs: Fs, c: Call, q: Path)
    requires Allowed(View(fs, c.key), c.op)
  {
    q !in Touched(fs, c) && !(c.op.WritePart? && q == TargetPath(c.key)) ==> Kept(fs, Do(fs, c), q)
  }

  // A key's temporary file has none of its three other names.
  ghost predicate Apart(fs: Fs, k: Key) {
    && TargetPath(k) != PartPath(k) && TargetPath(k) != MetaPath(k) && PartPath(k) != MetaPath(k)
    && (k in fs.temps ==> fs.temps[k] !in {TargetPath(k), PartPath(k), MetaPath(k)})
  }

  ghost predicate OwnPathsKept(fs: Fs, c: Call)
    requires Allowed(View(fs, c.key), c.op)
  {
    && OwnKept(fs, c, TargetPath(c.key)) && OwnKept(fs, c, PartPath(c.key)) && OwnKept(fs, c, MetaPath(c.key))
    && (c.key in fs.temps ==> OwnKept(fs, c, fs.temps[c.key]))
  }

  lemma DataResult(fs: Fs, c: Call)
    requires Typed(fs, c.key) && Allowed(View(fs, c.key), c.op) && OwnPathsKept(fs, c) && Apart(fs, c.key)
    requires !OnTemp(c.op) && forall p :: p in fs.names ==> fs.names[p] < fs.next
    ensures View(Do(fs, c), c.key) == Apply(View(fs, c.key), c.op)
  {
  }

  lemma TempResult(fs: Fs, c: Call)
    requires Typed(fs, c.key) && Allowed(View(fs, c.key), c.op) && OwnPathsKept(fs, c) && Apart(fs, c.key)
    requires c.op.MakeTemp? ==> TempPath(c.key, c.random) !in {TargetPath(c.key), PartPath(c.key), MetaPath(c.key)}
    requires OnTemp(c.op) && forall p :: p in fs.names ==> fs.names[p] < fs.next
    ensures View(Do(fs, c), c.key) == Apply(View(fs, c.key), c.op)
  {
  }

  // On its own files a call does what module Files says.
  lemma OwnView(fs: Fs, keys: set<Key>, c: Call)
    requires FsOk(fs, keys) && Legal(fs, keys, c)
    ensures View(Do(fs, c), c.key) == Apply(View(fs, c.key), c.op)
  {
    var k := c.key;
    OwnPath(fs, keys, c, TargetPath(k));
    OwnPath(fs, keys, c, PartPath(k));
    OwnPath(fs, keys, c, MetaPath(k));
    if k in fs.temps { OwnPath(fs, keys, c, fs.temps[k]); }
    PathsDistinct(k, k);
    TempDistinct(k, c.random, k);
    LastOfPaths(k);
    assert Typed(fs, k);
    if OnTemp(c.op) { TempResult(fs, c); } else { DataResult(fs, c); }
  }

  // A metadata file being written has no second name.
  lemma TempUnshared(fs: Fs, keys: set<Key>, k: Key, q: Path)
    requires FsOk(fs, keys) && k in keys && k in fs.temps && q in fs.names && q != fs.temps[k]
    ensures fs.temps[k] in fs.names && fs.names[q] != fs.names[fs.temps[k]]
  {
    assert Typed(fs, k);
    forall i | i in keys ensures !Pair(fs.temps[k], q, i) { LastOfPaths(i); }
  }

  lemma DoKeepsInodes(fs: Fs, c: Call)
    requires Typed(fs, c.key) && Allowed(View(fs, c.key), c.op)
    requires forall p :: p in fs.names ==> fs.names[p] in fs.blobs && fs.names[p] < fs.next
    ensures
      var gs := Do(fs, c);
      forall p :: p in gs.names ==> gs.names[p] in gs.blobs && gs.names[p] < gs.next
  {
  }

  lemma DoKeepsNames(fs: Fs, keys: set<Key>, c: Call)
    requires FsOk(fs, keys) && Legal(fs, keys, c)
    ensures
      var gs := Do(fs, c);
      && (forall p :: p in gs.names ==> gs.names[p] in gs.blobs && gs.names[p] < gs.next)
      && (forall p, q :: p in gs.names && q in gs.names && p != q && gs.names[p] == gs.names[q] ==>
            exists k :: k in keys && Pair(p, q, k))
  {
    var gs := Do(fs, c);
    assert Typed(fs, c.key);
    DoKeepsInodes(fs, c);
    forall p, q | p in gs.names && q in gs.names && p != q && gs.names[p] == gs.names[q]
      ensures exists k :: k in keys && Pair(p, q, k)
    {
      DoKeepsPair(fs, keys, c, p, q);
    }
  }

  lemma DoKeepsPair(fs: Fs, keys: set<Key>, c: Call, p: Path, q: Path)
    requires FsOk(fs, keys) && Legal(fs, keys, c)
    requires p in Do(fs, c).names && q in Do(fs, c).names && p != q && Do(fs, c).names[p] == Do(fs, c).names[q]
    ensures exists k :: k in keys && Pair(p, q, k)
  {
    var k, gs := c.key, Do(fs, c);
    assert Typed(fs, k);
    LastOfPaths(k);
    match c.op {
      case LinkPart =>
        var part := PartPath(k);
        if p == TargetPath(k) && q != part {
          var i :| i in keys && Pair(part, q, i);
          OwnerOfPair(fs, keys, i, k, part);
        } else if q == TargetPath(k) && p != part {
          var i :| i in keys && Pair(part, p, i);
          OwnerOfPair(fs, keys, i, k, part);
        } else if p == TargetPath(k) || q == TargetPath(k) {
          assert Pair(p, q, k);
        }
      case SwapTemp =>
        if p != fs.temps[k] && p in fs.names { TempUnshared(fs, keys, k, p); }
        if q != fs.temps[k] && q in fs.names { TempUnshared(fs, keys, k, q); }
      case _ =>
    }
  }

  lemma KeptTyped(fs: Fs, gs: Fs, j: Key)
    requires Typed(fs, j)
    requires Kept(fs, gs, TargetPath(j)) && Kept(fs, gs, PartPath(j)) && Kept(fs, gs, MetaPath(j))
    requires j in gs.temps ==> j in fs.temps && gs.temps[j] == fs.temps[j] && Kept(fs, gs, fs.temps[j])
    ensures Typed(gs, j)
  {
  }

  lemma DoKeepsOther(fs: Fs, keys: set<Key>, c: Call, j: Key)
    requires FsOk(fs, keys) && Legal(fs, keys, c) && j in keys && j != c.key
    ensures Typed(Do(fs, c), j)
  {
    OtherPath(fs, keys, c, j, TargetPath(j));
    OtherPath(fs, keys, c, j, PartPath(j));
    OtherPath(fs, keys, c, j, MetaPath(j));
    if j in fs.temps { OtherPath(fs, keys, c, j, fs.temps[j]); }
    OtherTemps(fs, c, j);
    KeptTyped(fs, Do(fs, c), j);
  }

  // What `gs` has under the names of a key is what `d` shows.
  ghost predicate Shown(gs: Fs, k: Key, d: Disk) {
    && (TargetPath(k) in gs.names ==> d.target.Some?)
    && (PartPath(k) in gs.names ==> d.part.Some?)
    && (MetaPath(k) in gs.names ==> d.meta.Some?)
    && (k in gs.temps ==> d.temp.Some? && EndsIn(gs.temps[k], 'p'))
  }

  lemma DataShown(fs: Fs, c: Call)
    requires Typed(fs, c.key) && Apart(fs, c.key) && Allowed(View(fs, c.key), c.op) && !OnTemp(c.op)
    ensures Shown(Do(fs, c), c.key, Apply(View(fs, c.key), c.op))
  {
  }

  lemma TempShown(fs: Fs, c: Call)
    requires Typed(fs, c.key) && Apart(fs, c.key) && Allowed(View(fs, c.key), c.op) && OnTemp(c.op)
    requires EndsIn(TempPath(c.key, c.random), 'p')
    requires TempPath(c.key, c.random) !in {TargetPath(c.key), PartPath(c.key), MetaPath(c.key)} || !c.op.MakeTemp?
    ensures Shown(Do(fs, c), c.key, Apply(View(fs, c.key), c.op))
  {
  }

  lemma OwnShown(fs: Fs, keys: set<Key>, c: Call)
    requires FsOk(fs, keys) && Legal(fs, keys, c)
    ensures Shown(Do(fs, c), c.key, Apply(View(fs, c.key), c.op))
  {
    var k := c.key;
    assert Typed(fs, k);
    PathsDistinct(k, k);
    TempDistinct(k, c.random, k);
    LastOfPaths(k);
    if OnTemp(c.op) { TempShown(fs, c); } else { DataShown(fs, c); }
  }

  lemma DoKeepsOwn(fs: Fs, keys: set<Key>, c: Call)
    requires FsOk(fs, keys) && Legal(fs, keys, c)
    requires forall p :: p in Do(fs, c).names ==> Do(fs, c).names[p] in Do(fs, c).blobs
    ensures Typed(Do(fs, c), c.key)
  {
    OwnView(fs, keys, c);
    OwnShown(fs, keys, c);
    ShownTyped(Do(fs, c), c.key);
  }

  lemma ShownTyped(gs: Fs, k: Key)
    requires forall p :: p in gs.names ==> gs.names[p] in gs.blobs
    requires Shown(gs, k, View(gs, k))
    ensures Typed(gs, k)
  {
  }

  lemma TempAdded(names: set<Path>, temps: map<Key, Path>, keys: set<Key>, k: Key, p: Path)
    requires TempsOk(temps, keys) && k in keys && p !in names
    requires forall j :: j in temps ==> temps[j] in names
    requires forall j :: j in keys ==> p != TargetPath(j)
    ensures TempsOk(temps[k := p], keys)
  {
  }

  lemma TempsChange(fs: Fs, c: Call)
    requires Allowed(View(fs, c.key), c.op) && !c.op.MakeTemp?
    ensures Do(fs, c).temps == fs.temps || Do(fs, c).temps == fs.temps - {c.key}
  {
  }

  lemma DoKeepsTemps(fs: Fs, keys: set<Key>, c: Call)
    requires FsOk(fs, keys) && Legal(fs, keys, c)
    ensures TempsOk(Do(fs, c).temps, keys)
  {
    if c.op.MakeTemp? {
      forall j | j in fs.temps ensures fs.temps[j] in fs.names { assert Typed(fs, j); }
      TempAdded(fs.names.Keys, fs.temps, keys, c.key, TempPath(c.key, c.random));
    } else {
      TempsChange(fs, c);
    }
  }

  lemma DoKeeps(fs: Fs, keys: set<Key>, c: Call)
    requires FsOk(fs, keys) && Legal(fs, keys, c)
    ensures FsOk(Do(fs, c), keys)
  {
    DoKeepsNames(fs, keys, c);
    DoKeepsTemps(fs, keys, c);
    forall j | j in keys
      ensures AcceptedName(j.name) && Typed(Do(fs, c), j)
    {
      if j == c.key { DoKeepsOwn(fs, keys, c); } else { DoKeepsOther(fs, keys, c, j); }
    }
  }

  // ----- all runs -----

  // Each call is one its server may make at that moment.
  predicate LegalRun(fs: Fs, keys: set<Key>, calls: seq<Call>)
    decreases |calls|
  {
    calls == [] || (Legal(fs, keys, calls[0]) && LegalRun(Do(fs, calls[0]), keys, calls[1..]))
  }

  function RunAll(fs: Fs, keys: set<Key>, calls: seq<Call>): Fs
    requires LegalRun(fs, keys, calls)
    decreases |calls|
  {
    if calls == [] then fs else RunAll(Do(fs, calls[0]), keys, calls[1..])
  }

  // The calls of one key, in order.
  function Only(calls: seq<Call>, k: Key): seq<DiskOp>
    decreases |calls|
  {
    if calls == [] then []
    else (if calls[0].key == k then [calls[0].op] else []) + Only(calls[1..], k)
  }

  predicate AloneAllowed(d: Disk, ops: seq<DiskOp>)
    decreases |ops|
  {
    ops == [] || (Allowed(d, ops[0]) && AloneAllowed(Apply(d, ops[0]), ops[1..]))
  }

  function Alone(d: Disk, ops: seq<DiskOp>): Disk
    requires AloneAllowed(d, ops)
    decreases |ops|
  {
    if ops == [] then d else Alone(Apply(d, ops[0]), ops[1..])
  }

  // Non-interference: whatever calls of different keys interleave on the shared
  // disk, each key's target, part and metadata end as if its calls had run alone.
  lemma {:induction false} AsIfAlone(fs: Fs, keys: set<Key>, calls: seq<Call>, k: Key)
    requires FsOk(fs, keys) && k in keys && LegalRun(fs, keys, calls)
    ensures FsOk(RunAll(fs, keys, calls), keys)
    ensures AloneAllowed(View(fs, k), Only(calls, k))
    ensures View(RunAll(fs, keys, calls), k) == Alone(View(fs, k), Only(calls, k))
    decreases |calls|
  {
    if calls != [] {
      var c, rest := calls[0], calls[1..];
      DoKeeps(fs, keys, c);
      AsIfAlone(Do(fs, c), keys, rest, k);
      if c.key == k {
        OwnView(fs, keys, c);
        assert Only(calls, k)[1..] == Only(rest, k);
      } else {
        OtherView(fs, keys, c, k);
        assert Only(calls, k) == Only(rest, k);
      }
    }
  }
}
