// Removal of expired partial uploads, for one pair and for the whole storage root.

module Cleanup {
  import opened Protocol
  import opened FileSystem

  // The regular files below the storage root with their modification times;
  // those in `stuck` cannot be unlinked.
  class Root {
    var files: map<Path, int>
    const stuck: set<Path>

    constructor (files: map<Path, int>, stuck: set<Path>)
      ensures this.files == files && this.stuck == stuck
    {
      this.files, this.stuck := files, stuck;
    }

    method Unlink(p: Path) returns (ok: bool)
      modifies this
      ensures ok <==> p in old(files) && p !in stuck
      ensures files == if ok then old(files) - {p} else old(files)
    {
      ok := p in files && p !in stuck;
      if ok { files := files - {p}; }
    }
  }

  // ----- which files go -----

  function MetaOf(part: Path): Path { Path(part.dir, part.file + ".meta") }

  // The partial file a file belongs with, if it is one of a pair.
  function PartOf(p: Path): Option<Path> {
    if EndsWith(p.file, ".part.meta") then Some(Path(p.dir, p.file[..|p.file| - 5]))
    else if EndsWith(p.file, ".part") then Some(p)
    else None
  }

  function Members(part: Path): set<Path> { {part, MetaOf(part)} }

  // No member is as young as the limit, and there is one.
  predicate Expired(files: map<Path, int>, part: Path, ttl: nat, now: int) {
    && (exists m :: m in Members(part) && m in files)
    && (forall m :: m in Members(part) && m in files ==> now - files[m] > ttl)
  }

  function Doomed(files: map<Path, int>, ttl: nat, now: int): set<Path> {
    set p | p in files && PartOf(p).Some? && Expired(files, PartOf(p).value, ttl, now)
  }

  lemma DotMeta(a: string)
    requires EndsWith(a, ".part.meta")
    ensures EndsWith(a[..|a| - 5], ".part") && a == a[..|a| - 5] + ".meta"
  {
    var t := a[|a| - 10..];
    assert t[..5] == ".part" && t[5..] == ".meta";
    assert a[|a| - 5..] == t[5..] && a[..|a| - 5][|a| - 10..] == t[..5];
  }

  lemma NotBoth(file: string)
    ensures !(EndsWith(file, ".part") && EndsWith(file, ".part.meta"))
  {
    assert ".part"[4] != ".part.meta"[9];
  }

  lemma MetaName(file: string)
    requires EndsWith(file, ".part")
    ensures EndsWith(file + ".meta", ".part.meta") && (file + ".meta")[..|file|] == file
    ensures !EndsWith(file, ".part.meta")
  {
    var meta := file + ".meta";
    assert meta[|meta| - 10..] == file[|file| - 5..] + ".meta";
    NotBoth(file);
  }

  // The files of one pair are those that belong with its partial file, so no file
  // is in two pairs.
  lemma PairOfMember(p: Path, part: Path)
    requires EndsWith(part.file, ".part")
    ensures p in Members(part) <==> PartOf(p) == Some(part)
  {
    MetaName(part.file);
    if EndsWith(p.file, ".part.meta") { DotMeta(p.file); }
  }

  lemma PartEnds(p: Path)
    requires PartOf(p).Some?
    ensures EndsWith(PartOf(p).value.file, ".part") && p in Members(PartOf(p).value)
  {
    if EndsWith(p.file, ".part.meta") { DotMeta(p.file); }
  }

  // A fresh member protects the whole pair, and a pair that goes goes as a whole.
  lemma PairsTogether(files: map<Path, int>, ttl: nat, now: int, part: Path)
    requires EndsWith(part.file, ".part")
    ensures
      var doomed := Doomed(files, ttl, now) * Members(part);
      doomed == if Expired(files, part, ttl, now) then files.Keys * Members(part) else {}
  {
    forall p ensures p in Members(part) <==> PartOf(p) == Some(part) { PairOfMember(p, part); }
  }

  // The pair of one user and filename is what its transfers write, so cleanup takes its
  // two files and no file of another.
  lemma PairOfKey(k: Key, j: Key)
    ensures Members(PartPath(k)) == {PartPath(k), MetaPath(k)}
    ensures PartOf(PartPath(k)) == Some(PartPath(k)) && PartOf(MetaPath(k)) == Some(PartPath(k))
    ensures k != j ==> Members(PartPath(k)) !! Members(PartPath(j))
  {
    Appended(k.name, ".part");
    Appended(j.name, ".part");
    assert k.name + ".part" + ".meta" == k.name + ".part.meta";
    assert j.name + ".part" + ".meta" == j.name + ".part.meta";
    PairOfMember(PartPath(k), PartPath(k));
    PairOfMember(MetaPath(k), PartPath(k));
    AppendInjective(k.name, j.name, ".part");
    AppendInjective(k.name, j.name, ".part.meta");
    forall p | p in Members(PartPath(k)) && p in Members(PartPath(j)) ensures PartPath(k) == PartPath(j) {
      PairOfMember(p, PartPath(k));
      PairOfMember(p, PartPath(j));
    }
  }

  // Nothing but partial files and their metadata is removed: never a target.
  lemma TargetsAreKept(files: map<Path, int>, ttl: nat, now: int, p: Path)
    requires AcceptedName(p.file)
    ensures p !in Doomed(files, ttl, now)
  {
  }

  // A pair is kept for as long as its newest member is no older than the limit, to the
  // second, and is gone one second later.
  lemma AgeDecides(files: map<Path, int>, ttl: nat, now: int, part: Path, newest: int)
    requires part in files && EndsWith(part.file, ".part") && files[part] <= newest
    requires MetaOf(part) in files && files[MetaOf(part)] <= newest
    requires newest == files[part] || newest == files[MetaOf(part)]
    ensures now == newest + ttl ==> part !in Doomed(files, ttl, now) && MetaOf(part) !in Doomed(files, ttl, now)
    ensures now == newest + ttl + 1 ==> part in Doomed(files, ttl, now) && MetaOf(part) in Doomed(files, ttl, now)
  {
    PairOfMember(part, part);
    PairOfMember(MetaOf(part), part);
    assert part in Members(part) && MetaOf(part) in Members(part);
  }

  // ----- one pair -----

  // The newest of the modification times.
  method Newest(root: Root, existing: seq<Path>) returns (mtime: int)
    requires existing != [] && forall p :: p in existing ==> p in root.files
    ensures exists p :: p in existing && root.files[p] == mtime
    ensures forall p :: p in existing ==> root.files[p] <= mtime
  {
    mtime := root.files[existing[0]];
    var i := 1;
    while i < |existing|
      invariant 1 <= i <= |existing|
      invariant exists p :: p in existing && root.files[p] == mtime
      invariant forall k :: 0 <= k < i ==> root.files[existing[k]] <= mtime
    {
      if root.files[existing[i]] > mtime { mtime := root.files[existing[i]]; }
      i := i + 1;
    }
  }

  // Those of `members` that exist.
  method Existing(root: Root, members: seq<Path>) returns (existing: seq<Path>)
    ensures forall p :: p in existing <==> p in members && p in root.files
  {
    existing := [];
    var i := 0;
    while i < |members|
      invariant 0 <= i <= |members|
      invariant forall p :: p in existing <==> p in members[..i] && p in root.files
    {
      if members[i] in root.files { existing := existing + [members[i]]; }
      i := i + 1;
    }
    assert members[..i] == members;
  }

  function Named(paths: seq<Path>): set<Path> { set p | p in paths }

  lemma RemoveOne(files: map<Path, int>, p: Path)
    requires p in files
    ensures |files - {p}| == |files| - 1
  {
    assert files.Keys == (files - {p}).Keys + {p};
  }

  lemma UnlinkMore(files: map<Path, int>, existing: seq<Path>, i: nat, stuck: set<Path>)
    requires i < |existing|
    ensures
      var left := files - (Named(existing[..i]) - stuck);
      files - (Named(existing[..i + 1]) - stuck) ==
        if existing[i] in left && existing[i] !in stuck then left - {existing[i]} else left
  {
    assert existing[..i + 1] == existing[..i] + [existing[i]];
    assert Named(existing[..i + 1]) == Named(existing[..i]) + {existing[i]};
  }

  method UnlinkOne(root: Root, p: Path) returns (ok: bool)
    modifies root
    ensures ok <==> p in old(root.files) && p !in root.stuck
    ensures root.files == if ok then old(root.files) - {p} else old(root.files)
    ensures |root.files| == |old(root.files)| - if ok then 1 else 0
  {
    if p in root.files { RemoveOne(root.files, p); }
    ok := root.Unlink(p);
  }

  method UnlinkAll(root: Root, existing: seq<Path>) returns (count: nat)
    modifies root
    ensures root.files == old(root.files) - (Named(existing) - root.stuck)
    ensures count == |old(root.files)| - |root.files|
  {
    count := 0;
    var i := 0;
    while i < |existing|
      invariant 0 <= i <= |existing|
      invariant root.files == old(root.files) - (Named(existing[..i]) - root.stuck)
      invariant count == |old(root.files)| - |root.files|
    {
      UnlinkMore(old(root.files), existing, i, root.stuck);
      var ok := UnlinkOne(root, existing[i]);
      if ok { count := count + 1; }
      i := i + 1;
    }
    assert existing[..i] == existing;
  }

  lemma SameRemoved(files: map<Path, int>, existing: seq<Path>, members: set<Path>, stuck: set<Path>)
    requires forall p :: p in existing <==> p in members && p in files
    ensures files - (Named(existing) - stuck) == files - (members - stuck)
  {
  }

  // What both cleanups do with one pair.
  method CleanPair(root: Root, part: Path, ttl: nat, now: int) returns (expired: bool, count: nat)
    modifies root
    ensures expired <==> Expired(old(root.files), part, ttl, now)
    ensures root.files == if expired then old(root.files) - (Members(part) - root.stuck) else old(root.files)
    ensures count == |old(root.files)| - |root.files|
  {
    var existing := Existing(root, [part, MetaOf(part)]);
    assert forall m :: m in Members(part) && m in root.files <==> m in existing;
    if existing == [] { return false, 0; }
    var newest := Newest(root, existing);
    assert existing[0] in existing;
    if now - newest <= ttl { return false, 0; }
    SameRemoved(root.files, existing, Members(part), root.stuck);
    count := UnlinkAll(root, existing);
    expired := true;
  }

  method CleanupExpiredPartialPair(root: Root, part: Path, ttl: nat, now: int) returns (removed: bool)
    modifies root
    ensures removed <==> ttl > 0 && Expired(old(root.files), part, ttl, now)
    ensures root.files == if removed then old(root.files) - (Members(part) - root.stuck) else old(root.files)
  {
    if ttl == 0 { return false; }
    var count;
    removed, count := CleanPair(root, part, ttl, now);
  }

  // ----- the whole root -----

  // The partial files of the pairs that have a member on the list.
  function Parts(listing: seq<Path>): set<Path> {
    set p | p in listing && PartOf(p).Some? :: PartOf(p).value
  }

  method Discover(listing: seq<Path>) returns (pairs: set<Path>)
    ensures pairs == Parts(listing)
  {
    pairs := {};
    var i := 0;
    while i < |listing|
      invariant 0 <= i <= |listing| && pairs == Parts(listing[..i])
    {
      assert listing[..i + 1] == listing[..i] + [listing[i]];
      var part := PartOf(listing[i]);
      if part.Some? { pairs := pairs + {part.value}; }
      i := i + 1;
    }
    assert listing[..i] == listing;
  }

  function DoomedOf(files: map<Path, int>, ttl: nat, now: int, parts: set<Path>): set<Path> {
    set p | p in Doomed(files, ttl, now) && PartOf(p).value in parts
  }

  // What is left when these pairs have been dealt with.
  function Left(files: map<Path, int>, ttl: nat, now: int, parts: set<Path>, stuck: set<Path>): map<Path, int> {
    files - (DoomedOf(files, ttl, now, parts) - stuck)
  }

  // Cleaning some pairs does not change what becomes of another: with those on
  // `todo` still to be dealt with, `part` is next.
  lemma OtherPair(files: map<Path, int>, ttl: nat, now: int,
      parts: set<Path>, todo: set<Path>, part: Path, stuck: set<Path>)
    requires EndsWith(part.file, ".part") && part in todo && todo <= parts
    ensures
      var left := Left(files, ttl, now, parts - todo, stuck);
      Left(files, ttl, now, parts - (todo - {part}), stuck) ==
        if Expired(left, part, ttl, now) then left - (Members(part) - stuck) else left
  {
    var done := parts - todo;
    assert parts - (todo - {part}) == done + {part};
    forall p ensures p in Members(part) <==> PartOf(p) == Some(part) { PairOfMember(p, part); }
    var left := Left(files, ttl, now, done, stuck);
    assert forall m :: m in Members(part) ==> (m in left <==> m in files);
  }

  lemma NoPairs(files: map<Path, int>, ttl: nat, now: int, parts: set<Path>, stuck: set<Path>)
    ensures Left(files, ttl, now, parts - parts, stuck) == files
  {
  }

  lemma AllPairs(files: map<Path, int>, ttl: nat, now: int, listing: seq<Path>, stuck: set<Path>)
    requires forall p :: p in listing <==> p in files
    ensures Left(files, ttl, now, Parts(listing) - {}, stuck) == files - (Doomed(files, ttl, now) - stuck)
  {
    assert Parts(listing) - {} == Parts(listing);
    assert DoomedOf(files, ttl, now, Parts(listing)) == Doomed(files, ttl, now);
  }

  lemma PartsEnd(listing: seq<Path>, part: Path)
    requires part in Parts(listing)
    ensures EndsWith(part.file, ".part")
  {
    var p :| p in listing && PartOf(p) == Some(part);
    PartEnds(p);
  }

  // cleanup_expired_partials, for any order in which the walk lists the files and
  // the pairs are taken up: exactly the files of expired pairs are removed, as far
  // as they can be unlinked, and counted.
  method CleanupExpiredPartials(root: Root, listing: seq<Path>, ttl: nat, now: int) returns (cleaned: nat)
    requires forall p :: p in listing <==> p in root.files
    modifies root
    ensures root.files ==
      if ttl == 0 then old(root.files)
      else old(root.files) - (Doomed(old(root.files), ttl, now) - root.stuck)
    ensures cleaned == |old(root.files)| - |root.files|
  {
    cleaned := 0;
    if ttl == 0 { return; }
    ghost var files := root.files;
    var todo := Discover(listing);
    ghost var parts := todo;
    NoPairs(files, ttl, now, parts, root.stuck);
    while todo != {}
      invariant todo <= parts && parts == Parts(listing)
      invariant root.files == Left(files, ttl, now, parts - todo, root.stuck)
      invariant cleaned == |files| - |root.files|
      decreases |todo|
    {
      var part :| part in todo;
      PartsEnd(listing, part);
      OtherPair(files, ttl, now, parts, todo, part, root.stuck);
      var expired, count := CleanPair(root, part, ttl, now);
      cleaned := cleaned + count;
      todo := todo - {part};
    }
    AllPairs(files, ttl, now, listing, root.stuck);
  }
}
