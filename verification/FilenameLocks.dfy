// FilenameLockRegistry.hold as a transition system: any number of threads take
// its steps in any order.

module FilenameLocks {
  import opened Protocol

  type Thread = nat

  datatype Key = Key(namespace: Bytes, filename: Bytes)

  // A _LockEntry; entries are named by their place in the order of creation.
  datatype Entry = Entry(references: int, holder: Option<Thread>)

  // Where a thread stands in `hold`. It has the guard lock from Looking to
  // Counted and from Dropping to Dropped.
  datatype Point =
    | Outside
    | Looking(key: Key)
    | Found(key: Key, entry: nat)
    | Counted(key: Key, entry: nat)
    | Waiting(key: Key, entry: nat)
    | Inside(key: Key, entry: nat)
    | Leaving(key: Key, entry: nat)
    | Dropping(key: Key, entry: nat)
    | Dropped(key: Key, entry: nat)

  datatype State = State(guard: Option<Thread>, entries: map<Key, nat>, table: seq<Entry>, at: map<Thread, Point>)

  // What a thread does next where it has a choice: call `hold`, go on, or be
  // interrupted while it waits for the entry's lock.
  datatype Choice = Enter(key: Key) | Go | Interrupted

  datatype Label = Label(thread: Thread, choice: Choice)

  predicate Start(s: State) {
    && s.guard == None && s.entries == map[] && s.table == []
    && forall t :: t in s.at ==> s.at[t] == Outside
  }

  function Move(s: State, t: Thread, p: Point): State { s.(at := s.at[t := p]) }

  function Look(s: State, t: Thread, key: Key): State {
    if key in s.entries then Move(s, t, Found(key, s.entries[key]))
    else
      var e := |s.table|;
      Move(s.(table := s.table + [Entry(0, None)], entries := s.entries[key := e]), t, Found(key, e))
  }

  function Count(s: State, e: nat, change: int): State
    requires e < |s.table|
  {
    s.(table := s.table[e := s.table[e].(references := s.table[e].references + change)])
  }

  function Hold(s: State, e: nat, holder: Option<Thread>): State
    requires e < |s.table|
  {
    s.(table := s.table[e := s.table[e].(holder := holder)])
  }

  function Pop(s: State, t: Thread, key: Key, e: nat): State
    requires e < |s.table|
  {
    var popped := if s.table[e].references == 0 then s.(entries := s.entries - {key}) else s;
    Move(popped.(guard := None), t, Outside)
  }

  // One step of one thread; a thread that cannot move leaves the state alone.
  function Step(s: State, l: Label): State {
    var t := l.thread;
    if t !in s.at || (HasEntry(s.at[t]) && s.at[t].entry >= |s.table|) then s
    else
      match s.at[t]
      case Outside =>
        if l.choice.Enter? && s.guard == None then Move(s.(guard := Some(t)), t, Looking(l.choice.key)) else s
      case Looking(key) => Look(s, t, key)
      case Found(key, e) => Move(Count(s, e, 1), t, Counted(key, e))
      case Counted(key, e) => Move(s.(guard := None), t, Waiting(key, e))
      case Waiting(key, e) =>
        if l.choice == Interrupted then Move(s, t, Leaving(key, e))
        else if s.table[e].holder == None then Move(Hold(s, e, Some(t)), t, Inside(key, e))
        else s
      case Inside(key, e) => Move(Hold(s, e, None), t, Leaving(key, e))
      case Leaving(key, e) =>
        if s.guard == None then Move(s.(guard := Some(t)), t, Dropping(key, e)) else s
      case Dropping(key, e) => Move(Count(s, e, -1), t, Dropped(key, e))
      case Dropped(key, e) => Pop(s, t, key, e)
  }

  // ----- the invariant -----

  predicate HasEntry(p: Point) { !p.Outside? && !p.Looking? }

  predicate Guarded(p: Point) { p.Looking? || p.Found? || p.Counted? || p.Dropping? || p.Dropped? }

  // Between `references += 1` and `references -= 1`.
  predicate Uses(p: Point) { HasEntry(p) && !p.Found? && !p.Dropped? }

  // The entry a thread works with is the one in the map.
  predicate PointOk(entries: map<Key, nat>, size: nat, p: Point) {
    HasEntry(p) ==> p.entry < size && p.key in entries && entries[p.key] == p.entry
  }

  predicate PointsOk(entries: map<Key, nat>, size: nat, at: map<Thread, Point>) {
    forall t :: t in at ==> PointOk(entries, size, at[t])
  }

  predicate GuardOk(guard: Option<Thread>, at: map<Thread, Point>) {
    && (guard.Some? ==> guard.value in at)
    && forall t :: t in at ==> (Guarded(at[t]) <==> guard == Some(t))
  }

  predicate MapOk(entries: map<Key, nat>, size: nat) {
    && (forall k :: k in entries ==> entries[k] < size)
    && (forall j, k :: j in entries && k in entries && entries[j] == entries[k] ==> j == k)
  }

  function Users(at: map<Thread, Point>, e: nat): set<Thread> {
    set t | t in at && Uses(at[t]) && at[t].entry == e
  }

  predicate RefsOk(table: seq<Entry>, at: map<Thread, Point>) {
    forall e :: 0 <= e < |table| ==> table[e].references == |Users(at, e)|
  }

  predicate InsideWith(at: map<Thread, Point>, t: Thread, e: nat) {
    t in at && at[t].Inside? && at[t].entry == e
  }

  // The holder of an entry's lock is the thread inside `hold` with it.
  ghost predicate HolderOk(table: seq<Entry>, at: map<Thread, Point>) {
    forall e: nat, t: Thread :: e < |table| ==> (InsideWith(at, t, e) <==> table[e].holder == Some(t))
  }

  // Only the thread that has the guard can leave an unused key in the map.
  predicate Passing(guard: Option<Thread>, at: map<Thread, Point>, k: Key) {
    guard.Some? && guard.value in at && var p := at[guard.value]; (p.Found? || p.Dropped?) && p.key == k
  }

  predicate KeyOk(guard: Option<Thread>, at: map<Thread, Point>, k: Key, e: nat) {
    Users(at, e) != {} || Passing(guard, at, k)
  }

  predicate KeysOk(guard: Option<Thread>, entries: map<Key, nat>, at: map<Thread, Point>) {
    forall k :: k in entries ==> KeyOk(guard, at, k, entries[k])
  }

  ghost predicate Inv(s: State) {
    && GuardOk(s.guard, s.at)
    && MapOk(s.entries, |s.table|)
    && PointsOk(s.entries, |s.table|, s.at)
    && RefsOk(s.table, s.at)
    && HolderOk(s.table, s.at)
    && KeysOk(s.guard, s.entries, s.at)
  }

  lemma StartInv(s: State)
    requires Start(s)
    ensures Inv(s)
  {
  }

  // ----- each part of it when a thread moves from at[t] to q -----

  // Entering and leaving the guard.
  predicate GuardStep(guard: Option<Thread>, t: Thread, p: Point, q: Point, after: Option<Thread>) {
    && (Guarded(q) && !Guarded(p) ==> guard == None)
    && after == if Guarded(q) then Some(t) else if Guarded(p) then None else guard
  }

  lemma GuardMoves(guard: Option<Thread>, at: map<Thread, Point>, t: Thread, q: Point, after: Option<Thread>)
    requires GuardOk(guard, at) && t in at && GuardStep(guard, t, at[t], q, after)
    ensures GuardOk(after, at[t := q])
  {
  }

  function One(p: Point, e: nat): int { if Uses(p) && p.entry == e then 1 else 0 }

  lemma UsersMove(at: map<Thread, Point>, t: Thread, q: Point, e: nat)
    requires t in at
    ensures Users(at[t := q], e) == if One(q, e) == 1 then Users(at, e) + {t} else Users(at, e) - {t}
    ensures |Users(at[t := q], e)| == |Users(at, e)| - One(at[t], e) + One(q, e)
  {
    assert t in Users(at, e) <==> One(at[t], e) == 1;
    assert Users(at[t := q], e) == if One(q, e) == 1 then Users(at, e) + {t} else Users(at, e) - {t};
  }

  lemma RefsMove(table: seq<Entry>, at: map<Thread, Point>, t: Thread, q: Point, after: seq<Entry>)
    requires RefsOk(table, at) && t in at && |after| == |table|
    requires forall e :: 0 <= e < |table| ==> after[e].references == table[e].references - One(at[t], e) + One(q, e)
    ensures RefsOk(after, at[t := q])
  {
    forall e: nat | e < |after| ensures after[e].references == |Users(at[t := q], e)| { UsersMove(at, t, q, e); }
  }

  function HolderAfter(holder: Option<Thread>, t: Thread, p: Point, q: Point, e: nat): Option<Thread> {
    if q.Inside? && q.entry == e then Some(t) else if p.Inside? && p.entry == e then None else holder
  }

  lemma HolderMove(table: seq<Entry>, at: map<Thread, Point>, t: Thread, q: Point, after: seq<Entry>)
    requires HolderOk(table, at) && t in at && |after| == |table|
    requires forall e: nat :: e < |table| ==> after[e].holder == HolderAfter(table[e].holder, t, at[t], q, e)
    requires q.Inside? && q.entry < |table| ==> table[q.entry].holder == None
    ensures HolderOk(after, at[t := q])
  {
    forall e: nat, u: Thread | e < |after| ensures InsideWith(at[t := q], u, e) <==> after[e].holder == Some(u) {
      assert InsideWith(at, u, e) <==> table[e].holder == Some(u);
      assert InsideWith(at, t, e) <==> table[e].holder == Some(t);
    }
  }

  // A used key stays used unless its last user moves on with the guard.
  lemma KeyMove(guard: Option<Thread>, at: map<Thread, Point>, t: Thread, q: Point,
      after: Option<Thread>, k: Key, e: nat)
    requires t in at && KeyOk(guard, at, k, e) && GuardOk(guard, at) && GuardOk(after, at[t := q])
    requires Uses(at[t]) && at[t].entry == e ==> (Uses(q) && q.entry == e) || q == Dropped(k, e)
    requires at[t].Found? && at[t].key == k ==> Uses(q) && q.entry == e
    requires at[t].Dropped? ==> at[t].key != k || Users(at, e) != {}
    ensures KeyOk(after, at[t := q], k, e)
  {
    UsersMove(at, t, q, e);
    if Users(at, e) == {} && guard != Some(t) { assert Guarded(at[t := q][guard.value]); }
    if Uses(at[t]) && at[t].entry == e && Uses(q) { assert t in Users(at[t := q], e); }
    if u :| u in Users(at, e) && u != t { assert u in Users(at[t := q], e); }
    assert q == Dropped(k, e) ==> Guarded(at[t := q][t]);
  }

  // ----- each step keeps it -----

  // Steps that add no key and drop none: what they do to the table is decided by
  // the points the thread comes from and goes to.
  predicate TableStep(table: seq<Entry>, t: Thread, p: Point, q: Point, after: seq<Entry>) {
    && |after| == |table|
    && (forall e: nat :: e < |table| ==> after[e].references == table[e].references - One(p, e) + One(q, e))
    && (forall e: nat :: e < |table| ==> after[e].holder == HolderAfter(table[e].holder, t, p, q, e))
    && (q.Inside? && q.entry < |table| ==> table[q.entry].holder == None)
  }

  predicate Follows(p: Point, q: Point) {
    && !p.Dropped?
    && (Uses(p) ==> (Uses(q) && q.entry == p.entry) || q == Dropped(p.key, p.entry))
    && (p.Found? ==> Uses(q) && q.entry == p.entry)
  }

  lemma KeysMove(s: State, t: Thread, q: Point, guard: Option<Thread>)
    requires MapOk(s.entries, |s.table|) && PointsOk(s.entries, |s.table|, s.at) && KeysOk(s.guard, s.entries, s.at)
    requires GuardOk(s.guard, s.at) && GuardOk(guard, s.at[t := q]) && t in s.at && Follows(s.at[t], q)
    ensures KeysOk(guard, s.entries, s.at[t := q])
  {
    assert PointOk(s.entries, |s.table|, s.at[t]);
    forall k | k in s.entries ensures KeyOk(guard, s.at[t := q], k, s.entries[k]) {
      KeyMove(s.guard, s.at, t, q, guard, k, s.entries[k]);
    }
  }

  lemma MoveKeeps(s: State, t: Thread, q: Point, guard: Option<Thread>, table: seq<Entry>)
    requires Inv(s) && t in s.at && PointOk(s.entries, |s.table|, q)
    requires GuardStep(s.guard, t, s.at[t], q, guard) && TableStep(s.table, t, s.at[t], q, table) && Follows(s.at[t], q)
    ensures Inv(Move(s.(guard := guard, table := table), t, q))
  {
    GuardMoves(s.guard, s.at, t, q, guard);
    RefsMove(s.table, s.at, t, q, table);
    HolderMove(s.table, s.at, t, q, table);
    KeysMove(s, t, q, guard);
  }

  lemma Create(s: State, key: Key)
    requires Inv(s) && key !in s.entries && s.guard.Some? && s.guard.value in s.at
    ensures
      var e := |s.table|;
      var entries := s.entries[key := e];
      var table := s.table + [Entry(0, None)];
      && MapOk(entries, e + 1) && PointsOk(entries, e + 1, s.at) && RefsOk(table, s.at) && HolderOk(table, s.at)
      && forall k :: k in s.entries ==> KeyOk(s.guard, s.at, k, entries[k])
  {
    var e := |s.table|;
    forall u | u in s.at && HasEntry(s.at[u]) ensures s.at[u].entry < e && s.at[u].key != key {
      assert PointOk(s.entries, |s.table|, s.at[u]);
    }
    assert Users(s.at, e) == {};
    assert forall u :: !InsideWith(s.at, u, e);
  }

  lemma CreateKeeps(s: State, t: Thread, key: Key)
    requires Inv(s) && t in s.at && s.at[t] == Looking(key) && key !in s.entries
    ensures Inv(Look(s, t, key))
  {
    var e, q := |s.table|, Found(key, |s.table|);
    var table := s.table + [Entry(0, None)];
    assert Guarded(s.at[t]);
    Create(s, key);
    GuardMoves(s.guard, s.at, t, q, s.guard);
    RefsMove(table, s.at, t, q, table);
    HolderMove(table, s.at, t, q, table);
    KeysMove(s, t, q, s.guard);
  }

  // When a key is popped nobody works with its entry.
  lemma PopPoints(s: State, t: Thread, key: Key, e: nat)
    requires Inv(s) && t in s.at && s.at[t] == Dropped(key, e) && e < |s.table| && s.table[e].references == 0
    ensures PointsOk(s.entries - {key}, |s.table|, s.at[t := Outside])
  {
    assert Users(s.at, e) == {};
    assert Guarded(s.at[t]) && PointOk(s.entries, |s.table|, s.at[t]);
    forall u | u in s.at && u != t ensures PointOk(s.entries - {key}, |s.table|, s.at[u]) {
      assert PointOk(s.entries, |s.table|, s.at[u]);
      assert u !in Users(s.at, e);
    }
  }

  lemma PopKeys(s: State, t: Thread, key: Key, e: nat)
    requires Inv(s) && t in s.at && s.at[t] == Dropped(key, e) && e < |s.table|
    ensures
      var entries := if s.table[e].references == 0 then s.entries - {key} else s.entries;
      KeysOk(None, entries, s.at[t := Outside])
  {
    assert Guarded(s.at[t]) && PointOk(s.entries, |s.table|, s.at[t]);
    GuardMoves(s.guard, s.at, t, Outside, None);
    forall k | k in s.entries && (k == key ==> s.table[e].references != 0)
      ensures KeyOk(None, s.at[t := Outside], k, s.entries[k])
    {
      KeyMove(s.guard, s.at, t, Outside, None, k, s.entries[k]);
    }
  }

  lemma PopKeeps(s: State, t: Thread, key: Key, e: nat)
    requires Inv(s) && t in s.at && s.at[t] == Dropped(key, e) && e < |s.table|
    ensures Inv(Pop(s, t, key, e))
  {
    GuardMoves(s.guard, s.at, t, Outside, None);
    RefsMove(s.table, s.at, t, Outside, s.table);
    HolderMove(s.table, s.at, t, Outside, s.table);
    PopKeys(s, t, key, e);
    if s.table[e].references == 0 { PopPoints(s, t, key, e); }
  }

  lemma StepKeeps(s: State, l: Label)
    requires Inv(s)
    ensures Inv(Step(s, l))
  {
    var t := l.thread;
    if t in s.at {
      var n, p := Step(s, l), s.at[t];
      assert PointOk(s.entries, |s.table|, p);
      if p.Dropped? {
        PopKeeps(s, t, p.key, p.entry);
      } else if p.Looking? && p.key !in s.entries {
        CreateKeeps(s, t, p.key);
      } else if n != s {
        StepShape(s, l);
        MoveKeeps(s, t, n.at[t], n.guard, n.table);
      }
    }
  }

  // A step that neither creates nor pops is decided by its two points.
  lemma StepShape(s: State, l: Label)
    requires PointsOk(s.entries, |s.table|, s.at) && l.thread in s.at && Step(s, l) != s
    requires GuardSeen(s, l.thread)
    requires var p := s.at[l.thread]; !p.Dropped? && (p.Looking? ==> p.key in s.entries && s.entries[p.key] < |s.table|)
    ensures
      var n, t := Step(s, l), l.thread;
      && t in n.at && n == Move(s.(guard := n.guard, table := n.table), t, n.at[t])
      && PointOk(s.entries, |s.table|, n.at[t])
      && GuardStep(s.guard, t, s.at[t], n.at[t], n.guard)
      && TableStep(s.table, t, s.at[t], n.at[t], n.table)
      && Follows(s.at[t], n.at[t])
  {
    assert PointOk(s.entries, |s.table|, s.at[l.thread]);
  }

  predicate GuardSeen(s: State, t: Thread)
    requires t in s.at
  {
    Guarded(s.at[t]) <==> s.guard == Some(t)
  }

  function Run(s: State, ls: seq<Label>): State
    decreases |ls|
  {
    if ls == [] then s else Run(Step(s, ls[0]), ls[1..])
  }

  lemma {:induction false} RunKeeps(s: State, ls: seq<Label>)
    requires Inv(s)
    ensures Inv(Run(s, ls))
    decreases |ls|
  {
    if ls != [] {
      StepKeeps(s, ls[0]);
      RunKeeps(Step(s, ls[0]), ls[1..]);
    }
  }

  lemma ReachableInv(s: State, ls: seq<Label>)
    requires Start(s)
    ensures Inv(Run(s, ls))
  {
    StartInv(s);
    RunKeeps(s, ls);
  }

  // ----- what every run keeps -----

  // No two threads are inside `hold` for the same key.
  lemma MutualExclusion(s: State, ls: seq<Label>, t: Thread, u: Thread)
    requires Start(s)
    ensures
      var n := Run(s, ls);
      t in n.at && u in n.at && n.at[t].Inside? && n.at[u].Inside? && n.at[t].key == n.at[u].key ==> t == u
  {
    ReachableInv(s, ls);
    var n := Run(s, ls);
    if t in n.at && u in n.at && n.at[t].Inside? && n.at[u].Inside? && n.at[t].key == n.at[u].key {
      assert PointOk(n.entries, |n.table|, n.at[t]) && PointOk(n.entries, |n.table|, n.at[u]);
    }
  }

  // The users of a key: the threads between increment and decrement for it.
  function KeyUsers(s: State, k: Key): set<Thread> {
    set t | t in s.at && Uses(s.at[t]) && s.at[t].key == k
  }

  lemma KeyUsersAreEntryUsers(s: State, k: Key)
    requires Inv(s) && k in s.entries
    ensures KeyUsers(s, k) == Users(s.at, s.entries[k])
  {
    forall t | t in s.at && Uses(s.at[t]) ensures t in KeyUsers(s, k) <==> t in Users(s.at, s.entries[k]) {
      assert PointOk(s.entries, |s.table|, s.at[t]);
    }
  }

  // Everyone between increment and decrement for a key uses the entry that is in
  // the map, whose count is their number; and whenever the guard is free the
  // keys in the map are exactly those in use.
  lemma EntriesCountUsers(s: State, ls: seq<Label>, k: Key)
    requires Start(s)
    ensures
      var n := Run(s, ls);
      && (forall t :: t in KeyUsers(n, k) ==> k in n.entries && n.at[t].entry == n.entries[k])
      && (k in n.entries ==> n.entries[k] < |n.table| && n.table[n.entries[k]].references == |KeyUsers(n, k)|)
      && (n.guard == None ==> (k in n.entries <==> KeyUsers(n, k) != {}))
  {
    ReachableInv(s, ls);
    var n := Run(s, ls);
    forall t | t in KeyUsers(n, k) ensures k in n.entries && n.at[t].entry == n.entries[k] {
      assert PointOk(n.entries, |n.table|, n.at[t]);
    }
    if k in n.entries { KeyUsersAreEntryUsers(n, k); }
  }

  lemma NobodyLeft(s: State)
    requires Inv(s) && forall t :: t in s.at ==> s.at[t] == Outside
    ensures s.entries == map[] && s.guard == None
  {
    forall k ensures k !in s.entries {
      assert k in s.entries ==> Users(s.at, s.entries[k]) == {};
    }
  }

  // Once every thread is out again, interrupted or not, the registry is empty
  // and its guard free.
  lemma NothingLeaks(s: State, ls: seq<Label>)
    requires Start(s)
    ensures
      var n := Run(s, ls);
      (forall t :: t in n.at ==> n.at[t] == Outside) ==> n.entries == map[] && n.guard == None
  {
    ReachableInv(s, ls);
    if forall t :: t in Run(s, ls).at ==> Run(s, ls).at[t] == Outside { NobodyLeft(Run(s, ls)); }
  }

  // A thread that waits for a free lock gets in; a held lock is held by a thread
  // inside `hold` for the same key, so nobody waits on a lock that was lost.
  lemma NobodyWaitsInVain(s: State, ls: seq<Label>, t: Thread)
    requires Start(s)
    ensures
      var n := Run(s, ls);
      t in n.at && n.at[t].Waiting? ==>
        || Step(n, Label(t, Go)).at[t] == Inside(n.at[t].key, n.at[t].entry)
        || exists u :: u in n.at && u != t && n.at[u] == Inside(n.at[t].key, n.at[t].entry)
  {
    ReachableInv(s, ls);
    var n := Run(s, ls);
    if t in n.at && n.at[t].Waiting? && n.table[n.at[t].entry].holder.Some? {
      var u := n.table[n.at[t].entry].holder.value;
      assert PointOk(n.entries, |n.table|, n.at[t]) && PointOk(n.entries, |n.table|, n.at[u]);
      assert n.at[u] == Inside(n.at[t].key, n.at[t].entry);
    }
  }

  lemma GivesUp(s: State, t: Thread, key: Key, e: nat)
    requires t in s.at && s.at[t] == Waiting(key, e) && e < |s.table|
    ensures Step(s, Label(t, Interrupted)) == Move(s, t, Leaving(key, e))
  {
  }

  lemma Uncounts(s: State, t: Thread, key: Key, e: nat)
    requires t in s.at && s.at[t] == Leaving(key, e) && e < |s.table| && s.guard == None
    ensures
      Step(Step(s, Label(t, Go)), Label(t, Go)) ==
        State(Some(t), s.entries, s.table[e := Entry(s.table[e].references - 1, s.table[e].holder)],
              s.at[t := Dropped(key, e)])
  {
    var n := Step(s, Label(t, Go));
    assert n == State(Some(t), s.entries, s.table, s.at[t := Dropping(key, e)]);
    assert n.at[t := Dropped(key, e)] == s.at[t := Dropped(key, e)];
  }

  // A thread that is interrupted while it waits gives up: the lock stays with whoever
  // has it, and its entry loses one user before the thread is out.
  lemma InterruptedGivesUp(s: State, t: Thread, key: Key, e: nat)
    requires PointsOk(s.entries, |s.table|, s.at) && t in s.at && s.at[t] == Waiting(key, e) && s.guard == None
    ensures e < |s.table|
    ensures
      Step(Step(Step(s, Label(t, Interrupted)), Label(t, Go)), Label(t, Go)) ==
        State(Some(t), s.entries, s.table[e := Entry(s.table[e].references - 1, s.table[e].holder)],
              s.at[t := Dropped(key, e)])
  {
    assert PointOk(s.entries, |s.table|, s.at[t]);
    GivesUp(s, t, key, e);
    var n := Move(s, t, Leaving(key, e));
    Uncounts(n, t, key, e);
    assert n.at[t := Dropped(key, e)] == s.at[t := Dropped(key, e)];
  }

  // ----- everyone gets out -----

  // How many steps a call has left.
  function Rank(p: Point): nat {
    match p
    case Outside => 0
    case Dropped(_, _) => 1
    case Dropping(_, _) => 2
    case Leaving(_, _) => 3
    case Inside(_, _) => 4
    case Waiting(_, _) => 5
    case Counted(_, _) => 6
    case Found(_, _) => 7
    case Looking(_) => 8
  }

  ghost function Pick(at: map<Thread, Point>): (t: Thread)
    requires at != map[]
    ensures t in at
  {
    assert at.Keys != {};
    var t :| t in at.Keys;
    t
  }

  ghost function Total(at: map<Thread, Point>): nat
    decreases |at|
  {
    if at == map[] then 0 else Rank(at[Pick(at)]) + Total(at - {Pick(at)})
  }

  lemma {:induction false} TotalOf(at: map<Thread, Point>, t: Thread)
    requires t in at
    ensures Total(at) == Rank(at[t]) + Total(at - {t})
    decreases |at|
  {
    var u := Pick(at);
    if u != t {
      TotalOf(at - {u}, t);
      TotalOf(at - {t}, u);
      assert at - {u} - {t} == at - {t} - {u};
    }
  }

  lemma OneMoves(s: State, l: Label)
    requires !l.choice.Enter? && Step(s, l) != s
    ensures
      var n, t := Step(s, l), l.thread;
      t in s.at && t in n.at && n.at == s.at[t := n.at[t]] && Rank(n.at[t]) < Rank(s.at[t])
  {
  }

  // Every step but a new call brings its thread closer to the end of its call.
  lemma StepLowers(s: State, l: Label)
    requires !l.choice.Enter?
    ensures Step(s, l) == s || Total(Step(s, l).at) < Total(s.at)
  {
    if Step(s, l) != s {
      var t, after := l.thread, Step(s, l).at;
      OneMoves(s, l);
      TotalOf(s.at, t);
      TotalOf(after, t);
      assert after - {t} == s.at - {t};
    }
  }

  lemma LockIsFree(s: State, e: nat)
    requires HolderOk(s.table, s.at) && e < |s.table| && forall u :: u in s.at ==> !s.at[u].Inside?
    ensures s.table[e].holder == None
  {
    assert s.table[e].holder.Some? ==> InsideWith(s.at, s.table[e].holder.value, e);
  }

  lemma GoMoves(s: State, t: Thread)
    requires PointsOk(s.entries, |s.table|, s.at) && t in s.at && s.at[t] != Outside
    requires s.at[t].Leaving? ==> s.guard == None
    requires s.at[t].Waiting? && s.at[t].entry < |s.table| ==> s.table[s.at[t].entry].holder == None
    ensures Step(s, Label(t, Go)) != s
  {
    assert PointOk(s.entries, |s.table|, s.at[t]);
    assert Step(s, Label(t, Go)).at[t] != s.at[t];
  }

  // While somebody is in a call, somebody can go on.
  lemma SomebodyMoves(s: State) returns (t: Thread)
    requires Inv(s) && exists u :: u in s.at && s.at[u] != Outside
    ensures Step(s, Label(t, Go)) != s
  {
    if s.guard.Some? {
      t := s.guard.value;
      assert Guarded(s.at[t]);
    } else if u :| u in s.at && (s.at[u].Leaving? || s.at[u].Inside?) {
      t := u;
    } else {
      t :| t in s.at && s.at[t] != Outside;
      assert !Guarded(s.at[t]) && PointOk(s.entries, |s.table|, s.at[t]);
      LockIsFree(s, s.at[t].entry);
    }
    GoMoves(s, t);
  }

  // Whatever state the threads have reached, they can all leave without a new call
  // or an interrupt, in no more steps than their calls have left; and then nothing is
  // left of the registry.
  lemma {:induction false} EverybodyGetsOut(s: State) returns (ls: seq<Label>)
    requires Inv(s)
    ensures |ls| <= Total(s.at) && forall l :: l in ls ==> l.choice == Go
    ensures
      var n := Run(s, ls);
      (forall t :: t in n.at ==> n.at[t] == Outside) && n.entries == map[] && n.guard == None
    decreases Total(s.at)
  {
    if exists u :: u in s.at && s.at[u] != Outside {
      var t := SomebodyMoves(s);
      StepLowers(s, Label(t, Go));
      StepKeeps(s, Label(t, Go));
      var rest := EverybodyGetsOut(Step(s, Label(t, Go)));
      ls := [Label(t, Go)] + rest;
      assert ls[1..] == rest;
    } else {
      ls := [];
      NobodyLeft(s);
    }
  }
}
