// The registry of active sessions: unique usernames and wire USER_IDs.

module Registry {
  import opened Protocol

  datatype Record = Record(username: Option<Bytes>, userId: Option<nat>)

  datatype Refusal = UnknownSession | AlreadyAuthenticated | UsernameInUse | NoUserIdLeft | EmptyUsername

  datatype Reply = Granted(record: Record) | Refused(why: Refusal)

  // The registry's fields; `free` is the heap of released ids.
  datatype Fields = Fields(
    maximum: nat, sessions: map<nat, Record>, owners: map<Bytes, nat>,
    nextSession: nat, nextUser: nat, free: multiset<nat>)

  predicate Start(r: Fields) {
    && MIN_USER_ID <= r.maximum <= MAX_USER_ID
    && r == Fields(r.maximum, map[], map[], 1, MIN_USER_ID, multiset{})
  }

  // ----- invariant -----

  predicate Holds(sessions: map<nat, Record>, s: nat, id: nat) {
    s in sessions && sessions[s].userId == Some(id)
  }

  predicate Held(sessions: map<nat, Record>, id: nat) {
    exists s :: s in sessions && sessions[s].userId == Some(id)
  }

  // Usernames in the index and authenticated sessions are in bijection.
  predicate OwnersOk(sessions: map<nat, Record>, owners: map<Bytes, nat>) {
    && (forall u :: u in owners ==> owners[u] in sessions && sessions[owners[u]].username == Some(u))
    && (forall s :: s in sessions && sessions[s].username.Some? ==>
          sessions[s].username.value in owners && owners[sessions[s].username.value] == s)
  }

  predicate SameId(a: Record, b: Record) { a.userId.Some? && a.userId == b.userId }

  predicate SessionsOk(sessions: map<nat, Record>, nextSession: nat) {
    && (forall s :: s in sessions ==> 0 < s < nextSession)
    && (forall s :: s in sessions ==> (sessions[s].username.Some? <==> sessions[s].userId.Some?))
    && (forall s, t :: s in sessions && t in sessions && SameId(sessions[s], sessions[t]) ==> s == t)
  }

  // Ids in use and free ids partition [1, nextUser).
  ghost predicate IdsOk(sessions: map<nat, Record>, nextUser: nat, free: multiset<nat>) {
    && (forall i: nat :: free[i] <= 1)
    && (forall i: nat :: 1 <= i < nextUser ==> (free[i] == 1 <==> !Held(sessions, i)))
    && (forall i: nat :: !(1 <= i < nextUser) ==> free[i] == 0 && !Held(sessions, i))
  }

  ghost predicate Inv(r: Fields) {
    && MIN_USER_ID <= r.maximum <= MAX_USER_ID && MIN_USER_ID <= r.nextUser <= r.maximum + 1
    && 0 < r.nextSession
    && OwnersOk(r.sessions, r.owners)
    && SessionsOk(r.sessions, r.nextSession)
    && IdsOk(r.sessions, r.nextUser, r.free)
  }

  // ----- operations -----

  // The front of the heap.
  ghost function Smallest(free: multiset<nat>): (i: nat)
    requires free != multiset{}
    ensures i in free && forall j :: j in free ==> i <= j
  {
    var some :| some in free;
    SmallestFrom(free, some)
  }

  ghost function SmallestFrom(free: multiset<nat>, bound: nat): (i: nat)
    requires bound in free
    ensures i in free && forall j :: j in free ==> i <= j
    decreases bound
  {
    if j: nat :| j < bound && j in free then SmallestFrom(free, j) else bound
  }

  function Register(r: Fields): Fields {
    r.(sessions := r.sessions[r.nextSession := Record(None, None)], nextSession := r.nextSession + 1)
  }

  // _allocate_user_id: a released id first, then the next new one.
  ghost function NewId(r: Fields): Option<nat> {
    if r.free != multiset{} then Some(Smallest(r.free))
    else if r.nextUser > r.maximum then None
    else Some(r.nextUser)
  }

  // The reply to a claim as far as it does not depend on the ids.
  function Early(r: Fields, s: nat, username: Bytes): Option<Reply> {
    if username == [] then Some(Refused(EmptyUsername))
    else if s !in r.sessions then Some(Refused(UnknownSession))
    else if r.sessions[s].username.Some? then
      Some(if r.sessions[s].username.value == username then Granted(r.sessions[s]) else Refused(AlreadyAuthenticated))
    else if username in r.owners then Some(Refused(UsernameInUse))
    else None
  }

  function Bind(r: Fields, s: nat, username: Bytes, id: nat): Fields {
    r.(sessions := r.sessions[s := Record(Some(username), Some(id))], owners := r.owners[username := s])
  }

  ghost function Allocated(r: Fields, id: nat): Fields {
    if r.free != multiset{} then r.(free := r.free - multiset{id}) else r.(nextUser := id + 1)
  }

  ghost function Claim(r: Fields, s: nat, username: Bytes): (Fields, Reply) {
    var early := Early(r, s, username);
    if early.Some? then (r, early.value)
    else
      var id := NewId(r);
      if id.None? then (r, Refused(NoUserIdLeft))
      else (Bind(Allocated(r, id.value), s, username, id.value), Granted(Record(Some(username), id)))
  }

  function Release(r: Fields, s: nat): Fields {
    if s !in r.sessions then r
    else
      var record := r.sessions[s];
      var owners := if record.username.Some? then r.owners - {record.username.value} else r.owners;
      var free := if record.userId.Some? then r.free + multiset{record.userId.value} else r.free;
      r.(sessions := r.sessions - {s}, owners := owners, free := free)
  }

  datatype Op = Registering | Claiming(session: nat, username: Bytes) | Releasing(session: nat)

  ghost function Apply(r: Fields, op: Op): Fields {
    match op
    case Registering => Register(r)
    case Claiming(s, username) => Claim(r, s, username).0
    case Releasing(s) => Release(r, s)
  }

  ghost function Run(r: Fields, ops: seq<Op>): Fields
    decreases |ops|
  {
    if ops == [] then r else Run(Apply(r, ops[0]), ops[1..])
  }

  // ----- every operation keeps the invariant -----

  lemma HeldAfter(sessions: map<nat, Record>, s: nat, record: Record, i: nat)
    ensures Held(sessions[s := record], i) <==>
      record.userId == Some(i) || exists t :: t in sessions && t != s && sessions[t].userId == Some(i)
  {
    var after := sessions[s := record];
    if record.userId == Some(i) { assert s in after; }
    if t :| t in sessions && t != s && sessions[t].userId == Some(i) { assert t in after && after[t] == sessions[t]; }
  }

  lemma RegisterKeeps(r: Fields)
    requires Inv(r)
    ensures Inv(Register(r))
  {
    var n := Register(r);
    forall i: nat ensures Held(n.sessions, i) <==> Held(r.sessions, i) {
      HeldAfter(r.sessions, r.nextSession, Record(None, None), i);
    }
  }

  lemma NewIdIsUnused(r: Fields)
    requires Inv(r) && NewId(r).Some?
    ensures
      var id := NewId(r).value;
      && 1 <= id <= r.maximum && !Held(r.sessions, id)
      && (forall j :: 1 <= j < id ==> Held(r.sessions, j))
  {
  }

  lemma BindNames(r: Fields, s: nat, username: Bytes, id: nat)
    requires OwnersOk(r.sessions, r.owners) && SessionsOk(r.sessions, r.nextSession)
    requires Early(r, s, username).None? && !Held(r.sessions, id)
    ensures
      var n := Bind(r, s, username, id);
      OwnersOk(n.sessions, n.owners) && SessionsOk(n.sessions, n.nextSession)
  {
  }

  lemma BindIds(sessions: map<nat, Record>, s: nat, record: Record, nextUser: nat, free: multiset<nat>,
      id: nat, next: nat, rest: multiset<nat>)
    requires IdsOk(sessions, nextUser, free) && s in sessions && sessions[s].userId.None? && record.userId == Some(id)
    requires (id in free && rest == free - multiset{id} && next == nextUser)
      || (id == nextUser >= 1 && rest == free && next == nextUser + 1)
    ensures IdsOk(sessions[s := record], next, rest)
  {
    var after := sessions[s := record];
    forall i: nat ensures Held(after, i) <==> i == id || Held(sessions, i) {
      HeldAfter(sessions, s, record, i);
    }
    assert 1 <= id < next && free[id] <= 1;
    forall i: nat | !(1 <= i < next) ensures rest[i] == 0 && !Held(after, i) {
      assert free[i] == 0 && !Held(sessions, i);
    }
  }

  lemma BindKeeps(r: Fields, s: nat, username: Bytes)
    requires Inv(r) && Early(r, s, username).None? && NewId(r).Some?
    ensures Inv(Bind(Allocated(r, NewId(r).value), s, username, NewId(r).value))
  {
    var id := NewId(r).value;
    var m := Allocated(r, id);
    NewIdIsUnused(r);
    BindNames(m, s, username, id);
    BindIds(r.sessions, s, Record(Some(username), Some(id)), r.nextUser, r.free, id, m.nextUser, m.free);
  }

  lemma ReleaseKeeps(r: Fields, s: nat)
    requires Inv(r)
    ensures Inv(Release(r, s))
  {
    if s in r.sessions {
      var n := Release(r, s);
      forall i: nat ensures Held(n.sessions, i) <==> Held(r.sessions, i) && r.sessions[s].userId != Some(i) {
        if t :| t in r.sessions && r.sessions[t].userId == Some(i) { assert t != s ==> t in n.sessions; }
      }
    }
  }

  lemma ClaimKeeps(r: Fields, s: nat, username: Bytes)
    requires Inv(r)
    ensures Inv(Claim(r, s, username).0)
  {
    if Early(r, s, username).None? && NewId(r).Some? { BindKeeps(r, s, username); }
  }

  lemma ApplyKeeps(r: Fields, op: Op)
    requires Inv(r)
    ensures Inv(Apply(r, op))
  {
    match op
    case Registering => RegisterKeeps(r);
    case Claiming(s, username) => ClaimKeeps(r, s, username);
    case Releasing(s) => ReleaseKeeps(r, s);
  }

  lemma {:induction false} RunKeeps(r: Fields, ops: seq<Op>)
    requires Inv(r)
    ensures Inv(Run(r, ops))
    decreases |ops|
  {
    if ops != [] {
      ApplyKeeps(r, ops[0]);
      RunKeeps(Apply(r, ops[0]), ops[1..]);
    }
  }

  lemma StartInv(r: Fields)
    requires Start(r)
    ensures Inv(r)
  {
  }

  // ----- the simple registry it refines -----

  // Only the sessions are kept; indexes, counters and the heap are gone. A claim
  // is decided by the usernames in use and gets the least id not in use.
  ghost predicate LeastUnused(sessions: map<nat, Record>, id: nat) {
    1 <= id && !Held(sessions, id) && forall j :: 1 <= j < id ==> Held(sessions, j)
  }

  ghost predicate SimpleClaim(maximum: nat, sessions: map<nat, Record>, s: nat, username: Bytes,
      after: map<nat, Record>, reply: Reply)
  {
    if username == [] then after == sessions && reply == Refused(EmptyUsername)
    else if s !in sessions then after == sessions && reply == Refused(UnknownSession)
    else if sessions[s].username == Some(username) then after == sessions && reply == Granted(sessions[s])
    else if sessions[s].username.Some? then after == sessions && reply == Refused(AlreadyAuthenticated)
    else if exists t :: t in sessions && sessions[t].username == Some(username) then
      after == sessions && reply == Refused(UsernameInUse)
    else if forall i :: 1 <= i <= maximum ==> Held(sessions, i) then after == sessions && reply == Refused(NoUserIdLeft)
    else
      && reply.Granted? && reply.record.username == Some(username) && reply.record.userId.Some?
      && reply.record.userId.value <= maximum && LeastUnused(sessions, reply.record.userId.value)
      && after == sessions[s := reply.record]
  }

  lemma ClaimRefines(r: Fields, s: nat, username: Bytes)
    requires Inv(r)
    ensures
      var (after, reply) := Claim(r, s, username);
      && SimpleClaim(r.maximum, r.sessions, s, username, after.sessions, reply)
      && (reply.Refused? ==> after == r)
  {
    assert username in r.owners <==> exists t :: t in r.sessions && r.sessions[t].username == Some(username);
    if NewId(r).Some? {
      NewIdIsUnused(r);
    } else {
      assert forall i: nat :: 1 <= i <= r.maximum ==> r.free[i] == 0;
    }
  }

  lemma LeastUnusedIsUnique(sessions: map<nat, Record>, i: nat, j: nat)
    requires LeastUnused(sessions, i) && LeastUnused(sessions, j)
    ensures i == j
  {
    assert i < j ==> Held(sessions, i);
    assert j < i ==> Held(sessions, j);
  }

  // Over every run: names and sessions in bijection, ids in use and free ids a
  // partition of [1, next), and claims those of the simple registry.
  lemma EveryRun(r: Fields, ops: seq<Op>, s: nat, username: Bytes)
    requires Start(r)
    ensures
      var n := Run(r, ops);
      && OwnersOk(n.sessions, n.owners)
      && IdsOk(n.sessions, n.nextUser, n.free)
      && SimpleClaim(n.maximum, n.sessions, s, username, Claim(n, s, username).0.sessions, Claim(n, s, username).1)
  {
    StartInv(r);
    RunKeeps(r, ops);
    ClaimRefines(Run(r, ops), s, username);
  }

  // ----- capacity -----

  predicate HeldAmong(sessions: map<nat, Record>, among: set<nat>, id: nat) {
    exists s :: s in among && Holds(sessions, s, id)
  }

  // A session holds one id, so k ids in use take k sessions.
  lemma {:induction false} HeldCount(sessions: map<nat, Record>, among: set<nat>, k: nat)
    requires forall j: nat :: 1 <= j <= k ==> HeldAmong(sessions, among, j)
    ensures k <= |among|
  {
    if k > 0 {
      assert HeldAmong(sessions, among, k);
      var s :| s in among && Holds(sessions, s, k);
      forall j: nat | 1 <= j <= k - 1 ensures HeldAmong(sessions, among - {s}, j) {
        assert HeldAmong(sessions, among, j);
        var t :| t in among && Holds(sessions, t, j);
        assert t in among - {s};
      }
      HeldCount(sessions, among - {s}, k - 1);
    }
  }

  // A session without an id is not needed to hold those in use.
  lemma OthersHold(sessions: map<nat, Record>, s: nat, id: nat)
    requires Held(sessions, id) && s in sessions && sessions[s].userId.None?
    ensures HeldAmong(sessions, sessions.Keys - {s}, id)
  {
    var t :| t in sessions && sessions[t].userId == Some(id);
    assert Holds(sessions, t, id);
  }

  // A new id never exceeds the number of active sessions, and a claim runs out of
  // ids only when every id up to the maximum is in use, so with fewer sessions
  // than ids it never does.
  lemma ClaimCapacity(r: Fields, s: nat, username: Bytes)
    requires Inv(r) && Early(r, s, username).None?
    ensures NewId(r).Some? ==> NewId(r).value <= |r.sessions|
    ensures NewId(r).None? ==> r.maximum < |r.sessions|
  {
    var others := r.sessions.Keys - {s};
    if NewId(r).Some? {
      NewIdIsUnused(r);
      forall j: nat | 1 <= j < NewId(r).value ensures HeldAmong(r.sessions, others, j) { OthersHold(r.sessions, s, j); }
      HeldCount(r.sessions, others, NewId(r).value - 1);
    } else {
      forall j: nat | 1 <= j <= r.maximum ensures HeldAmong(r.sessions, others, j) {
        assert r.free[j] == 0;
        OthersHold(r.sessions, s, j);
      }
      HeldCount(r.sessions, others, r.maximum);
    }
  }

  // Whether a run keeps to at most `most` active sessions.
  ghost predicate Bounded(r: Fields, ops: seq<Op>, most: nat)
    decreases |ops|
  {
    |r.sessions| <= most && (ops != [] ==> Bounded(Apply(r, ops[0]), ops[1..], most))
  }

  ghost predicate IdsUpTo(r: Fields, most: nat) {
    forall i: nat :: Held(r.sessions, i) ==> 1 <= i <= most
  }

  lemma BindHeld(sessions: map<nat, Record>, s: nat, record: Record, i: nat)
    requires Held(sessions[s := record], i)
    ensures Held(sessions, i) || record.userId == Some(i)
  {
    HeldAfter(sessions, s, record, i);
  }

  lemma DropHeld(sessions: map<nat, Record>, s: nat, i: nat)
    requires Held(sessions - {s}, i)
    ensures Held(sessions, i)
  {
    var t :| t in sessions - {s} && (sessions - {s})[t].userId == Some(i);
    assert t in sessions;
  }

  // A step puts no id in use but the one a claim grants.
  lemma ApplyHeld(r: Fields, op: Op, i: nat)
    requires Held(Apply(r, op).sessions, i)
    ensures Held(r.sessions, i)
      || (op.Claiming? && Early(r, op.session, op.username).None? && NewId(r) == Some(i))
  {
    match op
    case Registering => BindHeld(r.sessions, r.nextSession, Record(None, None), i);
    case Claiming(s, username) =>
      if Early(r, s, username).None? && NewId(r).Some? {
        BindHeld(r.sessions, s, Record(Some(username), NewId(r)), i);
      }
    case Releasing(s) =>
      if s in r.sessions { DropHeld(r.sessions, s, i); }
  }

  lemma ApplyIds(r: Fields, op: Op, most: nat)
    requires Inv(r) && IdsUpTo(r, most) && |r.sessions| <= most
    ensures IdsUpTo(Apply(r, op), most)
  {
    forall i: nat | Held(Apply(r, op).sessions, i) ensures 1 <= i <= most {
      ApplyHeld(r, op, i);
      if !Held(r.sessions, i) {
        NewIdIsUnused(r);
        ClaimCapacity(r, op.session, op.username);
      }
    }
  }

  // With at most `most` sessions active at any time, no id exceeds `most`; and no
  // claim is refused for lack of ids if there are as many ids as that.
  lemma {:induction false} IdsStaySmall(r: Fields, ops: seq<Op>, most: nat)
    requires Inv(r) && IdsUpTo(r, most) && Bounded(r, ops, most)
    ensures
      var n := Run(r, ops);
      && Inv(n) && IdsUpTo(n, most)
      && forall s, username :: most <= n.maximum ==> Claim(n, s, username).1 != Refused(NoUserIdLeft)
    decreases |ops|
  {
    if ops == [] {
      forall s, username | most <= r.maximum && Early(r, s, username).None? ensures NewId(r).Some? {
        ClaimCapacity(r, s, username);
      }
    } else {
      ApplyKeeps(r, ops[0]);
      ApplyIds(r, ops[0], most);
      IdsStaySmall(Apply(r, ops[0]), ops[1..], most);
    }
  }

  // ----- the object -----

  class ActiveSessionRegistry {
    const maximumUserId: nat
    var sessions: map<nat, Record>
    var usernameOwners: map<Bytes, nat>
    var nextSessionId: nat
    var nextUserId: nat
    var freeUserIds: multiset<nat>

    function State(): Fields
      reads this
    {
      Fields(maximumUserId, sessions, usernameOwners, nextSessionId, nextUserId, freeUserIds)
    }

    ghost predicate Valid()
      reads this
    {
      Inv(State())
    }

    constructor (maximumUserId: nat)
      requires MIN_USER_ID <= maximumUserId <= MAX_USER_ID
      ensures Valid() && Start(State()) && State().maximum == maximumUserId
    {
      this.maximumUserId := maximumUserId;
      sessions, usernameOwners, nextSessionId, nextUserId, freeUserIds := map[], map[], 1, MIN_USER_ID, multiset{};
    }

    method RegisterSession() returns (id: nat)
      requires Valid()
      modifies this
      ensures Valid() && State() == Register(old(State()))
      ensures id == old(nextSessionId) && id !in old(sessions) && sessions == old(sessions)[id := Record(None, None)]
    {
      RegisterKeeps(State());
      id := nextSessionId;
      nextSessionId := nextSessionId + 1;
      sessions := sessions[id := Record(None, None)];
    }

    method AllocateUserId() returns (id: Option<nat>)
      modifies `freeUserIds, `nextUserId
      ensures id == NewId(old(State()))
      ensures State() == if id.Some? then Allocated(old(State()), id.value) else old(State())
    {
      if freeUserIds != multiset{} {
        ghost var least := Smallest(freeUserIds);
        var first :| first in freeUserIds && forall j :: j in freeUserIds ==> first <= j;
        freeUserIds := freeUserIds - multiset{first};
        return Some(first);
      }
      if nextUserId > maximumUserId { return None; }
      id := Some(nextUserId);
      nextUserId := nextUserId + 1;
    }

    // A refusal changes nothing; what a grant means is stated by ClaimRefines.
    method ClaimUsername(session: nat, username: Bytes) returns (reply: Reply)
      requires Valid()
      modifies this
      ensures Valid() && (State(), reply) == Claim(old(State()), session, username)
      ensures reply.Refused? ==> State() == old(State())
    {
      ClaimKeeps(State(), session, username);
      if username == [] { return Refused(EmptyUsername); }
      if session !in sessions { return Refused(UnknownSession); }
      var current := sessions[session];
      if current.username.Some? {
        if current.username.value == username { return Granted(current); }
        return Refused(AlreadyAuthenticated);
      }
      if username in usernameOwners { return Refused(UsernameInUse); }
      var id := AllocateUserId();
      if id.None? { return Refused(NoUserIdLeft); }
      var claimed := Record(Some(username), id);
      sessions := sessions[session := claimed];
      usernameOwners := usernameOwners[username := session];
      reply := Granted(claimed);
    }

    method ReleaseSession(session: nat) returns (record: Option<Record>)
      requires Valid()
      modifies this
      ensures Valid() && State() == Release(old(State()), session)
      ensures sessions == old(sessions) - {session}
      ensures record == if session in old(sessions) then Some(old(sessions)[session]) else None
    {
      ReleaseKeeps(State(), session);
      if session !in sessions { return None; }
      var popped := sessions[session];
      sessions := sessions - {session};
      if popped.username.Some? { usernameOwners := usernameOwners - {popped.username.value}; }
      if popped.userId.Some? { freeUserIds := freeUserIds + multiset{popped.userId.value}; }
      record := Some(popped);
    }
  }
}
