// The group of client threads behind one listener: slots, the worker table and
// the registry, over every interleaving of the accepting thread and the workers.

module Workers {
  import opened Protocol

  // Where a worker stands. It is NotStarted until its thread is launched, and
  // Cancelled if that never happens; the last four are the steps of its finally
  // block.
  datatype Point =
    | NotStarted
    | Cancelled
    | Started
    | Serving
    | Finishing(registered: bool)
    | Released
    | Popped
    | Done

  // Where the accepting thread stands: between calls, with a slot but no worker
  // yet, about to start a worker, in the except block of a start that raised,
  // before and after it has taken the worker from the table, joining the workers
  // it found at close, done, or calling `start` once more after that.
  datatype Accepting =
    | Listening
    | Admitted
    | Added(worker: nat)
    | Undoing(worker: nat)
    | Returning(worker: nat)
    | Joining(workers: set<nat>)
    | Closed
    | Refusing

  // Workers are named by the order in which they are made. `table` has those in
  // _workers, `active` those whose session is in the registry. `overReleased`
  // says that a release found the semaphore full and raised.
  datatype State = State(
    max: nat, permits: nat, overReleased: bool, closing: bool, accepting: Accepting,
    at: seq<Point>, table: set<nat>, active: set<nat>)

  // The accepting thread goes on, fails to launch its worker, is interrupted
  // after it has launched it and before `start` returns, is asked to close or sees
  // a joined worker end; worker w goes on, or fails to register.
  datatype Label =
    | Accept
    | StartFails
    | StartInterrupted
    | Close
    | Join(w: nat)
    | Work(w: nat)
    | RegisterFails(w: nat)

  predicate Start(s: State) {
    s.max > 0 && s == State(s.max, s.max, false, false, Listening, [], {}, {})
  }

  function Put(s: State, w: nat, p: Point): State
    requires w < |s.at|
  {
    s.(at := s.at[w := p])
  }

  // BoundedSemaphore.release
  function Release(s: State): State {
    if s.permits < s.max then s.(permits := s.permits + 1) else s.(overReleased := true)
  }

  // `start`, one lock section or call at a time.
  function AcceptStep(s: State): State {
    match s.accepting
    case Listening => if s.permits == 0 then s else s.(permits := s.permits - 1, accepting := Admitted)
    case Admitted =>
      s.(at := s.at + [NotStarted], table := s.table + {|s.at|}, accepting := Added(|s.at|))
    case Added(w) => if w >= |s.at| then s else Put(s, w, Started).(accepting := Listening)
    case Undoing(w) =>
      if w >= |s.at| then s
      else
        var popped := s.(table := s.table - {w}, accepting := Returning(w));
        if s.at[w].NotStarted? then Put(popped, w, Cancelled) else popped
    case Returning(w) =>
      if w >= |s.at| then s
      else
        var back := Release(s).(accepting := Listening);
        if s.at[w].Cancelled? then Put(back, w, Done) else back
    case Joining(ws) => if ws == {} then s.(accepting := Closed) else s
    case Closed => if s.permits == 0 then s else s.(permits := s.permits - 1, accepting := Refusing)
    case Refusing => Release(s).(accepting := Closed)
  }

  // `start` raises, with its thread launched or not.
  function StartRaises(s: State, launched: bool): State {
    if s.accepting.Added? && s.accepting.worker < |s.at| then
      var w := s.accepting.worker;
      (if launched then Put(s, w, Started) else s).(accepting := Undoing(w))
    else s
  }

  // _run_client
  function WorkStep(s: State, w: nat, fails: bool): State {
    if w >= |s.at| then s
    else
      match s.at[w]
      case Started =>
        if fails then Put(s, w, Finishing(false)) else Put(s, w, Serving).(active := s.active + {w})
      case Serving => Put(s, w, Finishing(true))
      case Finishing(registered) => Put(s, w, Released).(active := if registered then s.active - {w} else s.active)
      case Released => Put(s, w, Popped).(table := s.table - {w})
      case Popped => Release(Put(s, w, Done))
      case _ => s
  }

  function Step(s: State, l: Label): State {
    match l
    case Accept => AcceptStep(s)
    case StartFails => StartRaises(s, false)
    case StartInterrupted => StartRaises(s, true)
    case Close => if s.accepting.Listening? then s.(closing := true, accepting := Joining(s.table)) else s
    case Join(w) =>
      if s.accepting.Joining? && w < |s.at| && s.at[w].Done? then
        s.(accepting := Joining(s.accepting.workers - {w}))
      else s
    case Work(w) => WorkStep(s, w, false)
    case RegisterFails(w) => WorkStep(s, w, true)
  }

  function Run(s: State, ls: seq<Label>): State
    decreases |ls|
  {
    if ls == [] then s else Run(Step(s, ls[0]), ls[1..])
  }

  // ----- invariant -----

  predicate Listed(p: Point) { !p.Cancelled? && !p.Popped? && !p.Done? }

  predicate Registered(p: Point) { p.Serving? || (p.Finishing? && p.registered) }

  function Holding(at: seq<Point>): set<nat> { set w: nat | w < |at| && !at[w].Done? }

  function Table(at: seq<Point>): set<nat> { set w: nat | w < |at| && Listed(at[w]) }

  function Active(at: seq<Point>): set<nat> { set w: nat | w < |at| && Registered(at[w]) }

  // Slots in use: one for each worker that is not done, and one that the
  // accepting thread has taken for no worker yet.
  function Held(s: State): nat {
    |Holding(s.at)| + if s.accepting.Admitted? || s.accepting.Refusing? then 1 else 0
  }

  predicate SlotsOk(s: State) { s.permits + Held(s) == s.max && !s.overReleased }

  predicate SetsOk(s: State) { s.table == Table(s.at) && s.active == Active(s.at) }

  predicate Inv(s: State) {
    && SlotsOk(s) && SetsOk(s) && AcceptingOk(s.accepting, s.at)
    && (s.closing <==> s.accepting.Joining? || s.accepting.Closed? || s.accepting.Refusing?)
  }

  // What the accepting thread may rely on: its new worker has not started, and
  // whom it does not wait for has left the table.
  predicate AcceptingOk(a: Accepting, at: seq<Point>) {
    && (forall w :: 0 <= w < |at| && at[w].NotStarted? ==> a == Added(w) || a == Undoing(w))
    && (forall w :: 0 <= w < |at| && at[w].Cancelled? ==> a == Returning(w))
    && match a
       case Added(w) => w < |at| && at[w].NotStarted?
       case Undoing(w) => w < |at| && at[w].NotStarted?
       case Returning(w) => w < |at| && at[w].Cancelled?
       case Joining(ws) => forall w :: 0 <= w < |at| && Listed(at[w]) ==> w in ws
       case Closed => forall w :: 0 <= w < |at| ==> !Listed(at[w])
       case Refusing => forall w :: 0 <= w < |at| ==> !Listed(at[w])
       case _ => true
  }

  lemma HoldingPut(at: seq<Point>, w: nat, p: Point)
    requires w < |at| && !at[w].Done?
    ensures |Holding(at[w := p])| == |Holding(at)| - if p.Done? then 1 else 0
  {
    assert w in Holding(at);
    assert Holding(at[w := p]) == if p.Done? then Holding(at) - {w} else Holding(at);
  }

  lemma TablePut(at: seq<Point>, w: nat, p: Point)
    requires w < |at|
    ensures Table(at[w := p]) == if Listed(p) then Table(at) + {w} else Table(at) - {w}
    ensures Active(at[w := p]) == if Registered(p) then Active(at) + {w} else Active(at) - {w}
    ensures w in Table(at) <==> Listed(at[w])
    ensures w in Active(at) <==> Registered(at[w])
  {
  }

  lemma HoldingAdd(at: seq<Point>)
    ensures |Holding(at + [NotStarted])| == |Holding(at)| + 1
  {
    assert Holding(at + [NotStarted]) == Holding(at) + {|at|};
  }

  lemma TableAdd(at: seq<Point>)
    ensures Table(at + [NotStarted]) == Table(at) + {|at|}
    ensures Active(at + [NotStarted]) == Active(at)
  {
  }

  lemma AcceptSlots(s: State)
    requires SlotsOk(s) && AcceptingOk(s.accepting, s.at)
    ensures SlotsOk(AcceptStep(s))
  {
    match s.accepting
    case Admitted => HoldingAdd(s.at);
    case Added(w) => HoldingPut(s.at, w, Started);
    case Undoing(w) => HoldingPut(s.at, w, Cancelled);
    case Returning(w) => HoldingPut(s.at, w, Done);
    case _ =>
  }

  lemma AcceptSets(s: State)
    requires SetsOk(s) && AcceptingOk(s.accepting, s.at)
    ensures SetsOk(AcceptStep(s))
  {
    match s.accepting
    case Admitted => TableAdd(s.at);
    case Added(w) => TablePut(s.at, w, Started);
    case Undoing(w) => TablePut(s.at, w, Cancelled);
    case Returning(w) => TablePut(s.at, w, Done);
    case _ =>
  }

  lemma AcceptAccepting(s: State)
    requires SetsOk(s) && AcceptingOk(s.accepting, s.at)
    ensures var n := AcceptStep(s); AcceptingOk(n.accepting, n.at)
  {
  }

  lemma AcceptKeeps(s: State)
    requires Inv(s)
    ensures Inv(AcceptStep(s))
  {
    AcceptSlots(s);
    AcceptSets(s);
    AcceptAccepting(s);
  }

  lemma WorkSets(s: State, w: nat, fails: bool)
    requires SetsOk(s)
    ensures SetsOk(WorkStep(s, w, fails))
  {
    var n := WorkStep(s, w, fails);
    if n != s { TablePut(s.at, w, n.at[w]); }
  }

  lemma WorkSlots(s: State, w: nat, fails: bool)
    requires SlotsOk(s)
    ensures SlotsOk(WorkStep(s, w, fails))
  {
    var n := WorkStep(s, w, fails);
    if n != s { HoldingPut(s.at, w, n.at[w]); }
  }

  // What a worker's step does to its place.
  lemma WorkPlace(s: State, w: nat, fails: bool)
    ensures
      var n := WorkStep(s, w, fails);
      n == s || (
        && w < |s.at| && w < |n.at| && n.at == s.at[w := n.at[w]] && n.accepting == s.accepting && n.max == s.max
        && !s.at[w].Done? && !n.at[w].NotStarted? && !n.at[w].Cancelled?
        && (Listed(n.at[w]) ==> Listed(s.at[w])))
  {
  }

  lemma PlaceAccepting(a: Accepting, at: seq<Point>, w: nat, q: Point)
    requires AcceptingOk(a, at) && w < |at| && !at[w].NotStarted? && !at[w].Cancelled?
    requires !q.NotStarted? && !q.Cancelled? && (Listed(q) ==> Listed(at[w]))
    ensures AcceptingOk(a, at[w := q])
  {
  }

  lemma WorkAccepting(s: State, w: nat, fails: bool)
    requires AcceptingOk(s.accepting, s.at)
    ensures var n := WorkStep(s, w, fails); AcceptingOk(n.accepting, n.at)
  {
    var n := WorkStep(s, w, fails);
    WorkPlace(s, w, fails);
    if n != s { PlaceAccepting(s.accepting, s.at, w, n.at[w]); }
  }

  lemma WorkKeeps(s: State, w: nat, fails: bool)
    requires Inv(s)
    ensures Inv(WorkStep(s, w, fails))
  {
    WorkSlots(s, w, fails);
    WorkSets(s, w, fails);
    WorkAccepting(s, w, fails);
  }

  // A `start` is interrupted after it has launched its thread.
  predicate Interrupts(s: State, l: Label) { l.StartInterrupted? && s.accepting.Added? }

  // It is at some point of the run.
  predicate Interrupted(s: State, ls: seq<Label>)
    decreases |ls|
  {
    ls != [] && (Interrupts(s, ls[0]) || Interrupted(Step(s, ls[0]), ls[1..]))
  }

  lemma StepKeeps(s: State, l: Label)
    requires Inv(s) && !Interrupts(s, l)
    ensures Inv(Step(s, l))
  {
    match l
    case Accept => AcceptKeeps(s);
    case Work(w) => WorkKeeps(s, w, false);
    case RegisterFails(w) => WorkKeeps(s, w, true);
    case _ =>
  }

  lemma {:induction false} RunKeeps(s: State, ls: seq<Label>)
    requires Inv(s) && !Interrupted(s, ls)
    ensures Inv(Run(s, ls)) && Run(s, ls).max == s.max
    decreases |ls|
  {
    if ls != [] {
      StepKeeps(s, ls[0]);
      RunKeeps(Step(s, ls[0]), ls[1..]);
    }
  }

  // ----- what every run keeps in which no start is interrupted -----

  // Free and held slots are always all the slots there are, so at most `max`
  // clients are served; who is registered is in the table, who is in the table
  // holds a slot.
  lemma Conservation(s: State, ls: seq<Label>)
    requires Start(s) && !Interrupted(s, ls)
    ensures
      var n := Run(s, ls);
      && n.permits + Held(n) == s.max
      && n.active <= n.table <= Holding(n.at) && |n.active| <= |n.table| <= Held(n) <= s.max
  {
    RunKeeps(s, ls);
    var n := Run(s, ls);
    Subset(n.active, n.table);
    Subset(n.table, Holding(n.at));
  }

  lemma {:induction false} Subset(a: set<nat>, b: set<nat>)
    requires a <= b
    ensures |a| <= |b|
  {
    if a != {} {
      var x :| x in a;
      Subset(a - {x}, b - {x});
    }
  }

  // The semaphore is never released more often than it was acquired.
  lemma NeverOverReleased(s: State, ls: seq<Label>)
    requires Start(s) && !Interrupted(s, ls)
    ensures !Run(s, ls).overReleased
  {
    RunKeeps(s, ls);
  }

  lemma ThreeSteps(s: State, a: Label, b: Label, c: Label)
    ensures Run(s, [a, b, c]) == Step(Step(Step(s, a), b), c)
  {
    assert [a, b, c][1..] == [b, c] && [b, c][1..] == [c] && [c][1..] == [];
    var t := Step(s, a);
    assert Run(t, [b, c]) == Run(Step(t, b), [c]);
    assert Run(Step(t, b), [c]) == Step(Step(t, b), c);
  }

  // A client is turned away exactly when every slot is held; otherwise it takes one,
  // and its worker runs and is in the table when `start` returns.
  lemma Admission(s: State, ls: seq<Label>)
    requires Start(s) && !Interrupted(s, ls) && Run(s, ls).accepting.Listening?
    ensures
      var n := Run(s, ls);
      if |Holding(n.at)| == s.max then Step(n, Accept) == n
      else
        && n.permits == s.max - |Holding(n.at)| > 0
        && Run(n, [Accept, Accept, Accept]) ==
             n.(permits := n.permits - 1, at := n.at + [Started], table := n.table + {|n.at|})
  {
    RunKeeps(s, ls);
    var n := Run(s, ls);
    ThreeSteps(n, Accept, Accept, Accept);
    assert (n.at + [NotStarted])[|n.at| := Started] == n.at + [Started];
  }

  predicate ShutDown(s: State) { s.accepting.Joining? || s.accepting.Closed? || s.accepting.Refusing? }

  lemma StepShutDown(s: State, l: Label)
    requires ShutDown(s)
    ensures ShutDown(Step(s, l)) && |Step(s, l).at| == |s.at|
  {
  }

  // Once close has begun there are no new workers, and a client that is accepted
  // after it has returned gives its slot back.
  lemma {:induction false} NoWorkerAfterClose(s: State, more: seq<Label>)
    requires ShutDown(s)
    ensures ShutDown(Run(s, more)) && |Run(s, more).at| == |s.at|
    ensures
      s.accepting.Closed? && 0 < s.permits <= s.max ==>
        Step(s, Accept) == s.(permits := s.permits - 1, accepting := Refusing) && Step(Step(s, Accept), Accept) == s
    decreases |more|
  {
    if more != [] {
      StepShutDown(s, more[0]);
      NoWorkerAfterClose(Step(s, more[0]), more[1..]);
    }
  }

  // A worker that has left the table gives its slot back and ends.
  lemma LastStep(s: State, w: nat)
    requires SlotsOk(s) && w < |s.at| && s.at[w].Popped?
    ensures Step(s, Work(w)).permits == s.permits + 1 && Step(s, Work(w)).at[w].Done?
  {
    HoldingPut(s.at, w, Done);
    assert w in Holding(s.at);
  }

  lemma EmptyWhenClosed(s: State)
    requires SetsOk(s) && AcceptingOk(s.accepting, s.at) && s.accepting.Closed?
    ensures s.table == {} && s.active == {}
    ensures forall w: nat :: w < |s.at| && !s.at[w].Done? ==> s.at[w].Popped?
  {
  }

  // When close has returned no worker is in the table and no session in the
  // registry, and a worker that has not ended has only its slot to give back.
  lemma AfterClose(s: State, ls: seq<Label>)
    requires Start(s) && !Interrupted(s, ls)
    ensures
      var n := Run(s, ls);
      n.accepting.Closed? ==>
        && n.table == {} && n.active == {}
        && forall w: nat :: w < |n.at| && !n.at[w].Done? ==>
             n.at[w].Popped? && Step(n, Work(w)).permits == n.permits + 1 && Step(n, Work(w)).at[w].Done?
  {
    RunKeeps(s, ls);
    var n := Run(s, ls);
    if n.accepting.Closed? {
      EmptyWhenClosed(n);
      forall w: nat | w < |n.at| && !n.at[w].Done?
        ensures Step(n, Work(w)).permits == n.permits + 1 && Step(n, Work(w)).at[w].Done?
      {
        LastStep(n, w);
      }
    }
  }

  // ----- when close returns with every slot free -----

  // At the moment close takes its snapshot: every slot is free or belongs to a
  // worker in the table.
  predicate AllListed(s: State) { s.permits + |s.table| == s.max }

  lemma AllListedMeans(s: State)
    requires Inv(s) && s.accepting.Listening?
    ensures AllListed(s) <==> forall w :: 0 <= w < |s.at| ==> !s.at[w].Popped?
  {
    Subset(s.table, Holding(s.at));
    if forall w :: 0 <= w < |s.at| ==> !s.at[w].Popped? {
      assert s.table == Holding(s.at);
    } else {
      var w :| 0 <= w < |s.at| && s.at[w].Popped?;
      assert w in Holding(s.at) && w !in s.table;
      Subset(s.table, Holding(s.at) - {w});
    }
  }

  // Whoever has not ended is being joined.
  predicate AllJoined(s: State) {
    match s.accepting
    case Joining(ws) => forall w :: 0 <= w < |s.at| && !s.at[w].Done? ==> w in ws
    case Closed => forall w :: 0 <= w < |s.at| ==> s.at[w].Done?
    case Refusing => forall w :: 0 <= w < |s.at| ==> s.at[w].Done?
    case _ => false
  }

  lemma WorkJoined(s: State, w: nat, fails: bool)
    requires AllJoined(s)
    ensures AllJoined(WorkStep(s, w, fails))
  {
    WorkPlace(s, w, fails);
  }

  lemma StepJoined(s: State, l: Label)
    requires AllJoined(s)
    ensures AllJoined(Step(s, l))
  {
    match l
    case Work(w) => WorkJoined(s, w, false);
    case RegisterFails(w) => WorkJoined(s, w, true);
    case _ =>
  }

  lemma {:induction false} JoinedStays(s: State, ls: seq<Label>)
    requires AllJoined(s)
    ensures AllJoined(Run(s, ls))
    decreases |ls|
  {
    if ls != [] {
      StepJoined(s, ls[0]);
      JoinedStays(Step(s, ls[0]), ls[1..]);
    }
  }

  lemma AllDone(s: State)
    requires Inv(s) && AllJoined(s) && s.accepting.Closed?
    ensures s.permits == s.max
  {
    assert Holding(s.at) == {};
  }

  lemma {:induction false} NoMoreStarts(s: State, ls: seq<Label>)
    requires ShutDown(s)
    ensures !Interrupted(s, ls)
    decreases |ls|
  {
    if ls != [] { NoMoreStarts(Step(s, ls[0]), ls[1..]); }
  }

  lemma {:induction false} RunAppend(s: State, before: seq<Label>, after: seq<Label>)
    ensures Run(s, before + after) == Run(Run(s, before), after)
    decreases |before|
  {
    if before == [] {
      assert before + after == after;
    } else {
      assert (before + after)[1..] == before[1..] + after;
      RunAppend(Step(s, before[0]), before[1..], after);
    }
  }

  function Rank(p: Point): nat {
    match p
    case NotStarted => 7
    case Cancelled => 6
    case Started => 5
    case Serving => 4
    case Finishing(_) => 3
    case Released => 2
    case Popped => 1
    case Done => 0
  }

  // A worker can run to its end while the others stay where they are.
  lemma {:induction false} RunsToEnd(s: State, w: nat) returns (more: seq<Label>)
    requires Inv(s) && s.accepting.Joining? && w < |s.at|
    ensures !Interrupted(s, more)
    ensures
      var n := Run(s, more);
      && Inv(n) && n.accepting == s.accepting && n.max == s.max
      && |n.at| == |s.at| && n.at[w].Done? && forall v :: 0 <= v < |s.at| && v != w ==> n.at[v] == s.at[v]
    decreases Rank(s.at[w])
  {
    more := [];
    if !s.at[w].Done? {
      var t := Step(s, Work(w));
      WorkPlace(s, w, false);
      WorkKeeps(s, w, false);
      var rest := RunsToEnd(t, w);
      more := [Work(w)] + rest;
      assert more[1..] == rest;
    }
  }

  lemma JoinsOne(s: State, w: nat) returns (n: State)
    requires Inv(s) && s.accepting.Joining? && w < |s.at| && s.at[w].Done?
    ensures n == Step(s, Join(w)) && n == s.(accepting := Joining(s.accepting.workers - {w})) && Inv(n)
  {
    n := Step(s, Join(w));
    StepKeeps(s, Join(w));
  }

  // The workers being joined end one after the other; `late`, which is not among
  // them, does not move.
  lemma {:induction false} JoinsEnd(s: State, late: nat) returns (more: seq<Label>)
    requires Inv(s) && s.accepting.Joining? && late < |s.at| && s.at[late].Popped? && late !in s.accepting.workers
    requires forall w :: w in s.accepting.workers ==> w < |s.at|
    ensures
      var n := Run(s, more);
      Inv(n) && n.accepting.Closed? && n.max == s.max && late < |n.at| && n.at[late].Popped?
    decreases |s.accepting.workers|
  {
    if s.accepting.workers == {} {
      more := [Accept];
      StepKeeps(s, Accept);
      assert more[1..] == [];
    } else {
      var w :| w in s.accepting.workers;
      var first := RunsToEnd(s, w);
      var t := Run(s, first);
      var u := JoinsOne(t, w);
      var rest := JoinsEnd(u, late);
      assert ([Join(w)] + rest)[1..] == rest;
      RunAppend(s, first, [Join(w)] + rest);
      more := first + ([Join(w)] + rest);
    }
  }

  lemma ClosesEarly(n: State) returns (more: seq<Label>)
    requires Inv(n) && n.accepting.Listening? && !AllListed(n)
    ensures Run(n, [Close] + more).accepting.Closed? && Run(n, [Close] + more).permits < n.max
  {
    AllListedMeans(n);
    var late :| 0 <= late < |n.at| && n.at[late].Popped?;
    var t := Step(n, Close);
    StepKeeps(n, Close);
    more := JoinsEnd(t, late);
    assert ([Close] + more)[1..] == more;
    var u := Run(t, more);
    assert late in Holding(u.at);
  }

  lemma ClosesLate(n: State, more: seq<Label>)
    requires Inv(n) && n.accepting.Listening? && AllListed(n)
    ensures Run(n, [Close] + more).accepting.Closed? ==> Run(n, [Close] + more).permits == n.max
  {
    AllListedMeans(n);
    var t := Step(n, Close);
    StepKeeps(n, Close);
    assert ([Close] + more)[1..] == more;
    assert AllJoined(t);
    NoMoreStarts(t, more);
    RunKeeps(t, more);
    JoinedStays(t, more);
    if Run(t, more).accepting.Closed? { AllDone(Run(t, more)); }
  }

  // Whatever happens after it begins, close returns with every slot free if and
  // only if, when it takes its snapshot, free slots and workers in the table make
  // up all slots. A worker between the table and its slot is all that can be
  // missing, and then close may return first.
  lemma CloseFreesEverySlot(s: State, ls: seq<Label>)
    requires Start(s) && !Interrupted(s, ls) && Run(s, ls).accepting.Listening?
    ensures
      var n := Run(s, ls);
      AllListed(n) <==>
        forall more :: Run(n, [Close] + more).accepting.Closed? ==>
          Run(n, [Close] + more).permits == s.max
  {
    RunKeeps(s, ls);
    var n := Run(s, ls);
    if AllListed(n) {
      forall more
        ensures Run(n, [Close] + more).accepting.Closed? ==> Run(n, [Close] + more).permits == s.max
      {
        ClosesLate(n, more);
      }
    } else {
      var more := ClosesEarly(n);
    }
  }

  // Such a snapshot occurs: the worker has left the table and is not joined.
  lemma CloseMayPrecedeRelease()
    ensures
      var s := State(1, 1, false, false, Listening, [], {}, {});
      var n := Run(s, [Accept, Accept, Accept, Work(0), Work(0), Work(0), Work(0), Close, Accept]);
      Start(s) && n.accepting.Closed? && n.permits == 0
  {
  }

  // ----- a start that is interrupted after its thread was launched -----

  // The except block gives back the slot of a worker that runs on outside the
  // table.
  lemma InterruptBreaksConservation(s: State, ls: seq<Label>)
    requires Start(s) && !Interrupted(s, ls) && Run(s, ls).accepting.Added?
    ensures
      var w := Run(s, ls).accepting.worker;
      var n := Run(s, ls + [StartInterrupted, Accept, Accept]);
      && n.permits + Held(n) == s.max + 1
      && n.accepting.Listening? && w < |n.at| && n.at[w].Started? && w !in n.table
  {
    RunKeeps(s, ls);
    var n := Run(s, ls);
    var w := n.accepting.worker;
    RunAppend(s, ls, [StartInterrupted, Accept, Accept]);
    HoldingPut(n.at, w, Started);
    assert w in Holding(n.at);
    ThreeSteps(n, StartInterrupted, Accept, Accept);
  }

  // The except block of a start whose thread was launched.
  predicate Unwinding(s: State) {
    && (s.accepting.Undoing? || s.accepting.Returning?) && s.accepting.worker < |s.at|
    && !s.at[s.accepting.worker].NotStarted? && !s.at[s.accepting.worker].Cancelled?
  }

  predicate Broken(s: State) {
    || s.overReleased
    || s.permits + Held(s) > s.max
    || (Unwinding(s) && s.permits + Held(s) == s.max)
  }

  predicate Shape(s: State) {
    && s.permits <= s.max
    && (s.accepting.Added? ==> s.accepting.worker < |s.at| && s.at[s.accepting.worker].NotStarted?)
    && (s.accepting.Undoing? || s.accepting.Returning? ==> s.accepting.worker < |s.at|)
    && (s.accepting.Returning? ==> !s.at[s.accepting.worker].NotStarted?)
  }

  lemma AcceptBreaks(s: State)
    requires Shape(s)
    ensures Shape(AcceptStep(s)) && (Broken(s) ==> Broken(AcceptStep(s)))
  {
    match s.accepting
    case Admitted => HoldingAdd(s.at);
    case Added(w) => HoldingPut(s.at, w, Started);
    case Undoing(w) =>
      if s.at[w].NotStarted? { HoldingPut(s.at, w, Cancelled); }
    case Returning(w) =>
      if s.at[w].Cancelled? { HoldingPut(s.at, w, Done); }
    case _ =>
  }

  lemma WorkBreaks(s: State, w: nat, fails: bool)
    requires Shape(s)
    ensures Shape(WorkStep(s, w, fails)) && (Broken(s) ==> Broken(WorkStep(s, w, fails)))
  {
    var n := WorkStep(s, w, fails);
    WorkPlace(s, w, fails);
    if n != s { HoldingPut(s.at, w, n.at[w]); }
  }

  lemma StepBreaks(s: State, l: Label)
    requires Shape(s)
    ensures Shape(Step(s, l)) && (Broken(s) ==> Broken(Step(s, l)))
    ensures Interrupts(s, l) && s.permits + Held(s) == s.max ==> Broken(Step(s, l))
  {
    match l
    case Accept => AcceptBreaks(s);
    case Work(w) => WorkBreaks(s, w, false);
    case RegisterFails(w) => WorkBreaks(s, w, true);
    case StartInterrupted =>
      if s.accepting.Added? { HoldingPut(s.at, s.accepting.worker, Started); }
    case _ =>
  }

  lemma {:induction false} RunBreaks(s: State, ls: seq<Label>)
    requires Shape(s) && (Broken(s) || (Inv(s) && Interrupted(s, ls)))
    ensures Broken(Run(s, ls))
    decreases |ls|
  {
    if ls != [] {
      StepBreaks(s, ls[0]);
      if !Broken(s) && !Interrupts(s, ls[0]) { StepKeeps(s, ls[0]); }
      RunBreaks(Step(s, ls[0]), ls[1..]);
    }
  }

  // Outside the except block of `start`, slots are conserved and never released
  // too often if and only if no start of the run was interrupted.
  lemma ConservationExactly(s: State, ls: seq<Label>)
    requires Start(s) && !Unwinding(Run(s, ls))
    ensures SlotsOk(Run(s, ls)) <==> !Interrupted(s, ls)
  {
    if Interrupted(s, ls) { RunBreaks(s, ls); } else { RunKeeps(s, ls); }
    MaxStays(s, ls);
  }

  lemma {:induction false} MaxStays(s: State, ls: seq<Label>)
    ensures Run(s, ls).max == s.max
    decreases |ls|
  {
    if ls != [] { MaxStays(Step(s, ls[0]), ls[1..]); }
  }

  // More slots are free or in use than there are.
  predicate Overdrawn(s: State) {
    && s.permits <= s.max < s.permits + |Holding(s.at)|
    && forall w :: 0 <= w < |s.at| ==> !s.at[w].NotStarted? && !s.at[w].Cancelled?
  }

  // Then the workers' own releases end in one too many.
  lemma {:induction false} Overdraws(s: State, w: nat) returns (more: seq<Label>)
    requires Overdrawn(s) && w in Holding(s.at)
    ensures (forall l :: l in more ==> l.Work?) && Run(s, more).overReleased
    decreases |Holding(s.at)|, Rank(s.at[w])
  {
    var t := Step(s, Work(w));
    WorkPlace(s, w, false);
    HoldingPut(s.at, w, t.at[w]);
    if s.at[w].Popped? && s.permits == s.max {
      more := [Work(w)];
      assert more[1..] == [];
    } else {
      var v := w;
      if t.at[w].Done? {
        assert |Holding(t.at)| > 0;
        v :| v in Holding(t.at);
      }
      var rest := Overdraws(t, v);
      more := [Work(w)] + rest;
      assert more[1..] == rest;
    }
  }

  // Every interrupted start can go on to release the semaphore once too often.
  lemma InterruptOverReleases(s: State, ls: seq<Label>) returns (more: seq<Label>)
    requires Start(s) && !Interrupted(s, ls) && Run(s, ls).accepting.Added?
    ensures Run(s, ls + [StartInterrupted, Accept, Accept] + more).overReleased
  {
    RunKeeps(s, ls);
    InterruptBreaksConservation(s, ls);
    var n := Run(s, ls);
    var w := n.accepting.worker;
    RunAppend(s, ls, [StartInterrupted, Accept, Accept]);
    ThreeSteps(n, StartInterrupted, Accept, Accept);
    var t := Run(s, ls + [StartInterrupted, Accept, Accept]);
    more := Overdraws(t, w);
    RunAppend(s, ls + [StartInterrupted, Accept, Accept], more);
  }

  // And close may return while such a worker is serving a registered session.
  lemma InterruptOutlivesClose()
    ensures
      var s := State(1, 1, false, false, Listening, [], {}, {});
      var n := Run(s, [Accept, Accept, StartInterrupted, Accept, Accept, Work(0), Close, Accept]);
      Start(s) && n.accepting.Closed? && n.active == {0} && n.permits == 1
  {
  }
}
