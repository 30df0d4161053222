// The bandwidth limiter: one token bucket shared by any number of callers.

module TokenBucket {
  import opened Protocol

  datatype Limits = Limits(rate: real, burst: real)

  datatype Bucket = Bucket(tokens: real, last: real, consumed: real, waited: real)

  predicate Sane(c: Limits) { c.rate > 0.0 && c.burst > 0.0 }

  predicate Level(c: Limits, b: Bucket) { 0.0 <= b.tokens <= c.burst }

  function MinR(a: real, b: real): real { if a < b then a else b }

  function MaxR(a: real, b: real): real { if a < b then b else a }

  // ----- lock sections -----

  // A clock that went backward adds nothing.
  function Refill(c: Limits, b: Bucket, now: real): Bucket {
    var elapsed := now - b.last;
    if elapsed <= 0.0 then b
    else b.(tokens := MinR(c.burst, b.tokens + elapsed * c.rate), last := now)
  }

  function Take(b: Bucket, amount: real): Bucket {
    b.(tokens := b.tokens - amount, consumed := b.consumed + amount)
  }

  // The section of consume: as much of `remaining` as there is.
  function TakeSome(c: Limits, b: Bucket, now: real, remaining: real): Bucket {
    var full := Refill(c, b, now);
    Take(full, MinR(full.tokens, remaining))
  }

  // The section of try_consume: all or nothing.
  function TakeAll(c: Limits, b: Bucket, now: real, amount: real): Bucket {
    var full := Refill(c, b, now);
    if amount > full.tokens then full else Take(full, amount)
  }

  function Wait(c: Limits, remaining: real): real
    requires Sane(c)
  {
    MinR(remaining, c.burst) / c.rate
  }

  // ----- any number of calls, in any order -----

  datatype Call =
    | Consuming(amount: real, remaining: real, waited: real)
    | Sleeping(amount: real, remaining: real, waited: real, wait: real)
    | Consumed(amount: real, waited: real)
    | Trying(amount: real)
    | Tried(amount: real, admitted: bool)
    | Looking
    | Looked(seen: Bucket)

  // Calls are named by the order in which they are made.
  datatype System = System(bucket: Bucket, calls: seq<Call>)

  // A new call, or a lock section of call `id` at clock reading `now`.
  datatype Label =
    | Consume(bytes: nat)
    | TryConsume(bytes: nat)
    | Snapshot
    | Section(id: nat, now: real)

  function Go(c: Limits, b: Bucket, call: Call, now: real): (Bucket, Call)
    requires Sane(c)
  {
    match call
    case Consuming(amount, remaining, waited) =>
      var after := TakeSome(c, b, now, remaining);
      var left := remaining - (after.consumed - b.consumed);
      (after, if left <= 0.0 then Consumed(amount, waited) else Sleeping(amount, left, waited, Wait(c, left)))
    case Sleeping(amount, remaining, waited, wait) =>
      (b.(waited := b.waited + wait), Consuming(amount, remaining, waited + wait))
    case Trying(amount) => (TakeAll(c, b, now, amount), Tried(amount, amount <= Refill(c, b, now).tokens))
    case Looking => (Refill(c, b, now), Looked(Refill(c, b, now)))
    case _ => (b, call)
  }

  function Step(c: Limits, s: System, l: Label): System
    requires Sane(c)
  {
    match l
    case Consume(n) =>
      s.(calls := s.calls + [if n == 0 then Consumed(0.0, 0.0) else Consuming(n as real, n as real, 0.0)])
    case TryConsume(n) => s.(calls := s.calls + [Trying(n as real)])
    case Snapshot => s.(calls := s.calls + [Looking])
    case Section(id, now) =>
      if id >= |s.calls| then s
      else
        var (b, call) := Go(c, s.bucket, s.calls[id], now);
        System(b, s.calls[id := call])
  }

  function Run(c: Limits, s: System, ls: seq<Label>): System
    requires Sane(c)
    decreases |ls|
  {
    if ls == [] then s else Run(c, Step(c, s, ls[0]), ls[1..])
  }

  // What a call has been admitted so far, and what it has waited.
  function Admitted(call: Call): real {
    match call
    case Consuming(amount, remaining, _) => amount - remaining
    case Sleeping(amount, remaining, _, _) => amount - remaining
    case Consumed(amount, _) => amount
    case Tried(amount, admitted) => if admitted then amount else 0.0
    case _ => 0.0
  }

  function Waited(call: Call): real {
    if call.Consuming? || call.Sleeping? || call.Consumed? then call.waited else 0.0
  }

  function Sum(f: Call -> real, calls: seq<Call>): real {
    if calls == [] then 0.0 else Sum(f, calls[..|calls| - 1]) + f(calls[|calls| - 1])
  }

  lemma {:induction false} SumUpdate(f: Call -> real, calls: seq<Call>, id: nat, call: Call)
    requires id < |calls|
    ensures Sum(f, calls[id := call]) == Sum(f, calls) - f(calls[id]) + f(call)
  {
    var last := |calls| - 1;
    if id == last {
      assert calls[id := call][..last] == calls[..last];
    } else {
      assert calls[id := call][..last] == calls[..last][id := call];
      SumUpdate(f, calls[..last], id, call);
    }
  }

  lemma SumExtend(f: Call -> real, calls: seq<Call>, call: Call)
    ensures Sum(f, calls + [call]) == Sum(f, calls) + f(call)
  {
    assert (calls + [call])[..|calls|] == calls;
  }

  // ----- invariant -----

  predicate CallOk(call: Call) {
    match call
    case Consuming(amount, remaining, waited) => 0.0 < remaining <= amount && waited >= 0.0
    case Sleeping(amount, remaining, waited, wait) => 0.0 < remaining <= amount && waited >= 0.0 && wait > 0.0
    case Consumed(amount, waited) => amount >= 0.0 && waited >= 0.0
    case Trying(amount) => amount >= 0.0
    case Tried(amount, _) => amount >= 0.0
    case _ => true
  }

  // The level stays between empty and full, and the totals are what the calls
  // were admitted and waited.
  predicate Inv(c: Limits, s: System) {
    && Level(c, s.bucket)
    && (forall i :: 0 <= i < |s.calls| ==> CallOk(s.calls[i]))
    && s.bucket.consumed == Sum(Admitted, s.calls)
    && s.bucket.waited == Sum(Waited, s.calls)
  }

  // No more leaves the bucket than it held and was added.
  predicate Within(c: Limits, b: Bucket, after: Bucket) {
    after.consumed - b.consumed + after.tokens <= b.tokens + c.rate * (after.last - b.last)
  }

  lemma WithinTwice(c: Limits, x: Bucket, y: Bucket, z: Bucket)
    requires Within(c, x, y) && Within(c, y, z)
    ensures Within(c, x, z)
  {
    assert c.rate * (z.last - x.last) == c.rate * (y.last - x.last) + c.rate * (z.last - y.last);
  }

  lemma WaitPositive(c: Limits, remaining: real)
    requires Sane(c) && remaining > 0.0
    ensures Wait(c, remaining) > 0.0 && Wait(c, remaining) * c.rate == MinR(remaining, c.burst)
  {
  }

  lemma Topped(burst: real, tokens: real, elapsed: real, rate: real)
    requires 0.0 <= tokens <= burst && elapsed > 0.0 && rate > 0.0
    ensures tokens <= MinR(burst, tokens + elapsed * rate) <= burst
  {
    assert elapsed * rate > 0.0;
  }

  lemma RefillLevel(c: Limits, b: Bucket, now: real)
    requires Sane(c) && Level(c, b)
    ensures Level(c, Refill(c, b, now)) && Refill(c, b, now).tokens >= b.tokens
    ensures Refill(c, b, now).last == MaxR(b.last, now)
  {
    if now > b.last { Topped(c.burst, b.tokens, now - b.last, c.rate); }
  }

  lemma RefillWithin(c: Limits, b: Bucket, now: real)
    requires Sane(c)
    ensures Within(c, b, Refill(c, b, now))
  {
    var elapsed := now - b.last;
    assert elapsed * c.rate == c.rate * elapsed;
  }

  lemma ToppedTwice(burst: real, tokens: real, first: real, second: real)
    requires second >= 0.0
    ensures MinR(burst, MinR(burst, tokens + first) + second) == MinR(burst, tokens + (first + second))
  {
  }

  lemma Distribute(x: real, y: real, z: real, rate: real)
    ensures (z - x) * rate == (y - x) * rate + (z - y) * rate
  {
  }

  // Two refills are one at the later reading: when tokens are looked at makes no
  // difference to how many there are.
  lemma RefillTwice(c: Limits, b: Bucket, x: real, y: real)
    requires Sane(c) && Level(c, b)
    ensures Refill(c, Refill(c, b, x), y) == Refill(c, b, MaxR(x, y))
  {
    if b.last < x < y {
      var first, second := (x - b.last) * c.rate, (y - x) * c.rate;
      assert second > 0.0;
      Distribute(b.last, x, y, c.rate);
      ToppedTwice(c.burst, b.tokens, first, second);
    }
  }

  // Tokens flow in at the rate until the bucket is full, from the last reading on.
  lemma RefillGain(c: Limits, b: Bucket, elapsed: real)
    requires Sane(c) && Level(c, b) && elapsed >= 0.0
    ensures
      var gain := Refill(c, b, b.last + elapsed).tokens - b.tokens;
      && gain <= c.rate * elapsed
      && (gain < c.rate * elapsed ==> b.tokens + gain == c.burst)
      && (gain == c.rate * elapsed || c.rate * elapsed > c.burst - b.tokens)
  {
    assert elapsed * c.rate == c.rate * elapsed;
  }

  // What try_consume answers: it admits all it is asked for, and does so when that is
  // there already or has had the time to flow in.
  lemma TryAnswers(c: Limits, b: Bucket, now: real, amount: real)
    requires Sane(c) && Level(c, b) && amount >= 0.0 && now >= b.last
    ensures
      var (after, call) := Go(c, b, Trying(amount), now);
      && call == Tried(amount,
           amount <= b.tokens || (amount <= c.burst && amount - b.tokens <= c.rate * (now - b.last)))
      && after.consumed == (if call.admitted then b.consumed + amount else b.consumed)
      && after.tokens == Refill(c, b, now).tokens - (after.consumed - b.consumed)
  {
    RefillGain(c, b, now - b.last);
    RefillLevel(c, b, now);
  }

  // One section: the level stays in range, and the call's share of the totals is
  // accounted for.
  lemma GoKeeps(c: Limits, b: Bucket, call: Call, now: real)
    requires Sane(c) && Level(c, b) && CallOk(call)
    ensures
      var (after, next) := Go(c, b, call, now);
      && Level(c, after) && CallOk(next)
      && after.consumed - b.consumed == Admitted(next) - Admitted(call)
      && after.waited - b.waited == Waited(next) - Waited(call)
  {
    RefillLevel(c, b, now);
    if call.Consuming? {
      var left := call.remaining - (TakeSome(c, b, now, call.remaining).consumed - b.consumed);
      if left > 0.0 { WaitPositive(c, left); }
    }
  }

  lemma GoWithin(c: Limits, b: Bucket, call: Call, now: real)
    requires Sane(c)
    ensures
      var after := Go(c, b, call, now).0;
      && Within(c, b, after)
      && after.last == if call.Consuming? || call.Trying? || call.Looking? then MaxR(b.last, now) else b.last
  {
    RefillWithin(c, b, now);
  }

  lemma SectionKeeps(c: Limits, s: System, id: nat, now: real)
    requires Sane(c) && Inv(c, s) && id < |s.calls|
    ensures Inv(c, Step(c, s, Section(id, now)))
  {
    var (b, call) := Go(c, s.bucket, s.calls[id], now);
    GoKeeps(c, s.bucket, s.calls[id], now);
    SumUpdate(Admitted, s.calls, id, call);
    SumUpdate(Waited, s.calls, id, call);
  }

  lemma CallKeeps(c: Limits, s: System, call: Call)
    requires Inv(c, s) && CallOk(call) && Admitted(call) == Waited(call) == 0.0
    ensures Inv(c, s.(calls := s.calls + [call]))
  {
    SumExtend(Admitted, s.calls, call);
    SumExtend(Waited, s.calls, call);
  }

  lemma StepKeeps(c: Limits, s: System, l: Label)
    requires Sane(c) && Inv(c, s)
    ensures Inv(c, Step(c, s, l))
  {
    match l
    case Consume(n) => CallKeeps(c, s, if n == 0 then Consumed(0.0, 0.0) else Consuming(n as real, n as real, 0.0));
    case TryConsume(n) => CallKeeps(c, s, Trying(n as real));
    case Snapshot => CallKeeps(c, s, Looking);
    case Section(id, now) =>
      if id < |s.calls| { SectionKeeps(c, s, id, now); }
  }

  // The clock reading a step takes, if it takes one.
  predicate Reads(s: System, l: Label) {
    l.Section? && l.id < |s.calls| && (s.calls[l.id].Consuming? || s.calls[l.id].Trying? || s.calls[l.id].Looking?)
  }

  function Later(s: System, l: Label, highest: real): real {
    if Reads(s, l) then MaxR(highest, l.now) else highest
  }

  // The highest reading of the clock over a run.
  function Highest(c: Limits, s: System, ls: seq<Label>, highest: real): real
    requires Sane(c)
    decreases |ls|
  {
    if ls == [] then highest else Highest(c, Step(c, s, ls[0]), ls[1..], Later(s, ls[0], highest))
  }

  lemma StepWindow(c: Limits, s: System, l: Label)
    requires Sane(c)
    ensures
      var n := Step(c, s, l);
      n.bucket.last == Later(s, l, s.bucket.last) && Within(c, s.bucket, n.bucket)
  {
    if l.Section? && l.id < |s.calls| { GoWithin(c, s.bucket, s.calls[l.id], l.now); }
  }

  lemma {:induction false} RunKeeps(c: Limits, s: System, ls: seq<Label>)
    requires Sane(c) && Inv(c, s)
    ensures Inv(c, Run(c, s, ls))
    decreases |ls|
  {
    if ls != [] {
      StepKeeps(c, s, ls[0]);
      RunKeeps(c, Step(c, s, ls[0]), ls[1..]);
    }
  }

  lemma {:induction false} RunWindow(c: Limits, s: System, ls: seq<Label>)
    requires Sane(c)
    ensures
      var n := Run(c, s, ls);
      n.bucket.last == Highest(c, s, ls, s.bucket.last) && Within(c, s.bucket, n.bucket)
    decreases |ls|
  {
    if ls != [] {
      var m := Step(c, s, ls[0]);
      StepWindow(c, s, ls[0]);
      RunWindow(c, m, ls[1..]);
      WithinTwice(c, s.bucket, m.bucket, Run(c, s, ls).bucket);
    }
  }

  predicate Fresh(c: Limits, s: System) {
    s.calls == [] && Level(c, s.bucket) && s.bucket.consumed == 0.0 && s.bucket.waited == 0.0
  }

  lemma RunSplit(c: Limits, s: System, before: seq<Label>, window: seq<Label>)
    requires Sane(c)
    ensures Run(c, s, before + window) == Run(c, Run(c, s, before), window)
    decreases |before|
  {
    if before == [] {
      assert before + window == window;
    } else {
      assert (before + window)[1..] == before[1..] + window;
      RunSplit(c, Step(c, s, before[0]), before[1..], window);
    }
  }

  predicate AtMost(c: Limits, b: Bucket, after: Bucket, growth: real) {
    after.consumed - b.consumed <= c.burst + c.rate * growth
  }

  // In every window of every run, whatever calls are interleaved and whatever the
  // clock shows, no more is admitted than a full bucket and what flows in while
  // the highest reading grows. The level stays in range, and the total is what
  // the calls were admitted.
  lemma WindowBound(c: Limits, s: System, before: seq<Label>, window: seq<Label>)
    requires Sane(c) && Fresh(c, s)
    ensures
      var m, n := Run(c, s, before), Run(c, s, before + window);
      var growth := Highest(c, s, before + window, s.bucket.last) - Highest(c, s, before, s.bucket.last);
      && Inv(c, m) && Inv(c, n)
      && AtMost(c, m.bucket, n.bucket, growth)
  {
    var m, n := Run(c, s, before), Run(c, s, before + window);
    RunSplit(c, s, before, window);
    RunKeeps(c, s, before);
    RunKeeps(c, s, before + window);
    RunWindow(c, s, before);
    RunWindow(c, s, before + window);
    RunWindow(c, m, window);
    WithinBurst(c, m.bucket, n.bucket,
      Highest(c, s, before + window, s.bucket.last) - Highest(c, s, before, s.bucket.last));
  }

  lemma WithinBurst(c: Limits, b: Bucket, after: Bucket, growth: real)
    requires Within(c, b, after) && Level(c, b) && Level(c, after) && growth == after.last - b.last
    ensures AtMost(c, b, after, growth)
  {
  }

  // ----- a lone call -----

  function Ceil(x: real): int { -((-x).Floor) }

  function Sleeps(c: Limits, x: real): nat
    requires Sane(c) && x >= 0.0
  {
    var q := x / c.burst;
    assert q >= 0.0;
    Ceil(q)
  }

  // A call that was short of tokens by `short` slept for exactly as long as they
  // take to flow in, in as few sleeps as bursts of them are needed.
  predicate Settled(c: Limits, short: real, waited: real, sleeps: nat) {
    Sane(c) && short >= 0.0 && waited == short / c.rate && sleeps == Sleeps(c, short)
  }

  // It still wants `remaining`, and has slept for the next part of it.
  predicate Owing(c: Limits, short: real, remaining: real, waited: real, sleeps: nat) {
    && Sane(c) && 0.0 < remaining <= short
    && waited == (short - remaining + MinR(remaining, c.burst)) / c.rate
    && sleeps + Sleeps(c, remaining) == 1 + Sleeps(c, short)
  }

  lemma Cancel(x: real, y: real, unit: real)
    requires unit > 0.0 && x * unit == y * unit
    ensures x == y
  {
  }

  lemma AddShares(x: real, y: real, unit: real)
    requires unit > 0.0
    ensures x / unit + y / unit == (x + y) / unit
  {
    Cancel(x / unit + y / unit, (x + y) / unit, unit);
  }

  lemma NoWait(c: Limits)
    requires Sane(c)
    ensures Settled(c, 0.0, 0.0, 0)
  {
  }

  lemma OneSleep(c: Limits, x: real)
    requires Sane(c) && 0.0 < x <= c.burst
    ensures Sleeps(c, x) == 1
  {
    assert 0.0 < x / c.burst <= 1.0;
  }

  lemma LessSleeps(c: Limits, x: real)
    requires Sane(c) && x > c.burst
    ensures Sleeps(c, x) == 1 + Sleeps(c, x - c.burst)
  {
    AddShares(x - c.burst, c.burst, c.burst);
    assert c.burst / c.burst == 1.0;
  }

  lemma OwingFirst(c: Limits, short: real)
    requires Sane(c) && short > 0.0
    ensures Owing(c, short, short, Wait(c, short), 1)
  {
  }

  lemma OwingNext(c: Limits, short: real, remaining: real, waited: real, sleeps: nat)
    requires Owing(c, short, remaining, waited, sleeps) && remaining > c.burst
    ensures
      var left := remaining - c.burst;
      Owing(c, short, left, waited + Wait(c, left), sleeps + 1) && Sleeps(c, left) < Sleeps(c, remaining)
  {
    LessSleeps(c, remaining);
    var left := remaining - c.burst;
    AddShares(short - left, MinR(left, c.burst), c.rate);
  }

  lemma OwingLast(c: Limits, short: real, remaining: real, waited: real, sleeps: nat)
    requires Owing(c, short, remaining, waited, sleeps) && remaining <= c.burst
    ensures Settled(c, short, waited, sleeps)
  {
    OneSleep(c, remaining);
  }

  // After the sleep it asked for, a call that left the bucket empty is admitted
  // a full burst, or all it still wants.
  lemma SleepSuffices(c: Limits, b: Bucket, now: real, remaining: real)
    requires Sane(c) && b.tokens == 0.0 && remaining > 0.0 && now >= b.last + Wait(c, remaining)
    ensures TakeSome(c, b, now, remaining).consumed - b.consumed == MinR(remaining, c.burst)
    ensures remaining > c.burst ==> TakeSome(c, b, now, remaining).tokens == 0.0
  {
    WaitPositive(c, remaining);
    var elapsed, wait := now - b.last, Wait(c, remaining);
    assert elapsed * c.rate >= wait * c.rate;
  }

  // The bucket, and what the call still wants, after one lock section for each
  // reading and the sleep that follows it.
  datatype Round = Round(bucket: Bucket, left: real)

  function NextRound(c: Limits, r: Round, now: real): Round
    requires Sane(c)
  {
    var after := TakeSome(c, r.bucket, now, r.left);
    var left := r.left - (after.consumed - r.bucket.consumed);
    Round(if left > 0.0 then after.(waited := after.waited + Wait(c, left)) else after, left)
  }

  function Rounds(c: Limits, b: Bucket, amount: real, readings: seq<real>): Round
    requires Sane(c)
  {
    if readings == [] then Round(b, amount)
    else NextRound(c, Rounds(c, b, amount, readings[..|readings| - 1]), readings[|readings| - 1])
  }

  // The earliest reading of the next section.
  function Due(c: Limits, b: Bucket, readings: seq<real>, left: real): real
    requires Sane(c)
  {
    if readings == [] then b.last else readings[|readings| - 1] + Wait(c, left)
  }

  // The clock does not go backward, and each sleep lasts at least as long as asked.
  predicate Paced(c: Limits, b: Bucket, amount: real, readings: seq<real>)
    requires Sane(c)
  {
    readings == [] ||
      var k := |readings| - 1;
      var r := Rounds(c, b, amount, readings[..k]);
      Paced(c, b, amount, readings[..k]) && r.left > 0.0 && readings[k] >= Due(c, b, readings[..k], r.left)
  }

  // What the bucket holds after the call's first refill, and what the call is
  // short of then.
  function Short(c: Limits, b: Bucket, amount: real, first: real): real {
    MaxR(0.0, amount - Refill(c, b, first).tokens)
  }

  // After k sections a call either has everything or has emptied the bucket and
  // slept for the next part of what it is short of.
  predicate Owes(c: Limits, b: Bucket, amount: real, short: real, r: Round, last: real, k: nat) {
    && k > 0 && r.bucket.consumed == b.consumed + amount - r.left
    && (r.left > 0.0 ==> Owing(c, short, r.left, r.bucket.waited - b.waited, k))
    && (r.left > 0.0 ==> r.bucket.tokens == 0.0 && r.bucket.last == last)
    && (r.left <= 0.0 ==> r.left == 0.0 && Settled(c, short, r.bucket.waited - b.waited, k - 1))
  }

  lemma FirstRoundOwes(c: Limits, b: Bucket, amount: real, now: real)
    requires Sane(c) && Level(c, b) && amount > 0.0 && now >= b.last
    ensures Owes(c, b, amount, Short(c, b, amount, now), NextRound(c, Round(b, amount), now), now, 1)
  {
    RefillLevel(c, b, now);
    if amount > Refill(c, b, now).tokens {
      OwingFirst(c, Short(c, b, amount, now));
    } else {
      NoWait(c);
    }
  }

  lemma NextRoundOwes(c: Limits, b: Bucket, amount: real, short: real, r: Round, last: real, k: nat, now: real)
    requires Sane(c) && Owes(c, b, amount, short, r, last, k) && r.left > 0.0 && now >= last + Wait(c, r.left)
    ensures Owes(c, b, amount, short, NextRound(c, r, now), now, k + 1)
  {
    SleepSuffices(c, r.bucket, now, r.left);
    WaitPositive(c, r.left);
    if r.left > c.burst {
      OwingNext(c, short, r.left, r.bucket.waited - b.waited, k);
    } else {
      OwingLast(c, short, r.left, r.bucket.waited - b.waited, k);
    }
  }

  lemma {:induction false} RoundsOwe(c: Limits, b: Bucket, amount: real, readings: seq<real>)
    requires Sane(c) && Level(c, b) && readings != [] && Paced(c, b, amount, readings)
    ensures
      var k := |readings|;
      Owes(c, b, amount, Short(c, b, amount, readings[0]), Rounds(c, b, amount, readings), readings[k - 1], k)
  {
    var k := |readings| - 1;
    if k == 0 {
      FirstRoundOwes(c, b, amount, readings[0]);
    } else {
      RoundsOwe(c, b, amount, readings[..k]);
      NextRoundOwes(c, b, amount, Short(c, b, amount, readings[0]), Rounds(c, b, amount, readings[..k]),
        readings[k - 1], k, readings[k]);
    }
  }

  // Each section after the first leaves fewer sleeps to come.
  lemma RoundsShrink(c: Limits, b: Bucket, amount: real, readings: seq<real>)
    requires Sane(c) && Level(c, b) && readings != [] && Paced(c, b, amount, readings)
    ensures
      var k := |readings| - 1;
      var before, after := Rounds(c, b, amount, readings[..k]).left, Rounds(c, b, amount, readings).left;
      0.0 <= after && (k > 0 && after > 0.0 ==> 0.0 < before && Sleeps(c, after) < Sleeps(c, before))
  {
    var k := |readings| - 1;
    RoundsOwe(c, b, amount, readings);
    if k > 0 && Rounds(c, b, amount, readings).left > 0.0 {
      RoundsOwe(c, b, amount, readings[..k]);
      var x, y := Rounds(c, b, amount, readings[..k]), Rounds(c, b, amount, readings);
      OwingLess(c, Short(c, b, amount, readings[0]), x.left, x.bucket.waited - b.waited, k,
        y.left, y.bucket.waited - b.waited, k + 1);
    }
  }

  lemma OwingLess(c: Limits, short: real, x: real, waited: real, sleeps: nat, y: real, waited': real, sleeps': nat)
    requires Owing(c, short, x, waited, sleeps) && Owing(c, short, y, waited', sleeps') && sleeps < sleeps'
    ensures Sleeps(c, y) < Sleeps(c, x)
  {
  }

  // A lone call that is admitted n bytes when the bucket holds t after its first
  // refill sleeps ceil(max(0, n - t) / burst) times, for max(0, n - t) / rate in all.
  lemma LoneCall(c: Limits, b: Bucket, amount: real, readings: seq<real>)
    requires Sane(c) && Level(c, b) && amount >= 0.0
    requires Paced(c, b, amount, readings) && Rounds(c, b, amount, readings).left == 0.0
    ensures
      var after := Rounds(c, b, amount, readings).bucket;
      var sleeps := if readings == [] then 0 else |readings| - 1;
      var short := if readings == [] then 0.0 else Short(c, b, amount, readings[0]);
      && after.consumed == b.consumed + amount
      && after.waited - b.waited == short / c.rate
      && sleeps == Sleeps(c, short)
      && (readings == [] <==> amount == 0.0)
  {
    NoWait(c);
    if readings != [] { RoundsOwe(c, b, amount, readings); FirstWants(c, b, amount, readings); }
  }

  lemma {:induction false} FirstWants(c: Limits, b: Bucket, amount: real, readings: seq<real>)
    requires Sane(c) && readings != [] && Paced(c, b, amount, readings)
    ensures amount > 0.0
  {
    if |readings| > 1 { FirstWants(c, b, amount, readings[..|readings| - 1]); }
  }

  // ----- the object -----

  // Read never shows less after a sleep than the sleep asked for.
  class Clock {
    var now: real

    method Read() returns (t: real)
      modifies this
      ensures now == t >= old(now)
    {
      var passed: real := *;
      if passed > 0.0 { now := now + passed; }
      t := now;
    }

    method Sleep(seconds: real)
      requires seconds >= 0.0
      modifies this
      ensures now >= old(now) + seconds
    {
      var more: real := *;
      now := now + seconds + MaxR(more, 0.0);
    }
  }

  class TokenBucket {
    const limits: Limits
    const clock: Clock
    var tokens: real
    var lastRefill: real
    var totalConsumed: real
    var totalWait: real

    ghost predicate Valid()
      reads this
    {
      Sane(limits) && Level(limits, State())
    }

    function State(): Bucket
      reads this
    {
      Bucket(tokens, lastRefill, totalConsumed, totalWait)
    }

    constructor (rate: real, burst: real, initial: Option<real>, clock: Clock)
      requires rate > 0.0 && burst > 0.0
      requires initial.Some? ==> 0.0 <= initial.value <= burst
      modifies clock
      ensures Valid() && limits == Limits(rate, burst) && this.clock == clock
      ensures State() == Bucket(if initial.Some? then initial.value else burst, clock.now, 0.0, 0.0)
    {
      limits := Limits(rate, burst);
      this.clock := clock;
      tokens := if initial.Some? then initial.value else burst;
      totalConsumed := 0.0;
      totalWait := 0.0;
      var now := clock.Read();
      lastRefill := now;
    }

    method RefillLocked()
      requires Valid()
      modifies this, clock
      ensures Valid() && State() == Refill(limits, old(State()), clock.now)
      ensures clock.now >= old(clock.now)
    {
      var now := clock.Read();
      var elapsed := now - lastRefill;
      if elapsed <= 0.0 { return; }
      RefillLevel(limits, State(), now);
      tokens := MinR(limits.burst, tokens + elapsed * limits.rate);
      lastRefill := now;
    }

    method TryConsume(amount: nat) returns (ok: bool)
      requires Valid()
      modifies this, clock
      ensures Valid() && State() == TakeAll(limits, old(State()), clock.now, amount as real)
      ensures ok <==> amount as real <= Refill(limits, old(State()), clock.now).tokens
    {
      var requested := amount as real;
      RefillLocked();
      if requested > tokens { return false; }
      tokens := tokens - requested;
      totalConsumed := totalConsumed + requested;
      ok := true;
    }

    method TakeSnapshot() returns (seen: Bucket)
      requires Valid()
      modifies this, clock
      ensures Valid() && seen == State() == Refill(limits, old(State()), clock.now)
    {
      RefillLocked();
      seen := State();
    }

    // The lock section of consume.
    method Drain(remaining: real) returns (left: real)
      requires Valid() && remaining > 0.0
      modifies this, clock
      ensures Valid() && State() == TakeSome(limits, old(State()), clock.now, remaining)
      ensures left == remaining - (totalConsumed - old(totalConsumed)) && clock.now >= old(clock.now)
    {
      RefillLocked();
      var consumed := MinR(tokens, remaining);
      tokens := tokens - consumed;
      left := remaining - consumed;
      totalConsumed := totalConsumed + consumed;
    }

    // The sleep between two sections, and its share of the total.
    method Pause(wait: real)
      requires Valid() && wait >= 0.0
      modifies this, clock
      ensures Valid() && State() == old(State()).(waited := old(totalWait) + wait)
      ensures clock.now >= old(clock.now) + wait
    {
      clock.Sleep(wait);
      totalWait := totalWait + wait;
    }

    // Nobody else uses the bucket while the call runs; `readings` are those of
    // its lock sections.
    method Consume(amount: nat) returns (waited: real, ghost readings: seq<real>)
      requires Valid() && lastRefill <= clock.now
      modifies this, clock
      ensures Valid() && waited == totalWait - old(totalWait)
      ensures Paced(limits, old(State()), amount as real, readings)
      ensures Rounds(limits, old(State()), amount as real, readings) == Round(State(), 0.0)
    {
      var remaining := amount as real;
      waited := 0.0;
      readings := [];
      ghost var start := State();
      while remaining > 0.0
        invariant Valid() && remaining >= 0.0 && waited == totalWait - old(totalWait)
        invariant Paced(limits, start, amount as real, readings)
        invariant Rounds(limits, start, amount as real, readings) == Round(State(), remaining)
        invariant remaining > 0.0 ==> clock.now >= Due(limits, start, readings, remaining)
        decreases readings == [], Sleeps(limits, remaining)
      {
        ghost var before := readings;
        remaining := Drain(remaining);
        readings := readings + [clock.now];
        assert readings[..|before|] == before;
        RoundsShrink(limits, start, amount as real, readings);
        if remaining <= 0.0 { return; }
        var wait := Wait(limits, remaining);
        WaitPositive(limits, remaining);
        Pause(wait);
        waited := waited + wait;
      }
    }
  }
}
