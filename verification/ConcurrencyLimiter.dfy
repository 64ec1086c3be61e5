/** Slots of one process: how many requests of each account are in flight. */
module MemoryConcurrencyLimiter {
  import opened Text

  /** What a caller gets back: a release that works once. */
  class Ticket {
    const account: int
    var done: bool

    constructor (account: int, done: bool)
      ensures this.account == account && this.done == done
    {
      this.account, this.done := account, done;
    }
  }

  ghost function HeldBy(tickets: set<Ticket>, account: int): set<Ticket> {
    set t | t in tickets && t.account == account
  }

  lemma HeldChanges(tickets: set<Ticket>, t: Ticket, account: int)
    ensures t !in tickets ==>
              |HeldBy(tickets + {t}, account)| == |HeldBy(tickets, account)| + if t.account == account then 1 else 0
    ensures t in tickets ==>
              |HeldBy(tickets - {t}, account)| == |HeldBy(tickets, account)| - if t.account == account then 1 else 0
  {
    var held := HeldBy(tickets, account);
    assert HeldBy(tickets + {t}, account) == if t.account == account then held + {t} else held;
    assert HeldBy(tickets - {t}, account) == if t.account == account then held - {t} else held;
  }

  class Limiter {
    var inflight: map<int, int>
    /** The tickets that were granted and not released. */
    ghost var outstanding: set<Ticket>

    /** The counters are the numbers of outstanding tickets, and zero counters are deleted. */
    ghost predicate Counted()
      reads this
    {
      && (forall a :: a in inflight ==> Lookup(inflight, a, 0) > 0)
      && (forall a :: Lookup(inflight, a, 0) == |HeldBy(outstanding, a)|)
    }

    ghost predicate Valid()
      reads this, outstanding
    {
      Counted() && forall t :: t in outstanding ==> !t.done
    }

    constructor ()
      ensures Valid() && outstanding == {}
    {
      inflight, outstanding := map[], {};
      new;
      assert forall a :: HeldBy({}, a) == {};
    }

    /** Admits exactly while fewer than `limit` tickets of the account are outstanding. */
    method TryAcquire(account: int, limit: int) returns (ticket: Ticket?, admitted: bool)
      requires Valid()
      modifies this
      ensures Valid()
      ensures admitted <==> limit <= 0 || account <= 0 || |HeldBy(old(outstanding), account)| < limit
      ensures admitted <==> ticket != null
      ensures admitted ==> fresh(ticket) && ticket.account == account
      ensures admitted && (limit <= 0 || account <= 0) ==> ticket.done
      ensures outstanding == old(outstanding) + if admitted && limit > 0 && account > 0 then {ticket} else {}
    {
      if limit <= 0 || account <= 0 {
        ticket := new Ticket(account, true);
        return ticket, true;
      }
      var count := Lookup(inflight, account, 0);
      if count >= limit { return null, false; }
      ticket := new Ticket(account, false);
      forall a { HeldChanges(outstanding, ticket, a); }
      hide HeldBy;
      inflight := inflight[account := count + 1];
      outstanding := outstanding + {ticket};
      admitted := true;
    }

    /** Releases a ticket; releasing it again changes nothing. */
    method Release(ticket: Ticket)
      requires Valid() && (ticket.done || ticket in outstanding)
      modifies this, ticket
      ensures Valid() && ticket.done && outstanding == old(outstanding) - {ticket}
      ensures old(ticket.done) ==> inflight == old(inflight)
    {
      if ticket.done { return; }
      ticket.done := true;
      var account := ticket.account;
      forall a { HeldChanges(outstanding, ticket, a); }
      hide HeldBy;
      outstanding := outstanding - {ticket};
      if Lookup(inflight, account, 0) <= 1 {
        inflight := inflight - {account};
      } else {
        inflight := inflight[account := inflight[account] - 1];
      }
    }
  }
}

/** The shared slots of one account: leases in a Redis sorted set, with a per-replica
    fallback when Redis cannot be reached. Every interleaving is a sequence of steps. */
module RedisConcurrencyLimiter {
  /** A lease is named by its replica and a number that the replica draws once. */
  datatype Member = Member(replica: nat, number: nat)

  /** The sorted set of lease deadlines, and when Redis drops the whole key. */
  datatype Slots = Slots(deadline: map<Member, int>, expires: int)

  /** `skew` is how far a replica's clock may run ahead of the one Redis keeps. */
  datatype Config = Config(limit: nat, ttl: nat, replicas: nat, skew: nat)

  // ---- the two scripts and the removal, each atomic ----------------------------------------

  function Reap(deadline: map<Member, int>, at: int): map<Member, int> {
    map m | m in deadline && deadline[m] > at :: deadline[m]
  }

  predicate Granted(c: Config, z: Slots, at: int) {
    |Reap(z.deadline, at)| < c.limit
  }

  /** `at` is the caller's reading of its own clock. */
  function AcquireScript(c: Config, z: Slots, clock: int, at: int, m: Member): Slots {
    var live := Reap(z.deadline, at);
    if |live| >= c.limit then z.(deadline := live) else Slots(live[m := at + c.ttl], clock + c.ttl)
  }

  function RefreshScript(c: Config, z: Slots, clock: int, at: int, m: Member): Slots {
    if m in z.deadline then Slots(z.deadline[m := at + c.ttl], clock + c.ttl) else z
  }

  function Remove(z: Slots, m: Member): Slots {
    z.(deadline := z.deadline - {m})
  }

  /** The sorted set as the scripts update it. */
  class SortedSet {
    const config: Config
    var deadline: map<Member, int>
    var expires: int

    function Abs(): Slots
      reads this
    {
      Slots(deadline, expires)
    }

    constructor (config: Config)
      ensures this.config == config && Abs() == Slots(map[], 0)
    {
      this.config, deadline, expires := config, map[], 0;
    }

    method Acquire(clock: int, at: int, m: Member) returns (granted: bool)
      modifies this
      ensures granted == Granted(config, old(Abs()), at) && Abs() == AcquireScript(config, old(Abs()), clock, at, m)
    {
      deadline := map k | k in deadline && deadline[k] > at :: deadline[k];
      var current := |deadline|;
      if current >= config.limit { return false; }
      deadline := deadline[m := at + config.ttl];
      expires := clock + config.ttl;
      granted := true;
    }

    method Refresh(clock: int, at: int, m: Member)
      modifies this
      ensures Abs() == RefreshScript(config, old(Abs()), clock, at, m)
    {
      if m in deadline {
        deadline := deadline[m := at + config.ttl];
        expires := clock + config.ttl;
      }
    }
  }

  // ---- the protocol ------------------------------------------------------------------------

  /** `ran` are the leases whose acquire script has been executed; `holding` those whose
      caller was told so and is in flight; `drawn` counts the numbers each replica has used;
      `fallback` are the requests in flight on each replica without a lease. */
  datatype State = State(clock: int, slots: Slots, ran: set<Member>, holding: set<Member>, drawn: seq<nat>, fallback: seq<nat>)

  datatype Step =
    | Tick(elapsed: nat)
    | Acquire(replica: nat, at: int)         // the script runs and the answer arrives
    | AcquireFails(replica: nat)             // an error or a timeout: fall back
    | Straggle(m: Member, at: int)           // the script of a failed acquire runs after all
    | Refresh(m: Member, at: int)
    | Release(m: Member, delivered: bool)
    | LateRelease(m: Member)                 // a removal that seemed lost arrives
    | ReleaseFallback(replica: nat)
    | Crash(replica: nat)
    | KeyExpiry

  function Start(c: Config): State {
    State(0, Slots(map[], 0), {}, {}, seq(c.replicas, _ => 0), seq(c.replicas, _ => 0))
  }

  predicate Drawn(s: State, m: Member) {
    m.replica < |s.drawn| && m.number < s.drawn[m.replica]
  }

  function Draw(s: State, replica: nat): State
    requires replica < |s.drawn|
  {
    s.(drawn := s.drawn[replica := s.drawn[replica] + 1])
  }

  /** One step; a step that cannot happen changes nothing. */
  function Apply(c: Config, s: State, step: Step): State {
    match step
    case Tick(elapsed) => s.(clock := s.clock + elapsed)
    case Acquire(r, at) =>
      if r >= |s.drawn| || at > s.clock + c.skew then s else
      var m := Member(r, s.drawn[r]);
      var t := Draw(s, r).(slots := AcquireScript(c, s.slots, s.clock, at, m), ran := s.ran + {m});
      if Granted(c, s.slots, at) then t.(holding := s.holding + {m}) else t
    case AcquireFails(r) =>
      if r >= |s.drawn| || r >= |s.fallback| then s else
      var t := Draw(s, r);
      if s.fallback[r] < c.limit then t.(fallback := s.fallback[r := s.fallback[r] + 1]) else t
    case Straggle(m, at) =>
      if !Drawn(s, m) || m in s.ran || at > s.clock + c.skew then s
      else s.(slots := AcquireScript(c, s.slots, s.clock, at, m), ran := s.ran + {m})
    case Refresh(m, at) => if at > s.clock + c.skew then s else s.(slots := RefreshScript(c, s.slots, s.clock, at, m))
    case Release(m, delivered) =>
      if m !in s.holding then s
      else s.(holding := s.holding - {m}, slots := if delivered then Remove(s.slots, m) else s.slots)
    case LateRelease(m) => if m !in s.ran || m in s.holding then s else s.(slots := Remove(s.slots, m))
    case ReleaseFallback(r) =>
      if r >= |s.fallback| || s.fallback[r] == 0 then s else s.(fallback := s.fallback[r := s.fallback[r] - 1])
    case Crash(r) =>
      if r >= |s.fallback| then s
      else s.(holding := (set m | m in s.holding && m.replica != r), fallback := s.fallback[r := 0])
    case KeyExpiry => if s.clock < s.slots.expires then s else s.(slots := s.slots.(deadline := map[]))
  }

  function Run(c: Config, steps: seq<Step>): State {
    if steps == [] then Start(c) else Apply(c, Run(c, steps[..|steps| - 1]), steps[|steps| - 1])
  }

  function Sum(ns: seq<nat>): nat {
    if ns == [] then 0 else Sum(ns[..|ns| - 1]) + ns[|ns| - 1]
  }

  // ---- what every step keeps ---------------------------------------------------------------

  /** The sorted set alone: within the limit, and not dropped before a deadline in it, up to
      the skew. */
  ghost predicate SlotsSafe(c: Config, z: Slots, ran: set<Member>, clock: int) {
    && |z.deadline| <= c.limit && z.expires <= clock + c.ttl
    && (forall m :: m in z.deadline ==> z.deadline[m] <= z.expires + c.skew && m in ran)
  }

  ghost predicate Safe(c: Config, s: State) {
    && SlotsSafe(c, s.slots, s.ran, s.clock)
    && |s.drawn| == |s.fallback| == c.replicas
    && (forall r :: 0 <= r < |s.fallback| ==> s.fallback[r] <= c.limit)
    && s.holding <= s.ran && (forall m :: m in s.ran ==> Drawn(s, m))
  }

  lemma ReapFewer(deadline: map<Member, int>, at: int)
    ensures |Reap(deadline, at)| <= |deadline|
  {
    var live := Reap(deadline, at);
    SubsetSize(live.Keys, deadline.Keys);
    assert |live| == |live.Keys| && |deadline| == |deadline.Keys|;
  }

  lemma {:induction false} SubsetSize<T>(a: set<T>, b: set<T>)
    requires a <= b
    ensures |a| <= |b|
  {
    if a != {} {
      var x :| x in a;
      SubsetSize(a - {x}, b - {x});
    }
  }

  lemma ScriptSafe(c: Config, z: Slots, ran: set<Member>, clock: int, at: int, m: Member)
    requires SlotsSafe(c, z, ran, clock) && at <= clock + c.skew
    ensures SlotsSafe(c, AcquireScript(c, z, clock, at, m), ran + {m}, clock)
  {
    ReapFewer(z.deadline, at);
    var live := Reap(z.deadline, at);
    assert live[m := at + c.ttl].Keys == live.Keys + {m};
    assert |live[m := at + c.ttl]| == |live.Keys + {m}|;
  }

  lemma RemoveSafe(c: Config, z: Slots, ran: set<Member>, clock: int, m: Member)
    requires SlotsSafe(c, z, ran, clock)
    ensures SlotsSafe(c, Remove(z, m), ran, clock)
  {
    SubsetSize((z.deadline - {m}).Keys, z.deadline.Keys);
    assert |z.deadline - {m}| == |(z.deadline - {m}).Keys| && |z.deadline| == |z.deadline.Keys|;
  }

  lemma RefreshSafe(c: Config, z: Slots, ran: set<Member>, clock: int, at: int, m: Member)
    requires SlotsSafe(c, z, ran, clock) && at <= clock + c.skew
    ensures SlotsSafe(c, RefreshScript(c, z, clock, at, m), ran, clock)
  {
    if m in z.deadline {
      var now := z.deadline[m := at + c.ttl];
      assert now.Keys == z.deadline.Keys;
      assert |now| == |now.Keys| && |z.deadline| == |z.deadline.Keys|;
    }
  }

  lemma LaterSafe(c: Config, z: Slots, ran: set<Member>, clock: int, later: int)
    requires SlotsSafe(c, z, ran, clock) && clock <= later
    ensures SlotsSafe(c, z, ran, later) && SlotsSafe(c, z.(deadline := map[]), ran, clock)
  {
  }

  lemma AcquireSafe(c: Config, s: State, r: nat, at: int)
    requires Safe(c, s)
    ensures Safe(c, Apply(c, s, Acquire(r, at)))
  {
    hide AcquireScript, SlotsSafe, Granted;
    if r < |s.drawn| && at <= s.clock + c.skew { ScriptSafe(c, s.slots, s.ran, s.clock, at, Member(r, s.drawn[r])); }
  }

  lemma StraggleSafe(c: Config, s: State, m: Member, at: int)
    requires Safe(c, s)
    ensures Safe(c, Apply(c, s, Straggle(m, at)))
  {
    hide AcquireScript, SlotsSafe, Granted;
    if at <= s.clock + c.skew { ScriptSafe(c, s.slots, s.ran, s.clock, at, m); }
  }

  lemma RefreshStepSafe(c: Config, s: State, m: Member, at: int)
    requires Safe(c, s)
    ensures Safe(c, Apply(c, s, Refresh(m, at)))
  {
    hide RefreshScript, SlotsSafe;
    if at <= s.clock + c.skew { RefreshSafe(c, s.slots, s.ran, s.clock, at, m); }
  }

  lemma ReleaseSafe(c: Config, s: State, m: Member, step: Step)
    requires Safe(c, s) && ((step.Release? && step.m == m) || step == LateRelease(m))
    ensures Safe(c, Apply(c, s, step))
  {
    hide Remove, SlotsSafe;
    RemoveSafe(c, s.slots, s.ran, s.clock, m);
  }

  lemma FallbackSafe(c: Config, s: State, step: Step)
    requires Safe(c, s) && (step.AcquireFails? || step.ReleaseFallback? || step.Crash?)
    ensures Safe(c, Apply(c, s, step))
  {
    hide SlotsSafe;
  }

  lemma StepSafe(c: Config, s: State, step: Step)
    requires Safe(c, s)
    ensures Safe(c, Apply(c, s, step))
  {
    match step
    case Acquire(r, at) => AcquireSafe(c, s, r, at);
    case Straggle(m, at) => StraggleSafe(c, s, m, at);
    case Refresh(m, at) => RefreshStepSafe(c, s, m, at);
    case Release(m, _) => ReleaseSafe(c, s, m, step);
    case LateRelease(m) => ReleaseSafe(c, s, m, step);
    case Tick(elapsed) => LaterSafe(c, s.slots, s.ran, s.clock, s.clock + elapsed); ClockSafe(c, s, step);
    case KeyExpiry => LaterSafe(c, s.slots, s.ran, s.clock, s.clock); ClockSafe(c, s, step);
    case _ => FallbackSafe(c, s, step);
  }

  lemma ClockSafe(c: Config, s: State, step: Step)
    requires Safe(c, s) && (step.Tick? || step.KeyExpiry?)
    requires SlotsSafe(c, s.slots, s.ran, if step.Tick? then s.clock + step.elapsed else s.clock)
    requires SlotsSafe(c, s.slots.(deadline := map[]), s.ran, s.clock)
    ensures Safe(c, Apply(c, s, step))
  {
    hide SlotsSafe;
  }

  /** Every interleaving is safe. */
  lemma {:induction false} EveryRunSafe(c: Config, steps: seq<Step>)
    ensures Safe(c, Run(c, steps))
  {
    if steps == [] {
      assert |Start(c).slots.deadline| == 0;
    } else {
      EveryRunSafe(c, steps[..|steps| - 1]);
      StepSafe(c, Run(c, steps[..|steps| - 1]), steps[|steps| - 1]);
    }
  }

  // ---- what slots are lost, and none comes back ---------------------------------------------

  /** Dropping a lease other than by its own release: reaping by a later caller, or the expiry
      of the whole key. */
  predicate Drops(c: Config, s: State, step: Step, m: Member) {
    m in s.slots.deadline &&
    match step
    case Acquire(r, at) => r < |s.drawn| && at <= s.clock + c.skew && s.slots.deadline[m] <= at
    case Straggle(x, at) => Drawn(s, x) && x !in s.ran && at <= s.clock + c.skew && s.slots.deadline[m] <= at
    case KeyExpiry => s.clock >= s.slots.expires
    case _ => false
  }

  /** A lease leaves the set by its own release, or by being dropped. */
  lemma LeavesExactly(c: Config, s: State, step: Step, m: Member)
    requires Safe(c, s) && m in s.slots.deadline
    ensures m !in Apply(c, s, step).slots.deadline <==>
              || (step == Release(m, true) && m in s.holding) || (step == LateRelease(m) && m !in s.holding) || Drops(c, s, step, m)
  {
    if step.Acquire? && step.replica < |s.drawn| {
      var x := Member(step.replica, s.drawn[step.replica]);
      assert x !in s.ran;
    }
  }

  /** A lease whose deadline is still ahead on every replica's clock ends only by its own release:
      neither reaping nor the expiry of the whole key ever drops it. */
  lemma LiveLeaseStays(c: Config, steps: seq<Step>, step: Step, m: Member)
    requires var s := Run(c, steps); m in s.slots.deadline && s.slots.deadline[m] > s.clock + c.skew
    requires m !in Apply(c, Run(c, steps), step).slots.deadline
    ensures step == Release(m, true) || step == LateRelease(m)
  {
    EveryRunSafe(c, steps);
    hide Run;
  }

  /** No lease is ever dropped while its deadline is ahead on the clock of Redis. */
  ghost predicate NeverDropsEarly(c: Config) {
    forall steps, step, m ::
      Drops(c, Run(c, steps), step, m) ==> Run(c, steps).slots.deadline[m] <= Run(c, steps).clock
  }

  /** That holds exactly when no replica's clock can run ahead (or nothing can be leased at all). */
  lemma NoEarlyDropsExactly(c: Config)
    ensures NeverDropsEarly(c) <==> c.skew == 0 || c.limit == 0 || c.replicas == 0
  {
    if c.skew == 0 || c.limit == 0 || c.replicas == 0 {
      forall steps, step, m | Drops(c, Run(c, steps), step, m)
        ensures Run(c, steps).slots.deadline[m] <= Run(c, steps).clock
      {
        EveryRunSafe(c, steps);
        var s := Run(c, steps);
        assert m in s.ran && Drawn(s, m);
      }
    } else {
      var steps, m := [Acquire(0, c.skew)] + [Tick(c.ttl)], Member(0, 0);
      EarlyDrop(c);
      assert Drops(c, Run(c, steps), KeyExpiry, m);
    }
  }

  /** A caller whose clock is ahead gets a deadline beyond the expiry of the key. */
  lemma EarlyDrop(c: Config)
    requires c.skew > 0 && c.limit > 0 && c.replicas > 0
    ensures var s, m := Run(c, [Acquire(0, c.skew)] + [Tick(c.ttl)]), Member(0, 0);
            m in s.slots.deadline && s.slots.deadline[m] > s.clock >= s.slots.expires
  {
    assert Reap(map[], c.skew) == map[];
    RunOne(c, [], Acquire(0, c.skew));
    assert [] + [Acquire(0, c.skew)] == [Acquire(0, c.skew)];
    RunOne(c, [Acquire(0, c.skew)], Tick(c.ttl));
  }

  /** A lease that has left the sorted set, by release, reaping or expiry, or that was never
      let in, stays out: no step of any kind lets it in again. */
  lemma GoneStaysGone(c: Config, s: State, step: Step, m: Member)
    requires Safe(c, s) && m in s.ran && m !in s.slots.deadline
    ensures var t := Apply(c, s, step); m in t.ran && m !in t.slots.deadline
  {
  }

  lemma {:induction false} NeverResurrected(c: Config, before: seq<Step>, after: seq<Step>, m: Member)
    requires var s := Run(c, before); m in s.ran && m !in s.slots.deadline
    ensures m !in Run(c, before + after).slots.deadline && m in Run(c, before + after).ran
    decreases |after|
  {
    if after == [] {
      assert before + after == before;
    } else {
      var n := |after| - 1;
      assert (before + after)[..|before + after| - 1] == before + after[..n];
      NeverResurrected(c, before, after[..n], m);
      EveryRunSafe(c, before + after[..n]);
      GoneStaysGone(c, Run(c, before + after[..n]), after[n], m);
    }
  }

  // ---- the global cap ------------------------------------------------------------------------

  lemma {:induction false} SumBound(ns: seq<nat>, limit: nat)
    requires forall r :: 0 <= r < |ns| ==> ns[r] <= limit
    ensures Sum(ns) <= |ns| * limit
  {
    if ns != [] { SumBound(ns[..|ns| - 1], limit); }
  }

  /** With n replicas and fail-open, at most n + 1 times the limit is held. */
  lemma HeldSlotsBounded(c: Config, steps: seq<Step>)
    ensures var s := Run(c, steps);
            |s.slots.deadline| <= c.limit && |s.slots.deadline| + Sum(s.fallback) <= (c.replicas + 1) * c.limit
  {
    EveryRunSafe(c, steps);
    var s := Run(c, steps);
    SumBound(s.fallback, c.limit);
    hide Run, Sum;
    OneMore(|s.slots.deadline|, Sum(s.fallback), c.replicas, c.limit);
  }

  lemma OneMore(slots: nat, others: nat, replicas: nat, limit: nat)
    requires slots <= limit && others <= replicas * limit
    ensures slots + others <= (replicas + 1) * limit
  {
    assert (replicas + 1) * limit == replicas * limit + limit;
  }

  /** A lease taken from the caller that holds it. */
  predicate Takes(c: Config, s: State, step: Step, m: Member) {
    m in s.holding && Drops(c, s, step, m)
  }

  /** The leases whose callers are in flight without a slot. */
  function Lost(s: State): set<Member> {
    s.holding - s.slots.deadline.Keys
  }

  lemma StepLoses(c: Config, s: State, step: Step, m: Member)
    requires Safe(c, s)
    ensures m in Lost(Apply(c, s, step)) <==> m in Apply(c, s, step).holding && (m in Lost(s) || Takes(c, s, step, m))
  {
    if m in s.slots.deadline {
      LeavesExactly(c, s, step, m);
    } else if m in s.ran {
      GoneStaysGone(c, s, step, m);
    }
  }

  predicate TakenBy(c: Config, steps: seq<Step>, n: nat, m: Member)
    requires n < |steps|
  {
    Takes(c, Run(c, steps[..n]), steps[n], m)
  }

  predicate Taken(c: Config, steps: seq<Step>, m: Member) {
    exists n: nat :: n < |steps| && TakenBy(c, steps, n, m)
  }

  lemma TakenOne(c: Config, steps: seq<Step>, step: Step, m: Member)
    ensures Taken(c, steps + [step], m) <==> Taken(c, steps, m) || Takes(c, Run(c, steps), step, m)
  {
    hide Run, Takes;
    var now := steps + [step];
    forall n: nat | n < |steps| ensures TakenBy(c, now, n, m) == TakenBy(c, steps, n, m) {
      assert now[..n] == steps[..n];
    }
    assert now[..|steps|] == steps;
    assert TakenBy(c, now, |steps|, m) == Takes(c, Run(c, steps), step, m);
  }

  /** At the end of any run a caller is in flight without its slot exactly when it has not
      released and some step of the run took the slot: a reaping caller whose clock had reached
      the deadline, or the expiry of the key. */
  lemma {:induction false} LostExactly(c: Config, steps: seq<Step>, m: Member)
    ensures m in Lost(Run(c, steps)) <==> m in Run(c, steps).holding && Taken(c, steps, m)
    ensures Taken(c, steps, m) ==> m in Run(c, steps).ran
  {
    if steps == [] {
      assert Run(c, steps).holding == {};
    } else {
      var before, step := steps[..|steps| - 1], steps[|steps| - 1];
      assert before + [step] == steps;
      LostExactly(c, before, m);
      EveryRunSafe(c, before);
      RunOne(c, before, step);
      TakenOne(c, before, step, m);
      hide Run, Taken;
      LostStep(c, Run(c, before), step, m);
    }
  }

  lemma LostStep(c: Config, s: State, step: Step, m: Member)
    requires Safe(c, s)
    ensures var t := Apply(c, s, step);
            && (m in Lost(t) <==> m in t.holding && (m in Lost(s) || Takes(c, s, step, m)))
            && (m in t.holding && m in s.ran ==> m in s.holding)
            && (m in s.ran || m in s.holding ==> m in t.ran)
  {
    StepLoses(c, s, step, m);
    HeldBefore(c, s, step, m);
  }

  /** Once given up, a lease is never held again. */
  lemma HeldBefore(c: Config, s: State, step: Step, m: Member)
    requires Safe(c, s)
    ensures m in Apply(c, s, step).holding && m in s.ran ==> m in s.holding
    ensures m in Apply(c, s, step).holding && m !in s.ran ==> m in Apply(c, s, step).slots.deadline
  {
  }

  /** The requests in flight: at most n + 1 times the limit, and the callers whose slot was taken. */
  lemma InFlightBounded(c: Config, steps: seq<Step>)
    ensures var s := Run(c, steps); |s.holding| + Sum(s.fallback) <= (c.replicas + 1) * c.limit + |Lost(s)|
  {
    HeldSlotsBounded(c, steps);
    var s := Run(c, steps);
    var kept := s.holding - Lost(s);
    SubsetSize(kept, s.slots.deadline.Keys);
    assert |s.slots.deadline| == |s.slots.deadline.Keys|;
    assert s.holding == kept + Lost(s);
    hide Run, Lost;
  }

  /** How many slots can be taken has no bound, in any configuration: with leases that nobody
      refreshes, one more request is let in each time a lease runs out. */
  function Lapses(c: Config, n: nat): seq<Step> {
    if n == 0 then [] else Lapses(c, n - 1) + [Acquire(0, Elapsed(c, n - 1))] + [Tick(c.ttl)]
  }

  function Elapsed(c: Config, n: nat): nat {
    c.ttl * n
  }

  /** After n such rounds n requests are in flight and every lease has lapsed. */
  ghost predicate Lapsed(c: Config, s: State, n: nat) {
    && s.clock == Elapsed(c, n) && 0 < |s.drawn| == c.replicas && s.drawn[0] == n && |s.holding| == n
    && (forall m :: m in s.holding ==> m.number < n)
    && forall m :: m in s.slots.deadline ==> s.slots.deadline[m] <= s.clock
  }

  lemma LapseRound(c: Config, s: State, n: nat)
    requires c.limit > 0 && Lapsed(c, s, n)
    ensures Lapsed(c, Apply(c, Apply(c, s, Acquire(0, Elapsed(c, n))), Tick(c.ttl)), n + 1)
  {
    assert Elapsed(c, n + 1) == Elapsed(c, n) + c.ttl;
    hide Elapsed;
    var m, t := Member(0, n), Apply(c, s, Acquire(0, Elapsed(c, n)));
    AcquireAlone(c, s, s.clock);
    TickIs(c, t, c.ttl);
    hide Apply;
    assert m !in s.holding && |s.holding + {m}| == n + 1;
    assert t.slots.deadline.Keys == {m};
  }

  lemma TickIs(c: Config, s: State, elapsed: nat)
    ensures Apply(c, s, Tick(elapsed)) == s.(clock := s.clock + elapsed)
  {
  }

  lemma NothingLapsed(c: Config)
    requires c.replicas > 0
    ensures Lapsed(c, Run(c, []), 0)
  {
  }

  lemma {:induction false} LapsedLeasesExceedAnyCap(c: Config, n: nat)
    requires c.limit > 0 && c.replicas > 0
    ensures Lapsed(c, Run(c, Lapses(c, n)), n)
  {
    hide Run, Apply, Lapsed, Elapsed;
    if n == 0 {
      NothingLapsed(c);
    } else {
      LapsedLeasesExceedAnyCap(c, n - 1);
      var before, acquire := Lapses(c, n - 1), Acquire(0, Elapsed(c, n - 1));
      RunOne(c, before, acquire);
      RunOne(c, before + [acquire], Tick(c.ttl));
      LapseRound(c, Run(c, before), n - 1);
    }
  }

  /** With every lease lapsed, the next caller is let in. */
  lemma AcquireAlone(c: Config, s: State, at: int)
    requires c.limit > 0 && |s.drawn| > 0 && at == s.clock
    requires forall m :: m in s.slots.deadline ==> s.slots.deadline[m] <= at
    ensures var m := Member(0, s.drawn[0]);
            Apply(c, s, Acquire(0, at)) == State(s.clock, Slots(map[m := at + c.ttl], at + c.ttl), s.ran + {m}, s.holding + {m},
                                                 s.drawn[0 := s.drawn[0] + 1], s.fallback)
  {
    assert Reap(s.slots.deadline, at) == map[];
  }

  lemma RunOne(c: Config, steps: seq<Step>, step: Step)
    ensures Run(c, steps + [step]) == Apply(c, Run(c, steps), step)
  {
    assert (steps + [step])[..|steps|] == steps;
  }
}
