/** How long a lease lasts, and who is let in, read off the steps of a run. */
module LeaseLaws {
  import opened RedisConcurrencyLimiter

  /** A step that gives m a lease: an acquire that lets m in, or a refresh by the caller in flight. */
  predicate Stamps(c: Config, steps: seq<Step>, j: nat, m: Member, at: int)
    requires j < |steps|
  {
    var s := Run(c, steps[..j]);
    at <= s.clock + c.skew &&
    ((steps[j] == Acquire(m.replica, at) && m !in s.holding && m in Apply(c, s, steps[j]).holding) ||
     (steps[j] == Refresh(m, at) && m in s.holding))
  }

  /** A step that leaves a lease taken at `at` alone: it does not release it, it does not refresh it
      with an older reading, and no acquiring caller has come to the end of it. */
  predicate SparedBy(c: Config, step: Step, m: Member, at: int) {
    match step
    case Acquire(_, a) => a < at + c.ttl
    case Straggle(_, a) => a < at + c.ttl
    case Refresh(x, a) => x == m ==> a >= at
    case Release(x, _) => x != m
    case LateRelease(x) => x != m
    case _ => true
  }

  /** So does every step after j and before n, while the clock stays short of a lease time. */
  predicate Spared(c: Config, steps: seq<Step>, j: nat, n: nat, m: Member, at: int)
    requires j < n <= |steps|
  {
    forall i :: j < i < n ==>
      SparedBy(c, steps[i], m, at) && Run(c, steps[..i + 1]).clock < Run(c, steps[..j]).clock + c.ttl
  }

  /** The lease is in the set, and lasts until at + ttl; the key lasts until since + ttl. */
  predicate Lasts(c: Config, s: State, m: Member, at: int, since: int) {
    m in s.ran && m in s.slots.deadline && s.slots.deadline[m] >= at + c.ttl && s.slots.expires >= since + c.ttl && s.clock >= since
  }

  lemma AcquireLasts(c: Config, s: State, r: nat, at: int, m: Member)
    requires Safe(c, s) && m == Member(r, if r < |s.drawn| then s.drawn[r] else 0)
    requires at <= s.clock + c.skew && m !in s.holding && m in Apply(c, s, Acquire(r, at)).holding
    ensures Lasts(c, Apply(c, s, Acquire(r, at)), m, at, s.clock)
  {
  }

  lemma RefreshLasts(c: Config, s: State, at: int, m: Member)
    requires at <= s.clock + c.skew && m in s.slots.deadline && m in s.ran
    ensures Lasts(c, Apply(c, s, Refresh(m, at)), m, at, s.clock)
  {
  }

  lemma StepLasts(c: Config, s: State, step: Step, m: Member, at: int, since: int)
    requires Safe(c, s) && Lasts(c, s, m, at, since) && SparedBy(c, step, m, at) && Apply(c, s, step).clock < since + c.ttl
    ensures Lasts(c, Apply(c, s, step), m, at, since)
  {
  }

  lemma {:induction false} RunLasts(c: Config, steps: seq<Step>, j: nat, n: nat, m: Member, at: int)
    requires j < n <= |steps| && Lasts(c, Run(c, steps[..j + 1]), m, at, Run(c, steps[..j]).clock) && Spared(c, steps, j, n, m, at)
    ensures Lasts(c, Run(c, steps[..n]), m, at, Run(c, steps[..j]).clock)
    decreases n
  {
    hide Apply, Lasts, SparedBy;
    if n > j + 1 {
      RunLasts(c, steps, j, n - 1, m, at);
      assert steps[..n][..n - 1] == steps[..n - 1];
      assert steps[..n - 1 + 1] == steps[..n];
      EveryRunSafe(c, steps[..n - 1]);
      StepLasts(c, Run(c, steps[..n - 1]), steps[n - 1], m, at, Run(c, steps[..j]).clock);
    }
  }

  /** What a caller in flight relies on: it holds its lease at n if some step before gave it one
      that has been spared since, with the lease still in the set when that step was a refresh. */
  lemma StampLasts(c: Config, steps: seq<Step>, j: nat, n: nat, m: Member, at: int)
    requires j < n <= |steps| && Stamps(c, steps, j, m, at) && Spared(c, steps, j, n, m, at)
    requires steps[j].Refresh? ==> m in Run(c, steps[..j]).slots.deadline
    ensures m in Run(c, steps[..n]).slots.deadline
  {
    var s := Run(c, steps[..j]);
    EveryRunSafe(c, steps[..j]);
    assert steps[..j + 1][..j] == steps[..j];
    HeldMember(c, s, steps[j], m);
    if steps[j].Acquire? { AcquireLasts(c, s, m.replica, at, m); } else { RefreshLasts(c, s, at, m); }
    RunLasts(c, steps, j, n, m, at);
    hide Apply;
  }

  lemma HeldMember(c: Config, s: State, step: Step, m: Member)
    requires Safe(c, s)
    ensures step.Acquire? && m !in s.holding && m in Apply(c, s, step).holding && step.replica == m.replica ==>
              m.replica < |s.drawn| && m.number == s.drawn[m.replica]
    ensures m in s.holding ==> m in s.ran
  {
  }

  /** A caller that always refreshes in time never loses its slot while it is in flight. */
  lemma RefreshedNeverLost(c: Config, steps: seq<Step>, m: Member)
    requires forall n :: 0 < n <= |steps| && m in Run(c, steps[..n]).holding ==> InTime(c, steps, n, m)
    ensures m !in Lost(Run(c, steps))
  {
    if m in Run(c, steps).holding && steps != [] {
      assert steps[..|steps|] == steps;
      InTimeHolds(c, steps, m, |steps|);
    }
  }

  ghost predicate InTime(c: Config, steps: seq<Step>, n: nat, m: Member)
    requires 0 < n <= |steps|
  {
    exists j: nat, at: int :: j < n && Stamps(c, steps, j, m, at) && Spared(c, steps, j, n, m, at)
  }

  lemma {:induction false} InTimeHolds(c: Config, steps: seq<Step>, m: Member, n: nat)
    requires forall k :: 0 < k <= |steps| && m in Run(c, steps[..k]).holding ==> InTime(c, steps, k, m)
    requires 0 < n <= |steps| && m in Run(c, steps[..n]).holding
    ensures m in Run(c, steps[..n]).slots.deadline
    decreases n
  {
    hide Apply, Run, Spared;
    assert InTime(c, steps, n, m);
    var j: nat, at: int :| j < n && Stamps(c, steps, j, m, at) && Spared(c, steps, j, n, m, at);
    if steps[j].Refresh? {
      if j == 0 { NobodyAtFirst(c, steps); } else { InTimeHolds(c, steps, m, j); }
    }
    StampLasts(c, steps, j, n, m, at);
  }

  lemma NobodyAtFirst(c: Config, steps: seq<Step>)
    ensures Run(c, steps[..0]).holding == {}
  {
    assert steps[..0] == [];
  }

  // ---- who is let in -------------------------------------------------------------------------

  /** A caller is let in exactly while fewer than the limit of the leases last beyond its clock. */
  lemma LetInExactly(c: Config, steps: seq<Step>, r: nat, at: int)
    requires r < c.replicas && at <= Run(c, steps).clock + c.skew
    ensures var s := Run(c, steps);
            r < |s.drawn| &&
            var m := Member(r, s.drawn[r]);
            m !in s.holding &&
            (m in Apply(c, s, Acquire(r, at)).holding <==>
               |set x | x in s.slots.deadline && s.slots.deadline[x] > at| < c.limit)
  {
    EveryRunSafe(c, steps);
    var s := Run(c, steps);
    var live := Reap(s.slots.deadline, at);
    assert live.Keys == set x | x in s.slots.deadline && s.slots.deadline[x] > at;
    assert |live| == |live.Keys|;
    hide Run;
  }

  /** A request that cannot reach Redis is let in exactly while its replica holds fewer than the
      limit of such requests. */
  lemma FallbackExactly(c: Config, steps: seq<Step>, r: nat)
    requires r < c.replicas
    ensures var s := Run(c, steps);
            r < |s.fallback| &&
            Apply(c, s, AcquireFails(r)).fallback == s.fallback[r := s.fallback[r] + if s.fallback[r] < c.limit then 1 else 0]
  {
    EveryRunSafe(c, steps);
    hide Run;
  }
}
