/** The sliding minute: a pruned list of admission times, read on clocks that may run backwards. */
module RpmLimiter {
  import opened Text

  /** One minute, in milliseconds. */
  const WINDOW: int := 60000

  /** Every admission so far, and how many of them, from the front, were pruned. */
  datatype Log = Log(all: seq<int>, cut: nat) {
    predicate Valid() {
      cut <= |all|
    }
  }

  const EMPTY := Log([], 0)

  /** One request: the limit it is held to and the clock reading taken for it. Readings are taken
      before the lock, so they need not come in order. */
  datatype Try = Try(limit: int, now: int)

  /** Where the leading entries up to the cutoff end. */
  function CutAt(all: seq<int>, cut: nat, cutoff: int): (n: nat)
    requires cut <= |all|
    ensures cut <= n <= |all|
    ensures (forall i :: cut <= i < n ==> all[i] <= cutoff) && (n < |all| ==> cutoff < all[n])
    decreases |all| - cut
  {
    if cut < |all| && all[cut] <= cutoff then CutAt(all, cut + 1, cutoff) else cut
  }

  predicate Admits(l: Log, t: Try)
    requires l.Valid()
  {
    t.limit <= 0 || |l.all| - CutAt(l.all, l.cut, t.now - WINDOW) < t.limit
  }

  /** A limit that is not positive admits without leaving a record. */
  function Request(l: Log, t: Try): (m: Log)
    requires l.Valid()
    ensures m.Valid()
  {
    if t.limit <= 0 then l else
    Log(if Admits(l, t) then l.all + [t.now] else l.all, CutAt(l.all, l.cut, t.now - WINDOW))
  }

  function Run(tries: seq<Try>): (l: Log)
    ensures l.Valid()
  {
    if tries == [] then EMPTY else Request(Run(tries[..|tries| - 1]), tries[|tries| - 1])
  }

  /** No reading is more than `late` behind an earlier one. */
  predicate Late(tries: seq<Try>, late: nat) {
    forall i, j :: 0 <= i < j < |tries| ==> tries[i].now - late <= tries[j].now
  }

  predicate Capped(tries: seq<Try>, cap: nat) {
    forall i :: 0 <= i < |tries| ==> tries[i].limit <= cap
  }

  /** How many admissions lie after `low`, up to `high`. */
  function Count(h: seq<int>, low: int, high: int): nat {
    if h == [] then 0 else
    Count(h[..|h| - 1], low, high) + if low < h[|h| - 1] <= high then 1 else 0
  }

  lemma CountNext(h: seq<int>, x: int, low: int, high: int)
    ensures Count(h + [x], low, high) == Count(h, low, high) + if low < x <= high then 1 else 0
  {
    assert (h + [x])[..|h|] == h;
  }

  /** Entries outside the span do not count; entries inside all do. */
  lemma {:induction false} CountSuffix(h: seq<int>, n: nat, low: int, high: int)
    requires n <= |h| && forall i :: 0 <= i < n ==> h[i] <= low
    ensures Count(h, low, high) <= |h| - n
    ensures (forall i :: n <= i < |h| ==> low < h[i] <= high) ==> Count(h, low, high) == |h| - n
    decreases |h|
  {
    if h != [] {
      CountSuffix(h[..|h| - 1], if n == |h| then n - 1 else n, low, high);
    }
  }

  lemma RequestMeans(l: Log, t: Try)
    requires l.Valid()
    ensures var m := Request(l, t);
            && l.cut <= m.cut <= |l.all| && (forall i :: l.cut <= i < m.cut ==> l.all[i] <= t.now - WINDOW)
            && (m.all == l.all || (m.all == l.all + [t.now] && |l.all| - m.cut < t.limit))
            && (m.all == l.all && t.limit > 0 ==> |l.all| - m.cut >= t.limit)
  {
    hide CutAt;
    assert |l.all + [t.now]| != |l.all|;
  }

  /** What a log remembers: every entry was read by `latest`, each at most `late` behind those
      before it, and what was pruned is a minute older than some reading. */
  predicate Keeps(l: Log, late: nat, latest: int) {
    && (forall i :: 0 <= i < |l.all| ==> l.all[i] <= latest)
    && (forall i, j :: 0 <= i < j < |l.all| ==> l.all[i] - late <= l.all[j])
    && (forall i :: 0 <= i < l.cut <= |l.all| ==> l.all[i] <= latest - WINDOW)
  }

  lemma RequestKeeps(l: Log, t: Try, late: nat, latest: int)
    requires l.Valid() && Keeps(l, late, latest) && Keeps(l, late, t.now + late) && t.now <= latest
    ensures Keeps(Request(l, t), late, latest)
  {
    RequestMeans(l, t);
    var m := Request(l, t);
    hide Request;
    forall i | 0 <= i < m.cut ensures m.all[i] <= latest - WINDOW {
      assert m.all[i] == l.all[i];
    }
  }

  lemma {:induction false} RunKeeps(tries: seq<Try>, late: nat, latest: int)
    requires Late(tries, late) && forall i :: 0 <= i < |tries| ==> tries[i].now <= latest
    ensures Keeps(Run(tries), late, latest)
  {
    if tries != [] {
      var n := |tries| - 1;
      RunKeeps(tries[..n], late, latest);
      RunKeeps(tries[..n], late, tries[n].now + late);
      RequestKeeps(Run(tries[..n]), tries[n], late, latest);
    }
  }

  lemma RequestSpan(l: Log, t: Try, late: nat, cap: nat, high: int)
    requires l.Valid() && Keeps(l, late, t.now + late) && t.limit <= cap
    requires Count(l.all, high - WINDOW + late, high) <= cap
    ensures Count(Request(l, t).all, high - WINDOW + late, high) <= cap
  {
    var low := high - WINDOW + late;
    var m := Request(l, t);
    RequestMeans(l, t);
    CountNext(l.all, t.now, low, high);
    hide Request, Count;
    if low < t.now <= high {
      assert forall i :: 0 <= i < m.cut ==> l.all[i] <= low;
      CountSuffix(l.all, m.cut, low, high);
    }
  }

  /** If readings are never more than `late` behind, then no span of a minute less `late`,
      wherever it lies, holds more admissions than the largest limit. */
  lemma {:induction false} NoSpanExceedsLimit(tries: seq<Try>, late: nat, cap: nat, t: int)
    requires Late(tries, late) && Capped(tries, cap)
    ensures Count(Run(tries).all, t - WINDOW + late, t) <= cap
  {
    if tries != [] {
      var n := |tries| - 1;
      hide Keeps, Request;
      NoSpanExceedsLimit(tries[..n], late, cap, t);
      RunKeeps(tries[..n], late, tries[n].now + late);
      RequestSpan(Run(tries[..n]), tries[n], late, cap, t);
    }
  }

  /** Nobody is turned away unless the minute is full, give or take the lateness. */
  lemma RefusedWhenFull(tries: seq<Try>, late: nat, t: Try)
    requires Late(tries + [t], late) && !Admits(Run(tries), t)
    ensures Count(Run(tries).all, t.now - WINDOW - late, t.now + late) >= t.limit
  {
    var l := Run(tries);
    hide Late, Run, Count;
    LateBefore(tries, t, late);
    RunKeeps(tries, late, t.now + late);
    CountAtLeast(l.all, CutAt(l.all, l.cut, t.now - WINDOW), t.now - WINDOW - late, t.now + late);
  }

  /** Who is admitted found fewer than its own limit in the minute, less the lateness. */
  lemma AdmittedMeans(tries: seq<Try>, late: nat, t: Try)
    requires Late(tries + [t], late) && t.limit > 0 && Admits(Run(tries), t)
    ensures Count(Run(tries).all, t.now - WINDOW + late, t.now + late) < t.limit
  {
    hide Late, Run, Count;
    var l := Run(tries);
    LateBefore(tries, t, late);
    RunKeeps(tries, late, t.now + late);
    CountSuffix(l.all, CutAt(l.all, l.cut, t.now - WINDOW), t.now - WINDOW + late, t.now + late);
  }

  /** With readings in order, a request is admitted exactly when fewer than its limit of all past
      admissions lie in the 60000 milliseconds that end with it. */
  lemma AdmittedExactly(tries: seq<Try>, t: Try)
    requires Late(tries + [t], 0) && t.limit > 0
    ensures Admits(Run(tries), t) <==> Count(Run(tries).all, t.now - 60000, t.now) < t.limit
  {
    hide Late, Run, Count, Admits;
    if Admits(Run(tries), t) { AdmittedMeans(tries, 0, t); } else { RefusedWhenFull(tries, 0, t); }
  }

  lemma LateBefore(tries: seq<Try>, t: Try, late: nat)
    requires Late(tries + [t], late)
    ensures Late(tries, late) && forall i :: 0 <= i < |tries| ==> tries[i].now <= t.now + late
  {
    var all := tries + [t];
    assert forall i :: 0 <= i < |tries| ==> tries[i] == all[i];
    assert all[|tries|] == t;
  }

  lemma {:induction false} CountAtLeast(h: seq<int>, n: nat, low: int, high: int)
    requires n <= |h| && forall i :: n <= i < |h| ==> low < h[i] <= high
    ensures Count(h, low, high) >= |h| - n
    decreases |h|
  {
    if n < |h| {
      CountAtLeast(h[..|h| - 1], n, low, high);
    }
  }

  // ---- how exact this is ---------------------------------------------------------------------

  function Repeat(t: Try, n: nat): (ts: seq<Try>) {
    seq(n, _ => t)
  }

  lemma {:induction false} Filled(limit: nat, n: nat)
    requires n <= limit
    ensures Run(Repeat(Try(limit, 0), n)) == Log(seq(n, _ => 0), 0)
  {
    if n > 0 {
      var ts := Repeat(Try(limit, 0), n);
      assert ts[..n - 1] == Repeat(Try(limit, 0), n - 1);
      Filled(limit, n - 1);
      assert seq(n - 1, _ => 0) + [0] == seq(n, _ => 0);
    }
  }

  /** The limit is reached at once; a minute later it is admitted anew; then comes a reading from
      `late` before. */
  function Backwards(limit: nat, late: nat): seq<Try> {
    Repeat(Try(limit, 0), limit) + [Try(limit, WINDOW)] + [Try(limit, WINDOW - late)]
  }

  lemma RunNext(tries: seq<Try>, t: Try)
    ensures Run(tries + [t]) == Request(Run(tries), t)
  {
    assert (tries + [t])[..|tries|] == tries;
  }

  /** One millisecond more than that span already holds one admission too many. */
  lemma SpanIsTight(limit: nat, late: nat)
    requires limit >= 2 && 0 < late <= WINDOW
    ensures var ts := Backwards(limit, late);
            Late(ts, late) && Capped(ts, limit) && Count(Run(ts).all, -1, WINDOW - late) == limit + 1
  {
    var zeros := seq(limit, _ => 0);
    BackwardsRun(limit, late);
    BackwardsLate(limit, late);
    hide Backwards, Late, Capped;
    hide Run, Request, Admits, CutAt, Count;
    CountSuffix(zeros, 0, -1, WINDOW - late);
    CountNext(zeros, WINDOW, -1, WINDOW - late);
    CountNext(zeros + [WINDOW], WINDOW - late, -1, WINDOW - late);
  }

  lemma BackwardsLate(limit: nat, late: nat)
    requires limit >= 2 && 0 < late <= WINDOW
    ensures Late(Backwards(limit, late), late) && Capped(Backwards(limit, late), limit)
  {
    var ts := Backwards(limit, late);
    assert forall i :: 0 <= i < |ts| ==> ts[i] == Try(limit, if i < limit then 0 else if i == limit then WINDOW else WINDOW - late);
    hide Backwards;
  }

  lemma BackwardsRun(limit: nat, late: nat)
    requires limit >= 2 && 0 < late <= WINDOW
    ensures Run(Backwards(limit, late)).all == seq(limit, _ => 0) + [WINDOW] + [WINDOW - late]
  {
    var zeros, first := seq(limit, _ => 0), Repeat(Try(limit, 0), limit);
    Filled(limit, limit);
    RunNext(first, Try(limit, WINDOW));
    RunNext(first + [Try(limit, WINDOW)], Try(limit, WINDOW - late));
    hide Run;
    assert CutAt(zeros, 0, 0) == limit;
  }

  lemma {:induction false} MinuteApart(h: seq<int>, t: int)
    requires forall i, j :: 0 <= i < j < |h| ==> h[i] + WINDOW <= h[j]
    ensures Count(h, t - WINDOW, t) <= 1
    ensures h != [] && h[|h| - 1] <= t - WINDOW ==> Count(h, t - WINDOW, t) == 0
  {
    if h != [] { MinuteApart(h[..|h| - 1], t); }
  }

  /** A limit of one never needs the clock: each admission is a minute after the one before. */
  lemma {:induction false} OneAtATime(tries: seq<Try>)
    requires Capped(tries, 1)
    ensures var l := Run(tries);
            && (l.all != [] ==> l.cut == |l.all| - 1) && (Capped(tries, 0) ==> l == EMPTY)
            && forall i, j :: 0 <= i < j < |l.all| ==> l.all[i] + WINDOW <= l.all[j]
  {
    if tries != [] {
      var n := |tries| - 1;
      OneAtATime(tries[..n]);
      RequestMeans(Run(tries[..n]), tries[n]);
      hide Request;
    }
  }

  /** The admissions in the minute that ends at t. */
  function InMinute(h: seq<int>, t: int): nat {
    Count(h, t - WINDOW, t)
  }

  ghost predicate MinuteHolds(h: seq<int>, limit: nat) {
    forall t :: InMinute(h, t) <= limit
  }

  ghost predicate EveryMinuteHolds(limit: nat, late: nat) {
    forall tries :: Late(tries, late) && Capped(tries, limit) ==> MinuteHolds(Run(tries).all, limit)
  }

  lemma OrderedHolds(limit: nat)
    ensures EveryMinuteHolds(limit, 0)
  {
    hide Run, Count, Late, Capped;
    forall tries | Late(tries, 0) && Capped(tries, limit) ensures MinuteHolds(Run(tries).all, limit) {
      forall t ensures InMinute(Run(tries).all, t) <= limit { NoSpanExceedsLimit(tries, 0, limit, t); }
    }
  }

  lemma SingleHolds(limit: nat, late: nat)
    requires limit <= 1
    ensures EveryMinuteHolds(limit, late)
  {
    forall tries | Capped(tries, limit) ensures MinuteHolds(Run(tries).all, limit) {
      OneAtATime(tries);
      assert limit == 0 ==> Capped(tries, 0);
      forall t ensures InMinute(Run(tries).all, t) <= limit { MinuteApart(Run(tries).all, t); }
    }
  }

  lemma LateOverruns(limit: nat, late: nat)
    requires limit >= 2 && late > 0
    ensures !EveryMinuteHolds(limit, late)
  {
    var behind := if late <= WINDOW then late else WINDOW;
    var tries := Backwards(limit, behind);
    var h := Run(tries).all;
    SpanIsTight(limit, behind);
    hide Run, Capped, Backwards;
    assert Late(tries, late);
    CountWider(h, -1, -behind, WINDOW - behind);
    hide Late, Count;
    assert InMinute(h, WINDOW - behind) > limit;
  }

  /** Every run keeps every minute within the limit exactly when no reading is ever late, or the
      limit is one. */
  lemma MinuteHoldsExactly(limit: nat, late: nat)
    ensures EveryMinuteHolds(limit, late) <==> late == 0 || limit <= 1
  {
    if late == 0 {
      OrderedHolds(limit);
    } else if limit <= 1 {
      SingleHolds(limit, late);
    } else {
      LateOverruns(limit, late);
    }
  }

  lemma {:induction false} CountWider(h: seq<int>, low: int, lower: int, high: int)
    requires lower <= low
    ensures Count(h, lower, high) >= Count(h, low, high)
  {
    if h != [] { CountWider(h[..|h| - 1], low, lower, high); }
  }

  // ---- admissions in order -------------------------------------------------------------------

  /** Admissions `limit` places apart are a minute apart. */
  predicate Spaced(h: seq<int>, limit: nat) {
    forall i :: 0 <= i < |h| - limit ==> h[i] + WINDOW <= h[i + limit]
  }

  predicate Ascending(h: seq<int>) {
    forall i, j :: 0 <= i < j < |h| ==> h[i] <= h[j]
  }

  lemma {:induction false} SpacedBounds(h: seq<int>, limit: nat, t: int)
    requires Ascending(h) && Spaced(h, limit)
    ensures InMinute(h, t) <= limit
  {
    if h != [] {
      var n := |h| - 1;
      if h[n] > t {
        SpacedBounds(h[..n], limit, t);
      } else if n >= limit {
        assert h[n - limit] + WINDOW <= h[n - limit + limit];
        CountSuffix(h, n + 1 - limit, t - WINDOW, t);
      } else {
        CountSuffix(h, 0, t - WINDOW, t);
      }
    }
  }

  lemma {:induction false} CountPrefix(h: seq<int>, n: nat, low: int, high: int)
    requires n <= |h|
    ensures Count(h[..n], low, high) <= Count(h, low, high)
    decreases |h|
  {
    if n == |h| {
      assert h[..n] == h;
    } else {
      assert h[..|h| - 1][..n] == h[..n];
      CountPrefix(h[..|h| - 1], n, low, high);
    }
  }

  /** For admissions in order, keeping every minute within the limit is being spaced. */
  lemma SpacedMeans(h: seq<int>, limit: nat)
    requires Ascending(h)
    ensures Spaced(h, limit) <==> MinuteHolds(h, limit)
  {
    if Spaced(h, limit) {
      forall t ensures InMinute(h, t) <= limit { SpacedBounds(h, limit, t); }
    }
    forall i | 0 <= i < |h| - limit && h[i] + WINDOW > h[i + limit] ensures InMinute(h, h[i + limit]) > limit {
      CountAtLeast(h[..i + limit + 1], i, h[i + limit] - WINDOW, h[i + limit]);
      CountPrefix(h, i + limit + 1, h[i + limit] - WINDOW, h[i + limit]);
    }
  }

  // ---- the limiter ---------------------------------------------------------------------------

  /** The leading events up to the cutoff are gone, and nothing else. */
  ghost predicate Prunes(events: seq<int>, kept: seq<int>, cutoff: int) {
    && |kept| <= |events| && kept == events[|events| - |kept|..]
    && (forall i :: 0 <= i < |events| - |kept| ==> events[i] <= cutoff)
    && (kept != [] ==> cutoff < kept[0])
  }

  /** Drops the leading events up to the cutoff, and nothing behind the first later one. */
  method PruneEvents(events: seq<int>, cutoff: int) returns (kept: seq<int>)
    ensures Prunes(events, kept, cutoff)
  {
    var idx := 0;
    while idx < |events| && events[idx] <= cutoff
      invariant 0 <= idx <= |events|
      invariant forall i :: 0 <= i < idx ==> events[i] <= cutoff
    {
      idx := idx + 1;
    }
    kept := events[idx..];
  }

  /** The list of events is the log without what was pruned. */
  predicate Remembers(l: Log, events: seq<int>) {
    l.Valid() && events == l.all[l.cut..]
  }

  lemma PrunedCut(l: Log, events: seq<int>, kept: seq<int>, cutoff: int)
    requires Remembers(l, events) && Prunes(events, kept, cutoff)
    ensures CutAt(l.all, l.cut, cutoff) == |l.all| - |kept| && kept == l.all[|l.all| - |kept|..]
  {
    var m := |l.all| - |kept|;
    assert |events| == |l.all| - l.cut;
    forall i | l.cut <= i < m ensures l.all[i] <= cutoff { assert l.all[i] == events[i - l.cut]; }
    assert kept == l.all[m..];
    assert kept != [] ==> kept[0] == l.all[m];
    CutIs(l.all, l.cut, cutoff, m);
  }

  lemma PrunedRequest(l: Log, events: seq<int>, kept: seq<int>, t: Try)
    requires Remembers(l, events) && Prunes(events, kept, t.now - WINDOW) && t.limit > 0
    ensures Admits(l, t) <==> |kept| < t.limit
    ensures Remembers(Request(l, t), if |kept| < t.limit then kept + [t.now] else kept)
  {
    PrunedCut(l, events, kept, t.now - WINDOW);
    hide CutAt, Prunes;
    assert (l.all + [t.now])[|l.all| - |kept|..] == kept + [t.now];
  }

  lemma CutIs(all: seq<int>, cut: nat, cutoff: int, m: nat)
    requires cut <= m <= |all| && (forall i :: cut <= i < m ==> all[i] <= cutoff) && (m < |all| ==> cutoff < all[m])
    ensures CutAt(all, cut, cutoff) == m
    decreases m - cut
  {
  }

  ghost predicate AllRemember(requests: map<int, seq<Try>>, events: map<int, seq<int>>) {
    forall account :: Remembers(Run(Lookup(requests, account, [])), Lookup(events, account, []))
  }

  lemma AllUpdated(requests: map<int, seq<Try>>, events: map<int, seq<int>>, account: int, tries: seq<Try>, kept: seq<int>)
    requires AllRemember(requests, events) && Remembers(Run(tries), kept)
    ensures AllRemember(requests[account := tries], events[account := kept])
    ensures forall a :: Lookup(requests[account := tries], a, []) == if a == account then tries else Lookup(requests, a, [])
  {
    hide Run, Remembers;
    var rs, es := requests[account := tries], events[account := kept];
    forall a ensures Remembers(Run(Lookup(rs, a, [])), Lookup(es, a, [])) {
      assert Remembers(Run(Lookup(requests, a, [])), Lookup(events, a, []));
    }
  }

  class MemoryLimiter {
    var events: map<int, seq<int>>
    /** Every request that was held to a limit, of every account, in the order of the lock. */
    ghost var requests: map<int, seq<Try>>

    ghost function Requests(account: int): seq<Try>
      reads this
    {
      Lookup(requests, account, [])
    }

    /** Every admission of the account. */
    ghost function Admissions(account: int): seq<int>
      reads this
    {
      Run(Requests(account)).all
    }

    ghost predicate Valid()
      reads this
    {
      AllRemember(requests, events)
    }

    constructor ()
      ensures Valid() && forall account :: Requests(account) == []
    {
      events, requests := map[], map[];
      NothingRemembered();
    }

    /** A request is one step of its account, and no other account changes. With the account's
        readings in order, it is admitted exactly when fewer than `limit` of all the account's
        admissions lie in the last minute; otherwise by what has not been pruned. */
    method TryAcquire(account: int, limit: int, now: int) returns (admitted: bool)
      requires Valid()
      modifies this
      ensures Valid()
      ensures var counted := limit > 0 && account > 0;
              && Requests(account) == old(Requests(account)) + (if counted then [Try(limit, now)] else [])
              && (forall other :: other != account ==> Requests(other) == old(Requests(other)))
              && (admitted <==> counted ==> Admits(Run(old(Requests(account))), Try(limit, now)))
              && Admissions(account) == old(Admissions(account)) + (if admitted && counted then [now] else [])
              && (counted && Late(Requests(account), 0) ==>
                    (admitted <==> Count(old(Admissions(account)), now - 60000, now) < limit))
    {
      hide Request, Remembers, Admits, AllRemember, Run, Count, Late, Prunes, Lookup;
      assert Requests(account) + [] == Requests(account) && Admissions(account) + [] == Admissions(account);
      if limit <= 0 || account <= 0 { return true; }
      ghost var tries, t := Requests(account), Try(limit, now);
      Remembered(requests, events, account);
      var kept := PruneEvents(Lookup(events, account, []), now - WINDOW);
      PrunedRequest(Run(tries), Lookup(events, account, []), kept, t);
      RunNext(tries, t);
      RequestAdmits(Run(tries), t);
      admitted := |kept| < limit;
      if admitted { kept := kept + [now]; }
      events := events[account := kept];
      requests := requests[account := tries + [t]];
      AllUpdated(old(requests), old(events), account, tries + [t], kept);
      if Late(tries + [t], 0) { AdmittedExactly(tries, t); }
    }
  }

  lemma Remembered(requests: map<int, seq<Try>>, events: map<int, seq<int>>, account: int)
    requires AllRemember(requests, events)
    ensures Remembers(Run(Lookup(requests, account, [])), Lookup(events, account, []))
  {
  }

  lemma NothingRemembered()
    ensures AllRemember(map[], map[])
  {
  }

  lemma RequestAdmits(l: Log, t: Try)
    requires l.Valid() && t.limit > 0
    ensures Request(l, t).all == if Admits(l, t) then l.all + [t.now] else l.all
  {
  }
}
