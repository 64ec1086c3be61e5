/** Peak windows: a calendar of local days and minutes in which no minute is claimed twice. */
module TimeBands {
  import opened Text

  /** ISO weekdays, Monday 1 to Sunday 7; minutes of the local day, the end excluded. */
  datatype Window = Window(weekdays: seq<int>, start: int, end: int)

  const MINUTES: int := 1440

  predicate WellFormed(w: Window) {
    && w.weekdays != [] && 0 <= w.start < w.end <= 1440
    && forall i :: 0 <= i < |w.weekdays| ==> 1 <= w.weekdays[i] <= 7
  }

  function Times(weekdays: seq<int>, day: int): nat {
    if weekdays == [] then 0 else
    Times(weekdays[..|weekdays| - 1], day) + if weekdays[|weekdays| - 1] == day then 1 else 0
  }

  predicate During(w: Window, minute: int) {
    w.start <= minute < w.end
  }

  /** How often a minute of a weekday is claimed. */
  function Claims(windows: seq<Window>, day: int, minute: int): nat {
    if windows == [] then 0 else
    var w := windows[|windows| - 1];
    Claims(windows[..|windows| - 1], day, minute) + if During(w, minute) then Times(w.weekdays, day) else 0
  }

  predicate InWeek(day: int, minute: int) {
    0 <= day < 8 && 0 <= minute < 1440
  }

  ghost predicate NoOverlap(windows: seq<Window>) {
    forall day, minute :: InWeek(day, minute) ==> Claims(windows, day, minute) <= 1
  }

  ghost predicate WindowsValid(windows: seq<Window>) {
    windows != [] && (forall i :: 0 <= i < |windows| ==> WellFormed(windows[i])) && NoOverlap(windows)
  }

  lemma ClaimsNext(windows: seq<Window>, i: nat, day: int, minute: int)
    requires i < |windows|
    ensures Claims(windows[..i + 1], day, minute) ==
            Claims(windows[..i], day, minute) + if During(windows[i], minute) then Times(windows[i].weekdays, day) else 0
  {
    assert windows[..i + 1][..i] == windows[..i];
  }

  lemma TimesNext(weekdays: seq<int>, i: nat, day: int)
    requires i < |weekdays|
    ensures Times(weekdays[..i + 1], day) == Times(weekdays[..i], day) + if weekdays[i] == day then 1 else 0
  {
    assert weekdays[..i + 1][..i] == weekdays[..i];
  }

  lemma {:induction false} ClaimsGrow(windows: seq<Window>, n: nat, day: int, minute: int)
    requires n <= |windows|
    ensures Claims(windows[..n], day, minute) <= Claims(windows, day, minute)
    decreases |windows| - n
  {
    if n == |windows| {
      assert windows[..n] == windows;
    } else {
      ClaimsNext(windows, n, day, minute);
      ClaimsGrow(windows, n + 1, day, minute);
    }
  }

  lemma {:induction false} TimesGrow(weekdays: seq<int>, n: nat, day: int)
    requires n <= |weekdays|
    ensures Times(weekdays[..n], day) <= Times(weekdays, day)
    decreases |weekdays| - n
  {
    if n == |weekdays| {
      assert weekdays[..n] == weekdays;
    } else {
      TimesNext(weekdays, n, day);
      TimesGrow(weekdays, n + 1, day);
    }
  }

  /** Claims the minutes of one day; fails at the first that is taken. */
  method MarkMinutes(occupied: array2<bool>, day: int, start: int, end: int) returns (ok: bool)
    requires occupied.Length0 == 8 && occupied.Length1 == MINUTES && 0 <= day < 8 && 0 <= start <= end <= MINUTES
    modifies occupied
    ensures ok <==> forall m :: start <= m < end ==> !old(occupied[day, m])
    ensures ok ==> forall d, m :: InWeek(d, m) ==> (occupied[d, m] <==> old(occupied[d, m]) || (d == day && start <= m < end))
  {
    for minute := start to end
      invariant forall m :: start <= m < minute ==> !old(occupied[day, m])
      invariant forall d, m :: InWeek(d, m) ==> (occupied[d, m] <==> old(occupied[d, m]) || (d == day && start <= m < minute))
    {
      assert InWeek(day, minute);
      if occupied[day, minute] { return false; }
      occupied[day, minute] := true;
    }
    ok := true;
  }

  /** Whether a minute is taken once the first i windows and the first j weekdays of the next
      one have been marked. */
  function Taken(windows: seq<Window>, i: nat, j: nat, day: int, minute: int): nat
    requires i < |windows| && j <= |windows[i].weekdays|
  {
    Claims(windows[..i], day, minute) + if During(windows[i], minute) then Times(windows[i].weekdays[..j], day) else 0
  }

  lemma TakenNext(windows: seq<Window>, i: nat, j: nat, day: int, minute: int)
    requires i < |windows| && j < |windows[i].weekdays|
    ensures Taken(windows, i, j + 1, day, minute) ==
            Taken(windows, i, j, day, minute) + if During(windows[i], minute) && windows[i].weekdays[j] == day then 1 else 0
  {
    TimesNext(windows[i].weekdays, j, day);
  }

  lemma TakenGrows(windows: seq<Window>, i: nat, j: nat, day: int, minute: int)
    requires i < |windows| && j <= |windows[i].weekdays|
    ensures Taken(windows, i, j, day, minute) <= Claims(windows, day, minute)
    ensures Taken(windows, i, 0, day, minute) == Claims(windows[..i], day, minute)
    ensures Taken(windows, i, |windows[i].weekdays|, day, minute) == Claims(windows[..i + 1], day, minute)
  {
    var ds := windows[i].weekdays;
    TimesGrow(ds, j, day);
    assert ds[..|ds|] == ds;
    ClaimsNext(windows, i, day, minute);
    ClaimsGrow(windows, i + 1, day, minute);
  }

  method MarkWindow(occupied: array2<bool>, windows: seq<Window>, i: nat) returns (ok: bool)
    requires occupied.Length0 == 8 && occupied.Length1 == MINUTES && i < |windows|
    requires forall d, m :: InWeek(d, m) ==> Claims(windows[..i], d, m) == if occupied[d, m] then 1 else 0
    modifies occupied
    ensures ok ==> WellFormed(windows[i])
    ensures ok ==> forall d, m :: InWeek(d, m) ==> Claims(windows[..i + 1], d, m) == if occupied[d, m] then 1 else 0
    ensures !ok ==> !WellFormed(windows[i]) || !NoOverlap(windows)
  {
    var w := windows[i];
    if |w.weekdays| == 0 || w.start < 0 || w.start >= w.end || w.end > MINUTES { return false; }
    forall d, m ensures Taken(windows, i, 0, d, m) == Claims(windows[..i], d, m) { TakenGrows(windows, i, 0, d, m); }
    hide Taken, Claims;
    for j := 0 to |w.weekdays|
      invariant forall k :: 0 <= k < j ==> 1 <= w.weekdays[k] <= 7
      invariant forall d, m :: InWeek(d, m) ==> Taken(windows, i, j, d, m) == if occupied[d, m] then 1 else 0
    {
      var day := w.weekdays[j];
      if day < 1 || day > 7 { return false; }
      forall d, m ensures Taken(windows, i, j + 1, d, m) == Taken(windows, i, j, d, m) + if During(w, m) && day == d then 1 else 0 {
        TakenNext(windows, i, j, d, m);
      }
      ghost var before := forall m :: w.start <= m < w.end ==> !occupied[day, m];
      if !before {
        ghost var m :| w.start <= m < w.end && occupied[day, m];
        assert InWeek(day, m) && During(w, m);
        TakenGrows(windows, i, j + 1, day, m);
        assert !NoOverlap(windows);
      }
      ok := MarkMinutes(occupied, day, w.start, w.end);
      if !ok { return; }
    }
    forall d, m ensures Taken(windows, i, |w.weekdays|, d, m) == Claims(windows[..i + 1], d, m) {
      TakenGrows(windows, i, |w.weekdays|, d, m);
    }
    ok := true;
  }

  /** Checks all windows, minute by minute. */
  method ValidateWindows(windows: seq<Window>) returns (ok: bool)
    ensures ok <==> WindowsValid(windows)
  {
    if |windows| == 0 { return false; }
    var occupied := new bool[8, MINUTES]((_, _) => false);
    for i := 0 to |windows|
      invariant fresh(occupied)
      invariant forall k :: 0 <= k < i ==> WellFormed(windows[k])
      invariant forall d, m :: InWeek(d, m) ==> Claims(windows[..i], d, m) == if occupied[d, m] then 1 else 0
    {
      ok := MarkWindow(occupied, windows, i);
      if !ok { return; }
    }
    assert windows[..|windows|] == windows;
    ok := true;
  }

  datatype Band = Peak | OffPeak

  predicate Holds(w: Window, day: int, minute: int) {
    w.start <= minute < w.end && exists k :: 0 <= k < |w.weekdays| && w.weekdays[k] == day
  }

  predicate InPeak(windows: seq<Window>, day: int, minute: int) {
    exists i :: 0 <= i < |windows| && Holds(windows[i], day, minute)
  }

  /** The band of a local moment; none once the calendar has expired. */
  method BandAt(windows: seq<Window>, expired: bool, holiday: bool, day: int, minute: int) returns (band: Option<Band>)
    ensures band == if expired then None else Some(if !holiday && InPeak(windows, day, minute) then Peak else OffPeak)
  {
    if expired { return None; }
    if holiday { return Some(OffPeak); }
    for i := 0 to |windows|
      invariant forall j :: 0 <= j < i ==> !Holds(windows[j], day, minute)
    {
      var w := windows[i];
      for k := 0 to |w.weekdays|
        invariant forall l :: 0 <= l < k && w.weekdays[l] == day ==> !(w.start <= minute < w.end)
      {
        if w.weekdays[k] == day && minute >= w.start && minute < w.end {
          assert Holds(windows[i], day, minute);
          return Some(Peak);
        }
      }
    }
    return Some(OffPeak);
  }

  lemma {:induction false} TimesMeans(weekdays: seq<int>, day: int)
    ensures Times(weekdays, day) > 0 <==> exists k :: 0 <= k < |weekdays| && weekdays[k] == day
  {
    if weekdays != [] {
      var before := weekdays[..|weekdays| - 1];
      TimesMeans(before, day);
      if k :| 0 <= k < |before| && before[k] == day { assert weekdays[k] == day; }
      if k :| 0 <= k < |weekdays| && weekdays[k] == day { assert k < |before| ==> before[k] == day; }
    }
  }

  lemma {:induction false} PeakIsClaimed(windows: seq<Window>, day: int, minute: int)
    ensures Claims(windows, day, minute) > 0 <==> exists i :: 0 <= i < |windows| && Holds(windows[i], day, minute)
  {
    hide Holds;
    if windows != [] {
      var before, w := windows[..|windows| - 1], windows[|windows| - 1];
      PeakIsClaimed(before, day, minute);
      TimesMeans(w.weekdays, day);
      assert Holds(w, day, minute) <==> During(w, minute) && Times(w.weekdays, day) > 0 by { HoldsMeans(w, day, minute); }
      if i :| 0 <= i < |before| && Holds(before[i], day, minute) { assert Holds(windows[i], day, minute); }
      if i :| 0 <= i < |windows| && Holds(windows[i], day, minute) { assert i < |before| ==> Holds(before[i], day, minute); }
    }
  }

  lemma HoldsMeans(w: Window, day: int, minute: int)
    ensures Holds(w, day, minute) <==> During(w, minute) && Times(w.weekdays, day) > 0
  {
    TimesMeans(w.weekdays, day);
  }

  lemma {:induction false} ClaimsOfTwo(windows: seq<Window>, i: nat, j: nat, day: int, minute: int)
    requires i < j < |windows| && Holds(windows[i], day, minute) && Holds(windows[j], day, minute)
    ensures Claims(windows, day, minute) >= 2
  {
    HoldsMeans(windows[i], day, minute);
    HoldsMeans(windows[j], day, minute);
    ClaimsNext(windows, i, day, minute);
    ClaimsNext(windows, j, day, minute);
    ClaimsGrow(windows[..j], i + 1, day, minute);
    assert windows[..j][..i + 1] == windows[..i + 1];
    ClaimsGrow(windows, j + 1, day, minute);
  }

  /** In a valid calendar every peak minute lies in exactly one window. */
  lemma PeakWindowUnique(windows: seq<Window>, day: int, minute: int)
    requires WindowsValid(windows) && InWeek(day, minute)
    ensures InPeak(windows, day, minute) <==> Claims(windows, day, minute) == 1
    ensures forall i, j :: 0 <= i < j < |windows| ==> !(Holds(windows[i], day, minute) && Holds(windows[j], day, minute))
  {
    hide Holds, Claims;
    PeakIsClaimed(windows, day, minute);
    assert Claims(windows, day, minute) <= 1;
    forall i, j | 0 <= i < j < |windows| && Holds(windows[i], day, minute) ensures !Holds(windows[j], day, minute) {
      if Holds(windows[j], day, minute) {
        ClaimsOfTwo(windows, i, j, day, minute);
        assert false;
      }
    }
  }

  // ---- overlap, window by window -------------------------------------------------------------

  predicate SameDay(a: Window, b: Window) {
    exists k, l :: 0 <= k < |a.weekdays| && 0 <= l < |b.weekdays| && a.weekdays[k] == b.weekdays[l]
  }

  predicate Apart(a: Window, b: Window) {
    !SameDay(a, b) || a.end <= b.start || b.end <= a.start
  }

  predicate DaysOnce(w: Window) {
    forall k, l :: 0 <= k < l < |w.weekdays| ==> w.weekdays[k] != w.weekdays[l]
  }

  lemma {:induction false} TimesOnce(weekdays: seq<int>, day: int)
    ensures Times(weekdays, day) <= 1 <==> forall k, l :: 0 <= k < l < |weekdays| && weekdays[k] == day ==> weekdays[l] != day
  {
    if weekdays != [] {
      var before, n := weekdays[..|weekdays| - 1], |weekdays| - 1;
      TimesOnce(before, day);
      TimesMeans(before, day);
      assert forall k :: 0 <= k < n ==> before[k] == weekdays[k];
      if weekdays[n] == day && Times(before, day) > 0 {
        var k :| 0 <= k < n && before[k] == day;
        assert weekdays[k] == day && weekdays[n] == day;
      }
    }
  }

  /** A minute is claimed twice only by two windows, or by one that names its day twice. */
  lemma {:induction false} TwiceClaimed(windows: seq<Window>, day: int, minute: int)
    requires Claims(windows, day, minute) > 1
    ensures (exists i, j :: 0 <= i < j < |windows| && Holds(windows[i], day, minute) && Holds(windows[j], day, minute))
         || (exists i :: 0 <= i < |windows| && Holds(windows[i], day, minute) && !DaysOnce(windows[i]))
  {
    hide Holds, DaysOnce;
    var before, n := windows[..|windows| - 1], |windows| - 1;
    var w := windows[n];
    if Claims(before, day, minute) > 1 {
      TwiceClaimed(before, day, minute);
      if i, j :| 0 <= i < j < n && Holds(before[i], day, minute) && Holds(before[j], day, minute) {
        assert Holds(windows[i], day, minute) && Holds(windows[j], day, minute);
      } else {
        var i :| 0 <= i < n && Holds(before[i], day, minute) && !DaysOnce(before[i]);
        assert Holds(windows[i], day, minute) && !DaysOnce(windows[i]);
      }
    } else {
      HoldsMeans(w, day, minute);
      if Claims(before, day, minute) == 1 {
        PeakIsClaimed(before, day, minute);
        var i :| 0 <= i < n && Holds(before[i], day, minute);
        assert Holds(windows[i], day, minute) && Holds(windows[n], day, minute);
      } else {
        TimesOnce(w.weekdays, day);
        assert !DaysOnce(w) by { DaysTwice(w, day); }
        assert Holds(windows[n], day, minute);
      }
    }
  }

  lemma DaysTwice(w: Window, day: int)
    ensures Times(w.weekdays, day) > 1 ==> !DaysOnce(w)
  {
    TimesOnce(w.weekdays, day);
  }

  /** Two windows that meet claim a minute twice, and so does one that names a day twice. */
  lemma MeetingClaims(windows: seq<Window>, i: nat, j: nat)
    requires i < j < |windows| && WellFormed(windows[i]) && WellFormed(windows[j]) && !Apart(windows[i], windows[j])
    ensures !NoOverlap(windows)
  {
    var a, b := windows[i], windows[j];
    var k, l :| 0 <= k < |a.weekdays| && 0 <= l < |b.weekdays| && a.weekdays[k] == b.weekdays[l];
    var day, minute := a.weekdays[k], if a.start < b.start then b.start else a.start;
    assert Holds(a, day, minute) && Holds(b, day, minute) && InWeek(day, minute);
    ClaimsOfTwo(windows, i, j, day, minute);
  }

  lemma RepeatClaims(windows: seq<Window>, i: nat)
    requires i < |windows| && WellFormed(windows[i]) && !DaysOnce(windows[i])
    ensures !NoOverlap(windows)
  {
    var w := windows[i];
    var k, l :| 0 <= k < l < |w.weekdays| && w.weekdays[k] == w.weekdays[l];
    var day := w.weekdays[k];
    TimesOnce(w.weekdays, day);
    ClaimsNext(windows, i, day, w.start);
    ClaimsGrow(windows, i + 1, day, w.start);
    assert InWeek(day, w.start) && Claims(windows, day, w.start) > 1;
  }

  lemma HoldersMeet(a: Window, b: Window, day: int, minute: int)
    requires Holds(a, day, minute) && Holds(b, day, minute)
    ensures !Apart(a, b)
  {
  }

  /** No minute is claimed twice exactly when windows on the same day lie one after the other and
      no window names a day twice. */
  lemma OverlapMeans(windows: seq<Window>)
    requires forall i :: 0 <= i < |windows| ==> WellFormed(windows[i])
    ensures NoOverlap(windows) <==>
              (forall i, j :: 0 <= i < j < |windows| ==> Apart(windows[i], windows[j])) &&
              (forall i :: 0 <= i < |windows| ==> DaysOnce(windows[i]))
  {
    hide Apart, DaysOnce, Holds, WellFormed;
    if i, j :| 0 <= i < j < |windows| && !Apart(windows[i], windows[j]) { MeetingClaims(windows, i, j); }
    if i :| 0 <= i < |windows| && !DaysOnce(windows[i]) { RepeatClaims(windows, i); }
    if day, minute :| InWeek(day, minute) && Claims(windows, day, minute) > 1 {
      TwiceClaimed(windows, day, minute);
      if i, j :| 0 <= i < j < |windows| && Holds(windows[i], day, minute) && Holds(windows[j], day, minute) {
        HoldersMeet(windows[i], windows[j], day, minute);
      }
    }
  }
}
