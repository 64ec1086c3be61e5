/** Authorization scopes: finite unions of conjunctive clauses, and their one meaning. */
module Scopes {
  import opened Text

  datatype Kind = All | Self | Users | Resources | Groups

  const EVERY_KIND: seq<Kind> := [All, Self, Users, Resources, Groups]

  /** The conditions of a clause hold together; an empty dimension constrains nothing. */
  datatype Clause = Clause(all: bool, self: bool, users: seq<int>, resources: seq<int>, groups: seq<int>)

  /** A scope that was never given is not the same as one without clauses. */
  datatype Scope = NilScope | Scope(clauses: seq<Clause>) {
    function Clauses(): seq<Clause> {
      if NilScope? then [] else clauses
    }
  }

  /** What is known about an object; the resource is 0 while it is being created. */
  datatype Facts = Facts(resource: int, owner: int, groups: seq<int>)

  // ---- validity ------------------------------------------------------------------------

  predicate Positive(ids: seq<int>) {
    forall i :: 0 <= i < |ids| ==> ids[i] > 0
  }

  /** A clause constrains something, `all` stands alone, identifiers are positive, and every
      kind of condition is supported. */
  predicate ValidClause(c: Clause, supported: seq<Kind>) {
    && Positive(c.users) && Positive(c.resources) && Positive(c.groups)
    && (c.all || c.self || c.users != [] || c.resources != [] || c.groups != [])
    && (c.all ==> !c.self && c.users == [] && c.resources == [] && c.groups == [])
    && (c.all ==> All in supported) && (c.self ==> Self in supported) && (c.users != [] ==> Users in supported)
    && (c.resources != [] ==> Resources in supported) && (c.groups != [] ==> Groups in supported)
  }

  predicate Valid(s: Scope, supported: seq<Kind>) {
    forall c :: c in s.Clauses() ==> ValidClause(c, supported)
  }

  method AllPositive(ids: seq<int>) returns (ok: bool)
    ensures ok == Positive(ids)
  {
    for i := 0 to |ids|
      invariant forall j :: 0 <= j < i ==> ids[j] > 0
    {
      if ids[i] <= 0 { return false; }
    }
    return true;
  }

  function WithKind(kinds: seq<Kind>, kind: Kind, present: bool): (more: seq<Kind>)
    ensures |more| == |kinds| + if present then 1 else 0
    ensures forall k :: k in more <==> k in kinds || (present && k == kind)
  {
    if present then kinds + [kind] else kinds
  }

  method ValidateClause(c: Clause, supported: seq<Kind>) returns (ok: bool)
    ensures ok == ValidClause(c, supported)
  {
    var kinds := WithKind(WithKind([], All, c.all), Self, c.self);
    kinds := WithKind(kinds, Users, |c.users| > 0);
    var positive := AllPositive(c.users);
    if !positive { return false; }
    kinds := WithKind(kinds, Resources, |c.resources| > 0);
    positive := AllPositive(c.resources);
    if !positive { return false; }
    kinds := WithKind(kinds, Groups, |c.groups| > 0);
    positive := AllPositive(c.groups);
    if !positive { return false; }
    if |kinds| == 0 || (c.all && |kinds| != 1) { return false; }
    for k := 0 to |kinds|
      invariant forall j :: 0 <= j < k ==> kinds[j] in supported
    {
      assert kinds[k] in kinds;
      if kinds[k] !in supported { return false; }
    }
    assert forall kind :: kind in kinds ==> kind in supported;
    return true;
  }

  method Validate(s: Scope, supported: seq<Kind>) returns (ok: bool)
    ensures ok == Valid(s, supported)
  {
    hide ValidClause;
    var cs := s.Clauses();
    for i := 0 to |cs|
      invariant forall j :: 0 <= j < i ==> ValidClause(cs[j], supported)
    {
      assert cs[i] in s.Clauses();
      ok := ValidateClause(cs[i], supported);
      if !ok { return; }
    }
    return true;
  }

  // ---- what scopes mean -----------------------------------------------------------------

  /** Every condition but the one on groups. */
  predicate NonGroup(c: Clause, user: int, o: Facts) {
    && (c.self ==> user > 0 && o.owner == user)
    && (c.users != [] ==> o.owner in c.users)
    && (c.resources != [] ==> o.resource > 0 && o.resource in c.resources)
  }

  predicate InAny(scopes: seq<Scope>, c: Clause) {
    exists i :: 0 <= i < |scopes| && c in scopes[i].Clauses()
  }

  /** Some clause reaches the object whatever its groups. */
  ghost predicate Unbounded(scopes: seq<Scope>, user: int, o: Facts) {
    exists c :: InAny(scopes, c) && NonGroup(c, user, o) && c.groups == []
  }

  /** Some clause reaches the object through group g. */
  ghost predicate Through(scopes: seq<Scope>, user: int, o: Facts, g: int) {
    exists c :: InAny(scopes, c) && NonGroup(c, user, o) && g in c.groups
  }

  /** Scopes cover an object for writing when all its groups are reached, if need be by
      different clauses, and for reading when one of them is. */
  ghost predicate Covers(scopes: seq<Scope>, user: int, o: Facts, whole: bool) {
    || Unbounded(scopes, user, o)
    || (if whole then o.groups != [] && forall i :: 0 <= i < |o.groups| ==> Through(scopes, user, o, o.groups[i])
        else exists i :: 0 <= i < |o.groups| && Through(scopes, user, o, o.groups[i]))
  }

  predicate AllValid(scopes: seq<Scope>) {
    forall i :: 0 <= i < |scopes| ==> Valid(scopes[i], EVERY_KIND)
  }

  ghost predicate Allows(scopes: seq<Scope>, user: int, o: Facts, whole: bool) {
    AllValid(scopes) && Covers(scopes, user, o, whole)
  }

  /** Denial fails shut: a deny that makes no sense denies. */
  ghost predicate Denies(scopes: seq<Scope>, user: int, o: Facts) {
    !AllValid(scopes) || Covers(scopes, user, o, false)
  }

  /** Only which clauses there are counts: not their order, not how they are spread over
      scopes, not how often they occur. */
  lemma OrderIndependent(s: seq<Scope>, t: seq<Scope>, user: int, o: Facts, whole: bool)
    requires forall c :: InAny(s, c) <==> InAny(t, c)
    ensures Allows(s, user, o, whole) == Allows(t, user, o, whole) && Denies(s, user, o) == Denies(t, user, o)
  {
    ValidByClause(s);
    ValidByClause(t);
    forall g ensures Through(s, user, o, g) <==> Through(t, user, o, g) { }
  }

  lemma ValidByClause(scopes: seq<Scope>)
    ensures AllValid(scopes) <==> forall c :: InAny(scopes, c) ==> ValidClause(c, EVERY_KIND)
  {
    if AllValid(scopes) {
      forall c | InAny(scopes, c) ensures ValidClause(c, EVERY_KIND) {
        var i :| 0 <= i < |scopes| && c in scopes[i].Clauses();
      }
    }
    if forall c :: InAny(scopes, c) ==> ValidClause(c, EVERY_KIND) {
      forall i | 0 <= i < |scopes| ensures Valid(scopes[i], EVERY_KIND) {
        forall c | c in scopes[i].Clauses() ensures ValidClause(c, EVERY_KIND) { assert InAny(scopes, c); }
      }
    }
  }

  /** Writing is never easier than reading; on an object with one group they are the same. */
  lemma WholeImpliesRead(scopes: seq<Scope>, user: int, o: Facts)
    ensures Covers(scopes, user, o, true) ==> Covers(scopes, user, o, false)
    ensures |o.groups| == 1 ==> (Covers(scopes, user, o, true) <==> Covers(scopes, user, o, false))
  {
    hide Through;
    if Covers(scopes, user, o, true) && !Unbounded(scopes, user, o) {
      assert Through(scopes, user, o, o.groups[0]);
    }
  }

  // ---- the joint coverage test ------------------------------------------------------------

  /** Distinct members of a list. */
  function Distinct(ids: seq<int>): seq<int> {
    if ids == [] then [] else
    var before, x := Distinct(ids[..|ids| - 1]), ids[|ids| - 1];
    if x in before then before else before + [x]
  }

  lemma {:induction false} DistinctMeans(ids: seq<int>)
    ensures NoRepeats(Distinct(ids)) && forall x :: x in Distinct(ids) <==> x in ids
  {
    if ids != [] {
      var before := ids[..|ids| - 1];
      DistinctMeans(before);
      assert ids == before + [ids[|ids| - 1]];
    }
  }

  /** Group g is reached by one of the clauses seen so far. */
  predicate ThroughSeen(seen: seq<Clause>, user: int, o: Facts, g: int) {
    exists k :: 0 <= k < |seen| && NonGroup(seen[k], user, o) && g in seen[k].groups
  }

  /** What the clauses seen so far have settled: none is unbounded, none reaches a group when
      one is enough, and `covered` are the groups reached when all are needed. */
  ghost predicate Tally(seen: seq<Clause>, user: int, o: Facts, whole: bool, covered: seq<int>) {
    && (forall k :: 0 <= k < |seen| ==> !(NonGroup(seen[k], user, o) && seen[k].groups == []))
    && (!whole ==> covered == [] && forall i :: 0 <= i < |o.groups| ==> !ThroughSeen(seen, user, o, o.groups[i]))
    && NoRepeats(covered)
    && (whole ==> forall g :: g in covered <==> g in o.groups && ThroughSeen(seen, user, o, g))
  }

  lemma SeenOne(seen: seq<Clause>, c: Clause, user: int, o: Facts, g: int)
    ensures ThroughSeen(seen + [c], user, o, g) <==> ThroughSeen(seen, user, o, g) || (NonGroup(c, user, o) && g in c.groups)
  {
    hide NonGroup;
    var now := seen + [c];
    if k :| 0 <= k < |seen| && NonGroup(seen[k], user, o) && g in seen[k].groups {
      assert now[k] == seen[k];
    }
    if NonGroup(c, user, o) && g in c.groups {
      assert now[|seen|] == c;
    }
  }

  method MarkGroups(c: Clause, o: Facts, whole: bool, before: seq<int>) returns (hit: bool, covered: seq<int>)
    requires NoRepeats(before)
    ensures hit <==> !whole && exists i :: 0 <= i < |o.groups| && o.groups[i] in c.groups
    ensures NoRepeats(covered) && (!whole ==> covered == before)
    ensures whole ==> forall g :: g in covered <==> g in before || (g in o.groups && g in c.groups)
  {
    covered := before;
    for i := 0 to |o.groups|
      invariant NoRepeats(covered) && (!whole ==> covered == before)
      invariant !whole ==> forall j :: 0 <= j < i ==> o.groups[j] !in c.groups
      invariant whole ==> forall g :: g in covered <==> g in before || (g in o.groups[..i] && g in c.groups)
    {
      var id := o.groups[i];
      assert o.groups[..i + 1] == o.groups[..i] + [id];
      if id in c.groups {
        if !whole { return true, covered; }
        if id !in covered {
          covered := covered + [id];
        }
      }
    }
    assert o.groups[..|o.groups|] == o.groups;
    hit := false;
  }

  /** One more clause, unless it settles the question at once. */
  method CountClause(ghost seen: seq<Clause>, c: Clause, user: int, o: Facts, whole: bool, before: seq<int>)
    returns (settled: bool, covered: seq<int>)
    requires Tally(seen, user, o, whole, before)
    ensures settled ==> NonGroup(c, user, o)
    ensures settled ==> c.groups == [] || (!whole && exists i :: 0 <= i < |o.groups| && o.groups[i] in c.groups)
    ensures !settled ==> Tally(seen + [c], user, o, whole, covered)
  {
    covered := before;
    forall g ensures ThroughSeen(seen + [c], user, o, g) <==> ThroughSeen(seen, user, o, g) || (NonGroup(c, user, o) && g in c.groups) {
      SeenOne(seen, c, user, o, g);
    }
    hide ThroughSeen, NonGroup;
    if !NonGroup(c, user, o) { return false, covered; }
    if |c.groups| == 0 { return true, covered; }
    settled, covered := MarkGroups(c, o, whole, before);
  }

  /** Decides coverage with a counter of distinct groups instead of a set of pairs. */
  method AllowCovers(scopes: seq<Scope>, user: int, o: Facts, whole: bool) returns (covers: bool)
    ensures covers == Allows(scopes, user, o, whole)
  {
    hide NonGroup, Valid;
    for i := 0 to |scopes|
      invariant forall j :: 0 <= j < i ==> Valid(scopes[j], EVERY_KIND)
    {
      var ok := Validate(scopes[i], EVERY_KIND);
      if !ok { return false; }
    }
    ghost var seen: seq<Clause> := [];
    var covered: seq<int> := [];
    for i := 0 to |scopes|
      invariant Tally(seen, user, o, whole, covered)
      invariant forall c :: c in seen <==> InAny(scopes[..i], c)
    {
      var cs := scopes[i].Clauses();
      ghost var before := seen;
      for j := 0 to |cs|
        invariant seen == before + cs[..j] && Tally(seen, user, o, whole, covered)
      {
        var settled;
        settled, covered := CountClause(seen, cs[j], user, o, whole, covered);
        if settled {
          SettledCovers(scopes, i, cs[j], user, o, whole);
          return true;
        }
        seen := seen + [cs[j]];
        assert before + cs[..j] + [cs[j]] == before + cs[..j + 1];
      }
      InOneMore(scopes, i);
      assert cs[..|cs|] == cs;
    }
    assert scopes[..|scopes|] == scopes;
    TallyDecides(scopes, seen, user, o, whole, covered);
    return |o.groups| > 0 && |covered| == |Distinct(o.groups)|;
  }

  lemma SettledCovers(scopes: seq<Scope>, i: nat, c: Clause, user: int, o: Facts, whole: bool)
    requires i < |scopes| && c in scopes[i].Clauses() && NonGroup(c, user, o)
    requires c.groups == [] || (!whole && exists k :: 0 <= k < |o.groups| && o.groups[k] in c.groups)
    ensures Covers(scopes, user, o, whole)
  {
    assert InAny(scopes, c);
    if c.groups != [] {
      var k :| 0 <= k < |o.groups| && o.groups[k] in c.groups;
      assert Through(scopes, user, o, o.groups[k]);
    }
  }

  lemma InOneMore(scopes: seq<Scope>, i: nat)
    requires i < |scopes|
    ensures forall c :: InAny(scopes[..i + 1], c) <==> InAny(scopes[..i], c) || c in scopes[i].Clauses()
  {
    var now := scopes[..i + 1];
    forall c ensures InAny(now, c) <==> InAny(scopes[..i], c) || c in scopes[i].Clauses() {
      if InAny(scopes[..i], c) {
        var k :| 0 <= k < i && c in scopes[..i][k].Clauses();
        assert c in now[k].Clauses();
      }
      if c in scopes[i].Clauses() { assert c in now[i].Clauses(); }
      if InAny(now, c) {
        var k :| 0 <= k < |now| && c in now[k].Clauses();
        assert k < i ==> c in scopes[..i][k].Clauses();
      }
    }
  }

  lemma TallyDecides(scopes: seq<Scope>, seen: seq<Clause>, user: int, o: Facts, whole: bool, covered: seq<int>)
    requires Tally(seen, user, o, whole, covered) && forall c :: c in seen <==> InAny(scopes, c)
    ensures Covers(scopes, user, o, whole) <==> |o.groups| > 0 && |covered| == |Distinct(o.groups)|
  {
    hide NonGroup, InAny;
    forall g ensures Through(scopes, user, o, g) <==> ThroughSeen(seen, user, o, g) {
      if Through(scopes, user, o, g) {
        var c :| InAny(scopes, c) && NonGroup(c, user, o) && g in c.groups;
        var k :| 0 <= k < |seen| && seen[k] == c;
      }
      if ThroughSeen(seen, user, o, g) {
        var k :| 0 <= k < |seen| && NonGroup(seen[k], user, o) && g in seen[k].groups;
        assert InAny(scopes, seen[k]) by { assert seen[k] in seen; }
      }
    }
    forall c | InAny(scopes, c) && NonGroup(c, user, o) ensures c.groups != [] {
      var k :| 0 <= k < |seen| && seen[k] == c;
    }
    hide Through, ThroughSeen, Unbounded;
    DistinctMeans(o.groups);
    SameLength(covered, Distinct(o.groups));
  }

  method DenyMatches(scopes: seq<Scope>, user: int, o: Facts) returns (denies: bool)
    ensures denies == Denies(scopes, user, o)
  {
    hide Valid, Covers;
    for i := 0 to |scopes|
      invariant forall j :: 0 <= j < i ==> Valid(scopes[j], EVERY_KIND)
    {
      var ok := Validate(scopes[i], EVERY_KIND);
      if !ok { return true; }
    }
    denies := AllowCovers(scopes, user, o, false);
  }

  // ---- intersection ----------------------------------------------------------------------

  /** Both constraints at once; none when no identifier satisfies both. */
  function MeetIds(a: seq<int>, b: seq<int>): Option<seq<int>> {
    if a == [] then Some(b) else if b == [] then Some(a) else
    var both := CommonIds(a, b);
    if both == [] then None else Some(both)
  }

  function CommonIds(a: seq<int>, b: seq<int>): seq<int> {
    if a == [] then [] else
    var before, id := CommonIds(a[..|a| - 1], b), a[|a| - 1];
    if id in b && id !in before then before + [id] else before
  }

  function Meet(x: Clause, y: Clause): Option<Clause> {
    if x.all then Some(y) else if y.all then Some(x) else
    var users, resources, groups := MeetIds(x.users, y.users), MeetIds(x.resources, y.resources), MeetIds(x.groups, y.groups);
    if users.None? || resources.None? || groups.None? then None
    else Some(Clause(false, x.self || y.self, users.value, resources.value, groups.value))
  }

  function MeetRow(x: Clause, ys: seq<Clause>): seq<Clause> {
    if ys == [] then [] else
    var z := Meet(x, ys[|ys| - 1]);
    MeetRow(x, ys[..|ys| - 1]) + if z.Some? then [z.value] else []
  }

  function MeetRows(xs: seq<Clause>, ys: seq<Clause>): seq<Clause> {
    if xs == [] then [] else MeetRows(xs[..|xs| - 1], ys) + MeetRow(xs[|xs| - 1], ys)
  }

  function Intersection(a: Scope, b: Scope): Scope {
    var zs := MeetRows(a.Clauses(), b.Clauses());
    if zs == [] then NilScope else Scope(zs)
  }

  method IntersectIds(a: seq<int>, b: seq<int>) returns (ids: seq<int>, ok: bool)
    ensures MeetIds(a, b) == if ok then Some(ids) else None
  {
    if |a| == 0 { return b, true; }
    if |b| == 0 { return a, true; }
    ids := [];
    for i := 0 to |a|
      invariant ids == CommonIds(a[..i], b)
    {
      assert a[..i + 1][..i] == a[..i];
      if a[i] in b && a[i] !in ids {
        ids := ids + [a[i]];
      }
    }
    assert a[..|a|] == a;
    ok := |ids| > 0;
  }

  method IntersectClauses(x: Clause, y: Clause) returns (z: Option<Clause>)
    ensures z == Meet(x, y)
  {
    if x.all { return Some(y); }
    if y.all { return Some(x); }
    hide MeetIds;
    var users, ok1 := IntersectIds(x.users, y.users);
    var resources, ok2 := IntersectIds(x.resources, y.resources);
    var groups, ok3 := IntersectIds(x.groups, y.groups);
    if ok1 && ok2 && ok3 { return Some(Clause(false, x.self || y.self, users, resources, groups)); }
    return None;
  }

  method Intersect(a: Scope, b: Scope) returns (result: Scope)
    ensures result == Intersection(a, b)
  {
    hide Meet;
    var clauses: seq<Clause> := [];
    var xs, ys := a.Clauses(), b.Clauses();
    for i := 0 to |xs|
      invariant clauses == MeetRows(xs[..i], ys)
    {
      ghost var before := clauses;
      for j := 0 to |ys|
        invariant clauses == before + MeetRow(xs[i], ys[..j])
      {
        assert ys[..j + 1][..j] == ys[..j];
        var z := IntersectClauses(xs[i], ys[j]);
        if z.Some? {
          clauses := clauses + [z.value];
        }
      }
      assert ys[..|ys|] == ys;
      assert xs[..i + 1][..i] == xs[..i];
    }
    assert xs[..|xs|] == xs;
    result := if |clauses| == 0 then NilScope else Scope(clauses);
  }

  lemma {:induction false} CommonMeans(a: seq<int>, b: seq<int>)
    ensures forall id :: id in CommonIds(a, b) <==> id in a && id in b
  {
    if a != [] {
      CommonMeans(a[..|a| - 1], b);
      assert a == a[..|a| - 1] + [a[|a| - 1]];
    }
  }

  /** A constraint on one identifier: an empty list constrains nothing. */
  predicate Admits(ids: seq<int>, id: int) {
    ids == [] || id in ids
  }

  lemma MeetIdsMeans(a: seq<int>, b: seq<int>, id: int)
    ensures var m := MeetIds(a, b);
            && (m.Some? ==> (Admits(m.value, id) <==> Admits(a, id) && Admits(b, id)))
            && (m.None? ==> !(Admits(a, id) && Admits(b, id)))
            && (m.Some? ==> (m.value == [] <==> a == [] && b == []))
  {
    CommonMeans(a, b);
  }

  /** The reach of a clause through one group; every group when it names none. */
  predicate Reaches(c: Clause, user: int, o: Facts, g: int) {
    NonGroup(c, user, o) && Admits(c.groups, g)
  }

  lemma MeetMeans(x: Clause, y: Clause, user: int, o: Facts, g: int)
    requires ValidClause(x, EVERY_KIND) && ValidClause(y, EVERY_KIND)
    ensures var z := Meet(x, y);
            && (z.Some? ==> (Reaches(z.value, user, o, g) <==> Reaches(x, user, o, g) && Reaches(y, user, o, g)))
            && (z.None? ==> !(Reaches(x, user, o, g) && Reaches(y, user, o, g)))
            && (z.Some? ==> (NonGroup(z.value, user, o) <==> NonGroup(x, user, o) && NonGroup(y, user, o)))
            && (z.Some? ==> (z.value.groups == [] <==> x.groups == [] && y.groups == []))
            && (x.groups == [] && y.groups == [] && NonGroup(x, user, o) && NonGroup(y, user, o) ==> z.Some?)
  {
    MeetIdsMeans(x.users, y.users, o.owner);
    MeetIdsMeans(x.resources, y.resources, o.resource);
    MeetIdsMeans(x.groups, y.groups, g);
    hide MeetIds;
  }

  lemma {:induction false} RowMembers(x: Clause, ys: seq<Clause>)
    ensures forall z :: z in MeetRow(x, ys) <==> exists j :: 0 <= j < |ys| && Meet(x, ys[j]) == Some(z)
  {
    hide Meet;
    if ys != [] {
      var n := |ys| - 1;
      RowMembers(x, ys[..n]);
      forall z ensures z in MeetRow(x, ys) <==> exists j :: 0 <= j < |ys| && Meet(x, ys[j]) == Some(z) {
        if j :| 0 <= j < n && Meet(x, ys[..n][j]) == Some(z) { assert Meet(x, ys[j]) == Some(z); }
        if j :| 0 <= j < |ys| && Meet(x, ys[j]) == Some(z) { assert j < n ==> Meet(x, ys[..n][j]) == Some(z); }
      }
    }
  }

  lemma {:induction false} RowsMembers(xs: seq<Clause>, ys: seq<Clause>)
    ensures forall z :: z in MeetRows(xs, ys) <==> exists i :: 0 <= i < |xs| && z in MeetRow(xs[i], ys)
  {
    hide MeetRow;
    if xs != [] {
      var n := |xs| - 1;
      RowsMembers(xs[..n], ys);
      forall z ensures z in MeetRows(xs, ys) <==> exists i :: 0 <= i < |xs| && z in MeetRow(xs[i], ys) {
        if i :| 0 <= i < n && z in MeetRow(xs[..n][i], ys) { assert z in MeetRow(xs[i], ys); }
        if i :| 0 <= i < |xs| && z in MeetRow(xs[i], ys) { assert i < n ==> z in MeetRow(xs[..n][i], ys); }
      }
    }
  }

  /** The intersection has exactly the clauses in which two clauses meet. */
  lemma IntersectionClauses(a: Scope, b: Scope)
    ensures forall z :: z in Intersection(a, b).Clauses() <==>
              exists x, y :: x in a.Clauses() && y in b.Clauses() && Meet(x, y) == Some(z)
  {
    hide Meet, MeetRows, MeetRow;
    var xs, ys := a.Clauses(), b.Clauses();
    RowsMembers(xs, ys);
    forall z ensures z in MeetRows(xs, ys) <==> exists x, y :: x in xs && y in ys && Meet(x, y) == Some(z) {
      if i :| 0 <= i < |xs| && z in MeetRow(xs[i], ys) {
        RowMembers(xs[i], ys);
        var j :| 0 <= j < |ys| && Meet(xs[i], ys[j]) == Some(z);
        assert xs[i] in xs && ys[j] in ys;
      }
      if x, y :| x in xs && y in ys && Meet(x, y) == Some(z) {
        RowMembers(x, ys);
        var j :| 0 <= j < |ys| && ys[j] == y;
        var i :| 0 <= i < |xs| && xs[i] == x;
      }
    }
  }

  lemma MeetValid(x: Clause, y: Clause, supported: seq<Kind>)
    requires ValidClause(x, supported) && ValidClause(y, supported)
    ensures Meet(x, y).Some? ==> ValidClause(Meet(x, y).value, supported)
  {
    if !x.all && !y.all {
      PositiveMeet(x.users, y.users);
      PositiveMeet(x.resources, y.resources);
      PositiveMeet(x.groups, y.groups);
      hide MeetIds, Positive;
    }
  }

  lemma PositiveMeet(a: seq<int>, b: seq<int>)
    requires Positive(a) && Positive(b)
    ensures var m := MeetIds(a, b);
            m.Some? ==> Positive(m.value) && (m.value == [] <==> a == [] && b == [])
  {
    if a != [] && b != [] { PositiveCommon(a, b); }
  }

  lemma {:induction false} PositiveCommon(a: seq<int>, b: seq<int>)
    requires Positive(a)
    ensures Positive(CommonIds(a, b))
  {
    if a != [] { PositiveCommon(a[..|a| - 1], b); }
  }

  lemma IntersectionValid(a: Scope, b: Scope, supported: seq<Kind>)
    requires Valid(a, supported) && Valid(b, supported)
    ensures Valid(Intersection(a, b), supported)
  {
    hide Meet, Intersection, ValidClause;
    IntersectionClauses(a, b);
    forall z | z in Intersection(a, b).Clauses() ensures ValidClause(z, supported) {
      var x, y :| x in a.Clauses() && y in b.Clauses() && Meet(x, y) == Some(z);
      MeetValid(x, y, supported);
    }
  }

  ghost predicate Reached(s: Scope, user: int, o: Facts, g: int) {
    exists c :: c in s.Clauses() && Reaches(c, user, o, g)
  }

  lemma OneScope(s: Scope, user: int, o: Facts)
    ensures forall c :: InAny([s], c) <==> c in s.Clauses()
    ensures forall g :: Reached(s, user, o, g) <==> Unbounded([s], user, o) || Through([s], user, o, g)
  {
    forall c ensures InAny([s], c) <==> c in s.Clauses() {
      if c in s.Clauses() { assert c in [s][0].Clauses(); }
    }
    forall g ensures Reached(s, user, o, g) <==> Unbounded([s], user, o) || Through([s], user, o, g) {
      if Reached(s, user, o, g) {
        var c :| c in s.Clauses() && Reaches(c, user, o, g);
        assert InAny([s], c);
      }
    }
  }

  lemma IntersectionReached(a: Scope, b: Scope, user: int, o: Facts, g: int)
    requires Valid(a, EVERY_KIND) && Valid(b, EVERY_KIND)
    ensures Reached(Intersection(a, b), user, o, g) <==> Reached(a, user, o, g) && Reached(b, user, o, g)
  {
    hide Meet, Intersection, NonGroup, Admits;
    IntersectionClauses(a, b);
    if Reached(Intersection(a, b), user, o, g) {
      var z :| z in Intersection(a, b).Clauses() && Reaches(z, user, o, g);
      var x, y :| x in a.Clauses() && y in b.Clauses() && Meet(x, y) == Some(z);
      MeetMeans(x, y, user, o, g);
    }
    if Reached(a, user, o, g) && Reached(b, user, o, g) {
      var x :| x in a.Clauses() && Reaches(x, user, o, g);
      var y :| y in b.Clauses() && Reaches(y, user, o, g);
      MeetMeans(x, y, user, o, g);
      assert Meet(x, y).value in Intersection(a, b).Clauses();
    }
  }

  lemma IntersectionUnbounded(a: Scope, b: Scope, user: int, o: Facts)
    requires Valid(a, EVERY_KIND) && Valid(b, EVERY_KIND)
    ensures Unbounded([Intersection(a, b)], user, o) <==> Unbounded([a], user, o) && Unbounded([b], user, o)
  {
    hide Meet, Intersection, NonGroup, InAny;
    IntersectionClauses(a, b);
    var m := Intersection(a, b);
    OneScope(a, user, o);
    OneScope(b, user, o);
    OneScope(m, user, o);
    if Unbounded([m], user, o) {
      var z :| InAny([m], z) && NonGroup(z, user, o) && z.groups == [];
      var x, y :| x in a.Clauses() && y in b.Clauses() && Meet(x, y) == Some(z);
      MeetMeans(x, y, user, o, 0);
      assert InAny([a], x) && InAny([b], y);
    }
    if Unbounded([a], user, o) && Unbounded([b], user, o) {
      var x :| InAny([a], x) && NonGroup(x, user, o) && x.groups == [];
      var y :| InAny([b], y) && NonGroup(y, user, o) && y.groups == [];
      MeetMeans(x, y, user, o, 0);
      assert InAny([m], Meet(x, y).value);
    }
  }

  /** For writing, the intersection covers exactly what both scopes cover. */
  lemma IntersectionForWrites(a: Scope, b: Scope, user: int, o: Facts)
    requires Valid(a, EVERY_KIND) && Valid(b, EVERY_KIND)
    ensures Covers([Intersection(a, b)], user, o, true) <==> Covers([a], user, o, true) && Covers([b], user, o, true)
  {
    hide Intersection, Unbounded, Through, Reached, Valid;
    IntersectionUnbounded(a, b, user, o);
    OneScope(a, user, o);
    OneScope(b, user, o);
    OneScope(Intersection(a, b), user, o);
    forall g ensures Reached(Intersection(a, b), user, o, g) <==> Reached(a, user, o, g) && Reached(b, user, o, g) {
      IntersectionReached(a, b, user, o, g);
    }
  }

  /** Both scopes reach the object through one and the same of its groups, or whatever its groups. */
  ghost predicate Together(a: Scope, b: Scope, user: int, o: Facts) {
    || (Unbounded([a], user, o) && Unbounded([b], user, o))
    || exists i :: 0 <= i < |o.groups| && Reached(a, user, o, o.groups[i]) && Reached(b, user, o, o.groups[i])
  }

  /** For reading, the intersection covers exactly the objects that both scopes cover and
      reach together; covering them through different groups is not enough. */
  lemma IntersectionForReads(a: Scope, b: Scope, user: int, o: Facts)
    requires Valid(a, EVERY_KIND) && Valid(b, EVERY_KIND)
    ensures Covers([Intersection(a, b)], user, o, false) <==> Together(a, b, user, o)
    ensures Together(a, b, user, o) ==> Covers([a], user, o, false) && Covers([b], user, o, false)
    ensures |o.groups| <= 1 || Unbounded([a], user, o) || Unbounded([b], user, o) ==>
              (Together(a, b, user, o) <==> Covers([a], user, o, false) && Covers([b], user, o, false))
  {
    hide Intersection, Unbounded, Through, Reached, Valid;
    IntersectionUnbounded(a, b, user, o);
    OneScope(a, user, o);
    OneScope(b, user, o);
    OneScope(Intersection(a, b), user, o);
    forall g ensures Reached(Intersection(a, b), user, o, g) <==> Reached(a, user, o, g) && Reached(b, user, o, g) {
      IntersectionReached(a, b, user, o, g);
    }
  }

  function OneGroup(g: int): Scope {
    Scope([Clause(false, false, [], [], [g])])
  }

  lemma OneGroupReaches(g: int, user: int, o: Facts)
    requires g > 0
    ensures Valid(OneGroup(g), EVERY_KIND) && !Unbounded([OneGroup(g)], user, o)
    ensures forall h :: Reached(OneGroup(g), user, o, h) <==> h == g
  {
    var c, s := Clause(false, false, [], [], [g]), OneGroup(g);
    assert s.Clauses()[0] == c && forall x :: x in s.Clauses() <==> x == c;
    OneScope(s, user, o);
    hide InAny;
  }

  /** Each scope covers the object through a group of its own; together they do not. */
  lemma ReadsMayDiverge()
    ensures var a, b, o := OneGroup(1), OneGroup(2), Facts(0, 7, [1, 2]);
            && Valid(a, EVERY_KIND) && Valid(b, EVERY_KIND)
            && Covers([a], 7, o, false) && Covers([b], 7, o, false) && !Covers([Intersection(a, b)], 7, o, false)
  {
    var a, b, o := OneGroup(1), OneGroup(2), Facts(0, 7, [1, 2]);
    OneGroupReaches(1, 7, o);
    OneGroupReaches(2, 7, o);
    OneScope(a, 7, o);
    OneScope(b, 7, o);
    hide Unbounded, Through, Reached, Intersection, Valid, OneGroup;
    assert o.groups[0] == 1 && o.groups[1] == 2;
    assert Through([a], 7, o, o.groups[0]) && Through([b], 7, o, o.groups[1]);
    IntersectionForReads(a, b, 7, o);
  }

  // ---- containment -----------------------------------------------------------------------

  /** A clause with `self` replaced by the actor it stands for; none when no object fits. */
  function Resolve(c: Clause, user: int): Option<Clause> {
    if !c.self then Some(c)
    else if user <= 0 || (c.users != [] && user !in c.users) then None
    else Some(c.(self := false, users := [user]))
  }

  predicate Subset(a: seq<int>, b: seq<int>) {
    b == [] || (a != [] && forall i :: 0 <= i < |a| ==> a[i] in b)
  }

  predicate Under(x: Clause, y: Clause) {
    y.all || (!x.all && Subset(x.users, y.users) && Subset(x.resources, y.resources) && Subset(x.groups, y.groups))
  }

  predicate UnderSome(x: Clause, ceiling: seq<Clause>, user: int) {
    exists j :: 0 <= j < |ceiling| && Resolve(ceiling[j], user).Some? && Under(x, Resolve(ceiling[j], user).value)
  }

  predicate ClauseContained(c: Clause, ceiling: seq<Clause>, candidateUser: int, ceilingUser: int) {
    var x := Resolve(c, candidateUser);
    if x.None? then candidateUser > 0 else UnderSome(x.value, ceiling, ceilingUser)
  }

  predicate HasAll(cs: seq<Clause>) {
    exists j :: 0 <= j < |cs| && cs[j].all
  }

  predicate Contained(candidate: Scope, ceiling: Scope, candidateUser: int, ceilingUser: int) {
    && !candidate.NilScope? && !ceiling.NilScope? && Valid(candidate, EVERY_KIND) && Valid(ceiling, EVERY_KIND)
    && (HasAll(ceiling.clauses) ||
        forall i :: 0 <= i < |candidate.clauses| ==>
          ClauseContained(candidate.clauses[i], ceiling.clauses, candidateUser, ceilingUser))
  }

  method SubsetOf(a: seq<int>, b: seq<int>) returns (ok: bool)
    ensures ok == Subset(a, b)
  {
    if |b| == 0 { return true; }
    if |a| == 0 { return false; }
    for i := 0 to |a|
      invariant forall k :: 0 <= k < i ==> a[k] in b
    {
      if a[i] !in b { return false; }
    }
    return true;
  }

  method CoveredBySome(x: Clause, ceiling: seq<Clause>, user: int) returns (covered: bool)
    ensures covered == UnderSome(x, ceiling, user)
  {
    covered := false;
    hide Resolve, Subset;
    for j := 0 to |ceiling|
      invariant !covered && forall k :: 0 <= k < j ==>
        !(Resolve(ceiling[k], user).Some? && Under(x, Resolve(ceiling[k], user).value))
    {
      var y := Resolve(ceiling[j], user);
      if y.None? { continue; }
      var users := SubsetOf(x.users, y.value.users);
      var resources := SubsetOf(x.resources, y.value.resources);
      var groups := SubsetOf(x.groups, y.value.groups);
      if y.value.all || (!x.all && users && resources && groups) { return true; }
    }
  }

  method ScopeContained(candidate: Scope, ceiling: Scope, candidateUser: int, ceilingUser: int) returns (ok: bool)
    ensures ok == Contained(candidate, ceiling, candidateUser, ceilingUser)
  {
    if candidate.NilScope? || ceiling.NilScope? { return false; }
    hide Valid, Resolve, UnderSome;
    ok := Validate(candidate, EVERY_KIND);
    if !ok { return; }
    ok := Validate(ceiling, EVERY_KIND);
    if !ok { return; }
    for j := 0 to |ceiling.clauses|
      invariant forall k :: 0 <= k < j ==> !ceiling.clauses[k].all
    {
      if ceiling.clauses[j].all { return true; }
    }
    for i := 0 to |candidate.clauses|
      invariant forall k :: 0 <= k < i ==> ClauseContained(candidate.clauses[k], ceiling.clauses, candidateUser, ceilingUser)
    {
      var x := Resolve(candidate.clauses[i], candidateUser);
      if x.None? {
        if candidateUser > 0 { continue; }
        return false;
      }
      var covered := CoveredBySome(x.value, ceiling.clauses, ceilingUser);
      if !covered { return false; }
    }
    return true;
  }

  lemma ResolveMeans(c: Clause, user: int, o: Facts)
    ensures var x := Resolve(c, user);
            && (x.None? ==> !NonGroup(c, user, o))
            && (x.Some? ==> !x.value.self && x.value.groups == c.groups && (NonGroup(c, user, o) ==> NonGroup(x.value, user, o)))
            && (x.Some? && NonGroup(x.value, user, o) ==> NonGroup(c, user, o))
  {
  }

  lemma SubsetMeans(a: seq<int>, b: seq<int>, id: int)
    requires Subset(a, b) && Admits(a, id)
    ensures Admits(b, id)
  {
  }

  lemma UnderMeans(x: Clause, y: Clause, cu: int, ku: int, o: Facts, g: int)
    requires Under(x, y) && !x.self && !y.self && ValidClause(y, EVERY_KIND)
    ensures Reaches(x, cu, o, g) ==> Reaches(y, ku, o, g)
    ensures NonGroup(x, cu, o) && x.groups == [] ==> NonGroup(y, ku, o) && y.groups == []
  {
    if NonGroup(x, cu, o) && !y.all {
      SubsetMeans(x.users, y.users, o.owner);
      SubsetMeans(x.resources, y.resources, o.resource);
      if Admits(x.groups, g) { SubsetMeans(x.groups, y.groups, g); }
    }
  }

  /** A resolved clause is valid when its original is. */
  lemma ResolveValid(c: Clause, user: int)
    requires ValidClause(c, EVERY_KIND) && Resolve(c, user).Some?
    ensures ValidClause(Resolve(c, user).value, EVERY_KIND)
  {
  }

  /** What one clause of a contained candidate reaches, some clause of the ceiling reaches. */
  lemma ClauseSound(c: Clause, ceiling: Scope, cu: int, ku: int, o: Facts, g: int) returns (d: Clause)
    requires Valid(ceiling, EVERY_KIND) && NonGroup(c, cu, o)
    requires HasAll(ceiling.Clauses()) || ClauseContained(c, ceiling.Clauses(), cu, ku)
    ensures d in ceiling.Clauses() && NonGroup(d, ku, o)
    ensures Admits(c.groups, g) ==> Admits(d.groups, g)
    ensures c.groups == [] ==> d.groups == []
  {
    var ks := ceiling.Clauses();
    if HasAll(ks) {
      var j :| 0 <= j < |ks| && ks[j].all;
      d := ks[j];
      assert d in ks;
    } else {
      ResolveMeans(c, cu, o);
      var x := Resolve(c, cu).value;
      hide NonGroup, Under, Resolve, ValidClause, Admits;
      var j :| 0 <= j < |ks| && Resolve(ks[j], ku).Some? && Under(x, Resolve(ks[j], ku).value);
      d := ks[j];
      assert d in ks;
      ResolveMeans(d, ku, o);
      ResolveValid(d, ku);
      UnderMeansAt(x, Resolve(d, ku).value, cu, ku, o, g);
    }
  }

  lemma UnderMeansAt(x: Clause, y: Clause, cu: int, ku: int, o: Facts, g: int)
    requires Under(x, y) && !x.self && !y.self && ValidClause(y, EVERY_KIND) && NonGroup(x, cu, o)
    ensures NonGroup(y, ku, o) && (Admits(x.groups, g) ==> Admits(y.groups, g)) && (x.groups == [] ==> y.groups == [])
  {
    UnderMeans(x, y, cu, ku, o, g);
    if !y.all {
      SubsetMeans(x.users, y.users, o.owner);
      SubsetMeans(x.resources, y.resources, o.resource);
    }
  }

  /** Containment is sound: whatever the candidate covers for its user, the ceiling covers
      for its user, for every object and for reading as well as for writing. */
  lemma ContainmentSound(candidate: Scope, ceiling: Scope, cu: int, ku: int, o: Facts, whole: bool)
    requires Contained(candidate, ceiling, cu, ku)
    ensures Covers([candidate], cu, o, whole) ==> Covers([ceiling], ku, o, whole)
  {
    OneScope(candidate, cu, o);
    OneScope(ceiling, ku, o);
    hide InAny, NonGroup, Admits, ClauseContained, Valid, HasAll;
    forall g ensures Reached(candidate, cu, o, g) ==> Reached(ceiling, ku, o, g) {
      if Reached(candidate, cu, o, g) {
        var c :| c in candidate.Clauses() && Reaches(c, cu, o, g);
        var d := ClauseSound(c, ceiling, cu, ku, o, g);
        assert Reaches(d, ku, o, g);
      }
    }
    if Unbounded([candidate], cu, o) {
      var c :| InAny([candidate], c) && NonGroup(c, cu, o) && c.groups == [];
      var d := ClauseSound(c, ceiling, cu, ku, o, 0);
      assert InAny([ceiling], d);
    }
    hide Unbounded, Through, Reached;
  }

  lemma UnderSelf(x: Clause)
    ensures Under(x, x)
  {
  }

  /** Containment is reflexive exactly for valid scopes whose `self` clauses, if any, stand
      for a real user (or that also hold an `all` clause). */
  lemma ContainmentReflexive(s: Scope, user: int)
    ensures Contained(s, s, user, user) <==>
            && !s.NilScope? && Valid(s, EVERY_KIND)
            && (user > 0 || HasAll(s.clauses) || forall i :: 0 <= i < |s.clauses| ==> !s.clauses[i].self)
  {
    if !s.NilScope? && Valid(s, EVERY_KIND) {
      hide Valid;
      var cs := s.clauses;
      forall i | 0 <= i < |cs| && Resolve(cs[i], user).Some? ensures ClauseContained(cs[i], cs, user, user) {
        UnderSelf(Resolve(cs[i], user).value);
      }
      hide UnderSome;
    }
  }

  lemma UnderTransitive(x: Clause, y: Clause, z: Clause)
    requires Under(x, y) && Under(y, z) && ValidClause(x, EVERY_KIND)
    ensures Under(x, z)
  {
    hide ValidClause;
    if !z.all { SubsetsCompose(x, y, z); }
  }

  lemma SubsetsCompose(x: Clause, y: Clause, z: Clause)
    requires !y.all && Under(x, y) && Under(y, z) && !z.all
    ensures Under(x, z)
  {
    SubsetCompose(x.users, y.users, z.users);
    SubsetCompose(x.resources, y.resources, z.resources);
    SubsetCompose(x.groups, y.groups, z.groups);
    hide Subset;
  }

  lemma SubsetCompose(a: seq<int>, b: seq<int>, c: seq<int>)
    requires Subset(a, b) && Subset(b, c)
    ensures Subset(a, c)
  {
    if c != [] && b != [] {
      forall i | 0 <= i < |a| ensures a[i] in c {
        var j :| 0 <= j < |b| && b[j] == a[i];
      }
    }
  }

  lemma AllUnderAll(x: Clause, ceiling: seq<Clause>, user: int)
    requires x.all && UnderSome(x, ceiling, user)
    ensures HasAll(ceiling)
  {
    var j :| 0 <= j < |ceiling| && Resolve(ceiling[j], user).Some? && Under(x, Resolve(ceiling[j], user).value);
    assert ceiling[j].all;
  }

  lemma AllGoesUp(b: Scope, c: Scope, ub: int, uc: int)
    requires Contained(b, c, ub, uc) && HasAll(b.clauses)
    ensures HasAll(c.clauses)
  {
    var i :| 0 <= i < |b.clauses| && b.clauses[i].all;
    var x := b.clauses[i];
    assert x in b.Clauses();
    assert Resolve(x, ub) == Some(x);
    if UnderSome(x, c.clauses, uc) { AllUnderAll(x, c.clauses, uc); }
  }

  /** Containment composes through the shared middle user. */
  lemma ContainmentTransitive(a: Scope, b: Scope, c: Scope, ua: int, ub: int, uc: int)
    requires Contained(a, b, ua, ub) && Contained(b, c, ub, uc)
    ensures Contained(a, c, ua, uc)
  {
    if HasAll(b.clauses) { AllGoesUp(b, c, ub, uc); }
    if !HasAll(c.clauses) {
      hide Resolve, Under, HasAll;
      forall i | 0 <= i < |a.clauses| && Resolve(a.clauses[i], ua).Some?
        ensures UnderSome(Resolve(a.clauses[i], ua).value, c.clauses, uc)
      {
        var x := Resolve(a.clauses[i], ua).value;
        assert ClauseContained(a.clauses[i], b.clauses, ua, ub);
        var j :| 0 <= j < |b.clauses| && Resolve(b.clauses[j], ub).Some? && Under(x, Resolve(b.clauses[j], ub).value);
        var y := Resolve(b.clauses[j], ub).value;
        assert ClauseContained(b.clauses[j], c.clauses, ub, uc);
        var k :| 0 <= k < |c.clauses| && Resolve(c.clauses[k], uc).Some? && Under(y, Resolve(c.clauses[k], uc).value);
        assert a.clauses[i] in a.Clauses();
        ResolveValid(a.clauses[i], ua);
        UnderTransitive(x, y, Resolve(c.clauses[k], uc).value);
      }
      hide UnderSome;
    }
  }
}
