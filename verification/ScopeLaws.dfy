/** What a scope covers, said without the matching rules: dimension by dimension, clause by clause,
    and for unions of clauses. */
module ScopeLaws {
  import opened Text
  import opened Scopes

  function One(c: Clause): seq<Scope> {
    [Scope([c])]
  }

  const EVERYTHING := Clause(true, false, [], [], [])
  const OWN := Clause(false, true, [], [], [])

  function OfUsers(ids: seq<int>): Clause {
    Clause(false, false, ids, [], [])
  }

  function OfResources(ids: seq<int>): Clause {
    Clause(false, false, [], ids, [])
  }

  function OfGroups(ids: seq<int>): Clause {
    Clause(false, false, [], [], ids)
  }

  /** The object's groups against a list: all of them for writing, one of them for reading. */
  predicate GroupsIn(o: Facts, ids: seq<int>, whole: bool) {
    if whole then o.groups != [] && forall i :: 0 <= i < |o.groups| ==> o.groups[i] in ids
    else exists i :: 0 <= i < |o.groups| && o.groups[i] in ids
  }

  lemma OneClause(c: Clause, user: int, o: Facts, whole: bool)
    ensures forall x :: InAny(One(c), x) <==> x == c
    ensures Covers(One(c), user, o, whole) <==> NonGroup(c, user, o) && (c.groups == [] || GroupsIn(o, c.groups, whole))
  {
    forall x ensures InAny(One(c), x) <==> x == c {
      assert One(c)[0].Clauses() == [c] && [c][0] == c;
    }
    hide NonGroup, InAny;
    assert InAny(One(c), c);
    assert Unbounded(One(c), user, o) <==> NonGroup(c, user, o) && c.groups == [];
    forall g ensures Through(One(c), user, o, g) <==> NonGroup(c, user, o) && g in c.groups { }
    hide Unbounded, Through;
    if whole {
      if Covers(One(c), user, o, true) && o.groups != [] && !Unbounded(One(c), user, o) { assert Through(One(c), user, o, o.groups[0]); }
      forall i | 0 <= i < |o.groups| ensures Through(One(c), user, o, o.groups[i]) <==> NonGroup(c, user, o) && o.groups[i] in c.groups { }
    } else {
      if i :| 0 <= i < |o.groups| && Through(One(c), user, o, o.groups[i]) { assert o.groups[i] in c.groups; }
      if i :| 0 <= i < |o.groups| && o.groups[i] in c.groups && NonGroup(c, user, o) { assert Through(One(c), user, o, o.groups[i]); }
    }
  }

  /** One dimension alone: `all` covers every object, `self` the objects owned by a real acting
      user, user identifiers those of the listed owners, resource identifiers the listed ones among
      those that exist already, and groups those that the groups decide. */
  lemma OneDimension(ids: seq<int>, user: int, o: Facts, whole: bool)
    requires ids != []
    ensures Covers(One(EVERYTHING), user, o, whole)
    ensures Covers(One(OWN), user, o, whole) <==> user > 0 && o.owner == user
    ensures Covers(One(OfUsers(ids)), user, o, whole) <==> o.owner in ids
    ensures Covers(One(OfResources(ids)), user, o, whole) <==> o.resource > 0 && o.resource in ids
    ensures Covers(One(OfGroups(ids)), user, o, whole) <==> GroupsIn(o, ids, whole)
  {
    OneClause(EVERYTHING, user, o, whole);
    OneClause(OWN, user, o, whole);
    OneClause(OfUsers(ids), user, o, whole);
    OneClause(OfResources(ids), user, o, whole);
    OneClause(OfGroups(ids), user, o, whole);
    hide Covers, GroupsIn;
  }

  /** The dimensions of one clause hold together. */
  lemma DimensionsJoin(c: Clause, user: int, o: Facts, whole: bool)
    ensures Covers(One(c), user, o, whole) <==>
            && (c.self ==> Covers(One(OWN), user, o, whole))
            && (c.users != [] ==> Covers(One(OfUsers(c.users)), user, o, whole))
            && (c.resources != [] ==> Covers(One(OfResources(c.resources)), user, o, whole))
            && (c.groups != [] ==> Covers(One(OfGroups(c.groups)), user, o, whole))
  {
    OneClause(c, user, o, whole);
    OneClause(OWN, user, o, whole);
    OneClause(OfUsers(c.users), user, o, whole);
    OneClause(OfResources(c.resources), user, o, whole);
    OneClause(OfGroups(c.groups), user, o, whole);
    hide Covers, GroupsIn;
  }

  /** Clauses make a union: for reading, some clause alone covers the object; for writing, some
      clause does whatever the groups, or each of the object's groups has a clause that covers
      the object with that group alone. */
  lemma ClausesUnite(scopes: seq<Scope>, user: int, o: Facts)
    ensures Covers(scopes, user, o, false) <==> exists c :: InAny(scopes, c) && Covers(One(c), user, o, false)
    ensures Covers(scopes, user, o, true) <==>
            || (exists c :: InAny(scopes, c) && c.groups == [] && Covers(One(c), user, o, true))
            || (o.groups != [] && forall g :: g in o.groups ==>
                  exists c :: InAny(scopes, c) && Covers(One(c), user, o.(groups := [g]), true))
  {
    forall c, whole: bool ensures Covers(One(c), user, o, whole) <==> NonGroup(c, user, o) && (c.groups == [] || GroupsIn(o, c.groups, whole)) {
      OneClause(c, user, o, whole);
    }
    forall c, g ensures Covers(One(c), user, o.(groups := [g]), true) <==> NonGroup(c, user, o) && (c.groups == [] || g in c.groups) {
      var p := o.(groups := [g]);
      OneClause(c, user, p, true);
      assert p.groups[0] == g && (NonGroup(c, user, p) <==> NonGroup(c, user, o));
    }
    hide InAny, NonGroup;
    ReadsUnite(scopes, user, o);
    WritesUnite(scopes, user, o);
    hide Covers, One;
  }

  lemma ReadsUnite(scopes: seq<Scope>, user: int, o: Facts)
    ensures Covers(scopes, user, o, false) <==>
            exists c :: InAny(scopes, c) && NonGroup(c, user, o) && (c.groups == [] || GroupsIn(o, c.groups, false))
  {
    hide InAny, NonGroup;
    if i :| 0 <= i < |o.groups| && Through(scopes, user, o, o.groups[i]) {
      var c :| InAny(scopes, c) && NonGroup(c, user, o) && o.groups[i] in c.groups;
      assert GroupsIn(o, c.groups, false);
    }
    if c :| InAny(scopes, c) && NonGroup(c, user, o) && c.groups != [] && GroupsIn(o, c.groups, false) {
      var i :| 0 <= i < |o.groups| && o.groups[i] in c.groups;
      assert Through(scopes, user, o, o.groups[i]);
    }
  }

  lemma WritesUnite(scopes: seq<Scope>, user: int, o: Facts)
    ensures Covers(scopes, user, o, true) <==>
            || (exists c :: InAny(scopes, c) && NonGroup(c, user, o) && c.groups == [])
            || (o.groups != [] && forall g :: g in o.groups ==>
                  exists c :: InAny(scopes, c) && NonGroup(c, user, o) && (c.groups == [] || g in c.groups))
  {
    hide InAny, NonGroup;
    if !Unbounded(scopes, user, o) {
      forall g ensures Through(scopes, user, o, g) <==> exists c :: InAny(scopes, c) && NonGroup(c, user, o) && (c.groups == [] || g in c.groups) { }
      if o.groups != [] && forall g :: g in o.groups ==> Through(scopes, user, o, g) {
        forall i | 0 <= i < |o.groups| ensures Through(scopes, user, o, o.groups[i]) { assert o.groups[i] in o.groups; }
      }
    }
  }

  // ---- malformed scopes ----------------------------------------------------------------------

  /** A clause with a condition on nothing, `all` beside another condition, or an identifier that
      is not positive. */
  ghost predicate Malformed(c: Clause) {
    || c == Clause(false, false, [], [], [])
    || (c.all && c != EVERYTHING)
    || (exists id :: (id in c.users || id in c.resources || id in c.groups) && id <= 0)
  }

  /** The kinds of condition in a clause. */
  predicate Uses(c: Clause, kind: Kind) {
    match kind
    case All => c.all
    case Self => c.self
    case Users => c.users != []
    case Resources => c.resources != []
    case Groups => c.groups != []
  }

  lemma ValidClauseMeans(c: Clause, supported: seq<Kind>)
    ensures ValidClause(c, supported) <==> !Malformed(c) && forall kind :: Uses(c, kind) ==> kind in supported
  {
    PositiveMeans(c.users);
    PositiveMeans(c.resources);
    PositiveMeans(c.groups);
    assert Uses(c, All) == c.all && Uses(c, Self) == c.self && Uses(c, Users) == (c.users != []);
    assert Uses(c, Resources) == (c.resources != []) && Uses(c, Groups) == (c.groups != []);
    hide Positive;
  }

  lemma PositiveMeans(ids: seq<int>)
    ensures Positive(ids) <==> !exists id :: id in ids && id <= 0
  {
    if i :| 0 <= i < |ids| && ids[i] <= 0 { assert ids[i] in ids; }
    if id :| id in ids && id <= 0 {
      var i :| 0 <= i < |ids| && ids[i] == id;
    }
  }

  /** Scopes that fail shut: one malformed clause anywhere allows nothing and denies everything. */
  lemma MalformedFailsShut(scopes: seq<Scope>, user: int, o: Facts, whole: bool)
    ensures (exists c :: InAny(scopes, c) && Malformed(c)) ==> !Allows(scopes, user, o, whole) && Denies(scopes, user, o)
    ensures (forall c :: InAny(scopes, c) ==> !Malformed(c)) ==>
              (Allows(scopes, user, o, whole) <==> Covers(scopes, user, o, whole)) &&
              (Denies(scopes, user, o) <==> Covers(scopes, user, o, false))
  {
    ValidByClause(scopes);
    forall c ensures ValidClause(c, EVERY_KIND) <==> !Malformed(c) {
      ValidClauseMeans(c, EVERY_KIND);
      EveryKind();
    }
    hide InAny, Covers, ValidClause, Malformed, AllValid;
  }

  lemma EveryKind()
    ensures forall kind :: kind in EVERY_KIND
  {
    forall kind: Kind ensures kind in EVERY_KIND {
      match kind
      case All => assert EVERY_KIND[0] == kind;
      case Self => assert EVERY_KIND[1] == kind;
      case Users => assert EVERY_KIND[2] == kind;
      case Resources => assert EVERY_KIND[3] == kind;
      case Groups => assert EVERY_KIND[4] == kind;
    }
  }

  /** Which clauses a valid scope may hold. */
  lemma ValidMeans(s: Scope, supported: seq<Kind>)
    ensures Valid(s, supported) <==>
            forall c :: c in s.Clauses() ==> !Malformed(c) && forall kind :: Uses(c, kind) ==> kind in supported
  {
    forall c ensures ValidClause(c, supported) <==> !Malformed(c) && forall kind :: Uses(c, kind) ==> kind in supported {
      ValidClauseMeans(c, supported);
    }
    hide ValidClause, Malformed, Uses;
  }

  // ---- containment is exact, clause by clause ------------------------------------------------

  /** Whatever the first clause covers for its user, the second covers for its own. */
  ghost predicate Below(c: Clause, cu: int, d: Clause, ku: int) {
    forall o, whole: bool :: Covers(One(c), cu, o, whole) ==> Covers(One(d), ku, o, whole)
  }

  ghost predicate CoversNothing(c: Clause, user: int) {
    forall o, whole: bool :: !Covers(One(c), user, o, whole)
  }

  /** Containment holds exactly between given, well-formed scopes in which every clause of the
      candidate is below one single clause of the ceiling, or covers nothing for a real user. It
      never splits a clause over several of the ceiling. */
  lemma ContainedExactly(candidate: Scope, ceiling: Scope, cu: int, ku: int)
    ensures Contained(candidate, ceiling, cu, ku) <==>
            && !candidate.NilScope? && !ceiling.NilScope? && Valid(candidate, EVERY_KIND) && Valid(ceiling, EVERY_KIND)
            && (EVERYTHING in ceiling.clauses ||
                forall c :: c in candidate.clauses ==>
                  (CoversNothing(c, cu) && cu > 0) || (!CoversNothing(c, cu) && exists d :: d in ceiling.clauses && Below(c, cu, d, ku)))
  {
    if !candidate.NilScope? && !ceiling.NilScope? && Valid(candidate, EVERY_KIND) && Valid(ceiling, EVERY_KIND) {
      var cs, ks := candidate.clauses, ceiling.clauses;
      forall d | d in ks ensures d.all <==> d == EVERYTHING { assert ValidClause(d, EVERY_KIND); }
      assert HasAll(ks) <==> EVERYTHING in ks by {
        if j :| 0 <= j < |ks| && ks[j].all { assert ks[j] in ks; }
        if EVERYTHING in ks {
          var j :| 0 <= j < |ks| && ks[j] == EVERYTHING;
        }
      }
      hide HasAll, Below, CoversNothing, ClauseContained;
      forall c | c in cs
        ensures ClauseContained(c, ks, cu, ku) <==>
                (CoversNothing(c, cu) && cu > 0) || (!CoversNothing(c, cu) && exists d :: d in ks && Below(c, cu, d, ku))
      {
        ClauseExactly(c, ceiling, cu, ku);
      }
      assert forall i :: 0 <= i < |cs| ==> cs[i] in cs;
    }
  }

  lemma ClauseExactly(c: Clause, ceiling: Scope, cu: int, ku: int)
    requires ValidClause(c, EVERY_KIND) && !ceiling.NilScope? && Valid(ceiling, EVERY_KIND)
    ensures ClauseContained(c, ceiling.clauses, cu, ku) <==>
            (CoversNothing(c, cu) && cu > 0) || (!CoversNothing(c, cu) && exists d :: d in ceiling.clauses && Below(c, cu, d, ku))
  {
    var ks := ceiling.clauses;
    NothingExactly(c, cu);
    hide Below, CoversNothing, Resolve, Under;
    if Resolve(c, cu).Some? {
      var x := Resolve(c, cu).value;
      forall d | d in ks ensures Resolve(d, ku).Some? && Under(x, Resolve(d, ku).value) <==> Below(c, cu, d, ku) {
        assert ValidClause(d, EVERY_KIND);
        BelowExactly(c, cu, d, ku);
      }
      if exists d :: d in ks && Below(c, cu, d, ku) {
        var d :| d in ks && Below(c, cu, d, ku);
        var j :| 0 <= j < |ks| && ks[j] == d;
      }
      assert forall j :: 0 <= j < |ks| ==> ks[j] in ks;
    }
  }

  function Pick(ids: seq<int>): int {
    if ids == [] then 1 else ids[0]
  }

  /** An object that a clause covers. */
  function Sample(x: Clause): Facts {
    Facts(Pick(x.resources), Pick(x.users), [Pick(x.groups)])
  }

  /** The object within a clause, with one group. */
  predicate Inside(x: Clause, o: Facts) {
    && Admits(x.users, o.owner) && Admits(x.resources, o.resource) && (x.resources != [] ==> o.resource > 0)
    && |o.groups| == 1 && Admits(x.groups, o.groups[0])
  }

  lemma ResolvedCovers(c: Clause, user: int, o: Facts)
    requires |o.groups| == 1
    ensures var x := Resolve(c, user);
            Covers(One(c), user, o, true) <==> x.Some? && Inside(x.value, o)
  {
    OneClause(c, user, o, true);
    ResolveMeans(c, user, o);
    assert GroupsIn(o, c.groups, true) <==> o.groups[0] in c.groups;
    hide Covers, GroupsIn;
  }

  lemma NothingExactly(c: Clause, user: int)
    requires ValidClause(c, EVERY_KIND)
    ensures CoversNothing(c, user) <==> Resolve(c, user).None?
    ensures Resolve(c, user).None? && user <= 0 ==> c.self
  {
    if Resolve(c, user).Some? {
      var x := Resolve(c, user).value;
      ResolveValid(c, user);
      ResolvedCovers(c, user, Sample(x));
      assert Inside(x, Sample(x));
      hide Covers;
    } else {
      forall o, whole: bool ensures !Covers(One(c), user, o, whole) {
        OneClause(c, user, o, whole);
        ResolveMeans(c, user, o);
      }
    }
  }

  /** An identifier that the first list admits and the second does not. */
  lemma Outside(a: seq<int>, b: seq<int>) returns (w: int)
    requires !Subset(a, b)
    ensures b != [] && w !in b && Admits(a, w)
    ensures w > 0 || w in a
  {
    if a == [] {
      w := Beyond(b);
    } else {
      var i :| 0 <= i < |a| && a[i] !in b;
      w := a[i];
    }
  }

  lemma {:induction false} Beyond(ids: seq<int>) returns (w: int)
    ensures w > 0 && forall id :: id in ids ==> id < w
  {
    if ids == [] {
      w := 1;
    } else {
      var n := |ids| - 1;
      var v := Beyond(ids[..n]);
      w := if v <= ids[n] then ids[n] + 1 else v;
      assert ids == ids[..n] + [ids[n]];
    }
  }

  lemma BelowExactly(c: Clause, cu: int, d: Clause, ku: int)
    requires ValidClause(c, EVERY_KIND) && ValidClause(d, EVERY_KIND) && Resolve(c, cu).Some?
    ensures Below(c, cu, d, ku) <==> Resolve(d, ku).Some? && Under(Resolve(c, cu).value, Resolve(d, ku).value)
  {
    ResolveValid(c, cu);
    if Below(c, cu, d, ku) {
      BelowResolves(c, cu, d, ku);
    }
    if Resolve(d, ku).Some? && Under(Resolve(c, cu).value, Resolve(d, ku).value) {
      ResolveValid(d, ku);
      forall o, whole: bool | Covers(One(c), cu, o, whole) ensures Covers(One(d), ku, o, whole) {
        UnderCovers(c, cu, d, ku, o, whole);
      }
    }
  }

  lemma UnderCovers(c: Clause, cu: int, d: Clause, ku: int, o: Facts, whole: bool)
    requires Resolve(c, cu).Some? && Resolve(d, ku).Some? && ValidClause(Resolve(d, ku).value, EVERY_KIND)
    requires Under(Resolve(c, cu).value, Resolve(d, ku).value) && Covers(One(c), cu, o, whole)
    ensures Covers(One(d), ku, o, whole)
  {
    OneClause(c, cu, o, whole);
    OneClause(d, ku, o, whole);
    ResolveMeans(c, cu, o);
    ResolveMeans(d, ku, o);
    var x, y := Resolve(c, cu).value, Resolve(d, ku).value;
    hide Covers, Resolve, Under, ValidClause, NonGroup;
    forall g ensures Admits(x.groups, g) ==> Admits(y.groups, g) { UnderMeansAt(x, y, cu, ku, o, g); }
    UnderMeansAt(x, y, cu, ku, o, 0);
  }

  /** An object inside c and outside d, if c is not under d. */
  lemma BelowResolves(c: Clause, cu: int, d: Clause, ku: int)
    requires ValidClause(c, EVERY_KIND) && ValidClause(d, EVERY_KIND) && Resolve(c, cu).Some? && ValidClause(Resolve(c, cu).value, EVERY_KIND)
    requires Below(c, cu, d, ku)
    ensures Resolve(d, ku).Some? && Under(Resolve(c, cu).value, Resolve(d, ku).value)
  {
    var x := Resolve(c, cu).value;
    var o := Sample(x);
    forall p: Facts | |p.groups| == 1 && Inside(x, p) ensures Resolve(d, ku).Some? && Inside(Resolve(d, ku).value, p) {
      ResolvedCovers(c, cu, p);
      ResolvedCovers(d, ku, p);
      assert Covers(One(c), cu, p, true);
    }
    assert Inside(x, o);
    var y := Resolve(d, ku).value;
    ResolveValid(d, ku);
    hide Below, Covers, Resolve;
    if !Under(x, y) { var p := Escapes(x, y); }
  }

  /** An object inside one clause and outside another. */
  lemma Escapes(x: Clause, y: Clause) returns (p: Facts)
    requires ValidClause(x, EVERY_KIND) && ValidClause(y, EVERY_KIND) && !y.self && !Under(x, y)
    ensures |p.groups| == 1 && Inside(x, p) && !Inside(y, p)
  {
    p := Sample(x);
    if !Subset(x.users, y.users) {
      var w := Outside(x.users, y.users);
      p := p.(owner := w);
    } else if !Subset(x.resources, y.resources) {
      var w := Outside(x.resources, y.resources);
      PositiveMeans(x.resources);
      p := p.(resource := w);
    } else {
      var w := Outside(x.groups, y.groups);
      p := p.(groups := [w]);
    }
  }
}
