/** What a decision rests on, read off the grants themselves. */
module DecisionLaws {
  import opened Text
  import opened Scopes
  import opened ScopeLaws
  import opened Decisions

  // ---- which grants count --------------------------------------------------------------------

  /** A grant for this operation in this context. */
  predicate Concerns(s: Source, context: Context, code: string) {
    s.context == context && s.operation == code
  }

  /** Its interval, closed at the start and open at the end, holds the moment. */
  predicate InForce(s: Source, now: int) {
    s.validity.start <= now && (s.validity.end.None? || now < s.validity.end.value)
  }

  /** An allow counts while it is active; a deny counts active or not. */
  predicate Counts(s: Source, context: Context, code: string, now: int) {
    Concerns(s, context, code) && InForce(s, now) && (s.effect.Deny? || (s.effect.Allow? && s.active))
  }

  /** A grant that makes no sense refuses the request, in force or not. */
  predicate Sensible(s: Source, op: Operation) {
    && s.validity.start != 0 && (s.validity.end.Some? ==> s.validity.start < s.validity.end.value)
    && Valid(s.roleScope, op.scopes) && Valid(s.boundary, op.scopes) && (s.effect.Allow? || s.effect.Deny?)
  }

  predicate AllSensible(sources: seq<Source>, context: Context, op: Operation) {
    forall k :: 0 <= k < |sources| && Concerns(sources[k], context, op.code) ==> Sensible(sources[k], op)
  }

  /** The grants that count, in order. */
  function Counting(sources: seq<Source>, context: Context, code: string, now: int): seq<Source> {
    if sources == [] then [] else
    var before, s := Counting(sources[..|sources| - 1], context, code, now), sources[|sources| - 1];
    if Counts(s, context, code, now) then before + [s] else before
  }

  lemma {:induction false} CountingMeans(sources: seq<Source>, context: Context, code: string, now: int)
    ensures forall s :: s in Counting(sources, context, code, now) <==> s in sources && Counts(s, context, code, now)
  {
    if sources != [] {
      var n := |sources| - 1;
      CountingMeans(sources[..n], context, code, now);
      assert sources == sources[..n] + [sources[n]];
      hide Counts;
    }
  }

  // ---- what they amount to -------------------------------------------------------------------

  /** The role scope and the boundary of one counting allow both reach the object, whatever its
      groups, or through group g. */
  ghost predicate AllowedWhole(used: seq<Source>, user: int, o: Facts) {
    exists s :: s in used && s.effect.Allow? && Unbounded([s.roleScope], user, o) && Unbounded([s.boundary], user, o)
  }

  ghost predicate AllowedThrough(used: seq<Source>, user: int, o: Facts, g: int) {
    exists s :: s in used && s.effect.Allow? && Reached(s.roleScope, user, o, g) && Reached(s.boundary, user, o, g)
  }

  ghost predicate DeniedBy(used: seq<Source>, user: int, o: Facts) {
    exists s :: s in used && s.effect.Deny? && Covers([s.roleScope], user, o, false)
  }

  /** The lists of allows and denies, against the grants they were collected from. */
  ghost predicate Collected(v: Survey, used: seq<Source>, user: int, o: Facts) {
    && AllValid(v.allows) && AllValid(v.denies) && v.sources == used
    && (Unbounded(v.allows, user, o) <==> AllowedWhole(used, user, o))
    && (forall g :: Unbounded(v.allows, user, o) || Through(v.allows, user, o, g) <==>
                      AllowedWhole(used, user, o) || AllowedThrough(used, user, o, g))
    && (Covers(v.denies, user, o, false) <==> DeniedBy(used, user, o))
  }

  lemma InOneMoreScope(scopes: seq<Scope>, s: Scope)
    ensures forall c :: InAny(scopes + [s], c) <==> InAny(scopes, c) || InAny([s], c)
  {
    var now := scopes + [s];
    forall c ensures InAny(now, c) <==> InAny(scopes, c) || InAny([s], c) {
      if i :| 0 <= i < |scopes| && c in scopes[i].Clauses() { assert c in now[i].Clauses(); }
      if c in s.Clauses() { assert c in now[|scopes|].Clauses() && c in [s][0].Clauses(); }
    }
  }

  lemma ReachOneMore(scopes: seq<Scope>, s: Scope, user: int, o: Facts)
    ensures Unbounded(scopes + [s], user, o) <==> Unbounded(scopes, user, o) || Unbounded([s], user, o)
    ensures forall g :: Through(scopes + [s], user, o, g) <==> Through(scopes, user, o, g) || Through([s], user, o, g)
    ensures Covers(scopes + [s], user, o, false) <==> Covers(scopes, user, o, false) || Covers([s], user, o, false)
    ensures AllValid(scopes + [s]) <==> AllValid(scopes) && Valid(s, EVERY_KIND)
  {
    InOneMoreScope(scopes, s);
    assert forall i :: 0 <= i < |scopes| ==> (scopes + [s])[i] == scopes[i];
    assert (scopes + [s])[|scopes|] == s;
    hide InAny, NonGroup, Valid;
    forall g ensures Through(scopes + [s], user, o, g) <==> Through(scopes, user, o, g) || Through([s], user, o, g) { }
    hide Through, Unbounded;
  }

  lemma ValidEverywhere(s: Scope, supported: seq<Kind>)
    requires Valid(s, supported)
    ensures Valid(s, EVERY_KIND)
  {
    EveryKind();
  }

  lemma NothingCollected(user: int, o: Facts, until: int)
    ensures Collected(Survey(true, [], [], until, []), [], user, o)
  {
  }

  lemma AllowTaken(v: Survey, used: seq<Source>, s: Source, user: int, o: Facts)
    requires Collected(v, used, user, o) && s.effect.Allow? && Valid(s.roleScope, EVERY_KIND) && Valid(s.boundary, EVERY_KIND)
    ensures Collected(v.(allows := v.allows + [Intersection(s.roleScope, s.boundary)], sources := v.sources + [s]), used + [s], user, o)
  {
    var m := Intersection(s.roleScope, s.boundary);
    ReachOneMore(v.allows, m, user, o);
    IntersectionValid(s.roleScope, s.boundary, EVERY_KIND);
    IntersectionUnbounded(s.roleScope, s.boundary, user, o);
    OneScope(m, user, o);
    forall g ensures Reached(m, user, o, g) <==> Reached(s.roleScope, user, o, g) && Reached(s.boundary, user, o, g) {
      IntersectionReached(s.roleScope, s.boundary, user, o, g);
    }
    UsedOneMore(used, s, user, o);
    OneScope(s.roleScope, user, o);
    OneScope(s.boundary, user, o);
    hide Covers, Unbounded, Through, Reached, Intersection, Valid, AllValid, AllowedWhole, AllowedThrough, DeniedBy;
  }

  lemma DenyTaken(v: Survey, used: seq<Source>, s: Source, user: int, o: Facts)
    requires Collected(v, used, user, o) && s.effect.Deny? && Valid(s.roleScope, EVERY_KIND)
    ensures Collected(v.(denies := v.denies + [s.roleScope], sources := v.sources + [s]), used + [s], user, o)
  {
    ReachOneMore(v.denies, s.roleScope, user, o);
    UsedOneMore(used, s, user, o);
    hide Covers, Unbounded, Through, Reached, Valid, AllValid, AllowedWhole, AllowedThrough, DeniedBy;
  }

  lemma UsedOneMore(used: seq<Source>, s: Source, user: int, o: Facts)
    ensures var now := used + [s];
            && (AllowedWhole(now, user, o) <==>
                  || AllowedWhole(used, user, o)
                  || (s.effect.Allow? && Unbounded([s.roleScope], user, o) && Unbounded([s.boundary], user, o)))
            && (forall g :: AllowedThrough(now, user, o, g) <==>
                  || AllowedThrough(used, user, o, g)
                  || (s.effect.Allow? && Reached(s.roleScope, user, o, g) && Reached(s.boundary, user, o, g)))
            && (DeniedBy(now, user, o) <==> DeniedBy(used, user, o) || (s.effect.Deny? && Covers([s.roleScope], user, o, false)))
  {
    hide Covers, Unbounded, Reached;
    var now := used + [s];
    forall x ensures x in now <==> x in used || x == s { }
  }

  /** The survey of the grants fails exactly when one that concerns the operation makes no sense;
      otherwise it holds exactly the grants that count, and what they amount to. */
  lemma {:induction false} SurveyMeans(sources: seq<Source>, context: Context, op: Operation, now: int, expires: int, user: int, o: Facts)
    ensures var v := SurveyAll(sources, context, op, now, expires);
            && (v.ok <==> AllSensible(sources, context, op))
            && (v.ok ==> Collected(v, Counting(sources, context, op.code, now), user, o))
  {
    hide Collected, Valid, Intersection;
    if sources == [] {
      NothingCollected(user, o, expires);
    } else {
      var n, s := |sources| - 1, sources[|sources| - 1];
      SurveyMeans(sources[..n], context, op, now, expires, user, o);
      var v := SurveyAll(sources[..n], context, op, now, expires);
      assert sources[..n] + [s] == sources;
      SensibleOneMore(sources[..n], s, context, op);
      if v.ok && Concerns(s, context, op.code) && Sensible(s, op) {
        ValidEverywhere(s.roleScope, op.scopes);
        ValidEverywhere(s.boundary, op.scopes);
        var w, used := v.(until := Horizon(s, now, v.until)), Counting(sources[..n], context, op.code, now);
        LaterUntil(v, w.until, used, user, o);
        if s.effect.Deny? { DenyTaken(w, used, s, user, o); } else { AllowTaken(w, used, s, user, o); }
        hide Horizon;
      }
    }
  }

  // ---- clause by clause ------------------------------------------------------------------------

  /** The clause is what a role clause and a boundary clause of a counting allow have in common. */
  ghost predicate AllowClause(used: seq<Source>, c: Clause) {
    exists s :: s in used && s.effect.Allow? && c in Intersection(s.roleScope, s.boundary).Clauses()
  }

  /** The clause is a role clause of a counting deny, whatever its boundary. */
  ghost predicate DenyClause(used: seq<Source>, c: Clause) {
    exists s :: s in used && s.effect.Deny? && c in s.roleScope.Clauses()
  }

  lemma InOneScope(s: Scope, c: Clause)
    ensures InAny([s], c) <==> c in s.Clauses()
  {
    assert [s][0] == s;
  }

  lemma ClausesOneMore(used: seq<Source>, s: Source, c: Clause)
    ensures AllowClause(used + [s], c) <==> AllowClause(used, c) || (s.effect.Allow? && c in Intersection(s.roleScope, s.boundary).Clauses())
    ensures DenyClause(used + [s], c) <==> DenyClause(used, c) || (s.effect.Deny? && c in s.roleScope.Clauses())
  {
    hide Intersection;
    var now := used + [s];
    forall x ensures x in now <==> x in used || x == s { }
  }

  /** The clauses collected for allowing and for denying. */
  lemma {:induction false} ClausesMean(sources: seq<Source>, context: Context, op: Operation, now: int, expires: int, c: Clause)
    ensures var v, used := SurveyAll(sources, context, op, now, expires), Counting(sources, context, op.code, now);
            v.ok ==> (InAny(v.allows, c) <==> AllowClause(used, c)) && (InAny(v.denies, c) <==> DenyClause(used, c))
  {
    hide AllowClause, DenyClause, InAny, Intersection, Valid, Horizon;
    if sources == [] {
      NoClauses(c);
    } else {
      var n, s := |sources| - 1, sources[|sources| - 1];
      ClausesMean(sources[..n], context, op, now, expires, c);
      var v, used := SurveyAll(sources[..n], context, op, now, expires), Counting(sources[..n], context, op.code, now);
      ClausesOneMore(used, s, c);
      InOneMoreScope(v.allows, Intersection(s.roleScope, s.boundary));
      InOneMoreScope(v.denies, s.roleScope);
      InOneScope(Intersection(s.roleScope, s.boundary), c);
      InOneScope(s.roleScope, c);
    }
  }

  lemma NoClauses(c: Clause)
    ensures !InAny([], c) && !AllowClause([], c) && !DenyClause([], c)
  {
  }

  /** What two clauses have in common holds of an object exactly where both hold, whatever the
      groups or through one of them; it is missing only where they never hold together. */
  lemma CommonClause(x: Clause, y: Clause, user: int, o: Facts)
    requires ValidClause(x, EVERY_KIND) && ValidClause(y, EVERY_KIND) && |o.groups| <= 1
    ensures Covers(One(x), user, o, false) && Covers(One(y), user, o, false) <==>
              Meet(x, y).Some? && Covers(One(Meet(x, y).value), user, o, false)
  {
    hide Meet, NonGroup;
    OneClause(x, user, o, false);
    OneClause(y, user, o, false);
    if Meet(x, y).Some? { OneClause(Meet(x, y).value, user, o, false); }
    var g := if o.groups == [] then 0 else o.groups[0];
    MeetMeans(x, y, user, o, g);
    hide Covers;
  }

  lemma LaterUntil(v: Survey, until: int, used: seq<Source>, user: int, o: Facts)
    requires Collected(v, used, user, o)
    ensures Collected(v.(until := until), used, user, o)
  {
    hide Covers, Unbounded, Through, AllValid, AllowedWhole, AllowedThrough, DeniedBy;
  }

  lemma SensibleOneMore(sources: seq<Source>, s: Source, context: Context, op: Operation)
    ensures AllSensible(sources + [s], context, op) <==>
            AllSensible(sources, context, op) && (Concerns(s, context, op.code) ==> Sensible(s, op))
  {
    hide Sensible, Concerns;
    var now := sources + [s];
    assert forall k :: 0 <= k < |sources| ==> now[k] == sources[k];
    assert now[|sources|] == s;
  }

  // ---- what a request is allowed, and why not --------------------------------------------------

  /** Some counting allow covers the object with its role scope and with its boundary. */
  ghost predicate Granted(used: seq<Source>, user: int, o: Facts) {
    exists s :: s in used && s.effect.Allow? && Covers([s.roleScope], user, o, false) && Covers([s.boundary], user, o, false)
  }

  /** The object as it would be with one of its groups, or with none. */
  function InGroup(o: Facts, g: int): Facts {
    o.(groups := [g])
  }

  /** One grant for the object whatever its groups; or a grant for every one of its groups, when
      all are needed, and for one of them, when one is. */
  ghost predicate Permitted(used: seq<Source>, user: int, o: Facts, whole: bool) {
    || Granted(used, user, o.(groups := []))
    || (if whole then o.groups != [] && forall g :: g in o.groups ==> Granted(used, user, InGroup(o, g))
        else exists g :: g in o.groups && Granted(used, user, InGroup(o, g)))
  }

  lemma CoversInGroup(s: Scope, user: int, o: Facts)
    ensures Covers([s], user, o.(groups := []), false) <==> Unbounded([s], user, o)
    ensures forall g :: Covers([s], user, InGroup(o, g), false) <==> Reached(s, user, o, g)
  {
    OneScope(s, user, o);
    OtherGroups([s], user, o, o.(groups := []));
    forall g ensures Covers([s], user, InGroup(o, g), false) <==> Reached(s, user, o, g) {
      OtherGroups([s], user, o, InGroup(o, g));
      assert InGroup(o, g).groups[0] == g;
      hide Unbounded, Through, Reached;
    }
  }

  lemma OtherGroups(scopes: seq<Scope>, user: int, o: Facts, p: Facts)
    requires p == o.(groups := p.groups)
    ensures Unbounded(scopes, user, p) <==> Unbounded(scopes, user, o)
    ensures forall g :: Through(scopes, user, p, g) <==> Through(scopes, user, o, g)
  {
    assert forall c :: NonGroup(c, user, p) <==> NonGroup(c, user, o);
    hide NonGroup, InAny;
  }

  lemma GrantedMeans(used: seq<Source>, user: int, o: Facts)
    ensures Granted(used, user, o.(groups := [])) <==> AllowedWhole(used, user, o)
    ensures forall g :: Granted(used, user, InGroup(o, g)) <==> AllowedThrough(used, user, o, g)
  {
    forall s ensures Covers([s], user, o.(groups := []), false) <==> Unbounded([s], user, o)
             ensures forall g :: Covers([s], user, InGroup(o, g), false) <==> Reached(s, user, o, g)
    {
      CoversInGroup(s, user, o);
    }
    hide Covers, Unbounded, Reached, InGroup;
  }

  lemma CollectedPermits(v: Survey, used: seq<Source>, user: int, o: Facts, whole: bool)
    requires Collected(v, used, user, o)
    ensures Allows(v.allows, user, o, whole) <==> Permitted(used, user, o, whole)
    ensures Denies(v.denies, user, o) <==> DeniedBy(used, user, o)
  {
    GrantedMeans(used, user, o);
    hide Unbounded, Through, AllowedWhole, AllowedThrough, Granted, DeniedBy, InGroup;
    assert forall i :: 0 <= i < |o.groups| ==> o.groups[i] in o.groups;
    assert Allows(v.allows, user, o, whole) <==> Covers(v.allows, user, o, whole);
  }

  /** For an object with at most one group a single grant decides. */
  lemma OneGroupPermits(used: seq<Source>, user: int, o: Facts, whole: bool)
    requires |o.groups| <= 1
    ensures Permitted(used, user, o, whole) <==> Granted(used, user, o)
  {
    if o.groups == [] {
      assert o.(groups := []) == o;
    } else {
      assert InGroup(o, o.groups[0]) == o;
      assert forall g :: g in o.groups <==> g == o.groups[0];
      if Granted(used, user, o.(groups := [])) {
        var s :| s in used && s.effect.Allow? && Covers([s.roleScope], user, o.(groups := []), false)
                 && Covers([s.boundary], user, o.(groups := []), false);
        CoversInGroup(s.roleScope, user, o);
        CoversInGroup(s.boundary, user, o);
        OneScope(s.roleScope, user, o);
        OneScope(s.boundary, user, o);
        assert Covers([s.roleScope], user, o, false) && Covers([s.boundary], user, o, false);
      }
      hide Covers;
    }
  }

  /** A condition of a request, and the reason given when it is the first to fail. */
  datatype Check = Check(reason: Reason, passes: bool)

  /** Everything a request is asked, in the order in which it is asked. */
  ghost function Checklist(catalog: map<string, Operation>, i: Input): seq<Check> {
    var op := Lookup(catalog, i.code, Operation("", [], [], false));
    var o, used := i.target.facts, Counting(i.sources, i.context, op.code, i.now);
    [Check(IdentityInvalid, i.identityValid && i.actor.user > 0 && i.actor.session != "" && i.now != 0 && i.now < i.actor.expires),
     Check(OperationUnbound, i.code in catalog && i.bound),
     Check(OperationDisabled, i.operationEnabled),
     Check(OrganizationDisabled, !OrganizationContext(i.context)),
     Check(ContextInvalid, i.context == Context("platform", 0, "platform")),
     Check(ContextInvalid, "platform" in op.contextTypes && i.target.context == i.context),
     Check(ScopeInvalid, o.resource >= 0 && o.owner >= 0 && forall g :: g in o.groups ==> g > 0),
     Check(SessionInvalid, i.sessionValid),
     Check(ConstraintViolation, i.constraintsPass),
     Check(ScopeInvalid, AllSensible(i.sources, i.context, op)),
     Check(AllowMissing, Permitted(used, i.actor.user, o, op.wholeObject)),
     Check(DenyMatched, !DeniedBy(used, i.actor.user, o)),
     Check(BusinessRuleViolation, i.businessRulesPass)]
  }

  /** The reason of the first check that fails; `Allowed` when none does. */
  function FirstFailing(checks: seq<Check>, k: nat): Reason
    requires k <= |checks|
    decreases |checks| - k
  {
    if k == |checks| then Allowed else if checks[k].passes then FirstFailing(checks, k + 1) else checks[k].reason
  }

  lemma FirstAt(checks: seq<Check>, k: nat, n: nat)
    requires k <= n <= |checks| && (forall j :: k <= j < n ==> checks[j].passes)
    ensures FirstFailing(checks, k) == if n == |checks| then Allowed else if checks[n].passes then FirstFailing(checks, n + 1) else checks[n].reason
    decreases n - k
  {
    if k < n { FirstAt(checks, k + 1, n); }
  }

  lemma PlatformIsNoOrganization(c: Context)
    ensures c == PLATFORM ==> !OrganizationContext(c)
  {
    OrganizationKey(c);
  }

  lemma GroupsPositive(o: Facts)
    ensures Positive(o.groups) <==> forall g :: g in o.groups ==> g > 0
  {
    PositiveMeans(o.groups);
  }

  /** The decision is the first condition of the list that fails, or else it allows; once the
      grants have been looked at, it names those that count. */
  lemma DecideMeans(catalog: map<string, Operation>, i: Input)
    ensures var d := Decided(catalog, i);
            && d.reason == FirstFailing(Checklist(catalog, i), 0) && (d.allowed <==> d.reason == Allowed)
            && (d.validUntil.Some? ==> d.sources == Counting(i.sources, i.context, catalog[i.code].code, i.now))
  {
    var op := Lookup(catalog, i.code, Operation("", [], [], false));
    var o, used := i.target.facts, Counting(i.sources, i.context, op.code, i.now);
    var v := SurveyAll(i.sources, i.context, op, i.now, i.actor.expires);
    SurveyMeans(i.sources, i.context, op, i.now, i.actor.expires, i.actor.user, o);
    if v.ok { CollectedPermits(v, used, i.actor.user, o, op.wholeObject); }
    assert v.ok ==> v.sources == used;
    hide SurveyAll, Collected, Counting, AllSensible, Permitted, DeniedBy, Allows, Denies, OrganizationContext, Positive, FirstFailing, Gate;
    var checks, d := Checklist(catalog, i), Decided(catalog, i);
    var gate := if i.code in catalog && Gate(catalog, i).None? then 9 else 0;
    GatesFirst(catalog, i);
    if gate == 9 {
      var n := if !v.ok then 9 else if !checks[10].passes then 10 else if !checks[11].passes then 11 else if !checks[12].passes then 12 else 13;
      FirstAt(checks, 0, n);
    }
  }

  /** The gates are the first nine checks. */
  lemma GatesFirst(catalog: map<string, Operation>, i: Input)
    ensures var checks, gate := Checklist(catalog, i), Gate(catalog, i);
            && (gate.Some? ==> FirstFailing(checks, 0) == gate.value != Allowed)
            && (gate.None? ==> i.code in catalog && forall k :: 0 <= k < 9 ==> checks[k].passes)
  {
    var checks := Checklist(catalog, i);
    PlatformIsNoOrganization(i.context);
    GroupsPositive(i.target.facts);
    hide AllSensible, Permitted, DeniedBy, Counting, OrganizationContext, Positive, FirstFailing;
    var n := if !checks[0].passes then 0 else if !checks[1].passes then 1 else if !checks[2].passes then 2
             else if !checks[3].passes then 3 else if !checks[4].passes then 4 else if !checks[5].passes then 5
             else if !checks[6].passes then 6 else if !checks[7].passes then 7 else if !checks[8].passes then 8 else 9;
    FirstAt(checks, 0, n);
  }

  /** A query scope matches exactly the platform objects that the grants permit and none denies. */
  lemma QueryMeans(actor: Actor, op: Operation, sources: seq<Source>, now: int, o: Object, whole: bool)
    ensures var q, used := Queried(actor, op, sources, now), Counting(sources, PLATFORM, op.code, now);
            && (q.Some? <==> actor.user > 0 && now != 0 && now < actor.expires && AllSensible(sources, PLATFORM, op))
            && (q.Some? ==>
                  (QueryMatches(q.value, o, whole) <==>
                   && o.facts.resource >= 0 && o.facts.owner >= 0 && (forall g :: g in o.facts.groups ==> g > 0)
                   && o.context == Context("platform", 0, "platform")
                   && Permitted(used, actor.user, o.facts, whole) && !DeniedBy(used, actor.user, o.facts)))
  {
    var used, v := Counting(sources, PLATFORM, op.code, now), SurveyAll(sources, PLATFORM, op, now, actor.expires);
    SurveyMeans(sources, PLATFORM, op, now, actor.expires, actor.user, o.facts);
    if v.ok { CollectedPermits(v, used, actor.user, o.facts, whole); }
    GroupsPositive(o.facts);
    hide SurveyAll, Collected, Counting, AllSensible, Permitted, DeniedBy, Allows, Denies, Positive;
  }
}
