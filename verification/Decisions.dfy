/** Point decisions and query scopes: two readings of the same grants, and how long they hold. */
module Decisions {
  import opened Text
  import opened Scopes

  /** Times are integers; `ZERO` is the time that was never set. */
  const ZERO: int := 0

  datatype Context = Context(kind: string, organization: int, key: string)

  const PLATFORM := Context("platform", 0, "platform")

  function Decimal(n: nat): string {
    if n < 10 then ["0123456789"[n]] else Decimal(n / 10) + ["0123456789"[n % 10]]
  }

  predicate OrganizationContext(c: Context) {
    c.kind == "organization" && c.organization > 0 && c.key == "organization:" + Decimal(c.organization)
  }

  /** The canonical contexts. */
  predicate Canonical(c: Context) {
    c == PLATFORM || OrganizationContext(c)
  }

  lemma DecimalStep(n: nat)
    ensures |Decimal(n)| >= 1 && (n >= 10 ==> |Decimal(n)| >= 2)
    ensures Decimal(n)[|Decimal(n)| - 1] == "0123456789"[n % 10]
    ensures n >= 10 ==> Decimal(n)[..|Decimal(n)| - 1] == Decimal(n / 10)
    ensures n < 10 ==> |Decimal(n)| == 1
  {
    if n >= 10 {
      DecimalStep(n / 10);
      assert Decimal(n)[..|Decimal(n)| - 1] == Decimal(n / 10);
    }
  }

  lemma {:induction false} DecimalInjective(n: nat, m: nat)
    requires Decimal(n) == Decimal(m)
    ensures n == m
    decreases n + m
  {
    DecimalStep(n);
    DecimalStep(m);
    assert forall i, j :: 0 <= i < j < 10 ==> "0123456789"[i] != "0123456789"[j];
    hide Decimal;
    if n >= 10 && m >= 10 { DecimalInjective(n / 10, m / 10); }
  }

  lemma OrganizationKey(c: Context)
    ensures OrganizationContext(c) ==> c.key != PLATFORM.key
  {
    hide Decimal;
    assert OrganizationContext(c) ==> c.key[0] == 'o';
    assert PLATFORM.key[0] == 'p';
  }

  /** The key alone tells canonical contexts apart: no organization can pass for another, or for
      the platform. */
  lemma KeyDetermines(a: Context, b: Context)
    requires Canonical(a) && Canonical(b) && a.key == b.key
    ensures a == b
  {
    hide Decimal;
    if OrganizationContext(a) && OrganizationContext(b) {
      var p := |"organization:"|;
      assert a.key[p..] == Decimal(a.organization) && b.key[p..] == Decimal(b.organization);
      DecimalInjective(a.organization, b.organization);
    } else {
      OrganizationKey(a);
      OrganizationKey(b);
    }
  }

  datatype Interval = Interval(start: int, end: Option<int>) {
    predicate Valid() {
      start != ZERO && (end.Some? ==> start < end.value)
    }
    predicate Contains(now: int) {
      Valid() && start <= now && (end.Some? ==> now < end.value)
    }
  }

  datatype Effect = Allow | Deny | OtherEffect

  datatype Actor = Actor(user: int, session: string, expires: int)

  datatype Source = Source(context: Context, operation: string, effect: Effect, assignment: int, roleScope: Scope,
                           boundary: Scope, validity: Interval, active: bool)

  datatype Operation = Operation(code: string, scopes: seq<Kind>, contextTypes: seq<string>, wholeObject: bool)

  datatype Object = Object(context: Context, facts: Facts)

  datatype Reason =
    | IdentityInvalid | OperationUnbound | OperationDisabled | ContextInvalid | OrganizationDisabled | ScopeInvalid
    | SessionInvalid | ConstraintViolation | AllowMissing | DenyMatched | BusinessRuleViolation | Allowed

  datatype Decision = Decision(allowed: bool, reason: Reason, validUntil: Option<int>, sources: seq<Source>)

  /** Verified facts about one request; `bound` says that the operation's execution point is
      bound, `catalog` is the fixed table of operations. */
  datatype Input = Input(actor: Actor, context: Context, code: string, bound: bool, target: Object, sources: seq<Source>,
                         now: int, identityValid: bool, sessionValid: bool, constraintsPass: bool,
                         businessRulesPass: bool, operationEnabled: bool)

  // ---- surveying the grants ----------------------------------------------------------------

  predicate Relevant(s: Source, context: Context, op: Operation) {
    s.context == context && s.operation == op.code
  }

  predicate WellFormed(s: Source, op: Operation) {
    s.validity.Valid() && Valid(s.roleScope, op.scopes) && Valid(s.boundary, op.scopes) && !s.effect.OtherEffect?
  }

  /** What the grants amount to at one moment. */
  datatype Survey = Survey(ok: bool, allows: seq<Scope>, denies: seq<Scope>, until: int, sources: seq<Source>)

  function Min(a: int, b: int): int {
    if b < a then b else a
  }

  /** The next moment at which this grant begins or ceases to count. */
  function Horizon(s: Source, now: int, until: int): int {
    if now < s.validity.start then Min(until, s.validity.start)
    else if s.validity.Contains(now) && s.validity.end.Some? then Min(until, s.validity.end.value)
    else until
  }

  function Take(v: Survey, s: Source, context: Context, op: Operation, now: int): Survey {
    if !v.ok || !Relevant(s, context, op) then v
    else if !WellFormed(s, op) then v.(ok := false)
    else
      var w := v.(until := Horizon(s, now, v.until));
      if !s.validity.Contains(now) then w
      else if s.effect.Deny? then w.(denies := w.denies + [s.roleScope], sources := w.sources + [s])
      else if s.active then w.(allows := w.allows + [Intersection(s.roleScope, s.boundary)], sources := w.sources + [s])
      else w
  }

  function SurveyAll(sources: seq<Source>, context: Context, op: Operation, now: int, expires: int): Survey {
    if sources == [] then Survey(true, [], [], expires, [])
    else Take(SurveyAll(sources[..|sources| - 1], context, op, now, expires), sources[|sources| - 1], context, op, now)
  }

  lemma SurveyNext(sources: seq<Source>, context: Context, op: Operation, now: int, expires: int, i: nat)
    requires i < |sources|
    ensures SurveyAll(sources[..i + 1], context, op, now, expires) ==
            Take(SurveyAll(sources[..i], context, op, now, expires), sources[i], context, op, now)
  {
    assert sources[..i + 1][..i] == sources[..i];
  }

  lemma {:induction false} SurveyFails(sources: seq<Source>, context: Context, op: Operation, now: int, expires: int, i: nat)
    requires i <= |sources| && !SurveyAll(sources[..i], context, op, now, expires).ok
    ensures SurveyAll(sources, context, op, now, expires) == SurveyAll(sources[..i], context, op, now, expires)
    decreases |sources| - i
  {
    if i == |sources| {
      assert sources[..i] == sources;
    } else {
      SurveyNext(sources, context, op, now, expires, i);
      SurveyFails(sources, context, op, now, expires, i + 1);
    }
  }

  // ---- the decision ------------------------------------------------------------------------

  predicate ObjectValid(o: Object) {
    o.facts.resource >= 0 && o.facts.owner >= 0 && Positive(o.facts.groups)
  }

  function Refused(reason: Reason): Decision {
    Decision(false, reason, None, [])
  }

  /** The gates before the grants are looked at; none when all pass. */
  function Gate(catalog: map<string, Operation>, i: Input): Option<Reason> {
    if !i.identityValid || i.actor.user <= 0 || i.actor.session == "" || i.now == ZERO || i.now >= i.actor.expires then Some(IdentityInvalid)
    else if i.code !in catalog || !i.bound then Some(OperationUnbound)
    else if !i.operationEnabled then Some(OperationDisabled)
    else if i.context != PLATFORM then
      Some(if OrganizationContext(i.context) then OrganizationDisabled else ContextInvalid)
    else if i.context.kind !in catalog[i.code].contextTypes || i.target.context != i.context then Some(ContextInvalid)
    else if !ObjectValid(i.target) then Some(ScopeInvalid)
    else if !i.sessionValid then Some(SessionInvalid)
    else if !i.constraintsPass then Some(ConstraintViolation)
    else None
  }

  ghost function Verdict(i: Input, op: Operation, v: Survey): Reason {
    if !Allows(v.allows, i.actor.user, i.target.facts, op.wholeObject) then AllowMissing
    else if Denies(v.denies, i.actor.user, i.target.facts) then DenyMatched
    else if !i.businessRulesPass then BusinessRuleViolation
    else Allowed
  }

  ghost function Decided(catalog: map<string, Operation>, i: Input): Decision {
    var gate := Gate(catalog, i);
    if gate.Some? then Refused(gate.value) else
    var op := catalog[i.code];
    var v := SurveyAll(i.sources, i.context, op, i.now, i.actor.expires);
    if !v.ok then Refused(ScopeInvalid).(sources := v.sources) else
    Decision(Verdict(i, op, v).Allowed?, Verdict(i, op, v), Some(v.until), v.sources)
  }

  method SourceWellFormed(s: Source, op: Operation) returns (ok: bool)
    ensures ok == WellFormed(s, op)
  {
    if !s.validity.Valid() { return false; }
    ok := Validate(s.roleScope, op.scopes);
    if !ok { return; }
    ok := Validate(s.boundary, op.scopes);
    ok := ok && !s.effect.OtherEffect?;
  }

  method RequirePlatform(c: Context) returns (failure: Option<Reason>)
    ensures failure == if c == PLATFORM then None else Some(if OrganizationContext(c) then OrganizationDisabled else ContextInvalid)
  {
    if c == PLATFORM { return None; }
    if c.kind == "organization" && c.organization > 0 && c.key == "organization:" + Decimal(c.organization) {
      return Some(OrganizationDisabled);
    }
    return Some(ContextInvalid);
  }

  method CheckGates(catalog: map<string, Operation>, i: Input) returns (reason: Option<Reason>)
    ensures reason == Gate(catalog, i)
  {
    if !i.identityValid || i.actor.user <= 0 || i.actor.session == "" || i.now == ZERO || !(i.now < i.actor.expires) {
      return Some(IdentityInvalid);
    }
    if i.code !in catalog || !i.bound { return Some(OperationUnbound); }
    if !i.operationEnabled { return Some(OperationDisabled); }
    reason := RequirePlatform(i.context);
    if reason.Some? { return; }
    if i.context.kind !in catalog[i.code].contextTypes { return Some(ContextInvalid); }
    if i.target.context != i.context { return Some(ContextInvalid); }
    if i.target.facts.resource < 0 || i.target.facts.owner < 0 { return Some(ScopeInvalid); }
    var positive := AllPositive(i.target.facts.groups);
    if !positive { return Some(ScopeInvalid); }
    if !i.sessionValid { return Some(SessionInvalid); }
    if !i.constraintsPass { return Some(ConstraintViolation); }
  }

  method Decide(catalog: map<string, Operation>, i: Input) returns (d: Decision)
    ensures d == Decided(catalog, i)
  {
    var gate := CheckGates(catalog, i);
    if gate.Some? { return Refused(gate.value); }
    var op := catalog[i.code];
    var allows: seq<Scope>, denies: seq<Scope>, until := [], [], i.actor.expires;
    d := Refused(ConstraintViolation);
    assert SurveyAll(i.sources[..0], i.context, op, i.now, i.actor.expires) == Survey(true, [], [], i.actor.expires, []);
    hide SurveyAll, Valid, Allows, Denies, Gate;
    for n := 0 to |i.sources|
      invariant !d.allowed && d.validUntil == None
      invariant SurveyAll(i.sources[..n], i.context, op, i.now, i.actor.expires) == Survey(true, allows, denies, until, d.sources)
    {
      SurveyNext(i.sources, i.context, op, i.now, i.actor.expires, n);
      var s := i.sources[n];
      if s.context != i.context || s.operation != op.code { continue; }
      d := d.(reason := ScopeInvalid);
      var ok := SourceWellFormed(s, op);
      if !ok {
        SurveyFails(i.sources, i.context, op, i.now, i.actor.expires, n + 1);
        return;
      }
      if i.now < s.validity.start && s.validity.start < until {
        until := s.validity.start;
      }
      if !s.validity.Contains(i.now) { continue; }
      if s.validity.end.Some? && s.validity.end.value < until {
        until := s.validity.end.value;
      }
      if s.effect == Deny {
        denies := denies + [s.roleScope];
        d := d.(sources := d.sources + [s]);
      } else if s.active {
        var scope := Intersect(s.roleScope, s.boundary);
        allows := allows + [scope];
        d := d.(sources := d.sources + [s]);
      }
    }
    assert i.sources[..|i.sources|] == i.sources;
    d := d.(validUntil := Some(until), reason := AllowMissing);
    var covered := AllowCovers(allows, i.actor.user, i.target.facts, op.wholeObject);
    if !covered { return; }
    d := d.(reason := DenyMatched);
    var denied := DenyMatches(denies, i.actor.user, i.target.facts);
    if denied { return; }
    d := d.(reason := BusinessRuleViolation);
    if !i.businessRulesPass { return; }
    d := d.(allowed := true, reason := Allowed);
  }

  // ---- how long a decision holds ------------------------------------------------------------

  lemma TakeStable(v: Survey, s: Source, context: Context, op: Operation, now: int, t: int)
    requires now <= t < Take(v, s, context, op, now).until
    ensures Take(v, s, context, op, t) == Take(v, s, context, op, now)
    ensures Take(v, s, context, op, now).until <= v.until
  {
    hide Valid, Intersection;
  }

  lemma {:induction false} SurveyStable(sources: seq<Source>, context: Context, op: Operation, now: int, t: int, expires: int)
    requires now <= t < SurveyAll(sources, context, op, now, expires).until
    ensures SurveyAll(sources, context, op, t, expires) == SurveyAll(sources, context, op, now, expires)
    ensures SurveyAll(sources, context, op, now, expires).until <= expires
  {
    hide Take;
    if sources != [] {
      var n := |sources| - 1;
      TakeStable(SurveyAll(sources[..n], context, op, now, expires), sources[n], context, op, now, t);
      SurveyStable(sources[..n], context, op, now, t, expires);
    }
  }

  /** A decision may be reused until it expires: at every later moment before `validUntil` the
      same facts give the very same decision, with the one exception of a moment that is no
      time at all. */
  lemma DecisionStable(catalog: map<string, Operation>, i: Input, t: int)
    requires var d := Decided(catalog, i); d.validUntil.Some? && i.now <= t < d.validUntil.value
    ensures Decided(catalog, i.(now := t)) == Decided(catalog, i) <==> t != ZERO
  {
    hide SurveyAll, Allows, Denies, ObjectValid, OrganizationContext;
    var op := catalog[i.code];
    SurveyStable(i.sources, i.context, op, i.now, t, i.actor.expires);
  }

  /** From a set clock on there is no exception. */
  lemma DecisionStableOnClock(catalog: map<string, Operation>, i: Input, t: int)
    requires var d := Decided(catalog, i); d.validUntil.Some? && ZERO < i.now <= t < d.validUntil.value
    ensures Decided(catalog, i.(now := t)) == Decided(catalog, i)
  {
    hide Decided;
    DecisionStable(catalog, i, t);
  }

  /** Before it there is one: a decision made at -1, valid until 10, is refused at the zero time. */
  lemma ZeroTimeRefuses()
    ensures var catalog := map["op" := Operation("op", [], ["platform"], false)];
            var i := Input(Actor(1, "s", 10), PLATFORM, "op", true, Object(PLATFORM, Facts(0, 0, [])), [], -1,
                           true, true, true, true, true);
            Decided(catalog, i).validUntil == Some(10) && Decided(catalog, i.(now := ZERO)).reason == IdentityInvalid
  {
    assert "platform" in ["platform"];
    hide Allows, Denies, OrganizationContext;
  }

  /** Why an expiry is where it is: a moment bounds the decision when a grant of the operation
      starts then, in the future, or ceases then, having counted now. */
  predicate Turns(s: Source, context: Context, op: Operation, now: int, t: int) {
    s.context == context && s.operation == op.code &&
    ((now < s.validity.start && s.validity.start == t) || (s.validity.start <= now < t && s.validity.end == Some(t)))
  }

  /** The expiry is the first such moment, or the end of the actor's session. */
  lemma {:induction false} ExpiryIsFirstTurn(sources: seq<Source>, context: Context, op: Operation, now: int, expires: int)
    requires SurveyAll(sources, context, op, now, expires).ok
    ensures var u := SurveyAll(sources, context, op, now, expires).until;
            && u <= expires
            && (forall k, t :: 0 <= k < |sources| && Turns(sources[k], context, op, now, t) ==> u <= t)
            && (u == expires || exists k :: 0 <= k < |sources| && Turns(sources[k], context, op, now, u))
  {
    if sources != [] {
      var n := |sources| - 1;
      var before := sources[..n];
      ExpiryIsFirstTurn(before, context, op, now, expires);
      var u := SurveyAll(sources, context, op, now, expires).until;
      forall k, t | 0 <= k < |sources| && Turns(sources[k], context, op, now, t) ensures u <= t {
        if k < n { assert Turns(before[k], context, op, now, t); }
      }
      if u == SurveyAll(before, context, op, now, expires).until {
        if k :| 0 <= k < n && Turns(before[k], context, op, now, u) { assert Turns(sources[k], context, op, now, u); }
      } else {
        assert Turns(sources[n], context, op, now, u);
      }
    }
  }

  // ---- query scopes ---------------------------------------------------------------------------

  datatype QueryScope = QueryScope(actor: int, allow: seq<Scope>, deny: seq<Scope>, until: int)

  function Queried(actor: Actor, op: Operation, sources: seq<Source>, now: int): Option<QueryScope> {
    if actor.user <= 0 || now == ZERO || now >= actor.expires then None else
    var v := SurveyAll(sources, PLATFORM, op, now, actor.expires);
    if !v.ok then None else Some(QueryScope(actor.user, v.allows, v.denies, v.until))
  }

  ghost predicate QueryMatches(q: QueryScope, o: Object, whole: bool) {
    && ObjectValid(o) && o.context == PLATFORM && q.actor > 0
    && Allows(q.allow, q.actor, o.facts, whole) && !Denies(q.deny, q.actor, o.facts)
  }

  ghost predicate IsGlobal(q: QueryScope) {
    q.deny == [] && Allows(q.allow, q.actor, Facts(0, 0, []), false)
  }

  method QueryFromSources(actor: Actor, op: Operation, sources: seq<Source>, now: int) returns (q: Option<QueryScope>)
    ensures q == Queried(actor, op, sources, now)
  {
    if actor.user <= 0 || now == ZERO || !(now < actor.expires) { return None; }
    var allow: seq<Scope>, deny: seq<Scope>, until := [], [], actor.expires;
    ghost var used: seq<Source> := [];
    assert SurveyAll(sources[..0], PLATFORM, op, now, actor.expires) == Survey(true, [], [], actor.expires, []);
    hide SurveyAll, Valid;
    for n := 0 to |sources|
      invariant SurveyAll(sources[..n], PLATFORM, op, now, actor.expires) == Survey(true, allow, deny, until, used)
    {
      SurveyNext(sources, PLATFORM, op, now, actor.expires, n);
      var s := sources[n];
      if s.context != PLATFORM || s.operation != op.code { continue; }
      var ok := SourceWellFormed(s, op);
      if !ok {
        SurveyFails(sources, PLATFORM, op, now, actor.expires, n + 1);
        return None;
      }
      if now < s.validity.start && s.validity.start < until {
        until := s.validity.start;
      }
      if !s.validity.Contains(now) { continue; }
      if s.validity.end.Some? && s.validity.end.value < until {
        until := s.validity.end.value;
      }
      if s.effect == Deny {
        deny := deny + [s.roleScope];
        used := used + [s];
      } else if s.active {
        var scope := Intersect(s.roleScope, s.boundary);
        allow := allow + [scope];
        used := used + [s];
      }
    }
    assert sources[..|sources|] == sources;
    return Some(QueryScope(actor.user, allow, deny, until));
  }

  method Matches(q: QueryScope, o: Object, whole: bool) returns (ok: bool)
    ensures ok == QueryMatches(q, o, whole)
  {
    if o.facts.resource < 0 || o.facts.owner < 0 { return false; }
    ok := AllPositive(o.facts.groups);
    if !ok { return; }
    if o.context != PLATFORM || q.actor <= 0 { return false; }
    ok := AllowCovers(q.allow, q.actor, o.facts, whole);
    if !ok { return; }
    var denied := DenyMatches(q.deny, q.actor, o.facts);
    ok := !denied;
  }

  method Global(q: QueryScope) returns (ok: bool)
    ensures ok == IsGlobal(q)
  {
    if |q.deny| != 0 { return false; }
    ok := AllowCovers(q.allow, q.actor, Facts(0, 0, []), false);
  }

  /** Once every gate but those on the object passes, a point decision allows exactly the
      objects that the query scope matches, and both expire at the same moment. */
  lemma PointAndQueryAgree(catalog: map<string, Operation>, i: Input)
    requires i.identityValid && i.actor.user > 0 && i.actor.session != "" && i.now != ZERO && i.now < i.actor.expires
    requires i.code in catalog && i.bound && i.operationEnabled && i.context == PLATFORM
    requires PLATFORM.kind in catalog[i.code].contextTypes
    requires i.sessionValid && i.constraintsPass && i.businessRulesPass
    ensures var d, op := Decided(catalog, i), catalog[i.code];
            var q := Queried(i.actor, op, i.sources, i.now);
            && (d.allowed <==> q.Some? && QueryMatches(q.value, i.target, op.wholeObject))
            && (ObjectValid(i.target) && i.target.context == PLATFORM ==>
                  d.validUntil == if q.Some? then Some(q.value.until) else None)
  {
    hide SurveyAll, Allows, Denies, ObjectValid;
  }

  /** A global query scope matches every well-formed platform object, read or written. */
  lemma GlobalMatchesAll(q: QueryScope, o: Object, whole: bool)
    requires IsGlobal(q)
    ensures QueryMatches(q, o, whole) <==> q.actor > 0 && ObjectValid(o) && o.context == PLATFORM
  {
    var nowhere := Facts(0, 0, []);
    var c :| InAny(q.allow, c) && NonGroup(c, q.actor, nowhere) && c.groups == [];
    ValidByClause(q.allow);
    assert ValidClause(c, EVERY_KIND);
    if q.actor > 0 { NothingExcluded(c, q.actor, o.facts); }
    hide Valid;
    assert Covers(q.allow, q.actor, o.facts, whole) <== q.actor > 0;
    forall x ensures !InAny(q.deny, x) { }
  }

  lemma NothingExcluded(c: Clause, user: int, o: Facts)
    requires ValidClause(c, EVERY_KIND) && NonGroup(c, user, Facts(0, 0, []))
    ensures NonGroup(c, user, o)
  {
  }
}
