/**
 From a stored report and a caller's parameters to the query that is sent: required parameters and
 their defaults, the tenant parameter, numbering, and the row limit.
 */
module ReportExecution {
  import opened Numbers
  import opened Wrappers
  import opened ReportQueries
  import opened LimitClause

  /** A declared parameter; a default of `Undefined` is no default. */
  datatype Declared = Declared(name: string, required: bool, default: Value)

  datatype Refusal = MissingRequired(name: string) | UnknownName(name: string)

  /** The declaration at position i stops the call: no value, no default, no earlier default. */
  ghost predicate Stops(declared: seq<Declared>, given: Params, i: nat)
    requires i < |declared|
  {
    && declared[i].required && declared[i].default == Undefined
    && Lookup(given, declared[i].name) == Undefined
    && forall j | 0 <= j < i :: !Supplies(declared[j], declared[i].name)
  }

  /** A required declaration with a default supplies its name when the caller does not. */
  predicate Supplies(d: Declared, name: string) {
    d.name == name && d.required && d.default != Undefined
  }

  /** The parameters after the defaults have been filled in, declaration by declaration. */
  function Effective(declared: seq<Declared>, given: Params): Params {
    if declared == [] then given
    else
      var p, user := declared[|declared| - 1], Effective(declared[..|declared| - 1], given);
      if p.required && Lookup(user, p.name) == Undefined && p.default != Undefined then user[p.name := p.default]
      else user
  }

  /** The default of the first required declaration of the name that has one. */
  function FirstDefault(declared: seq<Declared>, name: string): Option<Value> {
    if declared == [] then None
    else if Supplies(declared[0], name) then Some(declared[0].default)
    else FirstDefault(declared[1..], name)
  }

  lemma {:induction false} FirstDefaultMore(declared: seq<Declared>, d: Declared, name: string)
    ensures FirstDefault(declared + [d], name) ==
      match FirstDefault(declared, name)
      case Some(v) => Some(v)
      case None => if Supplies(d, name) then Some(d.default) else None
  {
    if declared == [] {
      assert [d][1..] == [];
    } else {
      FirstDefaultMore(declared[1..], d, name);
      assert (declared + [d])[1..] == declared[1..] + [d];
    }
  }

  /** A given value wins, then the first default; a name is there when it was given or has one. */
  lemma {:induction false} EffectiveLookup(declared: seq<Declared>, given: Params, name: string)
    ensures var user := Effective(declared, given);
      var first := FirstDefault(declared, name);
      && Lookup(user, name) ==
        (if Lookup(given, name) != Undefined || first.None? then Lookup(given, name) else first.value)
      && (name in user <==> name in given || (Lookup(given, name) == Undefined && first.Some?))
  {
    if declared != [] {
      var n := |declared| - 1;
      EffectiveLookup(declared[..n], given, name);
      FirstDefaultMore(declared[..n], declared[n], name);
      FirstDefaultIsNoUndefined(declared[..n], name);
      assert declared == declared[..n] + [declared[n]];
    }
  }

  lemma {:induction false} FirstDefaultIsNoUndefined(declared: seq<Declared>, name: string)
    ensures var first := FirstDefault(declared, name);
      && (first.Some? ==> first.value != Undefined)
      && (first.Some? <==> exists i :: 0 <= i < |declared| && Supplies(declared[i], name))
  {
    if declared != [] {
      FirstDefaultIsNoUndefined(declared[1..], name);
      assert forall i | 0 < i < |declared| :: declared[i] == declared[1..][i - 1];
    }
  }

  /**
   Fills in defaults.  It refuses exactly when some declaration stops the call; otherwise the
   caller's values stay, and every required parameter has a value.
   */
  method EffectiveParams(declared: seq<Declared>, given: Params) returns (r: Result<Params, Refusal>)
    ensures r.Failure? <==> exists i :: 0 <= i < |declared| && Stops(declared, given, i)
    ensures r.Failure? ==> exists i ::
      0 <= i < |declared| && r.error == MissingRequired(declared[i].name) && Stops(declared, given, i)
    ensures r.Success? ==> r.value == Effective(declared, given)
    ensures r.Success? ==> forall d | d in declared && d.required :: Lookup(r.value, d.name) != Undefined
    ensures r.Success? ==> forall x | Lookup(given, x) != Undefined :: Lookup(r.value, x) == Lookup(given, x)
    ensures r.Success? ==> given.Keys <= r.value.Keys
    ensures r.Success? ==> forall x | x in r.value && x !in given :: exists d :: d in declared && Supplies(d, x)
  {
    hide FirstDefault;
    var user := given;
    for i := 0 to |declared|
      invariant user == Effective(declared[..i], given)
      invariant forall j | 0 <= j < i && declared[j].required :: Lookup(user, declared[j].name) != Undefined
      invariant forall j | 0 <= j < i :: !Stops(declared, given, j)
    {
      var p := declared[i];
      assert declared[..i + 1][..i] == declared[..i];
      EffectiveLookup(declared[..i], given, p.name);
      FirstDefaultIsNoUndefined(declared[..i], p.name);
      assert forall j | 0 <= j < i :: declared[..i][j] == declared[j];
      if p.required && Lookup(user, p.name) == Undefined {
        if p.default == Undefined {
          assert Stops(declared, given, i);
          return Failure(MissingRequired(p.name));
        }
        user := user[p.name := p.default];
      }
    }
    assert declared[..|declared|] == declared;
    forall x ensures Lookup(given, x) != Undefined ==> Lookup(user, x) == Lookup(given, x)
      ensures x in given ==> x in user
      ensures x in user && x !in given ==> exists d :: d in declared && Supplies(d, x)
    {
      EffectiveLookup(declared, given, x);
      FirstDefaultIsNoUndefined(declared, x);
    }
    return Success(user);
  }

  /** The caller's parameters over the tenant's own. */
  function WithTenant(tenantId: string, user: Params): Params { map["tenantId" := Given(tenantId)] + user }

  /** What the placeholders of an execution stand for. */
  function Binding(declared: seq<Declared>, given: Params, tenantId: string): Params {
    WithTenant(tenantId, Effective(declared, given))
  }

  /** Every name is the tenant's, the caller's, or a required parameter's. */
  ghost predicate Covered(names: seq<string>, declared: seq<Declared>, given: Params) {
    forall k | 0 <= k < |names| ::
      names[k] == "tenantId" || Bound(given, names[k]) || exists d :: d in declared && d.required && d.name == names[k]
  }

  ghost predicate NothingStops(declared: seq<Declared>, given: Params) {
    forall i | 0 <= i < |declared| :: !Stops(declared, given, i)
  }

  lemma RequiredHasDefault(declared: seq<Declared>, given: Params, name: string)
    requires NothingStops(declared, given) && Lookup(given, name) == Undefined
    ensures FirstDefault(declared, name).Some? <==> exists d :: d in declared && d.required && d.name == name
  {
    FirstDefaultIsNoUndefined(declared, name);
    if d :| d in declared && d.required && d.name == name {
      var i :| 0 <= i < |declared| && declared[i] == d;
      assert !Stops(declared, given, i);
    }
  }

  /** When nothing stops the call, every name has a value exactly when it is covered. */
  lemma BoundIsCovered(names: seq<string>, declared: seq<Declared>, given: Params, tenantId: string)
    requires NothingStops(declared, given)
    ensures AllBound(names, Binding(declared, given, tenantId)) <==> Covered(names, declared, given)
  {
    hide Effective, FirstDefault, NothingStops;
    forall k | 0 <= k < |names|
      ensures Bound(Binding(declared, given, tenantId), names[k]) <==>
        names[k] == "tenantId" || Bound(given, names[k]) || exists d ::
          d in declared && d.required && d.name == names[k]
    {
      EffectiveLookup(declared, given, names[k]);
      if !Bound(given, names[k]) { RequiredHasDefault(declared, given, names[k]); }
    }
  }

  /**
   The caller's own `tenantId`, or else a declared default of that name, hides the tenant's: the
   query uses the tenant of the request exactly when neither is another value.
   */
  lemma TenantValueOfQuery(declared: seq<Declared>, given: Params, tenantId: string)
    ensures Lookup(Binding(declared, given, tenantId), "tenantId") == Given(tenantId) <==>
      if Lookup(given, "tenantId") != Undefined then given["tenantId"] == Given(tenantId)
      else match FirstDefault(declared, "tenantId")
        case Some(v) => v == Given(tenantId)
        case None => "tenantId" !in given
  {
    EffectiveLookup(declared, given, "tenantId");
    FirstDefaultIsNoUndefined(declared, "tenantId");
    NoPrototypeTenant();
    hide Effective, FirstDefault;
  }

  lemma NoPrototypeTenant()
    ensures "tenantId" !in OBJECT_PROTOTYPE
  {
    assert "tenantId"[0] == 't' && "tenantId"[1] == 'e';
  }

  /**
   The query of one execution.  It is built exactly when no required parameter lacks both value and
   default and every placeholder is the tenant's, the caller's or a required one; a refusal names the
   first that fails.  The query carries the values of that binding in order of first occurrence, is
   capped at the smaller of the asked limit (1000 when none is) and the template's own, is the template's
   text limited so, and means what the template means when that has no dollar sign before a digit.
   */
  method PrepareQuery(template: string, declared: seq<Declared>, given: Params, tenantId: string,
      asked: Option<nat>)
    returns (r: Result<Query, Refusal>)
    ensures r.Success? <==> NothingStops(declared, given) && Covered(Names(Pieces(template)), declared, given)
    ensures r.Failure? && r.error.MissingRequired? <==> !NothingStops(declared, given)
    ensures r.Failure? && r.error.UnknownName? ==>
      FirstUnbound(Names(Pieces(template)), Binding(declared, given, tenantId), r.error.name)
    ensures r.Success? ==> r.value.values == ValuesOf(Order(template), Binding(declared, given, tenantId))
    ensures r.Success? ==>
      var plain := Render(Pieces(template), Order(template));
      var limit := if asked.Some? then asked.value else 1000;
      && Cap(r.value.sql) == Some(Lowered(Cap(plain), limit))
      && Body(r.value.sql) == Body(plain)
      && Values(Read(r.value.sql, r.value.values)) == Values(Read(plain, r.value.values))
      && (forall u, c, semicolon, v | Surrounds(u, c, semicolon, v) && plain == Joined(u, c, semicolon, v) ::
            LimitedText(c, limit, r.value.sql))
      && (NoDollarDigit(template) ==>
            Values(Read(r.value.sql, r.value.values)) ==
              Values(Expand(Pieces(template), Binding(declared, given, tenantId))))
  {
    hide Pieces, Names, Render, Order, Expand, Read, Values, Cap, Body, AppendLimit, Effective, AllBound, Covered,
      Surrounds, Joined, LimitedText;
    var limit := if asked.Some? then asked.value else 1000;
    var user := EffectiveParams(declared, given);
    if user.Failure? { return Failure(user.error); }
    assert NothingStops(declared, given);
    BoundIsCovered(Names(Pieces(template)), declared, given, tenantId);
    var params := WithTenant(tenantId, user.value);
    assert params == Binding(declared, given, tenantId);
    var q := BuildParameterizedQuery(template, params);
    if q.Failure? { return Failure(UnknownName(q.error)); }
    LimitIsMinimum(q.value.sql, limit);
    LimitKeepsValues(q.value.sql, limit, q.value.values);
    forall u, c, semicolon, v | Surrounds(u, c, semicolon, v) && q.value.sql == Joined(u, c, semicolon, v)
      ensures LimitedText(c, limit, AppendLimit(q.value.sql, limit))
    {
      AppendLimitText(u, c, semicolon, v, limit);
    }
    r := Success(Query(AppendLimit(q.value.sql, limit), q.value.values));
  }
}
