/**
 * The driver (run_tester.py): parses the description, asks the generator
 * for test cases endpoint by endpoint and keeps the endpoints that got some
 * (the attack plans), then routes each test's payload into the request body
 * or the path and executes every test in plan order, collecting one record
 * per test. The records are the input `analyze_results` expects; the
 * driver itself never calls the analyzer.
 */
module Runner {
  import opened Wrappers
  import opened Json
  import opened Parser
  import opened Seqs
  import opened Generator
  import opened Executor
  import opened Analyzer

  /** The target the driver attacks. */
  const BaseUrl: string := "http://127.0.0.1:8000"

  /** An attack plan: an endpoint and its non-empty list of test cases. */
  datatype Plan = Plan(endpoint: Endpoint, tests: seq<Json>)

  predicate AllPromptDefined(endpoints: seq<Endpoint>) {
    forall i :: 0 <= i < |endpoints| ==> PromptDefined(endpoints[i])
  }

  /**
   * The plans collected from `endpoints`: in endpoint order, one for each
   * endpoint whose generated list is non-empty, holding that list.
   */
  function Plans(endpoints: seq<Endpoint>, o: Oracles, w: Wording): seq<Plan>
    requires AllPromptDefined(endpoints)
    decreases |endpoints|
  {
    if endpoints == [] then []
    else Plans(endpoints[..|endpoints| - 1], o, w) + Kept(endpoints[|endpoints| - 1], o, w)
  }

  /** The plan one endpoint contributes: its list when that is non-empty, nothing otherwise. */
  function Kept(ep: Endpoint, o: Oracles, w: Wording): seq<Plan>
    requires PromptDefined(ep)
  {
    var tests := Generate(ep, o, w);
    if tests != [] then [Plan(ep, tests)] else []
  }

  /**
   * Every plan belongs to one of the endpoints, holds exactly the list the
   * generator returns for it, and that list is non-empty; there are at most
   * as many plans as endpoints.
   */
  lemma {:induction false} PlansSound(endpoints: seq<Endpoint>, o: Oracles, w: Wording)
    requires AllPromptDefined(endpoints)
    ensures |Plans(endpoints, o, w)| <= |endpoints|
    ensures forall k :: 0 <= k < |Plans(endpoints, o, w)| ==>
      && Plans(endpoints, o, w)[k].endpoint in endpoints
      && PromptDefined(Plans(endpoints, o, w)[k].endpoint)
      && Plans(endpoints, o, w)[k].tests == Generate(Plans(endpoints, o, w)[k].endpoint, o, w)
      && Plans(endpoints, o, w)[k].tests != []
    decreases |endpoints|
  {
    if endpoints != [] {
      var init := endpoints[..|endpoints| - 1];
      PlansSound(init, o, w);
      var earlier := Plans(init, o, w);
      forall k | 0 <= k < |earlier| ensures earlier[k].endpoint in endpoints {
        assert earlier[k].endpoint in init;
      }
    }
  }

  lemma PlansPrefixStep(endpoints: seq<Endpoint>, o: Oracles, w: Wording, i: nat)
    requires AllPromptDefined(endpoints) && i < |endpoints|
    ensures AllPromptDefined(endpoints[..i]) && AllPromptDefined(endpoints[..i + 1])
    ensures Plans(endpoints[..i + 1], o, w)
         == Plans(endpoints[..i], o, w)
            + (if Generate(endpoints[i], o, w) != [] then [Plan(endpoints[i], Generate(endpoints[i], o, w))] else [])
  {
    assert endpoints[..i + 1][..i] == endpoints[..i];
  }

  /** No endpoint whose list is non-empty is left out of the plans. */
  lemma {:induction false} PlansComplete(endpoints: seq<Endpoint>, o: Oracles, w: Wording, i: nat)
    requires AllPromptDefined(endpoints) && i < |endpoints|
    requires Generate(endpoints[i], o, w) != []
    ensures Plan(endpoints[i], Generate(endpoints[i], o, w)) in Plans(endpoints, o, w)
    decreases |endpoints|
  {
    var init := endpoints[..|endpoints| - 1];
    if i < |endpoints| - 1 {
      assert init[i] == endpoints[i];
      PlansComplete(init, o, w, i);
    }
  }

  lemma AllPromptDefinedConcat(a: seq<Endpoint>, b: seq<Endpoint>)
    requires AllPromptDefined(a) && AllPromptDefined(b)
    ensures AllPromptDefined(a + b)
  {
    forall k | 0 <= k < |a + b| ensures PromptDefined((a + b)[k]) {
      if k < |a| { assert (a + b)[k] == a[k]; } else { assert (a + b)[k] == b[k - |a|]; }
    }
  }

  lemma PlansLast(endpoints: seq<Endpoint>, o: Oracles, w: Wording)
    requires AllPromptDefined(endpoints) && endpoints != []
    ensures AllPromptDefined(endpoints[..|endpoints| - 1])
    ensures Plans(endpoints, o, w) == Plans(endpoints[..|endpoints| - 1], o, w) + Kept(endpoints[|endpoints| - 1], o, w)
  {
  }

  /** Collecting plans distributes over a split of the endpoint list. */
  lemma {:induction false} PlansAppend(a: seq<Endpoint>, b: seq<Endpoint>, o: Oracles, w: Wording)
    requires AllPromptDefined(a) && AllPromptDefined(b)
    ensures AllPromptDefined(a + b)
    ensures Plans(a + b, o, w) == Plans(a, o, w) + Plans(b, o, w)
    decreases |b|
  {
    AllPromptDefinedConcat(a, b);
    if b == [] {
      assert a + b == a;
    } else {
      var b' := b[..|b| - 1];
      var ab := a + b;
      PlansLast(ab, o, w);
      PlansLast(b, o, w);
      assert ab[..|ab| - 1] == a + b';
      assert ab[|ab| - 1] == b[|b| - 1];
      PlansAppend(a, b', o, w);
      ConcatAssoc(Plans(a, o, w), Plans(b', o, w), Kept(b[|b| - 1], o, w));
    }
  }

  /**
   * The plan-collection loop: each endpoint is given to the generator once,
   * in order, and kept with its list when the list is non-empty.
   */
  method CollectPlans(endpoints: seq<Endpoint>, o: Oracles, w: Wording) returns (allTestPlans: seq<Plan>)
    requires AllPromptDefined(endpoints)
    ensures allTestPlans == Plans(endpoints, o, w)
  {
    allTestPlans := [];
    var i := 0;
    while i < |endpoints|
      invariant 0 <= i <= |endpoints|
      invariant allTestPlans == Plans(endpoints[..i], o, w)
    {
      var ep := endpoints[i];
      var testCases := Generate(ep, o, w);
      PlansPrefixStep(endpoints, o, w, i);
      if testCases != [] {
        allTestPlans := allTestPlans + [Plan(ep, testCases)];
      }
      i := i + 1;
    }
    assert endpoints[..i] == endpoints;
  }

  /** Where a payload goes: the JSON body (`JNull` for none), the path text, the parameter name. */
  datatype Slots = Slots(json: Json, urlPayload: Option<string>, paramName: Json)

  /**
   * The routing can run: with no body schema and truthy parameters, the
   * parameters are a list whose first entry is a dict with a `name`.
   */
  predicate RouteDefined(ep: Endpoint) {
    || HasBody(ep)
    || !Truthy(ep.parameters)
    || (ep.parameters.JArr? && ep.parameters.items != [] && ep.parameters.items[0].JObj?
        && Lookup(ep.parameters.items[0].members, "name").Some?)
  }

  /**
   * The routing of one payload: into the body when the endpoint has a body
   * schema, else as text into the path slot named by the first parameter
   * when there are parameters, else nowhere. At most one channel carries
   * the payload.
   */
  function Route(ep: Endpoint, payload: Json, show: Json -> string): (r: Slots)
    requires RouteDefined(ep)
    ensures HasBody(ep) ==> r == Slots(payload, None, JNull)
    ensures !HasBody(ep) ==> r.json == JNull
    ensures !HasBody(ep) && Truthy(ep.parameters) ==>
      && r.urlPayload == Some(PyStr(payload, show))
      && Some(r.paramName) == Lookup(ep.parameters.items[0].members, "name")
    ensures !HasBody(ep) && !Truthy(ep.parameters) ==> r.urlPayload.None? && r.paramName == JNull
  {
    if HasBody(ep) then Slots(payload, None, JNull)
    else if Truthy(ep.parameters) then
      Slots(JNull, Some(PyStr(payload, show)), Lookup(ep.parameters.items[0].members, "name").value)
    else Slots(JNull, None, JNull)
  }

  /** A payload that goes into the body leaves the path exactly as written. */
  lemma BodyPayloadKeepsPath(ep: Endpoint, payload: Json, show: Json -> string, base: string)
    requires HasBody(ep)
    ensures var s := Route(ep, payload, show);
      FullUrl(base, ep.path, s.paramName, s.urlPayload, show) == base + ep.path
  {
  }

  /**
   * A path payload for `/prefix{name}suffix` whose first parameter is
   * `name` lands in place of the placeholder, as `str(payload)`.
   */
  lemma PathPayloadFillsSlot(ep: Endpoint, payload: Json, show: Json -> string, base: string,
                             a: string, name: string, b: string)
    requires !HasBody(ep) && ep.parameters.JArr? && ep.parameters.items != []
    requires ep.parameters.items[0].JObj? && Lookup(ep.parameters.items[0].members, "name") == Some(JStr(name))
    requires ep.path == a + "{" + name + "}" + b
    requires name != [] && '{' !in a && forall i :: !Text.OccursAt(b, "{" + name + "}", i)
    ensures RouteDefined(ep)
    ensures var s := Route(ep, payload, show);
      FullUrl(base, ep.path, s.paramName, s.urlPayload, show) == base + a + PyStr(payload, show) + b
  {
    PlaceholderFilled(base, a, name, b, PyStr(payload, show), show);
  }

  /**
   * The endpoint listing can run: truthy parameters are a list of dicts
   * that each carry a `name`, since the listing reads every parameter's
   * name before any test is generated.
   */
  predicate Listable(ep: Endpoint) {
    !Truthy(ep.parameters)
    || (ep.parameters.JArr? && forall k :: 0 <= k < |ep.parameters.items| ==>
          ep.parameters.items[k].JObj? && Lookup(ep.parameters.items[k].members, "name").Some?)
  }

  predicate AllListable(endpoints: seq<Endpoint>) {
    forall i :: 0 <= i < |endpoints| ==> Listable(endpoints[i])
  }

  /** A test the driver can run and report: a dict with `payload` and `description`. */
  predicate TestReadable(test: Json) {
    test.JObj? && Lookup(test.members, "payload").Some? && Lookup(test.members, "description").Some?
  }


  predicate AllReadable(tests: seq<Json>) {
    forall t :: 0 <= t < |tests| ==> TestReadable(tests[t])
  }

  predicate PlanRunnable(plan: Plan) {
    RouteDefined(plan.endpoint) && AllReadable(plan.tests)
  }

  predicate AllRunnable(plans: seq<Plan>) {
    forall i :: 0 <= i < |plans| ==> PlanRunnable(plans[i])
  }

  lemma PrefixRunnable(plans: seq<Plan>, n: nat)
    requires AllRunnable(plans) && n <= |plans|
    ensures AllRunnable(plans[..n])
  {
    assert forall i :: 0 <= i < n ==> plans[..n][i] == plans[i];
  }

  /** The record of one test: its payload routed, the request executed. */
  function ExecuteOne(ep: Endpoint, test: Json, exec: ApiExecutor, show: Json -> string, send: Request -> Exchange): Record
    requires RouteDefined(ep) && TestReadable(test)
  {
    var slots := Route(ep, Lookup(test.members, "payload").value, show);
    Record(ep, test, exec.ExecuteTest(ep.verb, ep.path, slots.json, slots.urlPayload, slots.paramName, show, send))
  }

  /** The records of one endpoint's tests, in test order. */
  function TestRecords(ep: Endpoint, tests: seq<Json>, exec: ApiExecutor, show: Json -> string, send: Request -> Exchange)
    : seq<Record>
    requires RouteDefined(ep) && AllReadable(tests)
  {
    MapBack(test requires RouteDefined(ep) && TestReadable(test) => ExecuteOne(ep, test, exec, show, send), tests)
  }

  /** The records of all plans: plans outer, tests inner. */
  function PlanRecords(plans: seq<Plan>, exec: ApiExecutor, show: Json -> string, send: Request -> Exchange): seq<Record>
    requires AllRunnable(plans)
    decreases |plans|
  {
    if plans == [] then []
    else
      PrefixRunnable(plans, |plans| - 1);
      var last := plans[|plans| - 1];
      PlanRecords(plans[..|plans| - 1], exec, show, send) + TestRecords(last.endpoint, last.tests, exec, show, send)
  }

  /** The number of tests over all plans. */
  function TotalTests(plans: seq<Plan>): nat {
    if plans == [] then 0 else TotalTests(plans[..|plans| - 1]) + |plans[|plans| - 1].tests|
  }

  /** One record per test, and record `t` is the execution of test `t`. */
  lemma TestRecordsAt(ep: Endpoint, tests: seq<Json>, exec: ApiExecutor, show: Json -> string, send: Request -> Exchange)
    requires RouteDefined(ep) && AllReadable(tests)
    ensures |TestRecords(ep, tests, exec, show, send)| == |tests|
    ensures forall t :: 0 <= t < |tests| ==> TestRecords(ep, tests, exec, show, send)[t] == ExecuteOne(ep, tests[t], exec, show, send)
  {
    MapBackAt(test requires RouteDefined(ep) && TestReadable(test) => ExecuteOne(ep, test, exec, show, send), tests);
  }

  /** Every test of every plan gives exactly one record. */
  lemma {:induction false} PlanRecordsLength(plans: seq<Plan>, exec: ApiExecutor, show: Json -> string, send: Request -> Exchange)
    requires AllRunnable(plans)
    ensures |PlanRecords(plans, exec, show, send)| == TotalTests(plans)
    decreases |plans|
  {
    if plans != [] {
      PrefixRunnable(plans, |plans| - 1);
      PlanRecordsLength(plans[..|plans| - 1], exec, show, send);
      var last := plans[|plans| - 1];
      TestRecordsAt(last.endpoint, last.tests, exec, show, send);
    }
  }

  /**
   * Execution order: the record of test `t` of plan `i` comes right after
   * the records of all tests of the earlier plans and of the earlier tests
   * of plan `i`, and it is that test executed against that endpoint.
   */
  lemma {:induction false} PlanRecordsAt(plans: seq<Plan>, i: nat, t: nat, exec: ApiExecutor, show: Json -> string,
                                         send: Request -> Exchange)
    requires AllRunnable(plans) && i < |plans| && t < |plans[i].tests|
    ensures TotalTests(plans[..i]) + t < |PlanRecords(plans, exec, show, send)|
    ensures PlanRecords(plans, exec, show, send)[TotalTests(plans[..i]) + t]
         == ExecuteOne(plans[i].endpoint, plans[i].tests[t], exec, show, send)
    decreases |plans|
  {
    var init := plans[..|plans| - 1];
    var last := plans[|plans| - 1];
    PrefixRunnable(plans, |plans| - 1);
    var earlier := PlanRecords(init, exec, show, send);
    var final := TestRecords(last.endpoint, last.tests, exec, show, send);
    assert PlanRecords(plans, exec, show, send) == earlier + final;
    if i < |plans| - 1 {
      assert init[..i] == plans[..i] && init[i] == plans[i];
      PlanRecordsAt(init, i, t, exec, show, send);
      IndexBefore(earlier, final, TotalTests(plans[..i]) + t);
    } else {
      assert init == plans[..i];
      PlanRecordsLength(init, exec, show, send);
      TestRecordsAt(last.endpoint, last.tests, exec, show, send);
      IndexAfter(earlier, final, t);
    }
  }

  lemma TestRecordsPrefixStep(ep: Endpoint, tests: seq<Json>, t: nat, exec: ApiExecutor, show: Json -> string,
                              send: Request -> Exchange)
    requires RouteDefined(ep) && AllReadable(tests)
    requires t < |tests|
    ensures AllReadable(tests[..t + 1]) && AllReadable(tests[..t])
    ensures TestRecords(ep, tests[..t + 1], exec, show, send)
         == TestRecords(ep, tests[..t], exec, show, send) + [ExecuteOne(ep, tests[t], exec, show, send)]
  {
    assert forall u :: 0 <= u <= t ==> tests[..t + 1][u] == tests[u];
    MapBackStep(test requires RouteDefined(ep) && TestReadable(test) => ExecuteOne(ep, test, exec, show, send), tests, t);
  }

  lemma PlanRecordsPrefixStep(plans: seq<Plan>, i: nat, exec: ApiExecutor, show: Json -> string, send: Request -> Exchange)
    requires AllRunnable(plans) && i < |plans|
    ensures AllRunnable(plans[..i]) && AllRunnable(plans[..i + 1])
    ensures PlanRecords(plans[..i + 1], exec, show, send)
         == PlanRecords(plans[..i], exec, show, send) + TestRecords(plans[i].endpoint, plans[i].tests, exec, show, send)
  {
    PrefixRunnable(plans, i);
    PrefixRunnable(plans, i + 1);
    assert plans[..i + 1][..i] == plans[..i];
  }

  /**
   * The execution loop: every test of every plan is executed once, plans
   * in order and tests in order within a plan, and one record is kept for
   * each.
   */
  method ExecutePlans(allTestPlans: seq<Plan>, executor: ApiExecutor, show: Json -> string, send: Request -> Exchange)
    returns (allResults: seq<Record>)
    requires AllRunnable(allTestPlans)
    ensures allResults == PlanRecords(allTestPlans, executor, show, send)
  {
    allResults := [];
    var i := 0;
    while i < |allTestPlans|
      invariant 0 <= i <= |allTestPlans|
      invariant AllRunnable(allTestPlans[..i])
      invariant allResults == PlanRecords(allTestPlans[..i], executor, show, send)
    {
      var plan := allTestPlans[i];
      assert PlanRunnable(plan);
      ghost var before := allResults;
      var t := 0;
      while t < |plan.tests|
        invariant 0 <= t <= |plan.tests|
        invariant allResults == before + TestRecords(plan.endpoint, plan.tests[..t], executor, show, send)
      {
        var test := plan.tests[t];
        var slots := Route(plan.endpoint, Lookup(test.members, "payload").value, show);
        var result := executor.ExecuteTest(plan.endpoint.verb, plan.endpoint.path, slots.json, slots.urlPayload,
                                           slots.paramName, show, send);
        TestRecordsPrefixStep(plan.endpoint, plan.tests, t, executor, show, send);
        ConcatAssoc(before, TestRecords(plan.endpoint, plan.tests[..t], executor, show, send),
                    [ExecuteOne(plan.endpoint, test, executor, show, send)]);
        allResults := allResults + [Record(plan.endpoint, test, result)];
        t := t + 1;
      }
      TakeWhole(plan.tests, t);
      PlanRecordsPrefixStep(allTestPlans, i, executor, show, send);
      i := i + 1;
    }
    TakeWhole(allTestPlans, i);
  }

  /**
   * The driver end to end: parse the description, collect the plans with
   * the generator, execute them against `baseUrl` (`BaseUrl` in the
   * driver). The inputs
   * exclude what would make it raise: an unreadable description, parameter
   * lists the listing or the routing cannot read, and generated tests
   * lacking `payload` or `description`.
   */
  method RunTester(spec: Json, baseUrl: string, o: Oracles, w: Wording, show: Json -> string, send: Request -> Exchange)
    returns (allResults: seq<Record>)
    requires Parsable(spec)
    requires AllListable(Extract(spec, SchemasOf(spec)))
    requires AllPromptDefined(Extract(spec, SchemasOf(spec)))
    requires AllRunnable(Plans(Extract(spec, SchemasOf(spec)), o, w))
    ensures allResults == PlanRecords(Plans(Extract(spec, SchemasOf(spec)), o, w), NewExecutor(baseUrl), show, send)
  {
    var parser := new ApiParser(spec);
    var endpointList := parser.ParseEndpoints();
    var allEndpoints := endpointList.items;
    ghost var extracted := Extract(spec, SchemasOf(spec));
    assert allEndpoints == [] + extracted;
    assert [] + extracted == extracted;
    var allTestPlans := CollectPlans(allEndpoints, o, w);
    var executor := NewExecutor(baseUrl);
    allResults := ExecutePlans(allTestPlans, executor, show, send);
  }

  /** The driver builds its executor for a base URL that already has no trailing `/`. */
  lemma DriverBaseUrlKept()
    ensures NewExecutor(BaseUrl).baseUrl == BaseUrl
  {
    assert BaseUrl[|BaseUrl| - 1] == '0';
  }
}
