/**
 * Forensic classification (tester/analyzer.py): each (endpoint, test,
 * result) record is checked against three keyword-gated rules in a fixed
 * order, and the first that fires yields one verdict.
 */
module Analyzer {
  import opened Wrappers
  import opened Text
  import opened Json
  import opened Parser
  import opened Seqs
  import opened Executor

  /** Elapsed seconds from which a timing probe counts as having delayed the server. */
  const TimeBasedThreshold: real := 4.0

  /** The executor gives up later than the analyzer's threshold, so slow answers are observed. */
  lemma TimeoutAboveThreshold()
    ensures DefaultTimeout as real > TimeBasedThreshold
  {
  }

  /** One entry of `all_results`: the endpoint, the test case and the executor's record. */
  datatype Record = Record(endpoint: Endpoint, test: Json, result: ExecResult)

  /** The detected vulnerability classes, in the order the rules are tried. */
  datatype VulnKind = TimeBased | ErrorBased | ReflectedXss

  /** The `type` string of a verdict. */
  function TypeName(kind: VulnKind): string {
    match kind
    case TimeBased => "Time-based SQL Injection (CRITICAL)"
    case ErrorBased => "Error-based SQL Injection (HIGH)"
    case ReflectedXss => "Reflected Cross-Site Scripting (MEDIUM)"
  }

  /** Each class has its own `type` string, so a report names the class unambiguously. */
  lemma TypeNameDistinct(a: VulnKind, b: VulnKind)
    ensures TypeName(a) == TypeName(b) ==> a == b
  {
  }

  /** A report entry: endpoint key, vulnerability class and the test's payload. */
  datatype Verdict = Verdict(endpoint: string, kind: VulnKind, payload: Json)

  /** `test.get('description', '').lower()` can run: the test is a dict and a description, if any, a string. */
  predicate DescriptionReadable(test: Json) {
    test.JObj? &&
    match Lookup(test.members, "description")
    case None => true
    case Some(d) => d.JStr?
  }

  /** The lower-cased description, empty when there is none. */
  function Description(test: Json): string
    requires DescriptionReadable(test)
  {
    Lower(Lookup(test.members, "description").GetOr(JStr("")).s)
  }

  /** The description announces a timing probe. */
  predicate TimeKeyword(desc: string) {
    Contains(desc, "time-based") || Contains(desc, "sleep") || Contains(desc, "waitfor")
  }

  /** The description announces an error-provoking probe. */
  predicate ErrorKeyword(desc: string) {
    Contains(desc, "error-based") || Contains(desc, "помил")
  }

  /** The description announces a script-injection probe. */
  predicate XssKeyword(desc: string) {
    Contains(desc, "xss")
  }

  /** The lower-cased body mentions the database. */
  predicate SqlDiagnostic(body: string) {
    var b := Lower(body);
    Contains(b, "sql") || Contains(b, "syntax") || Contains(b, "database") || Contains(b, "query")
  }

  /** `_is_time_based_sqli`: a timing probe that took at least the threshold and was not rejected with a 4xx. */
  predicate IsTimeBasedSqli(test: Json, result: ExecResult)
    requires DescriptionReadable(test)
  {
    TimeKeyword(Description(test))
    && result.seconds >= TimeBasedThreshold
    && (200 <= result.status < 300 || result.status >= 500)
  }

  /** `_is_error_based_sqli`: an error probe answered by status 500 with a database diagnostic. */
  predicate IsErrorBasedSqli(test: Json, result: ExecResult)
    requires DescriptionReadable(test)
  {
    ErrorKeyword(Description(test)) && result.status == 500 && SqlDiagnostic(result.body)
  }

  /** Text with spaces and `'` removed, as the reflection check compares it. */
  function Simplified(s: string): (r: string)
    ensures ' ' !in r && '\'' !in r
    ensures forall x :: x != ' ' && x != '\'' ==> multiset(r)[x] == multiset(s)[x]
  {
    var spaceless := RemoveChar(s, ' ');
    var r := RemoveChar(spaceless, '\'');
    assert multiset(r)[' '] == multiset(spaceless)[' '] == 0;
    r
  }

  /** `str(test.get('payload', ''))`. */
  function PayloadText(test: Json, show: Json -> string): string
    requires test.JObj?
  {
    PyStr(Lookup(test.members, "payload").GetOr(JStr("")), show)
  }

  /** `_is_reflected_xss`: a script probe whose simplified payload comes back in a 200 body. */
  predicate IsReflectedXss(test: Json, result: ExecResult, show: Json -> string)
    requires DescriptionReadable(test)
  {
    XssKeyword(Description(test))
    && Contains(Simplified(result.body), Simplified(PayloadText(test, show)))
    && result.status == 200
  }

  /** The first rule that fires, tried in the order timing, error, reflection. */
  function Rule(test: Json, result: ExecResult, show: Json -> string): Option<VulnKind>
    requires DescriptionReadable(test)
  {
    if IsTimeBasedSqli(test, result) then Some(TimeBased)
    else if IsErrorBasedSqli(test, result) then Some(ErrorBased)
    else if IsReflectedXss(test, result, show) then Some(ReflectedXss)
    else None
  }

  /**
   * The three rules stated through `IsSubstring`, independently of the
   * search `Contains` performs: a timing verdict needs a timing keyword, the
   * threshold and a status that is not 1xx, 3xx or 4xx; an error verdict
   * needs no timing verdict, an error keyword, status 500 and a database
   * word in the body; a reflection verdict needs neither of the others, the
   * `xss` keyword, the simplified payload inside the simplified body and
   * status 200.
   */
  lemma RuleCharacterized(test: Json, result: ExecResult, show: Json -> string)
    requires DescriptionReadable(test)
    ensures var d := Description(test);
      Rule(test, result, show) == Some(TimeBased) <==>
        (IsSubstring("time-based", d) || IsSubstring("sleep", d) || IsSubstring("waitfor", d))
        && result.seconds >= TimeBasedThreshold && (200 <= result.status < 300 || result.status >= 500)
    ensures var d := Description(test); var b := Lower(result.body);
      Rule(test, result, show) == Some(ErrorBased) <==>
        !IsTimeBasedSqli(test, result)
        && (IsSubstring("error-based", d) || IsSubstring("помил", d))
        && result.status == 500
        && (IsSubstring("sql", b) || IsSubstring("syntax", b) || IsSubstring("database", b) || IsSubstring("query", b))
    ensures Rule(test, result, show) == Some(ReflectedXss) <==>
      !IsTimeBasedSqli(test, result) && !IsErrorBasedSqli(test, result)
      && IsSubstring("xss", Description(test))
      && IsSubstring(Simplified(PayloadText(test, show)), Simplified(result.body))
      && result.status == 200
  {
  }

  /** The report key of an endpoint: `[METHOD] path`. */
  function EndpointKey(ep: Endpoint): string {
    "[" + ep.verb + "] " + ep.path
  }

  /**
   * A record `analyze_results` can process: its description is readable,
   * and when a rule fires the test has the `payload` the report copies.
   */
  predicate Analyzable(rec: Record, show: Json -> string) {
    DescriptionReadable(rec.test)
    && (Rule(rec.test, rec.result, show).Some? ==> Lookup(rec.test.members, "payload").Some?)
  }

  predicate AllAnalyzable(records: seq<Record>, show: Json -> string) {
    forall i :: 0 <= i < |records| ==> Analyzable(records[i], show)
  }

  /** The verdicts of one record: none, or one for the first rule that fires. */
  function RecordVerdicts(rec: Record, show: Json -> string): (r: seq<Verdict>)
    requires Analyzable(rec, show)
    ensures |r| <= 1
    ensures r != [] ==>
      && r[0].endpoint == "[" + rec.endpoint.verb + "] " + rec.endpoint.path
      && Some(r[0].kind) == Rule(rec.test, rec.result, show)
      && Lookup(rec.test.members, "payload") == Some(r[0].payload)
    ensures r == [] <==> Rule(rec.test, rec.result, show).None?
  {
    match Rule(rec.test, rec.result, show)
    case None => []
    case Some(kind) => [Verdict(EndpointKey(rec.endpoint), kind, Lookup(rec.test.members, "payload").value)]
  }

  /** The report for a list of records: each record's verdicts, in input order. */
  function Verdicts(records: seq<Record>, show: Json -> string): seq<Verdict>
    requires AllAnalyzable(records, show)
    decreases |records|
  {
    if records == [] then []
    else Verdicts(records[..|records| - 1], show) + RecordVerdicts(records[|records| - 1], show)
  }

  lemma VerdictsPrefixStep(records: seq<Record>, show: Json -> string, i: nat)
    requires AllAnalyzable(records, show) && i < |records|
    ensures Verdicts(records[..i + 1], show) == Verdicts(records[..i], show) + RecordVerdicts(records[i], show)
  {
    assert records[..i + 1][..i] == records[..i];
  }

  /** Classification is per record: the report of a concatenation is the concatenation of the reports. */
  lemma {:induction false} VerdictsAppend(a: seq<Record>, b: seq<Record>, show: Json -> string)
    requires AllAnalyzable(a, show) && AllAnalyzable(b, show)
    ensures AllAnalyzable(a + b, show)
    ensures Verdicts(a + b, show) == Verdicts(a, show) + Verdicts(b, show)
    decreases |b|
  {
    if b == [] {
      assert a + b == a;
    } else {
      var b' := b[..|b| - 1];
      assert (a + b)[..|a + b| - 1] == a + b';
      VerdictsAppend(a, b', show);
      ConcatAssoc(Verdicts(a, show), Verdicts(b', show), RecordVerdicts(b[|b| - 1], show));
    }
  }

  /** Every record yields at most one verdict. */
  lemma {:induction false} VerdictsBounded(records: seq<Record>, show: Json -> string)
    requires AllAnalyzable(records, show)
    ensures |Verdicts(records, show)| <= |records|
    decreases |records|
  {
    if records != [] {
      VerdictsBounded(records[..|records| - 1], show);
    }
  }

  /** Records on which no rule fires leave no trace in the report. */
  lemma {:induction false} SilentRecordsDropped(records: seq<Record>, show: Json -> string)
    requires AllAnalyzable(records, show)
    requires forall i :: 0 <= i < |records| ==> Rule(records[i].test, records[i].result, show).None?
    ensures Verdicts(records, show) == []
    decreases |records|
  {
    if records != [] {
      SilentRecordsDropped(records[..|records| - 1], show);
    }
  }

  /** A description with none of the rule keywords never yields a verdict, whatever the response. */
  lemma NoKeywordNoVerdict(test: Json, result: ExecResult, show: Json -> string)
    requires DescriptionReadable(test)
    requires !IsSubstring("time-based", Description(test)) && !IsSubstring("sleep", Description(test))
    requires !IsSubstring("waitfor", Description(test)) && !IsSubstring("error-based", Description(test))
    requires !IsSubstring("помил", Description(test)) && !IsSubstring("xss", Description(test))
    ensures Rule(test, result, show).None?
  {
  }

  /** A client-error status (such as 422) never yields a verdict, whatever the description. */
  lemma ClientErrorNoVerdict(test: Json, result: ExecResult, show: Json -> string)
    requires DescriptionReadable(test)
    requires 400 <= result.status < 500
    ensures Rule(test, result, show).None?
  {
  }

  /** At exactly the threshold a timing probe answered 200 fires; a millisecond below it does not. */
  lemma TimingBoundary(test: Json, body: string, error: Option<string>)
    requires DescriptionReadable(test) && TimeKeyword(Description(test))
    ensures IsTimeBasedSqli(test, ExecResult(200, body, 4.0, error))
    ensures !IsTimeBasedSqli(test, ExecResult(200, body, 3.999, error))
  {
  }

  /**
   * The error rule needs its keyword and status 500 together, and only 500:
   * any other server-error status, such as 502, does not fire it.
   */
  lemma ErrorRuleNeedsBoth(test: Json, result: ExecResult)
    requires DescriptionReadable(test)
    ensures !ErrorKeyword(Description(test)) ==> !IsErrorBasedSqli(test, result)
    ensures result.status != 500 ==> !IsErrorBasedSqli(test, result)
  {
  }

  /** Simplification works piece by piece. */
  lemma SimplifiedAppend(u: string, v: string)
    ensures Simplified(u + v) == Simplified(u) + Simplified(v)
  {
    RemoveCharAppend(u, v, ' ');
    RemoveCharAppend(RemoveChar(u, ' '), RemoveChar(v, ' '), '\'');
  }

  /** A space or a `'` inserted anywhere is invisible to the reflection check. */
  lemma SimplifiedIgnores(a: string, c: char, b: string)
    requires c == ' ' || c == '\''
    ensures Simplified(a + [c] + b) == Simplified(a + b)
  {
    calc {
      Simplified(a + [c] + b);
      { SimplifiedAppend(a + [c], b); }
      Simplified(a + [c]) + Simplified(b);
      { SimplifiedAppend(a, [c]); SimplifiedDropsChar(c); assert Simplified(a) + [] == Simplified(a); }
      Simplified(a) + Simplified(b);
      { SimplifiedAppend(a, b); }
      Simplified(a + b);
    }
  }

  /** Every other character is kept by the reflection check. */
  lemma SimplifiedKeepsChar(c: char)
    requires c != ' ' && c != '\''
    ensures Simplified([c]) == [c]
  {
    RemoveCharAbsent([c], ' ');
    RemoveCharAbsent([c], '\'');
  }

  lemma SimplifiedDropsChar(c: char)
    requires c == ' ' || c == '\''
    ensures Simplified([c]) == []
  {
    assert [c][1..] == [];
    var spaceless := RemoveChar([c], ' ');
    assert spaceless == (if c == ' ' then [] else [c]);
  }

  /**
   * A payload echoed verbatim in a 200 body is flagged as reflected, unless
   * an earlier rule already fired.
   */
  lemma VerbatimEchoDetected(test: Json, result: ExecResult, show: Json -> string, before: string, after: string)
    requires DescriptionReadable(test) && IsSubstring("xss", Description(test))
    requires result.body == before + PayloadText(test, show) + after && result.status == 200
    requires !IsTimeBasedSqli(test, result) && !IsErrorBasedSqli(test, result)
    ensures Rule(test, result, show) == Some(ReflectedXss)
  {
    var p := PayloadText(test, show);
    SimplifiedAppend(before + p, after);
    SimplifiedAppend(before, p);
    OccursInMiddle(Simplified(before), Simplified(p), Simplified(after));
  }

  /**
   * A timing probe that held the server for 5.2 s and was answered 200
   * gives exactly one critical verdict carrying the endpoint key and the
   * payload; the same probe rejected with 422 gives none.
   */
  lemma SlowProbeScenario(ep: Endpoint, desc: string, payload: Json, body: string, show: Json -> string)
    requires TimeKeyword(Lower(desc))
    ensures var test := JObj([("description", JStr(desc)), ("payload", payload)]);
      && AllAnalyzable([Record(ep, test, ExecResult(200, body, 5.2, None))], show)
      && Verdicts([Record(ep, test, ExecResult(200, body, 5.2, None))], show)
         == [Verdict("[" + ep.verb + "] " + ep.path, TimeBased, payload)]
    ensures var test := JObj([("description", JStr(desc)), ("payload", payload)]);
      && AllAnalyzable([Record(ep, test, ExecResult(422, body, 5.2, None))], show)
      && Verdicts([Record(ep, test, ExecResult(422, body, 5.2, None))], show) == []
  {
    var test := JObj([("description", JStr(desc)), ("payload", payload)]);
    assert Lookup(test.members, "description") == Some(JStr(desc));
    assert Lookup(test.members, "payload") == Some(payload);
    var ok := [Record(ep, test, ExecResult(200, body, 5.2, None))];
    var rejected := [Record(ep, test, ExecResult(422, body, 5.2, None))];
    assert ok[..0] == [] && rejected[..0] == [];
  }

  /** `APIAnalyzer`: holds the report of the last analysis. */
  class ApiAnalyzer {
    var vulnerabilities: seq<Verdict>

    constructor ()
      ensures vulnerabilities == []
    {
      vulnerabilities := [];
    }

    /** The detector chain of `analyze_results`: the first rule that fires, if any. */
    static method Detect(res: Record, show: Json -> string) returns (found: Option<VulnKind>)
      requires DescriptionReadable(res.test)
      ensures found == Rule(res.test, res.result, show)
    {
      found := None;
      if IsTimeBasedSqli(res.test, res.result) {
        found := Some(TimeBased);
      } else if IsErrorBasedSqli(res.test, res.result) {
        found := Some(ErrorBased);
      } else if IsReflectedXss(res.test, res.result, show) {
        found := Some(ReflectedXss);
      }
    }

    /**
     * `analyze_results`: discards the previous report, then appends one
     * verdict for each record on which a rule fires, in input order. The
     * report depends on the records alone.
     */
    method AnalyzeResults(allResults: seq<Record>, show: Json -> string) returns (report: seq<Verdict>)
      requires AllAnalyzable(allResults, show)
      modifies this
      ensures vulnerabilities == Verdicts(allResults, show)
      ensures report == vulnerabilities
    {
      vulnerabilities := [];
      var i := 0;
      while i < |allResults|
        invariant 0 <= i <= |allResults|
        invariant vulnerabilities == Verdicts(allResults[..i], show)
      {
        var res := allResults[i];
        var found := Detect(res, show);
        ghost var before := vulnerabilities;
        if found.Some? {
          vulnerabilities := vulnerabilities + [Verdict(EndpointKey(res.endpoint), found.value, Lookup(res.test.members, "payload").value)];
        }
        assert vulnerabilities == before + RecordVerdicts(res, show);
        VerdictsPrefixStep(allResults, show, i);
        i := i + 1;
      }
      assert allResults[..i] == allResults;
      report := vulnerabilities;
    }
  }

  /** Analysing the same records twice gives the same report: nothing carries over between calls. */
  method AnalyzeTwice(records: seq<Record>, show: Json -> string) returns (first: seq<Verdict>, second: seq<Verdict>)
    requires AllAnalyzable(records, show)
    ensures first == second == Verdicts(records, show)
  {
    var analyzer := new ApiAnalyzer();
    first := analyzer.AnalyzeResults(records, show);
    second := analyzer.AnalyzeResults(records, show);
  }
}
