/** The compliance score over stored results, and the count of failing results per
    severity (`get_compliance_score` and `_get_by_severity` in
    backend/app/services/detection_engine.py). */
module Scoring {
  import opened Wrappers
  import opened Base
  import opened Records

  // ---- Which results are scored ------------------------------------------------------

  /** The query's scope: `account_id` when truthy, otherwise `organization_id` when
      truthy, otherwise every result. An id of 0 counts as absent. */
  datatype Scope = OfAccount(accountId: int) | OfOrganization(organizationId: int) | Everything

  function ScopeOf(accountId: Option<int>, organizationId: Option<int>): (scope: Scope)
    ensures accountId.Some? && accountId.value != 0 ==> scope == OfAccount(accountId.value)
    ensures scope.OfOrganization? ==> (accountId.None? || accountId.value == 0) && organizationId == Some(scope.organizationId)
    ensures scope == Everything <==>
      (accountId.None? || accountId.value == 0) && (organizationId.None? || organizationId.value == 0)
  {
    if accountId.Some? && accountId.value != 0 then OfAccount(accountId.value)
    else if organizationId.Some? && organizationId.value != 0 then OfOrganization(organizationId.value)
    else Everything
  }

  /** Whether a result is in scope. The organization filter joins the account table, so a
      result whose account is missing is dropped. */
  predicate InScope(s: DbState, scope: Scope, r: ControlResult) {
    match scope
    case OfAccount(a) => r.cloudAccountId == a
    case OfOrganization(o) => r.cloudAccountId in s.accounts && s.accounts[r.cloudAccountId].organizationId == o
    case Everything => true
  }

  /** The in-scope results among ids 1..n, in id order. */
  function ResultsUpTo(s: DbState, scope: Scope, n: nat): seq<ControlResult> {
    if n == 0 then []
    else ResultsUpTo(s, scope, n - 1) + (if n in s.results && InScope(s, scope, s.results[n]) then [s.results[n]] else [])
  }

  function QueryResults(s: DbState, accountId: Option<int>, organizationId: Option<int>): seq<ControlResult> {
    ResultsUpTo(s, ScopeOf(accountId, organizationId), if s.nextId >= 1 then s.nextId - 1 else 0)
  }

  lemma {:induction false} ResultsUpToMembers(s: DbState, scope: Scope, n: nat, r: ControlResult)
    ensures r in ResultsUpTo(s, scope, n) <==>
      exists id :: 1 <= id <= n && id in s.results && s.results[id] == r && InScope(s, scope, r)
  {
    if n > 0 {
      ResultsUpToMembers(s, scope, n - 1, r);
      if n in s.results && s.results[n] == r && InScope(s, scope, r) {
        assert r in ResultsUpTo(s, scope, n);
      }
    }
  }

  /** The query returns exactly the stored results in scope. */
  lemma QueryReturnsScope(s: DbState, accountId: Option<int>, organizationId: Option<int>, r: ControlResult)
    requires Valid(s)
    ensures r in QueryResults(s, accountId, organizationId) <==>
      exists id :: id in s.results && s.results[id] == r && InScope(s, ScopeOf(accountId, organizationId), r)
  {
    ResultsUpToMembers(s, ScopeOf(accountId, organizationId), s.nextId - 1, r);
  }

  // ---- The score -------------------------------------------------------------------

  /** The number of results with status `st`. */
  function CountStatus(results: seq<ControlResult>, st: Status): nat {
    if results == [] then 0
    else CountStatus(results[..|results| - 1], st) + (if results[|results| - 1].status == st then 1 else 0)
  }

  /** The FAIL results with risk level `sv`, counted from the front. */
  function CountFailing(results: seq<ControlResult>, sv: Severity): nat {
    if results == [] then 0
    else (if results[0].status == Fail && results[0].riskLevel == sv then 1 else 0) + CountFailing(results[1..], sv)
  }

  /** `Counter(r.risk_level for r in results if r.status == "FAIL")`: a severity is a key
      only once some failing result carries it. */
  function BySeverity(results: seq<ControlResult>): map<Severity, nat> {
    if results == [] then map[]
    else
      var counts := BySeverity(results[..|results| - 1]);
      var r := results[|results| - 1];
      if r.status == Fail then counts[r.riskLevel := (if r.riskLevel in counts then counts[r.riskLevel] else 0) + 1]
      else counts
  }

  /** The report: no `by_severity` at all when there are no results. */
  datatype ScoreReport = ScoreReport(score: real, total: nat, pass: nat, fail: nat, fixed: nat,
                                     bySeverity: Option<map<Severity, nat>>)

  /** The share of PASS and FIXED results, as a percentage (not rounded). */
  function ComplianceScore(results: seq<ControlResult>): ScoreReport {
    if results == [] then ScoreReport(0.0, 0, 0, 0, 0, None)
    else
      var pass := CountStatus(results, Pass);
      var fixed := CountStatus(results, Fixed);
      ScoreReport((pass + fixed) as real / |results| as real * 100.0, |results|, pass,
                  CountStatus(results, Fail), fixed, Some(BySeverity(results)))
  }

  /** `get_compliance_score` over the store. */
  function ScoreOf(s: DbState, accountId: Option<int>, organizationId: Option<int>): ScoreReport {
    ComplianceScore(QueryResults(s, accountId, organizationId))
  }

  // ---- Properties of the score ------------------------------------------------------

  lemma {:induction false} StatusCountsBounded(results: seq<ControlResult>)
    ensures CountStatus(results, Pass) + CountStatus(results, Fail) + CountStatus(results, Fixed) <= |results|
    ensures CountStatus(results, Pass) + CountStatus(results, Fixed) == |results| <==>
      forall i :: 0 <= i < |results| ==> results[i].status == Pass || results[i].status == Fixed
    ensures CountStatus(results, Pass) + CountStatus(results, Fixed) == 0 <==>
      forall i :: 0 <= i < |results| ==> results[i].status != Pass && results[i].status != Fixed
  {
    if results != [] {
      var init := results[..|results| - 1];
      StatusCountsBounded(init);
      assert forall i :: 0 <= i < |init| ==> init[i] == results[i];
    }
  }

  /** The counters never exceed the total; the score is a percentage, 100 exactly when
      every result passed or was fixed and 0 exactly when none did; no results score 0
      with every counter 0. */
  lemma ScoreIsPercentage(results: seq<ControlResult>)
    ensures var r := ComplianceScore(results);
      && r.total == |results|
      && r.pass + r.fail + r.fixed <= r.total
      && 0.0 <= r.score <= 100.0
      && (results != [] ==> (r.score == 100.0 <==>
            forall i :: 0 <= i < |results| ==> results[i].status == Pass || results[i].status == Fixed))
      && (r.score == 0.0 <==> forall i :: 0 <= i < |results| ==> results[i].status != Pass && results[i].status != Fixed)
      && (results == [] ==> r == ScoreReport(0.0, 0, 0, 0, 0, None))
  {
    StatusCountsBounded(results);
    if results != [] {
      Percentage(CountStatus(results, Pass) + CountStatus(results, Fixed), |results|);
    }
  }

  lemma Percentage(good: nat, total: nat)
    requires 0 < total && good <= total
    ensures 0.0 <= good as real / total as real * 100.0 <= 100.0
    ensures good as real / total as real * 100.0 == 100.0 <==> good == total
    ensures good as real / total as real * 100.0 == 0.0 <==> good == 0
  {
    var q := good as real / total as real;
    var t := total as real;
    assert q * t == good as real;
    assert 0.0 <= q;
    assert q <= 1.0;
    assert q * 100.0 == 100.0 <==> q == 1.0;
    assert q * 100.0 == 0.0 <==> q == 0.0;
    if q == 1.0 {
      assert good as real == t;
    }
    if good == total {
      assert (q - 1.0) * t == 0.0;
    }
    if q == 0.0 {
      assert good as real == 0.0 * t;
    }
  }

  lemma {:induction false} CountFailingSnoc(results: seq<ControlResult>, sv: Severity)
    requires results != []
    ensures var init := results[..|results| - 1]; var r := results[|results| - 1];
      CountFailing(results, sv) == CountFailing(init, sv) + (if r.status == Fail && r.riskLevel == sv then 1 else 0)
  {
    if |results| > 1 {
      assert results[1..][..|results[1..]| - 1] == results[..|results| - 1][1..];
      CountFailingSnoc(results[1..], sv);
    }
  }

  /** `by_severity` counts each severity's failing results, and names a severity only
      when it has some. */
  lemma {:induction false} BySeverityCounts(results: seq<ControlResult>, sv: Severity)
    ensures sv in BySeverity(results) <==> CountFailing(results, sv) > 0
    ensures sv in BySeverity(results) ==> BySeverity(results)[sv] == CountFailing(results, sv)
  {
    if results != [] {
      BySeverityCounts(results[..|results| - 1], sv);
      CountFailingSnoc(results, sv);
    }
  }

  /** Every FAIL result has one severity, so the four severities' counts add up to the
      report's `fail`. */
  lemma {:induction false} FailingAddsUp(results: seq<ControlResult>)
    ensures CountFailing(results, Critical) + CountFailing(results, High) + CountFailing(results, Medium)
            + CountFailing(results, Low) == CountStatus(results, Fail)
  {
    if results != [] {
      FailingAddsUp(results[..|results| - 1]);
      CountFailingSnoc(results, Critical);
      CountFailingSnoc(results, High);
      CountFailingSnoc(results, Medium);
      CountFailingSnoc(results, Low);
    }
  }
}
