/**
 * Validation of the coordinator's test data: a map from agent to (target to metrics), where every
 * agent must report at least one target and every target an `http_code` of exactly the string
 * "200".
 */
module TrafficReport {
  import opened Wrappers
  import opened Values

  type Metric = map<string, Scalar>
  type Targets = map<string, Metric>
  type Report = map<string, Targets>

  const HttpCode := "http_code"
  const HttpOk := Str("200")

  /** `metric['http_code'] == '200'`: a missing key fails, and so does the number 200. */
  predicate TargetReachable(metric: Metric)
  {
    HttpCode in metric && metric[HttpCode] == HttpOk
  }

  /** `assert targets`, then every target reachable. */
  predicate AgentReachesAll(targets: Targets)
  {
    |targets| > 0 && forall t :: t in targets ==> TargetReachable(targets[t])
  }

  predicate ReportPasses(report: Report)
  {
    forall a :: a in report ==> AgentReachesAll(report[a])
  }

  /** What an assertion of the validation loop stops on. */
  datatype ReportFailure =
    | NoTargets(agent: string)
    | NoHttpCode(agent: string, target: string)
    | BadHttpCode(agent: string, target: string, code: Scalar)

  /** `failure` names a genuine violation in `report`. */
  predicate Violates(report: Report, failure: ReportFailure)
  {
    && failure.agent in report
    && match failure
       case NoTargets(a) => |report[a]| == 0
       case NoHttpCode(a, t) => t in report[a] && HttpCode !in report[a][t]
       case BadHttpCode(a, t, c) => t in report[a] && HttpCode in report[a][t] &&
                                    report[a][t][HttpCode] == c && c != HttpOk
  }

  /** The inner loop, over one agent's targets. */
  method CheckTargets(agent: string, targets: Targets) returns (failure: Option<ReportFailure>)
    ensures failure.None? <==> forall t :: t in targets ==> TargetReachable(targets[t])
    ensures failure.Some? ==> Violates(map[agent := targets], failure.value)
  {
    var left := targets.Keys;
    while left != {}
      invariant left <= targets.Keys
      invariant forall t :: t in targets && t !in left ==> TargetReachable(targets[t])
      decreases left
    {
      var t :| t in left;
      var metric := targets[t];
      if HttpCode !in metric {
        return Some(NoHttpCode(agent, t));
      }
      if metric[HttpCode] != HttpOk {
        return Some(BadHttpCode(agent, t, metric[HttpCode]));
      }
      left := left - {t};
    }
    return None;
  }

  /**
   * The nested loops over the report: the first violation stops the validation; a report with no
   * agents at all passes.
   */
  method ValidateReport(report: Report) returns (failure: Option<ReportFailure>)
    ensures failure.None? <==> ReportPasses(report)
    ensures failure.Some? ==> Violates(report, failure.value)
  {
    var left := report.Keys;
    while left != {}
      invariant left <= report.Keys
      invariant forall a :: a in report && a !in left ==> AgentReachesAll(report[a])
      decreases left
    {
      var a :| a in left;
      var targets := report[a];
      if |targets| == 0 {
        return Some(NoTargets(a));
      }
      failure := CheckTargets(a, targets);
      if failure.Some? {
        return failure;
      }
      left := left - {a};
    }
    return None;
  }
}
