/**
 * The operational stage (`operational_verification`): the compliance document handed to the
 * device driver's compliance report, and the verdict read from the report's root.
 */
module OperationalCheck {
  import opened Wrappers
  import opened Values
  import opened Inventory

  /** One statement of the compliance document. */
  datatype Statement =
    | Ping(name: string, destination: string, packetLoss: int, mode: string)
    | GetFacts(osVersion: string, interfaceList: seq<string>)

  const BastionAddress := "192.168.100.10"

  /** Device facts: any OS version, and exactly these three interfaces. */
  const FactsCheck := GetFacts("", ["ge-0/0/0", "ge-0/0/1", "ge-0/0/2"])

  /** `get_ping_statement`: a ping named after the target that must lose no packets, in strict mode. */
  function PingStatement(serviceName: string, target: string): (s: Statement)
    ensures s.Ping? && s.destination == target && s.name == "pingtest_" + serviceName
  {
    Ping("pingtest_" + serviceName, target, 0, "strict")
  }

  /** A ping statement that admits no packet loss and must comply strictly. */
  predicate StrictZeroLoss(s: Statement)
  {
    s.Ping? && s.packetLoss == 0 && s.mode == "strict"
  }

  /** `verify_doc`: the minikube host, the bastion host, then the device facts. */
  function VerifyDoc(minikubeIp: string, services: seq<Service>): (doc: seq<Statement>)
  {
    [PingStatement("k8s", minikubeIp), PingStatement("bastionmachine", BastionAddress), FactsCheck]
  }

  /**
   * The document is always three statements, the same for every inventory: a strict zero-loss
   * ping `pingtest_k8s` to minikube, one `pingtest_bastionmachine` to the bastion host, and the
   * facts check.
   */
  lemma VerifyDocShape(minikubeIp: string, services: seq<Service>, others: seq<Service>)
    ensures var doc := VerifyDoc(minikubeIp, services);
      && |doc| == 3
      && doc == VerifyDoc(minikubeIp, others)
      && StrictZeroLoss(doc[0]) && doc[0].name == "pingtest_k8s" && doc[0].destination == minikubeIp
      && StrictZeroLoss(doc[1]) && doc[1].name == "pingtest_bastionmachine"
      && doc[1].destination == BastionAddress
      && doc[2] == FactsCheck
      && (forall s :: s in doc && s.Ping? ==> StrictZeroLoss(s))
  {
    var doc := VerifyDoc(minikubeIp, services);
    assert forall s :: s in doc ==> s == doc[0] || s == doc[1] || s == doc[2];
  }

  /** The compliance report: its root `complies` value and the per-statement detail. */
  datatype ComplianceReport = ComplianceReport(complies: Scalar, detail: map<string, Scalar>)

  datatype OperationalFailure = NotCompliant(complies: Scalar)

  /** `assert report['complies'] is True`: only the boolean true passes, whatever the detail says. */
  function OperationalVerdict(report: ComplianceReport): (r: Result<(), OperationalFailure>)
    ensures r.Success? <==> report.complies == Bool(true)
  {
    if report.complies == Bool(true) then Success(()) else Failure(NotCompliant(report.complies))
  }

  /** The verdict depends on the root value only: per-statement detail never changes it. */
  lemma VerdictIgnoresDetail(a: ComplianceReport, b: ComplianceReport)
    requires a.complies == b.complies
    ensures OperationalVerdict(a) == OperationalVerdict(b)
  {
  }
}
