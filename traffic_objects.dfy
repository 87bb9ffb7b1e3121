/**
 * The objects the traffic stage registers with the load-test coordinator (`traffic_verification`):
 * one agent group and one test run per service.
 */
module TrafficObjects {
  import opened Wrappers
  import opened Decimal
  import opened Text
  import opened Inventory

  /** The agents a test run sends traffic from. */
  datatype Source = Source(name: string, app: string, args: string)

  /** A coordinator object; `name` is its `label`. */
  datatype CoordObject =
    | TestRun(name: string, targetType: string, source: Source, targets: seq<string>)
    | Group(name: string, group: string, hostnameMatches: seq<string>)

  /** The group of measurement agents on the bastion host. */
  const AgentGroup := "bastion_agents"

  /** `"%s:%s" % (minikube_ip, port)`. */
  function Target(minikubeIp: string, port: int): string
  {
    minikubeIp + ":" + FromInt(port)
  }

  /** Splits a target at its first colon into host and port. */
  function SplitTarget(target: string): Option<(string, int)>
  {
    match FirstIndex(target, ':')
    case None => None
    case Some(c) =>
      match ParseInt(target[c + 1..])
      case None => None
      case Some(port) => Some((target[..c], port))
  }

  /** A target names its host and port unambiguously when the host has no colon (an IPv4 address). */
  lemma SplitTargetRoundTrip(minikubeIp: string, port: int)
    requires ':' !in minikubeIp
    ensures SplitTarget(Target(minikubeIp, port)) == Some((minikubeIp, port))
  {
    var t := Target(minikubeIp, port);
    assert t[..|minikubeIp|] == minikubeIp;
    FirstIndexAt(t, ':', |minikubeIp|);
    assert t[|minikubeIp| + 1..] == FromInt(port);
    ParseFromInt(port);
  }

  function TestRunLabel(serviceName: string): string
  {
    "test-" + serviceName
  }

  /** The test run of one service: HTTP from the agent group to the service's node port. */
  function TestRunFor(minikubeIp: string, service: Service): CoordObject
  {
    TestRun(TestRunLabel(service.name), "uncontrolled", Source(AgentGroup, "http", ""),
            [Target(minikubeIp, service.port)])
  }

  /** The `testruns` list: one test run per service, in inventory order. */
  function TestRuns(minikubeIp: string, services: seq<Service>): (runs: seq<CoordObject>)
    ensures |runs| == |services|
  {
    if services == [] then [] else [TestRunFor(minikubeIp, services[0])] + TestRuns(minikubeIp, services[1..])
  }

  /** The `groups` list: the agents whose host name matches `todd-agent-.*`. */
  function Groups(): seq<CoordObject>
  {
    [Group(AgentGroup, AgentGroup, ["todd-agent-.*"])]
  }

  /**
   * Test run `i` belongs to service `i`: it is labelled `test-<name>`, sends HTTP from the agent
   * group, and has the single target `<minikube_ip>:<port>`, which splits back into that host and
   * port when the host is an address without colons.
   */
  lemma {:induction false} TestRunsShape(minikubeIp: string, services: seq<Service>, i: nat)
    requires i < |services|
    ensures var run := TestRuns(minikubeIp, services)[i];
      && run.TestRun?
      && run.name == TestRunLabel(services[i].name)
      && run.source == Source(AgentGroup, "http", "")
      && |run.targets| == 1
      && (':' !in minikubeIp ==> SplitTarget(run.targets[0]) == Some((minikubeIp, services[i].port)))
  {
    if i == 0 {
      if ':' !in minikubeIp {
        SplitTargetRoundTrip(minikubeIp, services[0].port);
      }
    } else {
      TestRunsShape(minikubeIp, services[1..], i - 1);
    }
  }

  /** Every test run draws its traffic from a group that the stage registers. */
  lemma {:induction false} TestRunSourcesRegistered(minikubeIp: string, services: seq<Service>)
    ensures forall r :: r in TestRuns(minikubeIp, services) ==>
              r.TestRun? && exists g :: g in Groups() && g.Group? && g.name == r.source.name
  {
    if services != [] {
      TestRunSourcesRegistered(minikubeIp, services[1..]);
      assert Groups()[0] in Groups();
    }
  }

  /** Services with distinct names get test runs with distinct labels. */
  lemma TestRunLabelInjective(a: string, b: string)
    ensures TestRunLabel(a) == TestRunLabel(b) ==> a == b
  {
    if TestRunLabel(a) == TestRunLabel(b) {
      assert a == TestRunLabel(a)[5..];
    }
  }
}
