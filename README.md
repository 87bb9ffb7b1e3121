# netverify-demo verification core, in Dafny

This project models the verification orchestration of the netverify demo. The demo checks that a
Junos vSRX firewall and a Kubernetes cluster agree about the services the cluster exposes. It does
this in three stages, and the model covers all three:

- **Inventory.** Kubernetes services are filtered to those whose first port has a node port. Each
  one is projected to a `{name, port}` record (`Inventory`).
- **Configuration stage.** The demo writes one JSNAPy test per service. Each test requires the
  application object `k8s<name>` to carry the service's port as its `destination-port`. The demo
  lists the test files and accepts the run only if every check result is `"Passed"`
  (`ConfigCheck`, with `Naming` for the device object names and `Decimal` for Python's `str(int)`).
- **Operational stage.** A fixed three-statement compliance document is built: two strict
  zero-loss pings and a device-facts check. The report passes only when its root `complies` is
  the boolean true (`OperationalCheck`).
- **Traffic stage.** The demo registers one agent group and one test run per service with the
  load-test coordinator. It then:
  - aborts on any upload status other than 200;
  - waits until the group listing shows at least six agents;
  - triggers each test run in turn, aborting on a status other than 200;
  - waits for each run's data until a reply is not 404;
  - checks that every agent reached every target with an `http_code` of exactly the string `"200"`.

  These parts live in `TrafficObjects`, `TrafficReport`, `TrafficProtocol` and
  `TrafficProperties`.

## How the model is built

Each step of the traffic stage is written twice:

- as a specification function over the coordinator's replies (`Uploads`, `AgentBarrier`,
  `ResultBarrier`, `TestPhase`, `Protocol`);
- as the loop the script runs (`UploadObjects`, `WaitForAgents`, `WaitForTestData`, `RunTestruns`,
  `TrafficVerification`), proved equal to its function.

The coordinator's replies are supplied as one finite stream per endpoint. When a stream runs dry,
the script would still be waiting, and the model reports `Blocked`.

The test-file loop is modelled the same way. `GenerateTests` is proved equal to `TestFiles` and to
`Writes`, which is the file map left by writing each test in turn.

## Behaviour kept as written

- Test files stay in inventory order, with no sorting and no removal of duplicates.
- Check results are judged one by one, in order, by position alone.
- The compliance document holds no per-service statement, whatever the inventory.
- Report validation stops at the first violation it meets.

## Model

| member | source | states |
|---|---|---|
| Inventory.ExposedServices | scripts/lib/k8s.py:11-17 | the comprehension fails exactly when some record has no ports, because indexing `ports[0]` raises; the failure carries the first such record |
| Inventory.ExposedInOrder | scripts/lib/k8s.py:11-17 | each output is `(metadata.name, ports[0].node_port)` of an exposed record; outputs keep input order; every exposed record appears exactly once |
| Inventory.ExposedPortsNonZero | scripts/lib/k8s.py:16 | every service handed on has a truthy (non-zero) node port |
| Inventory.ExposedLength | scripts/lib/k8s.py:11-17 | the output is no longer than the input; it is exactly as long iff every record's first port has a truthy node port |
| Naming.AppObjectName | scripts/verification_demo.py:80 | the application object name starts with `k8s`, followed by the unchanged service name |
| Naming.AppObjectNameInjective | scripts/verification_demo.py:93 | distinct services never share an application object |
| Naming.UpperChar | scripts/verification_demo.py:89 | ASCII upper-casing maps lower-case letters to their capitals and leaves every other character alone |
| Naming.Upper | scripts/verification_demo.py:89 | `upper()` keeps the length and upper-cases each character in place |
| Naming.PolicyName | scripts/verification_demo.py:89 | the policy name starts with `K8SPOLICY_ALLOW_`, followed by the upper-cased service name, with no lower-case letter left in that part |
| Naming.PolicyNameInjective | scripts/verification_demo.py:92 | services whose names have no capitals get distinct policy names |
| Naming.PolicyNameFoldsCase | scripts/verification_demo.py:92 | names that differ only in letter case share one policy name |
| Decimal.FromInt | scripts/verification_demo.py:115 | `%s` of a port gives a `-` exactly for negatives, followed by decimal digits |
| Decimal.ParseFromInt | scripts/verification_demo.py:115 | the rendered port reads back as the same integer |
| Decimal.FromIntParse | scripts/verification_demo.py:115 | only canonical renderings parse: a parsed string is the rendering of its value |
| Decimal.FromIntInjective | scripts/verification_demo.py:115 | distinct ports render differently |
| ConfigCheck.TemplateRoundTrip | scripts/verification_demo.py:105-118 | over any fixed template pieces, the name and the port can be read back from the filled-in text |
| ConfigCheck.TemplateExact | scripts/verification_demo.py:105-118 | a text that parses is exactly the template filled in with the parsed name and port |
| ConfigCheck.ParseTestTextRoundTrip | scripts/verification_demo.py:105-118 | the test text is named `test_app_<name>`, its xpath selects `k8s<name>`, and it expects `port` as `destination-port`; all three read back from the text |
| ConfigCheck.ParseTestTextExact | scripts/verification_demo.py:105-118 | only texts the generator writes parse, so name and port determine the test text |
| ConfigCheck.TestText | scripts/verification_demo.py:105-118 | `get_test_text`: the YAML test `test_app_<name>` requiring `destination-port` of `k8s<name>` to be the port; its properties are stated by `ParseTestTextRoundTrip` (name and port read back) and `ParseTestTextExact` (nothing else parses) |
| ConfigCheck.TestFileName | scripts/verification_demo.py:135 | the test file name is `scripts/jsnapytest_`, then the service name, then `.yaml` |
| ConfigCheck.TestFileNameInjective | scripts/verification_demo.py:135 | distinct services get distinct test files |
| ConfigCheck.GenerateTests | scripts/verification_demo.py:132-140 | the test list holds one `scripts/jsnapytest_<name>.yaml` per service, in input order, with no sorting or removal of duplicates; the file map is the one that writing each test in turn leaves |
| ConfigCheck.WritesNamed | scripts/verification_demo.py:136-137 | the file map holds a file exactly when some write went to it |
| ConfigCheck.WritesLatest | scripts/verification_demo.py:136-137 | a file holds the value of the last write to it |
| ConfigCheck.GeneratedFilesNamed | scripts/verification_demo.py:132-140 | the configuration lists exactly the test files written, no more and no fewer |
| ConfigCheck.GeneratedFileLatest | scripts/verification_demo.py:135-137 | services of the same name share a file, which holds the test of the last of them |
| ConfigCheck.CheckResults | scripts/verification_demo.py:151-152 | the stage passes iff every result is `"Passed"`, so an empty list passes; otherwise it stops at the first other result |
| OperationalCheck.PingStatement | scripts/verification_demo.py:182-197 | a ping statement targets the given destination under the name `pingtest_<service>` |
| OperationalCheck.VerifyDoc | scripts/verification_demo.py:199-204 | `verify_doc`: the compliance document; its shape (three fixed statements, independent of the services) is stated by `VerifyDocShape` |
| OperationalCheck.VerifyDocShape | scripts/verification_demo.py:199-204 | the document is always exactly three statements, the same for every inventory: a strict zero-loss `pingtest_k8s` to minikube, a strict zero-loss `pingtest_bastionmachine` to 192.168.100.10, then the facts check |
| OperationalCheck.OperationalVerdict | scripts/verification_demo.py:213 | the stage passes iff `complies` is the boolean true; any other value fails, including 1, `"true"` or null |
| OperationalCheck.VerdictIgnoresDetail | scripts/verification_demo.py:213 | per-statement detail never changes the verdict |
| TrafficObjects.TestRuns | scripts/verification_demo.py:218-234 | there is one test run per service |
| TrafficObjects.Groups | scripts/verification_demo.py:236-249 | `groups`: the single agent group `bastion_agents` matching `todd-agent-.*`; `TestRunSourcesRegistered` states that every test run's source is this group |
| TrafficObjects.TestRunsShape | scripts/verification_demo.py:218-234 | run `i` is labelled `test-<name_i>` and sends HTTP from `bastion_agents`; its single target is `<minikube_ip>:<port_i>`, which splits back into that host and port |
| TrafficObjects.SplitTargetRoundTrip | scripts/verification_demo.py:230 | a target built from a colon-free host and a port splits back into both |
| TrafficObjects.TestRunSourcesRegistered | scripts/verification_demo.py:218-249 | every test run draws traffic from a group that the stage itself registers |
| TrafficObjects.TestRunLabelInjective | scripts/verification_demo.py:221 | distinct services get distinct test run labels |
| TrafficReport.CheckTargets | scripts/verification_demo.py:298-299 | one agent passes iff every target's `http_code` is present and equal to the string `"200"`; a failure names a real violation |
| TrafficReport.ValidateReport | scripts/verification_demo.py:296-299 | the report passes iff every agent has a non-empty target map in which every target is reachable, so a report with no agents passes; a failure names a real violation |
| TrafficProtocol.UploadObjects | scripts/verification_demo.py:254-267 | the upload loops send exactly what `Uploads` says |
| TrafficProtocol.WaitForAgents | scripts/verification_demo.py:270-275 | the agent barrier polls exactly as `AgentBarrier` says |
| TrafficProtocol.WaitForTestData | scripts/verification_demo.py:286-291 | the result barrier polls exactly as `ResultBarrier` says |
| TrafficProtocol.RunTestruns | scripts/verification_demo.py:277-300 | the loop over test runs has the outcome and sends the requests that `TestPhase` says |
| TrafficProtocol.TrafficVerification | scripts/verification_demo.py:216-300 | the traffic stage has the outcome and sends the requests that `Protocol` says |
| TrafficProperties.UploadsStopAtFirstRejection | scripts/verification_demo.py:254-267 | uploads go out in order while the answers are 200; the first other status ends the run on that object, and nothing after it is uploaded |
| TrafficProperties.AgentBarrierWaits | scripts/verification_demo.py:270-275 | the barrier never lets the run on while fewer than six agents are listed, and lets it on at the first listing of six or more |
| TrafficProperties.ResultBarrierWaits | scripts/verification_demo.py:286-291 | data is fetched again on every 404; the first other reply is used, whatever its status |
| TrafficProperties.TestPhaseRequests | scripts/verification_demo.py:277-291 | the test phase sends only triggers and data requests |
| TrafficProperties.TestPhaseStopsAtRejectedTrigger | scripts/verification_demo.py:280-281 | a trigger answered with a status other than 200 is the last request of the phase |
| TrafficProperties.TestPhaseTriggerRejected | scripts/verification_demo.py:277-281 | the phase ends `TriggerRejected` iff every report judged so far passed and the next run's trigger was answered other than 200; the outcome names that run |
| TrafficProperties.TestPhaseFetchesOwnRun | scripts/verification_demo.py:277-291 | every data request follows at least one trigger and asks for the id that the reply to the last trigger before it returned; the triggers before it are the first labels, in order |
| TrafficProperties.TestPhaseReachable | scripts/verification_demo.py:277-300 | a passing phase triggered every label once, in order, and every trigger was answered 200 |
| TrafficProperties.UploadRejectionEndsRun | scripts/verification_demo.py:254-267 | after a rejected upload only uploads were sent, the rejected object last |
| TrafficProperties.TriggersFollowBarrier | scripts/verification_demo.py:254-278 | nothing is triggered until every object is uploaded and the barrier has seen six agents; after that come only triggers and data requests |
| TrafficProperties.TriggerRejectionEndsRun | scripts/verification_demo.py:277-281 | a rejected trigger is the last request of the whole run |
| TrafficProperties.ProtocolTriggerRejected | scripts/verification_demo.py:216-281 | the stage ends `TriggerRejected` iff uploads were accepted, the barrier saw six agents, every report judged so far passed and the next service's trigger was answered other than 200; the outcome names that service's run |
| TrafficProperties.ReachableCoversEveryService | scripts/verification_demo.py:216-300 | a passing run had every upload accepted and passed the barrier; it triggered exactly the test runs `test-<name>` of the services, in inventory order |
| TrafficProperties.Validated | scripts/verification_demo.py:277-299 | the reports the test phase judges: at most one per test run, and every one before the last passed its assertions |
| TrafficProperties.TestPhaseVerdict | scripts/verification_demo.py:277-300 | the phase passes iff every test run's data was judged and every report passed; it ends `Unreachable` iff the last judged reply is a failing report, `Unreadable` iff it is not a report, naming that reply's test run |
| TrafficProperties.ProtocolReachesTests | scripts/verification_demo.py:254-277 | the test phase decides the outcome iff every upload was accepted and the barrier saw six agents; otherwise the run ends on an upload or waiting |
| TrafficProperties.ProtocolVerdict | scripts/verification_demo.py:216-300 | the stage passes iff every upload was accepted, the barrier saw six agents, and every service's report was judged and passed; an `Unreachable` stage names the service whose report, the last judged, failed |

## Left out

- The Kubernetes client calls (`scripts/lib/k8s.py:6-8`) are left out: the service records are a parameter.
- Records without `metadata.name`, and ports that are not integers, are not modelled.
- Argument parsing, stage dispatch and printing in `main` are left out. This includes the banner that is printed even after "Invalid subcommand" and the `IndexError` message.
- `old_config_verification` keeps only its naming rules. Its device session, XPath evaluation, `recursive_dict` and its assertions on `permit` and the untrust zone depend on lxml and a live device. It is never called.
- File writes are modelled as a map from file name to content; path semantics are not modelled. The YAML dump of the JSNAPy configuration, its host entry and the credentials are left out.
- `SnapAdmin().snapcheck` is left out: its check results are an input.
- NAPALM's `compliance_report` and the device session are left out: the report is an input.
- HTTP requests, JSON encoding of the uploaded objects, the coordinator URL and `time.sleep` are left out. Replies are supplied per endpoint, and coordinator objects are datatypes rather than JSON documents.
- The script waits for ever when the coordinator never answers as hoped, and the model has no such wait. When a reply stream runs dry, the run ends as `Blocked`.
- A data reply whose body is not report-shaped JSON ends the run as `Unreadable`. The exception `.json()` or `.items()` would raise is not modelled.
- JSON floats are not modelled: scalars are null, booleans, integers and strings.
- Metric values are assumed to be scalars. A report whose metrics hold objects or arrays is taken as not a report and ends the run as `Unreadable`, although Python reads only `http_code` and may accept it. Whether a failure is `Unreachable` or `Unreadable` is decided by the shape of the whole body, not by which exception Python would meet first.
- Exceptions are outcome values, and their messages are not modelled.
- Naming.UpperChar: upper-cases ASCII letters only. Python's `str.upper` also maps other Unicode letters, some to several characters.
- TrafficReport.ValidateReport: the order in which agents and targets are visited is left open. Python visits them in insertion order, so when a report has several violations the model does not say which one is reported.
- TrafficObjects.TestRunsShape: the round trip of the target is stated only for a host without a colon. An IPv6 address would not split back unambiguously.
- The `minikube_ip` argument is taken as a string. When the flag is missing, Python would render it as `None`.
- The verdicts over results are Python `assert`s (`scripts/verification_demo.py:152`, `:213`, `:297`, `:299`), and the model assumes assertions are enabled. Under `python -O` these four are skipped: the configuration and operational stages pass whatever the results, and the traffic stage fails only on a rejected upload or trigger (explicit `raise`, `:257`, `:265`, `:281`) or an unreadable report, while both waits still block.
