/**
 * The control protocol of the traffic stage (`traffic_verification`). The coordinator's replies
 * are supplied as one stream per endpoint, consumed in order; a request whose stream has run dry
 * leaves the run waiting for ever (the source has no timeout), which the model reports as
 * `Blocked`. Every request the stage sends is recorded, in order.
 */
module TrafficProtocol {
  import opened Wrappers
  import opened Inventory
  import opened TrafficObjects
  import opened TrafficReport

  const StatusOk := 200
  const StatusNotFound := 404

  /** The agent barrier waits for this many entries in the group listing. */
  const MinAgents := 6

  datatype Request =
    | Create(obj: CoordObject)    // POST /object/create
    | ListGroups                  // GET /groups
    | Trigger(testRun: string)    // POST /testrun/run
    | FetchData(runId: string)    // GET /testdata?testUuid=<id>

  /** The reply to a trigger: its status and, as body text, the test run id. */
  datatype RunReply = RunReply(status: int, runId: string)

  /** The reply to a data request; `body` is None when it is not a report-shaped JSON object. */
  datatype DataReply = DataReply(status: int, body: Option<Report>)

  /** What the coordinator answers, per endpoint, in the order the answers are read. */
  datatype Replies = Replies(create: seq<int>, groups: seq<nat>, run: seq<RunReply>, data: seq<DataReply>)

  datatype Outcome =
    | Reachable                           // every target answered 200 from every agent
    | UploadRejected(obj: CoordObject)    // "Problem uploading group/testrun"
    | TriggerRejected(testRun: string)    // "Problem running testrun"
    | Unreachable(testRun: string)        // an assertion over the test data failed
    | Unreadable(testRun: string)         // the test data was not a report
    | Blocked                             // still waiting for a reply

  /** A phase of the protocol either hands what is left of its input on, or ends the run. */
  datatype Stage<T> = Continue(sent: seq<Request>, left: T) | Stop(outcome: Outcome, sent: seq<Request>)

  function After<T>(prefix: seq<Request>, s: Stage<T>): Stage<T>
  {
    match s
    case Continue(sent, left) => Continue(prefix + sent, left)
    case Stop(o, sent) => Stop(o, prefix + sent)
  }

  function CreateAll(objs: seq<CoordObject>): (r: seq<Request>)
    ensures |r| == |objs| && forall i :: 0 <= i < |objs| ==> r[i] == Create(objs[i])
  {
    seq(|objs|, i requires 0 <= i < |objs| => Create(objs[i]))
  }

  function Repeat(r: Request, n: nat): (s: seq<Request>)
    ensures |s| == n && forall i :: 0 <= i < n ==> s[i] == r
  {
    seq(n, _ => r)
  }

  // ---------------------------------------------------------------- the phases, as functions

  /** The two upload loops (groups, then test runs): each status other than 200 raises at once. */
  function Uploads(objs: seq<CoordObject>, statuses: seq<int>): Stage<seq<int>>
  {
    if objs == [] then Continue([], statuses)
    else if statuses == [] then Stop(Blocked, [Create(objs[0])])
    else if statuses[0] != StatusOk then Stop(UploadRejected(objs[0]), [Create(objs[0])])
    else After([Create(objs[0])], Uploads(objs[1..], statuses[1..]))
  }

  /** The agent barrier: list the groups until at least `MinAgents` are seen. */
  function AgentBarrier(counts: seq<nat>): Stage<seq<nat>>
  {
    if counts == [] then Stop(Blocked, [ListGroups])
    else if counts[0] >= MinAgents then Continue([ListGroups], counts[1..])
    else After([ListGroups], AgentBarrier(counts[1..]))
  }

  /** The result barrier: fetch the test data until the status is not 404; hands on that reply. */
  function ResultBarrier(runId: string, data: seq<DataReply>): Stage<(DataReply, seq<DataReply>)>
  {
    if data == [] then Stop(Blocked, [FetchData(runId)])
    else if data[0].status != StatusNotFound then Continue([FetchData(runId)], (data[0], data[1..]))
    else After([FetchData(runId)], ResultBarrier(runId, data[1..]))
  }

  /** The loop over test runs: trigger, wait for the data, validate it; the first failure ends the run. */
  function TestPhase(labels: seq<string>, runs: seq<RunReply>, data: seq<DataReply>): (Outcome, seq<Request>)
    decreases |labels|
  {
    if labels == [] then (Reachable, [])
    else
      var trigger := [Trigger(labels[0])];
      if runs == [] then (Blocked, trigger)
      else if runs[0].status != StatusOk then (TriggerRejected(labels[0]), trigger)
      else
        match ResultBarrier(runs[0].runId, data)
        case Stop(o, polls) => (o, trigger + polls)
        case Continue(polls, (reply, rest)) =>
          if reply.body.None? then (Unreadable(labels[0]), trigger + polls)
          else if !ReportPasses(reply.body.value) then (Unreachable(labels[0]), trigger + polls)
          else
            var (o, later) := TestPhase(labels[1..], runs[1..], rest);
            (o, trigger + polls + later)
  }

  function Labels(objs: seq<CoordObject>): (r: seq<string>)
    ensures |r| == |objs| && forall i :: 0 <= i < |objs| ==> r[i] == objs[i].name
  {
    seq(|objs|, i requires 0 <= i < |objs| => objs[i].name)
  }

  /** Everything the stage uploads: the group first, then the test runs. */
  function Objects(minikubeIp: string, services: seq<Service>): seq<CoordObject>
  {
    Groups() + TestRuns(minikubeIp, services)
  }

  /** The whole traffic stage: its outcome and every request it sends, in order. */
  function Protocol(minikubeIp: string, services: seq<Service>, replies: Replies): (Outcome, seq<Request>)
  {
    match Uploads(Objects(minikubeIp, services), replies.create)
    case Stop(o, uploads) => (o, uploads)
    case Continue(uploads, _) =>
      match AgentBarrier(replies.groups)
      case Stop(o, polls) => (o, uploads + polls)
      case Continue(polls, _) =>
        var (o, tests) := TestPhase(Labels(TestRuns(minikubeIp, services)), replies.run, replies.data);
        (o, uploads + polls + tests)
  }

  // ---------------------------------------------------------------- the phases, as the source runs them

  method UploadObjects(objs: seq<CoordObject>, statuses: seq<int>) returns (stage: Stage<seq<int>>)
    ensures stage == Uploads(objs, statuses)
  {
    var sent: seq<Request> := [];
    for i := 0 to |objs|
      invariant i <= |statuses|
      invariant Uploads(objs, statuses) == After(sent, Uploads(objs[i..], statuses[i..]))
    {
      UploadsNext(objs, statuses, i);
      if i == |statuses| {
        return Stop(Blocked, sent + [Create(objs[i])]);
      }
      AfterAfter(sent, [Create(objs[i])], Uploads(objs[i + 1..], statuses[i + 1..]));
      sent := sent + [Create(objs[i])];
      if statuses[i] != StatusOk {
        return Stop(UploadRejected(objs[i]), sent);
      }
    }
    return Continue(sent, statuses[|objs|..]);
  }

  /** One step of the upload loop, read off `Uploads`. */
  lemma UploadsNext(objs: seq<CoordObject>, statuses: seq<int>, i: nat)
    requires i < |objs| && i <= |statuses|
    ensures Uploads(objs[i..], statuses[i..]) ==
      if i == |statuses| then Stop(Blocked, [Create(objs[i])])
      else if statuses[i] != StatusOk then Stop(UploadRejected(objs[i]), [Create(objs[i])])
      else After([Create(objs[i])], Uploads(objs[i + 1..], statuses[i + 1..]))
  {
    assert objs[i..][0] == objs[i] && objs[i..][1..] == objs[i + 1..];
    if i < |statuses| {
      assert statuses[i..][0] == statuses[i] && statuses[i..][1..] == statuses[i + 1..];
    }
  }

  lemma AfterAfter<T>(a: seq<Request>, b: seq<Request>, s: Stage<T>)
    ensures After(a, After(b, s)) == After(a + b, s)
  {
    match s
    case Continue(sent, _) => assert a + (b + sent) == a + b + sent;
    case Stop(_, sent) => assert a + (b + sent) == a + b + sent;
  }

  /** One poll of the agent barrier, read off `AgentBarrier`. */
  lemma AgentBarrierNext(counts: seq<nat>, i: nat)
    requires i <= |counts|
    ensures AgentBarrier(counts[i..]) ==
      if i == |counts| then Stop(Blocked, [ListGroups])
      else if counts[i] >= MinAgents then Continue([ListGroups], counts[i + 1..])
      else After([ListGroups], AgentBarrier(counts[i + 1..]))
  {
    if i < |counts| {
      assert counts[i..][0] == counts[i] && counts[i..][1..] == counts[i + 1..];
    }
  }

  /** One poll of the result barrier, read off `ResultBarrier`. */
  lemma ResultBarrierNext(runId: string, data: seq<DataReply>, i: nat)
    requires i <= |data|
    ensures ResultBarrier(runId, data[i..]) ==
      if i == |data| then Stop(Blocked, [FetchData(runId)])
      else if data[i].status != StatusNotFound then Continue([FetchData(runId)], (data[i], data[i + 1..]))
      else After([FetchData(runId)], ResultBarrier(runId, data[i + 1..]))
  {
    if i < |data| {
      assert data[i..][0] == data[i] && data[i..][1..] == data[i + 1..];
    }
  }

  method WaitForAgents(counts: seq<nat>) returns (stage: Stage<seq<nat>>)
    ensures stage == AgentBarrier(counts)
  {
    var sent: seq<Request> := [];
    var i := 0;
    while true
      invariant i <= |counts|
      invariant AgentBarrier(counts) == After(sent, AgentBarrier(counts[i..]))
      decreases |counts| - i
    {
      AgentBarrierNext(counts, i);
      if i == |counts| {
        return Stop(Blocked, sent + [ListGroups]);
      }
      if counts[i] >= MinAgents {
        return Continue(sent + [ListGroups], counts[i + 1..]);
      }
      AfterAfter(sent, [ListGroups], AgentBarrier(counts[i + 1..]));
      sent := sent + [ListGroups];
      i := i + 1;
    }
  }

  method WaitForTestData(runId: string, data: seq<DataReply>) returns (stage: Stage<(DataReply, seq<DataReply>)>)
    ensures stage == ResultBarrier(runId, data)
  {
    var sent: seq<Request> := [];
    var i := 0;
    while true
      invariant i <= |data|
      invariant ResultBarrier(runId, data) == After(sent, ResultBarrier(runId, data[i..]))
      decreases |data| - i
    {
      ResultBarrierNext(runId, data, i);
      if i == |data| {
        return Stop(Blocked, sent + [FetchData(runId)]);
      }
      if data[i].status != StatusNotFound {
        return Continue(sent + [FetchData(runId)], (data[i], data[i + 1..]));
      }
      AfterAfter(sent, [FetchData(runId)], ResultBarrier(runId, data[i + 1..]));
      sent := sent + [FetchData(runId)];
      i := i + 1;
    }
  }

  method RunTestruns(labels: seq<string>, runs: seq<RunReply>, data: seq<DataReply>)
    returns (outcome: Outcome, sent: seq<Request>)
    ensures (outcome, sent) == TestPhase(labels, runs, data)
  {
    sent := [];
    var rest := data;
    for i := 0 to |labels|
      invariant i <= |runs|
      invariant TestPhase(labels, runs, data).0 == TestPhase(labels[i..], runs[i..], rest).0
      invariant TestPhase(labels, runs, data).1 == sent + TestPhase(labels[i..], runs[i..], rest).1
    {
      ghost var before := sent;
      sent := sent + [Trigger(labels[i])];
      if i == |runs| {
        return Blocked, sent;
      }
      assert labels[i..][0] == labels[i] && runs[i..][0] == runs[i];
      assert labels[i..][1..] == labels[i + 1..] && runs[i..][1..] == runs[i + 1..];
      if runs[i].status != StatusOk {
        return TriggerRejected(labels[i]), sent;
      }
      var stage := WaitForTestData(runs[i].runId, rest);
      if stage.Stop? {
        assert sent + stage.sent == before + ([Trigger(labels[i])] + stage.sent);
        return stage.outcome, sent + stage.sent;
      }
      sent := sent + stage.sent;
      assert sent == before + ([Trigger(labels[i])] + stage.sent);
      var reply := stage.left.0;
      rest := stage.left.1;
      if reply.body.None? {
        return Unreadable(labels[i]), sent;
      }
      var failure := ValidateReport(reply.body.value);
      if failure.Some? {
        return Unreachable(labels[i]), sent;
      }
      assert forall later :: before + ([Trigger(labels[i])] + stage.sent + later) == sent + later;
    }
    assert labels[|labels|..] == [];
    assert sent + [] == sent;
    return Reachable, sent;
  }

  /** `traffic_verification` against the supplied replies. */
  method TrafficVerification(minikubeIp: string, services: seq<Service>, replies: Replies)
    returns (outcome: Outcome, sent: seq<Request>)
    ensures (outcome, sent) == Protocol(minikubeIp, services, replies)
  {
    var testruns := TestRuns(minikubeIp, services);
    var uploads := UploadObjects(Groups() + testruns, replies.create);
    if uploads.Stop? {
      return uploads.outcome, uploads.sent;
    }
    var barrier := WaitForAgents(replies.groups);
    if barrier.Stop? {
      return barrier.outcome, uploads.sent + barrier.sent;
    }
    var tests;
    outcome, tests := RunTestruns(Labels(testruns), replies.run, replies.data);
    sent := uploads.sent + barrier.sent + tests;
  }
}
