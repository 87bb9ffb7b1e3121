/** What the traffic stage's protocol guarantees, proved about its phases and about the whole run. */
module TrafficProperties {
  import opened Inventory
  import opened TrafficObjects
  import opened TrafficReport
  import opened TrafficProtocol

  /** Listing `k` is the first to show at least `MinAgents` entries. */
  ghost predicate FirstReady(counts: seq<nat>, k: nat)
  {
    k < |counts| && counts[k] >= MinAgents && forall j :: 0 <= j < k ==> counts[j] < MinAgents
  }

  /** Data reply `k` is the first whose status is not 404. */
  ghost predicate FirstFound(data: seq<DataReply>, k: nat)
  {
    k < |data| && data[k].status != StatusNotFound && forall j :: 0 <= j < k ==> data[j].status == StatusNotFound
  }

  /** The test runs triggered by a sequence of requests, in order. */
  function Triggered(sent: seq<Request>): (r: seq<string>)
    ensures |r| <= |sent|
  {
    if sent == [] then []
    else (if sent[0].Trigger? then [sent[0].testRun] else []) + Triggered(sent[1..])
  }

  lemma {:induction false} TriggeredAppend(a: seq<Request>, b: seq<Request>)
    ensures Triggered(a + b) == Triggered(a) + Triggered(b)
  {
    if a == [] {
      assert a + b == b;
    } else {
      var head := if a[0].Trigger? then [a[0].testRun] else [];
      assert (a + b)[0] == a[0] && (a + b)[1..] == a[1..] + b;
      assert Triggered(a + b) == head + Triggered(a[1..] + b);
      TriggeredAppend(a[1..], b);
      assert head + (Triggered(a[1..]) + Triggered(b)) == (head + Triggered(a[1..])) + Triggered(b);
    }
  }

  lemma {:induction false} TriggeredNone(sent: seq<Request>)
    requires forall r :: r in sent ==> !r.Trigger?
    ensures Triggered(sent) == []
  {
    if sent != [] {
      assert sent[0] in sent;
      TriggeredNone(sent[1..]);
    }
  }

  /**
   * The agent barrier lists the groups until, and exactly until, the first listing that shows
   * at least six entries; while the listings stay below six it never lets the run go on.
   */
  lemma {:induction false} AgentBarrierWaits(counts: seq<nat>)
    ensures match AgentBarrier(counts)
      case Continue(sent, left) =>
        |sent| >= 1 && FirstReady(counts, |sent| - 1) && sent == Repeat(ListGroups, |sent|) &&
        left == counts[|sent|..]
      case Stop(o, sent) =>
        o == Blocked && sent == Repeat(ListGroups, |counts| + 1) &&
        forall j :: 0 <= j < |counts| ==> counts[j] < MinAgents
  {
    if counts != [] && counts[0] < MinAgents {
      var tail := counts[1..];
      AgentBarrierWaits(tail);
      match AgentBarrier(tail)
      case Continue(sent, left) =>
        assert [ListGroups] + sent == Repeat(ListGroups, |sent| + 1);
        assert counts[|sent| + 1..] == left;
        forall j | 0 <= j < |sent| ensures counts[j] < MinAgents {
          if j > 0 { assert counts[j] == tail[j - 1]; }
        }
      case Stop(o, sent) =>
        assert [ListGroups] + sent == Repeat(ListGroups, |counts| + 1);
        forall j | 0 <= j < |counts| ensures counts[j] < MinAgents {
          if j > 0 { assert counts[j] == tail[j - 1]; }
        }
    }
  }

  /**
   * The result barrier fetches the data until the first reply whose status is not 404, and
   * hands that reply on; the replies after it are left for the next test run.
   */
  lemma {:induction false} ResultBarrierWaits(runId: string, data: seq<DataReply>)
    ensures match ResultBarrier(runId, data)
      case Continue(sent, found) =>
        |sent| >= 1 && FirstFound(data, |sent| - 1) && found.0 == data[|sent| - 1] &&
        found.1 == data[|sent|..] && sent == Repeat(FetchData(runId), |sent|)
      case Stop(o, sent) =>
        o == Blocked && sent == Repeat(FetchData(runId), |data| + 1) &&
        forall j :: 0 <= j < |data| ==> data[j].status == StatusNotFound
  {
    if data != [] && data[0].status == StatusNotFound {
      var tail := data[1..];
      ResultBarrierWaits(runId, tail);
      match ResultBarrier(runId, tail)
      case Continue(sent, found) =>
        assert [FetchData(runId)] + sent == Repeat(FetchData(runId), |sent| + 1);
        assert data[|sent| + 1..] == found.1;
        forall j | 0 <= j < |sent| ensures data[j].status == StatusNotFound {
          if j > 0 { assert data[j] == tail[j - 1]; }
        }
      case Stop(o, sent) =>
        assert [FetchData(runId)] + sent == Repeat(FetchData(runId), |data| + 1);
        forall j | 0 <= j < |data| ensures data[j].status == StatusNotFound {
          if j > 0 { assert data[j] == tail[j - 1]; }
        }
    }
  }

  /**
   * The uploads go through in order while the coordinator answers 200; the first other status
   * ends the run on the object just sent, and nothing is uploaded after it.
   */
  lemma {:induction false} UploadsStopAtFirstRejection(objs: seq<CoordObject>, statuses: seq<int>)
    ensures match Uploads(objs, statuses)
      case Continue(sent, left) =>
        |objs| <= |statuses| && (forall j :: 0 <= j < |objs| ==> statuses[j] == StatusOk) &&
        sent == CreateAll(objs) && left == statuses[|objs|..]
      case Stop(o, sent) =>
        var k := |sent| - 1;
        && 0 <= k < |objs|
        && sent == CreateAll(objs[..k + 1])
        && k <= |statuses|
        && (forall j :: 0 <= j < k ==> statuses[j] == StatusOk)
        && ((k < |statuses| && statuses[k] != StatusOk && o == UploadRejected(objs[k])) ||
            (k == |statuses| && o == Blocked))
  {
    if objs != [] && statuses != [] && statuses[0] == StatusOk {
      var (ot, st) := (objs[1..], statuses[1..]);
      UploadsStopAtFirstRejection(ot, st);
      match Uploads(ot, st)
      case Continue(sent, left) =>
        assert [Create(objs[0])] + sent == CreateAll(objs);
        assert statuses[|objs|..] == left;
        forall j | 0 <= j < |objs| ensures statuses[j] == StatusOk {
          if j > 0 { assert statuses[j] == st[j - 1]; }
        }
      case Stop(o, sent) =>
        var k := |sent|;
        assert objs[k] == ot[k - 1];
        assert [Create(objs[0])] + sent == CreateAll(objs[..k + 1]) by {
          assert ot[..k] == objs[1..k + 1];
        }
        forall j | 0 <= j < k ensures statuses[j] == StatusOk {
          if j > 0 { assert statuses[j] == st[j - 1]; }
        }
    }
  }

  /** The test phase only triggers test runs and fetches their data, and never fails an upload. */
  lemma {:induction false} TestPhaseRequests(labels: seq<string>, runs: seq<RunReply>, data: seq<DataReply>)
    ensures var (o, sent) := TestPhase(labels, runs, data);
      !o.UploadRejected? && forall r :: r in sent ==> r.Trigger? || r.FetchData?
    decreases |labels|
  {
    if labels != [] && runs != [] && runs[0].status == StatusOk {
      ResultBarrierWaits(runs[0].runId, data);
      match ResultBarrier(runs[0].runId, data)
      case Stop(_, _) =>
      case Continue(polls, (reply, rest)) =>
        TestPhaseRequests(labels[1..], runs[1..], rest);
    }
  }

  /** A rejected trigger ends the run: it is the last request sent. */
  lemma {:induction false} TestPhaseStopsAtRejectedTrigger(labels: seq<string>, runs: seq<RunReply>,
                                                           data: seq<DataReply>)
    ensures var (o, sent) := TestPhase(labels, runs, data);
      o.TriggerRejected? ==> |sent| > 0 && sent[|sent| - 1] == Trigger(o.testRun)
    decreases |labels|
  {
    if labels != [] && runs != [] && runs[0].status == StatusOk {
      ResultBarrierWaits(runs[0].runId, data);
      match ResultBarrier(runs[0].runId, data)
      case Stop(_, _) =>
      case Continue(polls, (reply, rest)) =>
        TestPhaseStopsAtRejectedTrigger(labels[1..], runs[1..], rest);
    }
  }

  /** One trigger followed by data fetches adds exactly that trigger. */
  lemma TriggerThenFetches(runLabel: string, polls: seq<Request>, later: seq<Request>)
    requires forall r :: r in polls ==> !r.Trigger?
    ensures Triggered([Trigger(runLabel)] + polls + later) == [runLabel] + Triggered(later)
  {
    var trigger := [Trigger(runLabel)];
    TriggeredNone(polls);
    TriggeredAppend(trigger, polls);
    TriggeredAppend(trigger + polls, later);
    assert Triggered(trigger) == [runLabel] by {
      assert trigger[1..] == [];
    }
  }

  /** A passing test phase triggered every test run once, in order, and each trigger was accepted. */
  lemma {:induction false} TestPhaseReachable(labels: seq<string>, runs: seq<RunReply>, data: seq<DataReply>)
    ensures var (o, sent) := TestPhase(labels, runs, data);
      o == Reachable ==>
        Triggered(sent) == labels && |labels| <= |runs| &&
        forall i :: 0 <= i < |labels| ==> runs[i].status == StatusOk
    decreases |labels|
  {
    if labels != [] && runs != [] && runs[0].status == StatusOk {
      ResultBarrierWaits(runs[0].runId, data);
      match ResultBarrier(runs[0].runId, data)
      case Stop(_, _) =>
      case Continue(polls, (reply, rest)) =>
        var (o, later) := TestPhase(labels[1..], runs[1..], rest);
        TestPhaseReachable(labels[1..], runs[1..], rest);
        if o == Reachable && reply.body.Some? && ReportPasses(reply.body.value) {
          TriggerThenFetches(labels[0], polls, later);
          forall i | 0 <= i < |labels| ensures runs[i].status == StatusOk {
            if i > 0 { assert runs[i] == runs[1..][i - 1]; }
          }
        }
    }
  }

  /** Every upload was accepted. */
  ghost predicate UploadsAccepted(minikubeIp: string, services: seq<Service>, replies: Replies)
  {
    var objs := Objects(minikubeIp, services);
    |objs| <= |replies.create| && forall j :: 0 <= j < |objs| ==> replies.create[j] == StatusOk
  }

  /**
   * A status other than 200 on an upload ends the run at once: only uploads were sent, the
   * rejected object last, so the barrier is never reached and nothing is triggered.
   */
  lemma UploadRejectionEndsRun(minikubeIp: string, services: seq<Service>, replies: Replies)
    ensures var (o, sent) := Protocol(minikubeIp, services, replies);
      o.UploadRejected? ==>
        |sent| > 0 && sent[|sent| - 1] == Create(o.obj) && forall r :: r in sent ==> r.Create?
  {
    var objs := Objects(minikubeIp, services);
    UploadsStopAtFirstRejection(objs, replies.create);
    AgentBarrierWaits(replies.groups);
    match Uploads(objs, replies.create)
    case Stop(o, s) =>
    case Continue(_, _) =>
      match AgentBarrier(replies.groups)
      case Stop(_, _) =>
      case Continue(_, _) =>
        TestPhaseRequests(Labels(TestRuns(minikubeIp, services)), replies.run, replies.data);
  }

  /**
   * Nothing is triggered before every object is uploaded and the agent barrier has seen six
   * agents: a run that triggers anything sent exactly the uploads, then one group listing per
   * reply up to the first that showed six or more, and only then triggers and data requests.
   */
  lemma TriggersFollowBarrier(minikubeIp: string, services: seq<Service>, replies: Replies)
    ensures var (o, sent) := Protocol(minikubeIp, services, replies);
      (exists r :: r in sent && r.Trigger?) ==>
        && UploadsAccepted(minikubeIp, services, replies)
        && exists k: nat :: FirstReady(replies.groups, k) &&
             var n := |Objects(minikubeIp, services)| + k + 1;
             n <= |sent| &&
             sent[..n] == CreateAll(Objects(minikubeIp, services)) + Repeat(ListGroups, k + 1) &&
             forall r :: r in sent[n..] ==> r.Trigger? || r.FetchData?
  {
    var objs := Objects(minikubeIp, services);
    var (o, sent) := Protocol(minikubeIp, services, replies);
    UploadsStopAtFirstRejection(objs, replies.create);
    AgentBarrierWaits(replies.groups);
    match Uploads(objs, replies.create)
    case Stop(_, s) =>
      assert forall r :: r in sent ==> r.Create?;
    case Continue(uploads, _) =>
      match AgentBarrier(replies.groups)
      case Stop(_, polls) =>
        assert forall r :: r in sent ==> r.Create? || r.ListGroups?;
      case Continue(polls, _) =>
        var labels := Labels(TestRuns(minikubeIp, services));
        TestPhaseRequests(labels, replies.run, replies.data);
        var tests := TestPhase(labels, replies.run, replies.data).1;
        var k := |polls| - 1;
        var n := |objs| + k + 1;
        assert sent == uploads + polls + tests;
        assert sent[..n] == uploads + polls;
        assert sent[n..] == tests;
        assert FirstReady(replies.groups, k);
  }

  /** A rejected trigger ends the run at once: it is the last request, so no later run is triggered. */
  lemma TriggerRejectionEndsRun(minikubeIp: string, services: seq<Service>, replies: Replies)
    ensures var (o, sent) := Protocol(minikubeIp, services, replies);
      o.TriggerRejected? ==> |sent| > 0 && sent[|sent| - 1] == Trigger(o.testRun)
  {
    var objs := Objects(minikubeIp, services);
    UploadsStopAtFirstRejection(objs, replies.create);
    AgentBarrierWaits(replies.groups);
    match Uploads(objs, replies.create)
    case Stop(_, _) =>
    case Continue(uploads, _) =>
      match AgentBarrier(replies.groups)
      case Stop(_, _) =>
      case Continue(polls, _) =>
        TestPhaseStopsAtRejectedTrigger(Labels(TestRuns(minikubeIp, services)), replies.run, replies.data);
  }

  /**
   * A passing run uploaded everything, passed the agent barrier, and triggered the test run of
   * every service exactly once, in inventory order.
   */
  lemma ReachableCoversEveryService(minikubeIp: string, services: seq<Service>, replies: Replies)
    ensures var (o, sent) := Protocol(minikubeIp, services, replies);
      o == Reachable ==>
        && UploadsAccepted(minikubeIp, services, replies)
        && (exists k: nat :: FirstReady(replies.groups, k))
        && |Triggered(sent)| == |services|
        && forall i :: 0 <= i < |services| ==> Triggered(sent)[i] == TestRunLabel(services[i].name)
  {
    var objs := Objects(minikubeIp, services);
    var (o, sent) := Protocol(minikubeIp, services, replies);
    UploadsStopAtFirstRejection(objs, replies.create);
    AgentBarrierWaits(replies.groups);
    match Uploads(objs, replies.create)
    case Stop(_, _) =>
    case Continue(uploads, _) =>
      match AgentBarrier(replies.groups)
      case Stop(_, _) =>
      case Continue(polls, _) =>
        var runs := TestRuns(minikubeIp, services);
        var labels := Labels(runs);
        var tests := TestPhase(labels, replies.run, replies.data).1;
        TestPhaseReachable(labels, replies.run, replies.data);
        if o == Reachable {
          assert FirstReady(replies.groups, |polls| - 1);
          OnlyTestsTrigger(uploads, polls, tests);
          ServiceLabels(minikubeIp, services);
        }
  }

  /** Uploads and agent listings trigger nothing: only the test phase does. */
  lemma OnlyTestsTrigger(uploads: seq<Request>, polls: seq<Request>, tests: seq<Request>)
    requires forall r :: r in uploads ==> r.Create?
    requires forall r :: r in polls ==> r == ListGroups
    ensures Triggered(uploads + polls + tests) == Triggered(tests)
  {
    TriggeredNone(uploads);
    TriggeredNone(polls);
    TriggeredAppend(uploads, polls);
    TriggeredAppend(uploads + polls, tests);
  }

  /** The test run labels follow the inventory, one per service. */
  lemma ServiceLabels(minikubeIp: string, services: seq<Service>)
    ensures var labels := Labels(TestRuns(minikubeIp, services));
      |labels| == |services| && forall i :: 0 <= i < |services| ==> labels[i] == TestRunLabel(services[i].name)
  {
    forall i | 0 <= i < |services|
      ensures TestRuns(minikubeIp, services)[i].name == TestRunLabel(services[i].name)
    {
      TestRunsShape(minikubeIp, services, i);
    }
  }

  // ---------------------------------------------------------------- the verdict and the reports

  /** The assertions over one test run's data hold: the reply is a report and every target answered 200. */
  predicate Passes(reply: DataReply)
  {
    reply.body.Some? && ReportPasses(reply.body.value)
  }

  /**
   * The data replies the test phase judged, one per test run whose trigger was accepted and whose
   * data arrived, in order; the first reply that fails its assertions is the last one judged.
   */
  function Validated(labels: seq<string>, runs: seq<RunReply>, data: seq<DataReply>): (v: seq<DataReply>)
    ensures |v| <= |labels|
    ensures forall i :: 0 <= i < |v| - 1 ==> Passes(v[i])
    decreases |labels|
  {
    if labels == [] || runs == [] || runs[0].status != StatusOk then []
    else
      match ResultBarrier(runs[0].runId, data)
      case Stop(_, _) => []
      case Continue(_, (reply, rest)) =>
        if Passes(reply) then [reply] + Validated(labels[1..], runs[1..], rest) else [reply]
  }

  /**
   * How outcome `o` of the test runs `labels` follows from the replies `v` judged: a pass exactly
   * when every run's data was judged and passed, `Unreachable` or `Unreadable` exactly when the last
   * reply judged is a failing report or not a report, naming that reply's test run.
   */
  predicate VerdictOf(o: Outcome, labels: seq<string>, v: seq<DataReply>)
  {
    && (o == Reachable <==> |v| == |labels| && forall i :: 0 <= i < |v| ==> Passes(v[i]))
    && (o.Unreachable? <==> |v| > 0 && v[|v| - 1].body.Some? && !Passes(v[|v| - 1]))
    && (o.Unreadable? <==> |v| > 0 && v[|v| - 1].body.None?)
    && ((o.Unreachable? || o.Unreadable?) ==> 0 < |v| <= |labels| && o.testRun == labels[|v| - 1])
  }

  /** A passing first reply leaves the verdict to the test runs after it. */
  lemma VerdictAfterPass(o: Outcome, labels: seq<string>, reply: DataReply, w: seq<DataReply>)
    requires labels != [] && Passes(reply)
    requires VerdictOf(o, labels[1..], w)
    ensures VerdictOf(o, labels, [reply] + w)
  {
    var v := [reply] + w;
    assert v[0] == reply;
    assert forall i :: 0 <= i < |w| ==> v[i + 1] == w[i];
    if |w| > 0 {
      assert v[|v| - 1] == w[|w| - 1];
    }
    if o.Unreachable? || o.Unreadable? {
      assert labels[|v| - 1] == labels[1..][|w| - 1];
    }
  }

  /** The test phase's outcome is decided by the replies it judged. */
  lemma {:induction false} TestPhaseVerdict(labels: seq<string>, runs: seq<RunReply>, data: seq<DataReply>)
    ensures VerdictOf(TestPhase(labels, runs, data).0, labels, Validated(labels, runs, data))
    decreases |labels|
  {
    if labels != [] && runs != [] && runs[0].status == StatusOk {
      ResultBarrierWaits(runs[0].runId, data);
      match ResultBarrier(runs[0].runId, data)
      case Stop(_, _) =>
      case Continue(polls, (reply, rest)) =>
        if Passes(reply) {
          TestPhaseVerdict(labels[1..], runs[1..], rest);
          assert TestPhase(labels, runs, data).0 == TestPhase(labels[1..], runs[1..], rest).0;
          VerdictAfterPass(TestPhase(labels, runs, data).0, labels, reply, Validated(labels[1..], runs[1..], rest));
        } else {
          assert Validated(labels, runs, data) == [reply];
        }
    }
  }

  /**
   * The stage reaches the test phase exactly when every upload was accepted and the agent barrier
   * saw six agents, and then the phase's outcome is the stage's; otherwise it stops on an upload
   * or while waiting.
   */
  lemma ProtocolReachesTests(minikubeIp: string, services: seq<Service>, replies: Replies)
    ensures var o := Protocol(minikubeIp, services, replies).0;
      if UploadsAccepted(minikubeIp, services, replies) && exists k: nat :: FirstReady(replies.groups, k)
      then o == TestPhase(Labels(TestRuns(minikubeIp, services)), replies.run, replies.data).0
      else o == Blocked || o.UploadRejected?
  {
    UploadsStopAtFirstRejection(Objects(minikubeIp, services), replies.create);
    AgentBarrierWaits(replies.groups);
    match Uploads(Objects(minikubeIp, services), replies.create)
    case Stop(_, _) =>
    case Continue(_, _) =>
      match AgentBarrier(replies.groups)
      case Stop(_, _) =>
      case Continue(polls, _) =>
        assert FirstReady(replies.groups, |polls| - 1);
  }

  /**
   * The traffic stage passes exactly when every upload was accepted, the agent barrier saw six
   * agents, and the report of every service's test run was judged and passed; when it stops on a
   * failing report, that report is the last one judged and the run is the one of its service.
   */
  lemma ProtocolVerdict(minikubeIp: string, services: seq<Service>, replies: Replies)
    ensures var o := Protocol(minikubeIp, services, replies).0;
      var v := Validated(Labels(TestRuns(minikubeIp, services)), replies.run, replies.data);
      && (o == Reachable <==>
            && UploadsAccepted(minikubeIp, services, replies)
            && (exists k: nat :: FirstReady(replies.groups, k))
            && |v| == |services| && forall i :: 0 <= i < |v| ==> Passes(v[i]))
      && (o.Unreachable? ==>
            0 < |v| <= |services| && !Passes(v[|v| - 1]) && o.testRun == TestRunLabel(services[|v| - 1].name))
  {
    var labels := Labels(TestRuns(minikubeIp, services));
    ProtocolReachesTests(minikubeIp, services, replies);
    TestPhaseVerdict(labels, replies.run, replies.data);
    ServiceLabels(minikubeIp, services);
  }

  // ---------------------------------------------------------------- rejected triggers and run ids

  /**
   * How a rejected trigger shows in outcome `o`: the phase ends `TriggerRejected` exactly when
   * every reply judged so far passed and the trigger of the next test run was answered other than
   * 200; the outcome names that test run.
   */
  predicate RejectedAt(o: Outcome, labels: seq<string>, runs: seq<RunReply>, v: seq<DataReply>)
  {
    && (o.TriggerRejected? <==>
          |v| < |labels| && |v| < |runs| && runs[|v|].status != StatusOk &&
          forall i :: 0 <= i < |v| ==> Passes(v[i]))
    && (o.TriggerRejected? ==> |v| < |labels| && o.testRun == labels[|v|])
  }

  /** A passing first reply leaves the trigger verdict to the test runs after it. */
  lemma RejectedAfterPass(o: Outcome, labels: seq<string>, runs: seq<RunReply>, reply: DataReply,
                          w: seq<DataReply>)
    requires labels != [] && runs != [] && Passes(reply)
    requires RejectedAt(o, labels[1..], runs[1..], w)
    ensures RejectedAt(o, labels, runs, [reply] + w)
  {
    var v := [reply] + w;
    assert forall i :: 0 <= i < |w| ==> v[i + 1] == w[i];
    assert (forall i :: 0 <= i < |v| ==> Passes(v[i])) <==> (forall i :: 0 <= i < |w| ==> Passes(w[i])) by {
      assert v[0] == reply;
    }
    if |w| < |runs| - 1 {
      assert runs[|v|] == runs[1..][|w|];
    }
    if |w| < |labels| - 1 {
      assert labels[|v|] == labels[1..][|w|];
    }
  }

  /** A trigger answered other than 200 ends the test phase as `TriggerRejected`, and only such a trigger does. */
  lemma {:induction false} TestPhaseTriggerRejected(labels: seq<string>, runs: seq<RunReply>, data: seq<DataReply>)
    ensures RejectedAt(TestPhase(labels, runs, data).0, labels, runs, Validated(labels, runs, data))
    decreases |labels|
  {
    if labels != [] && runs != [] && runs[0].status == StatusOk {
      ResultBarrierWaits(runs[0].runId, data);
      match ResultBarrier(runs[0].runId, data)
      case Stop(_, _) =>
      case Continue(polls, (reply, rest)) =>
        if Passes(reply) {
          TestPhaseTriggerRejected(labels[1..], runs[1..], rest);
          assert TestPhase(labels, runs, data).0 == TestPhase(labels[1..], runs[1..], rest).0;
          RejectedAfterPass(TestPhase(labels, runs, data).0, labels, runs, reply,
                            Validated(labels[1..], runs[1..], rest));
        } else {
          assert Validated(labels, runs, data) == [reply];
          assert !Passes([reply][0]);
          assert !TestPhase(labels, runs, data).0.TriggerRejected?;
        }
    }
  }

  /**
   * The traffic stage ends `TriggerRejected` exactly when every upload was accepted, the barrier
   * saw six agents, every report judged so far passed, and the next service's trigger was answered
   * other than 200; the outcome names that service's test run.
   */
  lemma ProtocolTriggerRejected(minikubeIp: string, services: seq<Service>, replies: Replies)
    ensures var o := Protocol(minikubeIp, services, replies).0;
      var v := Validated(Labels(TestRuns(minikubeIp, services)), replies.run, replies.data);
      && (o.TriggerRejected? <==>
            && UploadsAccepted(minikubeIp, services, replies)
            && (exists k: nat :: FirstReady(replies.groups, k))
            && |v| < |services| && |v| < |replies.run| && replies.run[|v|].status != StatusOk
            && forall i :: 0 <= i < |v| ==> Passes(v[i]))
      && (o.TriggerRejected? ==> |v| < |services| && o.testRun == TestRunLabel(services[|v|].name))
  {
    var labels := Labels(TestRuns(minikubeIp, services));
    ProtocolReachesTests(minikubeIp, services, replies);
    TestPhaseTriggerRejected(labels, replies.run, replies.data);
    ServiceLabels(minikubeIp, services);
  }

  /**
   * Request `k` is a data request for the test run triggered last before it: the triggers before
   * it are exactly the first `j + 1` labels, and it asks for the id the reply to trigger `j` gave.
   */
  predicate FetchesOwnRun(sent: seq<Request>, k: nat, labels: seq<string>, runs: seq<RunReply>)
    requires k < |sent| && sent[k].FetchData?
  {
    var j := |Triggered(sent[..k])| - 1;
    0 <= j < |labels| && j < |runs| && Triggered(sent[..k]) == labels[..j + 1] && sent[k].runId == runs[j].runId
  }

  predicate AllFetchesOwnRun(sent: seq<Request>, labels: seq<string>, runs: seq<RunReply>)
  {
    forall k :: 0 <= k < |sent| && sent[k].FetchData? ==> FetchesOwnRun(sent, k, labels, runs)
  }

  /** One run's block (its trigger, then fetches of its id) put in front of the later runs' requests. */
  lemma FirstRunBlock(labels: seq<string>, runs: seq<RunReply>, polls: seq<Request>, later: seq<Request>)
    requires labels != [] && runs != []
    requires polls == Repeat(FetchData(runs[0].runId), |polls|)
    requires AllFetchesOwnRun(later, labels[1..], runs[1..])
    ensures AllFetchesOwnRun([Trigger(labels[0])] + polls + later, labels, runs)
  {
    var sent := [Trigger(labels[0])] + polls + later;
    var m := 1 + |polls|;
    forall k | 0 <= k < |sent| && sent[k].FetchData?
      ensures FetchesOwnRun(sent, k, labels, runs)
    {
      if k < m {
        assert k >= 1 && sent[k] == polls[k - 1];
        assert sent[..k] == [Trigger(labels[0])] + polls[..k - 1] + [];
        TriggerThenFetches(labels[0], polls[..k - 1], []);
        assert Triggered(sent[..k]) == labels[..1];
      } else {
        var k' := k - m;
        assert sent[k] == later[k'];
        assert sent[..k] == [Trigger(labels[0])] + polls + later[..k'];
        TriggerThenFetches(labels[0], polls, later[..k']);
        var j' := |Triggered(later[..k'])| - 1;
        assert Triggered(later[..k']) == labels[1..][..j' + 1];
        assert [labels[0]] + labels[1..][..j' + 1] == labels[..j' + 2];
        assert runs[1..][j'] == runs[j' + 1];
      }
    }
  }

  /**
   * Every data request of the test phase asks for the id returned by the trigger of the test run
   * triggered last before it, never another run's.
   */
  lemma {:induction false} TestPhaseFetchesOwnRun(labels: seq<string>, runs: seq<RunReply>, data: seq<DataReply>)
    ensures AllFetchesOwnRun(TestPhase(labels, runs, data).1, labels, runs)
    decreases |labels|
  {
    if labels != [] && runs != [] && runs[0].status == StatusOk {
      ResultBarrierWaits(runs[0].runId, data);
      match ResultBarrier(runs[0].runId, data)
      case Stop(_, polls) =>
        assert TestPhase(labels, runs, data).1 == [Trigger(labels[0])] + polls + [];
        FirstRunBlock(labels, runs, polls, []);
      case Continue(polls, (reply, rest)) =>
        if Passes(reply) {
          TestPhaseFetchesOwnRun(labels[1..], runs[1..], rest);
          FirstRunBlock(labels, runs, polls, TestPhase(labels[1..], runs[1..], rest).1);
        } else {
          assert TestPhase(labels, runs, data).1 == [Trigger(labels[0])] + polls + [];
          FirstRunBlock(labels, runs, polls, []);
        }
    }
  }
}
