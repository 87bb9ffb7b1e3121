/**
 * The service inventory (scripts/lib/k8s.py): the Kubernetes service records, given as plain
 * data, filtered to those whose first port has a node port and projected to `{name, port}`.
 */
module Inventory {
  import opened Wrappers

  /** One entry of `spec.ports`; `node_port` is absent (None) for services that are not exposed. */
  datatype ServicePort = ServicePort(nodePort: Option<int>)

  /** One item of the Kubernetes service list: `metadata.name` and `spec.ports`. */
  datatype KubeService = KubeService(name: string, ports: seq<ServicePort>)

  /** One exposed service, as the rest of the program sees it. */
  datatype Service = Service(name: string, port: int)

  /** Python truthiness of `spec.ports[0].node_port`: present and not zero. */
  predicate IsExposed(k: KubeService)
  {
    |k.ports| > 0 && k.ports[0].nodePort.Some? && k.ports[0].nodePort.value != 0
  }

  function Project(k: KubeService): Service
    requires |k.ports| > 0 && k.ports[0].nodePort.Some?
  {
    Service(k.name, k.ports[0].nodePort.value)
  }

  /**
   * The list comprehension of `get_k8s_services`. Indexing `spec.ports[0]` on a service without
   * ports raises, which aborts the whole comprehension: the failure carries the index of the
   * first such record.
   */
  function ExposedServices(items: seq<KubeService>): (r: Result<seq<Service>, nat>)
    ensures r.Failure? <==> exists i :: 0 <= i < |items| && |items[i].ports| == 0
    ensures r.Failure? ==> r.error < |items| && |items[r.error].ports| == 0 &&
                           forall j :: 0 <= j < r.error ==> |items[j].ports| > 0
  {
    if items == [] then Success([])
    else if |items[0].ports| == 0 then Failure(0)
    else
      match ExposedServices(items[1..])
      case Failure(k) => Failure(k + 1)
      case Success(rest) =>
        Success((if IsExposed(items[0]) then [Project(items[0])] else []) + rest)
  }

  /** Position `k` of `out` is the projection of item `idx[k]`, which is exposed. */
  ghost predicate Projects(items: seq<KubeService>, idx: seq<nat>, out: seq<Service>)
  {
    |idx| == |out| &&
    forall k :: 0 <= k < |idx| ==> idx[k] < |items| && IsExposed(items[idx[k]]) &&
                                   out[k] == Project(items[idx[k]])
  }

  ghost predicate StrictlyIncreasing(idx: seq<nat>)
  {
    forall k, l :: 0 <= k < l < |idx| ==> idx[k] < idx[l]
  }

  /** Every exposed item is listed in `idx`. */
  ghost predicate CoversExposed(items: seq<KubeService>, idx: seq<nat>)
  {
    forall i :: 0 <= i < |items| && IsExposed(items[i]) ==> exists k :: 0 <= k < |idx| && idx[k] == i
  }

  /**
   * `idx` lists, in increasing order, exactly the positions of the exposed items, and `out` is
   * their projections in that order: each exposed service appears once, and nothing else.
   */
  ghost predicate IsSelection(items: seq<KubeService>, idx: seq<nat>, out: seq<Service>)
  {
    Projects(items, idx, out) && StrictlyIncreasing(idx) && CoversExposed(items, idx)
  }

  function Shift(idx: seq<nat>): (r: seq<nat>)
    ensures |r| == |idx| && forall k :: 0 <= k < |idx| ==> r[k] == idx[k] + 1
  {
    seq(|idx|, k requires 0 <= k < |idx| => idx[k] + 1)
  }

  lemma ShiftIncreasing(idx: seq<nat>, head: seq<nat>)
    requires StrictlyIncreasing(idx)
    requires head == [] || head == [0]
    ensures StrictlyIncreasing(head + Shift(idx))
  {
    var s := head + Shift(idx);
    forall k, l | 0 <= k < l < |s|
      ensures s[k] < s[l]
    {
      var h := |head|;
      if k >= h { assert s[k] == idx[k - h] + 1 && s[l] == idx[l - h] + 1; }
      else { assert s[l] == idx[l - h] + 1; }
    }
  }

  lemma ShiftCovers(items: seq<KubeService>, idx: seq<nat>, head: seq<nat>)
    requires |items| > 0 && CoversExposed(items[1..], idx)
    requires head == (if IsExposed(items[0]) then [0] else [])
    ensures CoversExposed(items, head + Shift(idx))
  {
    var s := head + Shift(idx);
    var h := |head|;
    forall i | 0 <= i < |items| && IsExposed(items[i])
      ensures exists k :: 0 <= k < |s| && s[k] == i
    {
      if i == 0 {
        assert s[0] == 0;
      } else {
        assert items[1..][i - 1] == items[i];
        var k :| 0 <= k < |idx| && idx[k] == i - 1;
        assert s[k + h] == i;
      }
    }
  }

  lemma ShiftProjects(items: seq<KubeService>, idx: seq<nat>, out: seq<Service>)
    requires |items| > 0 && Projects(items[1..], idx, out)
    ensures Projects(items, Shift(idx), out)
    ensures IsExposed(items[0]) ==> Projects(items, [0] + Shift(idx), [Project(items[0])] + out)
  {
    var s := Shift(idx);
    forall k | 0 <= k < |s|
      ensures s[k] < |items| && IsExposed(items[s[k]]) && out[k] == Project(items[s[k]])
    {
      assert items[s[k]] == items[1..][idx[k]];
    }
    if IsExposed(items[0]) {
      var s' := [0] + s;
      var o := [Project(items[0])] + out;
      forall k | 0 <= k < |s'|
        ensures s'[k] < |items| && IsExposed(items[s'[k]]) && o[k] == Project(items[s'[k]])
      {
        if k > 0 { assert s'[k] == s[k - 1] && o[k] == out[k - 1]; }
      }
    }
  }

  lemma ShiftSelection(items: seq<KubeService>, idx: seq<nat>, rest: seq<Service>)
    requires |items| > 0 && |items[0].ports| > 0 && IsSelection(items[1..], idx, rest)
    ensures IsSelection(items, (if IsExposed(items[0]) then [0] else []) + Shift(idx),
                        (if IsExposed(items[0]) then [Project(items[0])] else []) + rest)
  {
    if IsExposed(items[0]) {
      ShiftSelectionExposed(items, idx, rest);
    } else {
      ShiftSelectionHidden(items, idx, rest);
    }
  }

  lemma ShiftSelectionExposed(items: seq<KubeService>, idx: seq<nat>, rest: seq<Service>)
    requires |items| > 0 && IsExposed(items[0]) && IsSelection(items[1..], idx, rest)
    ensures IsSelection(items, [0] + Shift(idx), [Project(items[0])] + rest)
  {
    ShiftProjects(items, idx, rest);
    ShiftIncreasing(idx, [0]);
    ShiftCovers(items, idx, [0]);
  }

  lemma ShiftSelectionHidden(items: seq<KubeService>, idx: seq<nat>, rest: seq<Service>)
    requires |items| > 0 && !IsExposed(items[0]) && IsSelection(items[1..], idx, rest)
    ensures IsSelection(items, [] + Shift(idx), [] + rest)
  {
    assert [] + Shift(idx) == Shift(idx) && [] + rest == rest;
    ShiftProjects(items, idx, rest);
    ShiftIncreasing(idx, []);
    ShiftCovers(items, idx, []);
  }

  /** The inventory keeps input order and keeps each exposed service exactly once. */
  lemma {:induction false} ExposedInOrder(items: seq<KubeService>, out: seq<Service>)
    requires ExposedServices(items) == Success(out)
    ensures exists idx :: IsSelection(items, idx, out)
  {
    if items == [] {
      assert IsSelection(items, [], out);
    } else {
      var rest := ExposedServices(items[1..]).value;
      ExposedInOrder(items[1..], rest);
      var idx :| IsSelection(items[1..], idx, rest);
      ShiftSelection(items, idx, rest);
      assert out == (if IsExposed(items[0]) then [Project(items[0])] else []) + rest;
    }
  }

  /** Every service handed on has a usable (non-zero) node port. */
  lemma {:induction false} ExposedPortsNonZero(items: seq<KubeService>, out: seq<Service>)
    requires ExposedServices(items) == Success(out)
    ensures forall e :: e in out ==> e.port != 0
  {
    if items != [] {
      ExposedPortsNonZero(items[1..], ExposedServices(items[1..]).value);
    }
  }

  /** The inventory never grows, and loses nothing exactly when every service is exposed. */
  lemma {:induction false} ExposedLength(items: seq<KubeService>, out: seq<Service>)
    requires ExposedServices(items) == Success(out)
    ensures |out| <= |items|
    ensures |out| == |items| <==> forall i :: 0 <= i < |items| ==> IsExposed(items[i])
  {
    if items != [] {
      var rest := ExposedServices(items[1..]).value;
      ExposedLength(items[1..], rest);
      if !IsExposed(items[0]) {
        assert |out| < |items|;
      } else if |out| == |items| {
        forall i | 0 <= i < |items| ensures IsExposed(items[i]) {
          if i > 0 { assert items[1..][i - 1] == items[i]; }
        }
      } else {
        var j :| 0 <= j < |items[1..]| && !IsExposed(items[1..][j]);
        assert !IsExposed(items[j + 1]);
      }
    }
  }
}
