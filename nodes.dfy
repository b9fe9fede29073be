/**
 * Node metrics: per-node Prometheus usage collection, the join of metrics to nodes by name,
 * and the label- and condition-based role and status rules.
 */
module Nodes {
  import opened Wrappers
  import opened GoInt
  import opened Decimal
  import opened Seqs

  datatype NodeCondition = NodeCondition(conditionType: string, status: string)

  /** The fields of a core/v1 Node the code reads; capacities are the quantities' integer readings. */
  datatype Node = Node(
    name: string,
    labels: map<string, string>,
    conditions: seq<NodeCondition>,
    cpuCapacityMilli: int,
    memoryCapacityBytes: int)

  /** A metrics/v1beta1 NodeMetrics entry as built here: the CPU usage in millicores, the memory usage in bytes. */
  datatype NodeMetric = NodeMetric(name: string, cpuUsageMilli: int, memoryUsageBytes: int)

  /** The operands of a floating-point percentage numerator / denominator * 100 (the division itself is not modelled). */
  datatype Ratio = Ratio(numerator: int, denominator: int)

  /** The API's node entry. */
  datatype NodeMetrics = NodeMetrics(
    nodeName: string,
    cpuUsage: string,
    cpuCapacity: string,
    cpuUsagePercentage: Ratio,
    memoryUsage: string,
    memoryCapacity: string,
    memoryUsagePercentage: Ratio,
    roles: seq<string>,
    status: string)

  /** A Prometheus query result: a vector of samples (already converted to int64) or some other kind of value. */
  datatype PromValue = Vector(samples: seq<int>) | NonVector
  datatype QueryReply = QueryOk(value: PromValue) | QueryErr(cause: string)

  const ControlPlaneLabel := "node-role.kubernetes.io/control-plane"
  const WorkerLabel := "node-role.kubernetes.io/worker"

  function CpuQuery(node: string): string {
    "sum(rate(node_cpu_seconds_total{node=\"" + node + "\", mode!=\"idle\"}[5m])) * 1000"
  }

  function MemoryQuery(node: string): string {
    "node_memory_MemTotal_bytes{node=\"" + node + "\"} - node_memory_MemAvailable_bytes{node=\"" + node + "\"}"
  }

  /** The first sample of a non-empty vector, 0 for an empty vector or any other value. */
  function FirstSampleOrZero(v: PromValue): (r: int)
    ensures v.Vector? && |v.samples| > 0 ==> r == v.samples[0]
    ensures !(v.Vector? && |v.samples| > 0) ==> r == 0
  {
    if v.Vector? && |v.samples| > 0 then v.samples[0] else 0
  }

  /** The metric one node contributes, or None when either of its two queries fails. */
  function MetricOf(prometheus: string -> QueryReply): Node -> Option<NodeMetric> {
    (node: Node) =>
      match prometheus(CpuQuery(node.name))
      case QueryErr(_) => None
      case QueryOk(cpu) =>
        match prometheus(MemoryQuery(node.name))
        case QueryErr(_) => None
        case QueryOk(memory) => Some(NodeMetric(node.name, FirstSampleOrZero(cpu), FirstSampleOrZero(memory)))
  }

  /**
   * getNodeMetrics: a node-list error is returned; otherwise each node, in list order, whose two
   * queries succeed contributes one metric, and a node whose query fails is skipped.
   */
  method GetNodeMetrics(nodeList: Result<seq<Node>, string>, prometheus: string -> QueryReply)
    returns (r: Result<seq<NodeMetric>, string>)
    ensures nodeList.Failure? ==> r == Failure(nodeList.error)
    ensures nodeList.Success? ==> r == Success(FilterMap(nodeList.value, MetricOf(prometheus)))
  {
    if nodeList.Failure? {
      return Failure(nodeList.error);
    }
    var nodes := nodeList.value;
    var nodeMetrics: seq<NodeMetric> := [];
    for i := 0 to |nodes|
      invariant nodeMetrics == FilterMap(nodes[..i], MetricOf(prometheus))
    {
      var node := nodes[i];
      assert nodes[..i + 1][..i] == nodes[..i];
      var cpuValue := prometheus(CpuQuery(node.name));
      if cpuValue.QueryErr? {
        continue;   // logged
      }
      var cpuUsage := 0;
      if cpuValue.value.Vector? && |cpuValue.value.samples| > 0 {
        cpuUsage := cpuValue.value.samples[0];
      }
      var memoryValue := prometheus(MemoryQuery(node.name));
      if memoryValue.QueryErr? {
        continue;   // logged
      }
      var memoryUsage := 0;
      if memoryValue.value.Vector? && |memoryValue.value.samples| > 0 {
        memoryUsage := memoryValue.value.samples[0];
      }
      nodeMetrics := nodeMetrics + [NodeMetric(node.name, cpuUsage, memoryUsage)];
    }
    assert nodes[..|nodes|] == nodes;
    return Success(nodeMetrics);
  }

  /** A node whose CPU or memory query fails contributes nothing, and the other nodes' entries are unaffected. */
  lemma FailingNodeIsSkipped(before: seq<Node>, node: Node, after: seq<Node>, prometheus: string -> QueryReply)
    requires prometheus(CpuQuery(node.name)).QueryErr? || prometheus(MemoryQuery(node.name)).QueryErr?
    ensures FilterMap(before + [node] + after, MetricOf(prometheus))
            == FilterMap(before, MetricOf(prometheus)) + FilterMap(after, MetricOf(prometheus))
  {
    FilterMapAppend(before + [node], after, MetricOf(prometheus));
    FilterMapAppend(before, [node], MetricOf(prometheus));
    assert [node][..0] == [];
  }

  /** A node whose queries succeed contributes exactly one metric, under its own name. */
  lemma HealthyNodeIsKept(before: seq<Node>, node: Node, after: seq<Node>, prometheus: string -> QueryReply)
    requires prometheus(CpuQuery(node.name)).QueryOk? && prometheus(MemoryQuery(node.name)).QueryOk?
    ensures FilterMap(before + [node] + after, MetricOf(prometheus))
            == FilterMap(before, MetricOf(prometheus))
               + [NodeMetric(node.name, FirstSampleOrZero(prometheus(CpuQuery(node.name)).value),
                                        FirstSampleOrZero(prometheus(MemoryQuery(node.name)).value))]
               + FilterMap(after, MetricOf(prometheus))
  {
    FilterMapAppend(before + [node], after, MetricOf(prometheus));
    FilterMapAppend(before, [node], MetricOf(prometheus));
    assert [node][..0] == [];
  }

  /** getNodeRoles: "control-plane" then "worker", each present exactly when its label key is. */
  method GetNodeRoles(node: Node) returns (roles: seq<string>)
    ensures "control-plane" in roles <==> ControlPlaneLabel in node.labels
    ensures "worker" in roles <==> WorkerLabel in node.labels
    ensures |roles| <= 2 && (forall i :: 0 <= i < |roles| ==> roles[i] in {"control-plane", "worker"})
    ensures |roles| == 2 ==> roles[0] == "control-plane" && roles[1] == "worker"
    ensures roles == Roles(node)
  {
    roles := [];
    if ControlPlaneLabel in node.labels {
      roles := roles + ["control-plane"];
    }
    if WorkerLabel in node.labels {
      roles := roles + ["worker"];
    }
  }

  /** The roles of a node, as the specification of GetNodeRoles. */
  function Roles(node: Node): seq<string> {
    (if ControlPlaneLabel in node.labels then ["control-plane"] else [])
    + (if WorkerLabel in node.labels then ["worker"] else [])
  }

  predicate IsReady(c: NodeCondition) {
    c.conditionType == "Ready" && c.status == "True"
  }

  /** The status of a node, as the specification of GetNodeStatus. */
  function Status(node: Node): string {
    if exists i :: 0 <= i < |node.conditions| && IsReady(node.conditions[i]) then "Ready" else "NotReady"
  }

  /** getNodeStatus: "Ready" exactly when some condition is Ready/True, "NotReady" otherwise. */
  method GetNodeStatus(node: Node) returns (status: string)
    ensures status == "Ready" <==> exists i :: 0 <= i < |node.conditions| && IsReady(node.conditions[i])
    ensures status == "Ready" || status == "NotReady"
    ensures status == Status(node)
  {
    for i := 0 to |node.conditions|
      invariant forall k :: 0 <= k < i ==> !IsReady(node.conditions[k])
    {
      var condition := node.conditions[i];
      if condition.conditionType == "Ready" && condition.status == "True" {
        return "Ready";
      }
    }
    return "NotReady";
  }

  /** The first node with the given name. */
  function FirstNamed(nodes: seq<Node>, name: string): (r: Option<Node>)
    ensures r.None? <==> forall i :: 0 <= i < |nodes| ==> nodes[i].name != name
    ensures r.Some? ==> exists i :: 0 <= i < |nodes| && nodes[i] == r.value && r.value.name == name
                                     && forall j :: 0 <= j < i ==> nodes[j].name != name
    decreases |nodes|
  {
    if nodes == [] then None
    else if nodes[0].name == name then Some(nodes[0])
    else
      var r := FirstNamed(nodes[1..], name);
      assert forall i :: 1 <= i < |nodes| ==> nodes[i] == nodes[1..][i - 1];
      r
  }

  /** The entry for a metric and the node it was matched with. */
  function Entry(metric: NodeMetric, node: Node): NodeMetrics {
    var cpuUsage := metric.cpuUsageMilli;
    var cpuCapacity := node.cpuCapacityMilli;
    var memoryUsage := MiB(metric.memoryUsageBytes);
    var memoryCapacity := MiB(node.memoryCapacityBytes);
    NodeMetrics(metric.name,
                FormatInt(cpuUsage) + "m", FormatInt(cpuCapacity) + "m", Ratio(cpuUsage, cpuCapacity),
                FormatInt(memoryUsage) + "Mi", FormatInt(memoryCapacity) + "Mi", Ratio(memoryUsage, memoryCapacity),
                Roles(node), Status(node))
  }

  function JoinOne(nodes: seq<Node>): NodeMetric -> Option<NodeMetrics> {
    (m: NodeMetric) => match FirstNamed(nodes, m.name) case None => None case Some(node) => Some(Entry(m, node))
  }

  /** NodeFromMetrics's inner loop: the first node with the name, if any. */
  method LookupNode(nodes: seq<Node>, name: string) returns (node: Option<Node>)
    ensures node == FirstNamed(nodes, name)
  {
    node := None;
    var j := 0;
    while j < |nodes|
      invariant 0 <= j <= |nodes|
      invariant node.None?
      invariant forall k :: 0 <= k < j ==> nodes[k].name != name
    {
      if nodes[j].name == name {
        node := Some(nodes[j]);
        FirstNamedAt(nodes, j);
        break;
      }
      j := j + 1;
    }
  }

  /**
   * NodeFromMetrics: for each metric in order, the first node with the same name; a metric
   * without one is dropped.
   */
  method NodeFromMetrics(nodeMetrics: seq<NodeMetric>, nodes: seq<Node>) returns (result: seq<NodeMetrics>)
    ensures result == FilterMap(nodeMetrics, JoinOne(nodes))
    ensures |result| <= |nodeMetrics|
  {
    result := [];
    for i := 0 to |nodeMetrics|
      invariant result == FilterMap(nodeMetrics[..i], JoinOne(nodes))
    {
      var nodeMetric := nodeMetrics[i];
      assert nodeMetrics[..i + 1][..i] == nodeMetrics[..i];
      var node := LookupNode(nodes, nodeMetric.name);
      if node.None? {
        continue;
      }
      var roles := GetNodeRoles(node.value);
      var status := GetNodeStatus(node.value);
      var cpuUsage := nodeMetric.cpuUsageMilli;
      var cpuCapacity := node.value.cpuCapacityMilli;
      var memoryUsage := Quot(Quot(nodeMetric.memoryUsageBytes, 1024), 1024);
      var memoryCapacity := Quot(Quot(node.value.memoryCapacityBytes, 1024), 1024);
      var entry := NodeMetrics(nodeMetric.name,
                               FormatInt(cpuUsage) + "m", FormatInt(cpuCapacity) + "m", Ratio(cpuUsage, cpuCapacity),
                               FormatInt(memoryUsage) + "Mi", FormatInt(memoryCapacity) + "Mi",
                               Ratio(memoryUsage, memoryCapacity), roles, status);
      assert JoinOne(nodes)(nodeMetric) == Some(entry);
      result := result + [entry];
    }
    assert nodeMetrics[..|nodeMetrics|] == nodeMetrics;
  }

  lemma FirstNamedAt(nodes: seq<Node>, j: nat)
    requires j < |nodes|
    requires forall k :: 0 <= k < j ==> nodes[k].name != nodes[j].name
    ensures FirstNamed(nodes, nodes[j].name) == Some(nodes[j])
  {
    var r := FirstNamed(nodes, nodes[j].name);
    var i :| 0 <= i < |nodes| && nodes[i] == r.value && r.value.name == nodes[j].name
             && forall k :: 0 <= k < i ==> nodes[k].name != nodes[j].name;
    assert i <= j;
  }

  /** GetNodes: the metrics, then a second node list, then the join; either list error is returned. */
  method GetNodes(nodeList: Result<seq<Node>, string>, secondNodeList: Result<seq<Node>, string>,
                  prometheus: string -> QueryReply)
    returns (r: Result<seq<NodeMetrics>, string>)
    ensures nodeList.Failure? ==> r == Failure(nodeList.error)
    ensures nodeList.Success? && secondNodeList.Failure? ==> r == Failure(secondNodeList.error)
    ensures nodeList.Success? && secondNodeList.Success? ==>
              r == Success(FilterMap(FilterMap(nodeList.value, MetricOf(prometheus)), JoinOne(secondNodeList.value)))
  {
    var nodeMetrics := GetNodeMetrics(nodeList, prometheus);
    if nodeMetrics.Failure? {
      return Failure(nodeMetrics.error);
    }
    if secondNodeList.Failure? {
      return Failure(secondNodeList.error);
    }
    var joined := NodeFromMetrics(nodeMetrics.value, secondNodeList.value);
    return Success(joined);
  }

  /**
   * An entry is produced exactly for a metric whose name some node carries, built from that
   * metric and the first node of that name.
   */
  lemma JoinedExactly(nodeMetrics: seq<NodeMetric>, nodes: seq<Node>, e: NodeMetrics)
    ensures e in FilterMap(nodeMetrics, JoinOne(nodes)) <==>
            exists i :: 0 <= i < |nodeMetrics| && FirstNamed(nodes, nodeMetrics[i].name).Some?
                        && e == Entry(nodeMetrics[i], FirstNamed(nodes, nodeMetrics[i].name).value)
  {
    FilterMapMember(nodeMetrics, JoinOne(nodes), e);
  }

  /** The usage column reads back: strip the "m" or "Mi" suffix and the number parses to the value printed. */
  lemma UsageReadsBack(metric: NodeMetric, node: Node)
    requires InInt64(metric.cpuUsageMilli) && InInt64(metric.memoryUsageBytes)
    ensures var e := Entry(metric, node);
            |e.cpuUsage| >= 1 && ParseInt64(e.cpuUsage[..|e.cpuUsage| - 1]) == Some(metric.cpuUsageMilli)
            && |e.memoryUsage| >= 2 && ParseInt64(e.memoryUsage[..|e.memoryUsage| - 2]) == Some(MiB(metric.memoryUsageBytes))
  {
    var e := Entry(metric, node);
    FormatThenParse(metric.cpuUsageMilli);
    assert e.cpuUsage[..|e.cpuUsage| - 1] == FormatInt(metric.cpuUsageMilli);
    var mib := MiB(metric.memoryUsageBytes);
    if metric.memoryUsageBytes >= 0 {
      MiBOfNonNegative(metric.memoryUsageBytes);
    } else {
      MiBIsOdd(-metric.memoryUsageBytes);
      MiBOfNonNegative(-metric.memoryUsageBytes);
    }
    FormatThenParse(mib);
    assert e.memoryUsage[..|e.memoryUsage| - 2] == FormatInt(mib);
  }
}
