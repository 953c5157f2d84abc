/**
 * The metrics view around the scaling decision: the pod metrics returned
 * by the metrics API are flattened into one row per container, the rows'
 * CPU usage strings are fed to the scaling decision, and any failure is
 * reported on the page instead of scaling. The scale request itself is
 * recorded, not performed.
 */
module MetricsView {
  import opened Wrappers
  import Autoscale
  import CpuQuantity

  /** Shown for a missing cpu or memory reading. */
  const Placeholder: string := "N/A"

  /** The `usage` entry of one container: its cpu and memory keys, each possibly absent. */
  datatype Usage = Usage(cpu: Option<string>, memory: Option<string>)

  /** One container of a pod's metrics; its `usage` entry may be absent. */
  datatype ContainerMetrics = ContainerMetrics(usage: Option<Usage>)

  /** One item of the metrics list; an absent container list is the empty one. */
  datatype PodMetrics = PodMetrics(name: Option<string>, containers: seq<ContainerMetrics>)

  /** One displayed row: pod name, cpu usage and memory usage strings. */
  datatype MetricRow = MetricRow(pod: string, cpuUsage: string, memoryUsage: string)

  /** The rows gathered so far, and whether every container had a `usage` entry. */
  datatype Collected = Collected(rows: seq<MetricRow>, complete: bool)

  /** What the view renders: the rows, the error message if any, and the scale request if any. */
  datatype Page = Page(rows: seq<MetricRow>, error: Option<Autoscale.MetricsError>, scaleRequest: Option<nat>)

  function PodName(pod: PodMetrics): string
  {
    pod.name.GetOr("")
  }

  function RowOf(pod: string, usage: Usage): (row: MetricRow)
    ensures row.cpuUsage == Placeholder <==> usage.cpu.None? || usage.cpu.value == Placeholder
  {
    MetricRow(pod, usage.cpu.GetOr(Placeholder), usage.memory.GetOr(Placeholder))
  }

  /**
   * The rows of one pod's containers, in order, up to the first container
   * without a `usage` entry, where the lookup raises.
   */
  function CollectContainers(pod: string, cs: seq<ContainerMetrics>): (c: Collected)
    ensures c.complete <==> forall i :: 0 <= i < |cs| ==> cs[i].usage.Some?
    ensures |c.rows| <= |cs|
    ensures c.complete ==> |c.rows| == |cs|
    ensures !c.complete ==> |c.rows| < |cs| && cs[|c.rows|].usage.None?
    ensures forall i :: 0 <= i < |c.rows| ==> cs[i].usage.Some? && c.rows[i] == RowOf(pod, cs[i].usage.value)
  {
    if |cs| == 0 then Collected([], true)
    else if cs[0].usage.None? then Collected([], false)
    else
      var rest := CollectContainers(pod, cs[1..]);
      Collected([RowOf(pod, cs[0].usage.value)] + rest.rows, rest.complete)
  }

  /** Every container of every pod has a `usage` entry. */
  predicate AllHaveUsage(pods: seq<PodMetrics>)
  {
    forall p :: 0 <= p < |pods| ==> forall i :: 0 <= i < |pods[p].containers| ==> pods[p].containers[i].usage.Some?
  }

  function ContainerCount(pods: seq<PodMetrics>): nat
  {
    if |pods| == 0 then 0 else |pods[0].containers| + ContainerCount(pods[1..])
  }

  /** One container together with the name of the pod it belongs to. */
  datatype Entry = Entry(pod: string, container: ContainerMetrics)

  /** The containers of one pod, each paired with the pod's name. */
  function PodEntries(pod: PodMetrics): (es: seq<Entry>)
    ensures |es| == |pod.containers|
    ensures forall i :: 0 <= i < |es| ==> es[i] == Entry(PodName(pod), pod.containers[i])
  {
    seq(|pod.containers|, i requires 0 <= i < |pod.containers| => Entry(PodName(pod), pod.containers[i]))
  }

  /** Every container of every pod, pod by pod and in order within a pod. */
  function Entries(pods: seq<PodMetrics>): (es: seq<Entry>)
    ensures |es| == ContainerCount(pods)
  {
    if |pods| == 0 then [] else PodEntries(pods[0]) + Entries(pods[1..])
  }

  /**
   * The nested loop over pods and their containers that fills the row list.
   * Its rows are those of the flattened container list, in order, up to the
   * first container without a `usage` entry; the rows appended before that
   * container stay in the list.
   */
  function Collect(pods: seq<PodMetrics>): (c: Collected)
    ensures c.complete <==> AllHaveUsage(pods)
    ensures |c.rows| <= ContainerCount(pods)
    ensures c.complete ==> |c.rows| == ContainerCount(pods)
    ensures !c.complete ==> |c.rows| < ContainerCount(pods) && Entries(pods)[|c.rows|].container.usage.None?
    ensures forall k :: 0 <= k < |c.rows| ==>
              && Entries(pods)[k].container.usage.Some?
              && c.rows[k] == RowOf(Entries(pods)[k].pod, Entries(pods)[k].container.usage.value)
  {
    if |pods| == 0 then Collected([], true)
    else
      var first := CollectContainers(PodName(pods[0]), pods[0].containers);
      FirstPodRows(pods, first);
      if !first.complete then first
      else
        var rest := Collect(pods[1..]);
        assert AllHaveUsage(pods) <==> AllHaveUsage(pods[1..]) by {
          assert forall p :: 0 < p < |pods| ==> pods[1..][p - 1] == pods[p];
        }
        LaterPodRows(pods, first.rows, rest.rows);
        Collected(first.rows + rest.rows, rest.complete)
  }

  /** The rows of the first pod are those of the first entries of the flattened list. */
  lemma FirstPodRows(pods: seq<PodMetrics>, first: Collected)
    requires |pods| > 0
    requires first == CollectContainers(PodName(pods[0]), pods[0].containers)
    ensures forall k :: 0 <= k < |first.rows| ==>
              && Entries(pods)[k].container.usage.Some?
              && first.rows[k] == RowOf(Entries(pods)[k].pod, Entries(pods)[k].container.usage.value)
    ensures !first.complete ==> |first.rows| < ContainerCount(pods) && Entries(pods)[|first.rows|].container.usage.None?
  {
    assert Entries(pods) == PodEntries(pods[0]) + Entries(pods[1..]);
  }

  /** Rows of the later pods follow the first pod's rows in the flattened list. */
  lemma LaterPodRows(pods: seq<PodMetrics>, head: seq<MetricRow>, tail: seq<MetricRow>)
    requires |pods| > 0 && |head| == |pods[0].containers|
    requires |tail| <= ContainerCount(pods[1..])
    requires forall k :: 0 <= k < |tail| ==>
               && Entries(pods[1..])[k].container.usage.Some?
               && tail[k] == RowOf(Entries(pods[1..])[k].pod, Entries(pods[1..])[k].container.usage.value)
    ensures forall k :: |head| <= k < |head| + |tail| ==>
              && Entries(pods)[k].container.usage.Some?
              && (head + tail)[k] == RowOf(Entries(pods)[k].pod, Entries(pods)[k].container.usage.value)
    ensures |tail| < ContainerCount(pods[1..]) ==> Entries(pods)[|head| + |tail|] == Entries(pods[1..])[|tail|]
  {
    assert Entries(pods) == PodEntries(pods[0]) + Entries(pods[1..]);
    assert forall k :: |head| <= k < |head| + |tail| ==> Entries(pods)[k] == Entries(pods[1..])[k - |head|];
  }

  /**
   * Container `i` of pod `p` sits in the flattened list right after the
   * containers of the pods before `p`.
   */
  lemma {:induction false} EntriesAt(pods: seq<PodMetrics>, p: nat, i: nat)
    requires p < |pods| && i < |pods[p].containers|
    ensures ContainerCount(pods[..p]) + i < ContainerCount(pods)
    ensures Entries(pods)[ContainerCount(pods[..p]) + i] == Entry(PodName(pods[p]), pods[p].containers[i])
  {
    assert Entries(pods) == PodEntries(pods[0]) + Entries(pods[1..]);
    if p == 0 {
      assert pods[..p] == [];
    } else {
      assert pods[..p][1..] == pods[1..][..p - 1];
      assert pods[1..][p - 1] == pods[p];
      EntriesAt(pods[1..], p - 1, i);
    }
  }

  function CpuUsages(rows: seq<MetricRow>): (us: seq<string>)
    ensures |us| == |rows|
    ensures forall i :: 0 <= i < |rows| ==> us[i] == rows[i].cpuUsage
  {
    seq(|rows|, i requires 0 <= i < |rows| => rows[i].cpuUsage)
  }

  /**
   * One call of the metrics view after the metrics have been fetched: an
   * error on the page and no scale request when a container lacks its
   * `usage` entry or the decision fails, otherwise the decision's request.
   */
  function GetSimulatedMetrics(pods: seq<PodMetrics>): (page: Page)
    ensures page.rows == Collect(pods).rows
    ensures page.error.None? <==> AllHaveUsage(pods) && Autoscale.Decide(CpuUsages(page.rows)).Ok?
    ensures !AllHaveUsage(pods) ==> page.error == Some(Autoscale.MissingUsage)
    ensures AllHaveUsage(pods) && Autoscale.Decide(CpuUsages(page.rows)).Err? ==>
              page.error == Some(Autoscale.Decide(CpuUsages(page.rows)).error)
    ensures page.scaleRequest.Some? ==>
              && page.error.None?
              && Autoscale.Decide(CpuUsages(page.rows)) == Ok(Autoscale.ScaleTo(page.scaleRequest.value))
    ensures page.error.None? && page.scaleRequest.None? ==> Autoscale.Decide(CpuUsages(page.rows)) == Ok(Autoscale.NoOp)
  {
    var c := Collect(pods);
    if !c.complete then Page(c.rows, Some(Autoscale.MissingUsage), None)
    else
      match Autoscale.Decide(CpuUsages(c.rows))
      case Err(e) => Page(c.rows, Some(e), None)
      case Ok(NoOp) => Page(c.rows, None, None)
      case Ok(ScaleTo(n)) => Page(c.rows, None, Some(n))
  }

  /** A scale request, when made, asks for 3 or for 1 replicas. */
  lemma ScaleRequestTargets(pods: seq<PodMetrics>)
    ensures GetSimulatedMetrics(pods).scaleRequest.Some? ==>
              GetSimulatedMetrics(pods).scaleRequest.value in {Autoscale.ScaleUpReplicas, Autoscale.ScaleDownReplicas}
  {
  }

  /** Every container of a fully collected list shows up as a row. */
  lemma {:induction false} RowPresent(pods: seq<PodMetrics>, p: nat, i: nat)
    requires AllHaveUsage(pods)
    requires p < |pods| && i < |pods[p].containers|
    ensures RowOf(PodName(pods[p]), pods[p].containers[i].usage.value) in Collect(pods).rows
  {
    var first := CollectContainers(PodName(pods[0]), pods[0].containers);
    var rest := Collect(pods[1..]);
    assert Collect(pods).rows == first.rows + rest.rows;
    if p == 0 {
      assert first.rows[i] in first.rows;
    } else {
      assert pods[1..][p - 1] == pods[p];
      RowPresent(pods[1..], p - 1, i);
    }
  }

  /**
   * A container reporting no cpu reading is shown as "N/A", which `int()`
   * rejects: the page carries an error and nothing is scaled.
   */
  lemma MissingCpuReportsError(pods: seq<PodMetrics>, p: nat, i: nat)
    requires p < |pods| && i < |pods[p].containers|
    requires pods[p].containers[i].usage.Some? && pods[p].containers[i].usage.value.cpu.None?
    ensures GetSimulatedMetrics(pods).error.Some?
    ensures GetSimulatedMetrics(pods).scaleRequest.None?
  {
    if AllHaveUsage(pods) {
      var row := RowOf(PodName(pods[p]), pods[p].containers[i].usage.value);
      RowPresent(pods, p, i);
      var rows := Collect(pods).rows;
      var k :| 0 <= k < |rows| && rows[k] == row;
      CpuQuantity.RejectedUsages();
      assert !Autoscale.Convertible(CpuUsages(rows)[k]);
    }
  }

  /** With no containers at all, the average divides by zero and the page reports it. */
  lemma NoContainersReportsError(pods: seq<PodMetrics>)
    requires ContainerCount(pods) == 0
    ensures GetSimulatedMetrics(pods).error == Some(Autoscale.NoContainers)
    ensures GetSimulatedMetrics(pods).scaleRequest.None?
  {
  }
}
