/**
 * The scaling decision of the metrics view: every container's CPU usage
 * is converted to millicores, the values are averaged over all container
 * entries, and two fixed thresholds choose between scaling the deployment
 * up, scaling it down, or leaving it alone.
 */
module Autoscale {
  import opened Wrappers
  import CpuQuantity

  /** Average millicores above which the deployment is scaled up. */
  const HighThreshold: real := 10.0
  /** Average millicores below which the deployment is scaled down. */
  const LowThreshold: real := 5.0
  /** Replica count requested when scaling up. */
  const ScaleUpReplicas: nat := 3
  /** Replica count requested when scaling down. */
  const ScaleDownReplicas: nat := 1

  /** The one scale request a metrics call may issue, or none. */
  datatype Decision = ScaleTo(replicas: nat) | NoOp

  /** Why a metrics call ends with an error message and no scaling. */
  datatype MetricsError =
    | MissingUsage                    // a container without a `usage` entry
    | InvalidQuantity(usage: string)  // `int()` rejected this usage string
    | NoContainers                    // the average divides by zero

  /** A usage string whose amount `int()` accepts. */
  predicate Convertible(usage: string)
  {
    CpuQuantity.ToMillicores(usage).Some?
  }

  predicate AllConvertible(usages: seq<string>)
  {
    forall i :: 0 <= i < |usages| ==> Convertible(usages[i])
  }

  /**
   * The position of the first usage string the loop cannot convert, which
   * is where the view's loop raises; `|usages|` when there is none.
   */
  function FirstInvalid(usages: seq<string>): (k: nat)
    ensures k <= |usages|
    ensures forall j :: 0 <= j < k ==> Convertible(usages[j])
    ensures k < |usages| ==> !Convertible(usages[k])
  {
    if |usages| == 0 then 0
    else if !Convertible(usages[0]) then 0
    else 1 + FirstInvalid(usages[1..])
  }

  /** The millicores of every entry, in order. */
  function Values(usages: seq<string>): (vs: seq<real>)
    requires AllConvertible(usages)
    ensures |vs| == |usages|
  {
    seq(|usages|, i requires 0 <= i < |usages| && AllConvertible(usages) =>
                    CpuQuantity.ToMillicores(usages[i]).value)
  }

  /** Left-to-right total, as the view accumulates it. */
  function Sum(xs: seq<real>): real
  {
    if |xs| == 0 then 0.0 else Sum(xs[..|xs| - 1]) + xs[|xs| - 1]
  }

  function Average(xs: seq<real>): real
    requires |xs| > 0
  {
    Sum(xs) / |xs| as real
  }

  /** The average millicores over all container entries. */
  function AverageUsage(usages: seq<string>): real
    requires |usages| > 0 && AllConvertible(usages)
  {
    Average(Values(usages))
  }

  /** The threshold comparison applied to an average over `count` entries. */
  function Choose(average: real, count: nat): Decision
  {
    if average > HighThreshold then ScaleTo(ScaleUpReplicas)
    else if average < LowThreshold && count > 1 then ScaleTo(ScaleDownReplicas)
    else NoOp
  }

  /**
   * The outcome of the parse/average/threshold block for one call: an
   * error exactly when some usage string does not convert or there are no
   * entries to average.
   */
  function Decide(usages: seq<string>): (r: Result<Decision, MetricsError>)
    ensures r.Err? <==> |usages| == 0 || exists i :: 0 <= i < |usages| && !Convertible(usages[i])
    ensures |usages| == 0 ==> r == Err(NoContainers)
    ensures r.Err? && |usages| > 0 ==>
              exists i :: && 0 <= i < |usages|
                          && r.error == InvalidQuantity(usages[i])
                          && !Convertible(usages[i])
                          && AllConvertible(usages[..i])
  {
    var k := FirstInvalid(usages);
    if k < |usages| then
      assert AllConvertible(usages[..k]);
      Err(InvalidQuantity(usages[k]))
    else if |usages| == 0 then Err(NoContainers)
    else Ok(Choose(AverageUsage(usages), |usages|))
  }

  /**
   * Which request each average leads to: a scale-up exactly above the high
   * threshold, a scale-down exactly below the low threshold with more than
   * one entry, and nothing in between or for a lone idle entry.
   */
  lemma DecideThresholds(usages: seq<string>)
    ensures Decide(usages) == Ok(ScaleTo(ScaleUpReplicas)) <==>
              |usages| > 0 && AllConvertible(usages) && AverageUsage(usages) > HighThreshold
    ensures Decide(usages) == Ok(ScaleTo(ScaleDownReplicas)) <==>
              |usages| > 1 && AllConvertible(usages) && AverageUsage(usages) < LowThreshold
    ensures Decide(usages) == Ok(NoOp) <==>
              && |usages| > 0 && AllConvertible(usages)
              && (|| LowThreshold <= AverageUsage(usages) <= HighThreshold
                  || (AverageUsage(usages) < LowThreshold && |usages| == 1))
  {
  }

  /**
   * The view's loop over the entries: the running total of millicores,
   * or the `ValueError` of the first usage string `int()` rejects.
   */
  method TotalMillicores(usages: seq<string>) returns (r: Result<real, MetricsError>)
    ensures r.Ok? <==> AllConvertible(usages)
    ensures r.Ok? ==> r.value == Sum(Values(usages))
    ensures r.Err? ==> r.error == InvalidQuantity(usages[FirstInvalid(usages)])
  {
    var total := 0.0;
    var i := 0;
    while i < |usages|
      invariant 0 <= i <= |usages|
      invariant AllConvertible(usages[..i])
      invariant total == Sum(Values(usages[..i]))
    {
      var m := CpuQuantity.ToMillicores(usages[i]);
      if m.None? {
        FirstInvalidAt(usages, i);
        return Err(InvalidQuantity(usages[i]));
      }
      SumValuesStep(usages, i);
      total := total + m.value;
      i := i + 1;
    }
    assert usages[..i] == usages;
    r := Ok(total);
  }

  /**
   * The whole block: the loop, then the average over the number of
   * entries and the two threshold comparisons.
   */
  method DecideScaling(usages: seq<string>) returns (r: Result<Decision, MetricsError>)
    ensures r == Decide(usages)
  {
    var total := TotalMillicores(usages);
    if total.Err? {
      return Err(total.error);
    }
    if |usages| == 0 {
      return Err(NoContainers);
    }
    var average := total.value / |usages| as real;
    if average > HighThreshold {
      r := Ok(ScaleTo(ScaleUpReplicas));
    } else if average < LowThreshold && |usages| > 1 {
      r := Ok(ScaleTo(ScaleDownReplicas));
    } else {
      r := Ok(NoOp);
    }
  }

  /** The loop raises at the first entry it cannot convert. */
  lemma FirstInvalidAt(usages: seq<string>, i: nat)
    requires i < |usages|
    requires AllConvertible(usages[..i])
    requires !Convertible(usages[i])
    ensures FirstInvalid(usages) == i
  {
    assert forall j :: 0 <= j < i ==> usages[..i][j] == usages[j];
  }

  /** One more converted entry adds its millicores to the running total. */
  lemma SumValuesStep(usages: seq<string>, i: nat)
    requires i < |usages|
    requires AllConvertible(usages[..i]) && Convertible(usages[i])
    ensures AllConvertible(usages[..i + 1])
    ensures Sum(Values(usages[..i + 1])) == Sum(Values(usages[..i])) + CpuQuantity.ToMillicores(usages[i]).value
  {
    assert forall j :: 0 <= j < i ==> usages[..i + 1][j] == usages[..i][j] == usages[j];
    assert usages[..i + 1][i] == usages[i];
    assert Values(usages[..i + 1])[..i] == Values(usages[..i]);
  }

  lemma {:induction false} SumAbove(xs: seq<real>, t: real)
    requires forall i :: 0 <= i < |xs| ==> xs[i] > t
    ensures |xs| > 0 ==> Sum(xs) > |xs| as real * t
    ensures Sum(xs) >= |xs| as real * t
  {
    if |xs| > 0 {
      SumAbove(xs[..|xs| - 1], t);
    }
  }

  lemma {:induction false} SumBelow(xs: seq<real>, t: real)
    requires forall i :: 0 <= i < |xs| ==> xs[i] < t
    ensures |xs| > 0 ==> Sum(xs) < |xs| as real * t
    ensures Sum(xs) <= |xs| as real * t
  {
    if |xs| > 0 {
      SumBelow(xs[..|xs| - 1], t);
    }
  }

  lemma DivideAbove(s: real, n: real, t: real)
    requires n > 0.0 && s > n * t
    ensures s / n > t
  {
  }

  lemma DivideBelow(s: real, n: real, t: real)
    requires n > 0.0 && s < n * t
    ensures s / n < t
  {
  }

  /** When every container uses more than the high threshold, the deployment is scaled up. */
  lemma AllBusyScalesUp(usages: seq<string>)
    requires |usages| > 0
    requires forall i :: 0 <= i < |usages| ==>
               Convertible(usages[i]) && CpuQuantity.ToMillicores(usages[i]).value > HighThreshold
    ensures Decide(usages) == Ok(ScaleTo(ScaleUpReplicas))
  {
    var vs := Values(usages);
    SumAbove(vs, HighThreshold);
    DivideAbove(Sum(vs), |vs| as real, HighThreshold);
  }

  /**
   * When there are several containers and each uses less than the low
   * threshold, the deployment is scaled down.
   */
  lemma AllIdleScalesDown(usages: seq<string>)
    requires |usages| > 1
    requires forall i :: 0 <= i < |usages| ==>
               Convertible(usages[i]) && CpuQuantity.ToMillicores(usages[i]).value < LowThreshold
    ensures Decide(usages) == Ok(ScaleTo(ScaleDownReplicas))
  {
    var vs := Values(usages);
    SumBelow(vs, LowThreshold);
    DivideBelow(Sum(vs), |vs| as real, LowThreshold);
  }

  /** A single container entry never triggers a scale-down, however idle. */
  lemma SingleEntryNeverScalesDown(usage: string)
    ensures Decide([usage]) != Ok(ScaleTo(ScaleDownReplicas))
  {
  }

  /** The average of a single entry is that entry's millicores. */
  lemma SingleEntryAverage(usage: string)
    requires Convertible(usage)
    ensures AverageUsage([usage]) == CpuQuantity.ToMillicores(usage).value
  {
    var vs := Values([usage]);
    assert vs[..0] == [];
    assert Sum(vs) == vs[0];
  }
}
