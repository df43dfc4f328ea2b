/** A labelled counter: one monotonically increasing count per label triple, created at 1 on first increment. */
module Metrics {

  /** The three label values of a series, in declaration order (operation or endpoint, method, status). */
  type Labels = (string, string, string)

  /** Current value of a series; a series never incremented reads as 0. */
  function Count(m: map<Labels, nat>, l: Labels): nat {
    if l in m then m[l] else 0
  }

  /** The series map after one increment of series l. */
  function Bumped(m: map<Labels, nat>, l: Labels): (r: map<Labels, nat>)
    ensures Count(r, l) == Count(m, l) + 1
    ensures forall o :: o != l ==> Count(r, o) == Count(m, o)
    ensures r.Keys == m.Keys + {l}
  {
    m[l := Count(m, l) + 1]
  }

  /** Sum of all series of a counter. */
  ghost function Total(m: map<Labels, nat>): nat
    decreases |m|
  {
    if m == map[] then 0
    else
      var l :| l in m;
      m[l] + Total(m - {l})
  }

  lemma {:induction false} TotalRemove(m: map<Labels, nat>, l: Labels)
    requires l in m
    ensures Total(m) == m[l] + Total(m - {l})
    decreases |m|
  {
    var j :| j in m && Total(m) == m[j] + Total(m - {j});
    if j != l {
      var mj, ml := m - {j}, m - {l};
      assert mj.Keys == m.Keys - {j};
      assert ml.Keys == m.Keys - {l};
      TotalRemove(mj, l);
      TotalRemove(ml, j);
      assert mj - {l} == ml - {j};
    }
  }

  /** One increment raises the sum over all series by exactly one. */
  lemma TotalBumped(m: map<Labels, nat>, l: Labels)
    ensures Total(Bumped(m, l)) == Total(m) + 1
  {
    var r := Bumped(m, l);
    TotalRemove(r, l);
    if l in m {
      TotalRemove(m, l);
      assert r - {l} == m - {l};
    } else {
      assert r - {l} == m;
    }
  }

  /** A counter: the metric name, its label names, and the current series. */
  class Registry {
    const name: string
    const labelNames: (string, string, string)
    var series: map<Labels, nat>

    constructor (name: string, labelNames: (string, string, string))
      ensures this.name == name && this.labelNames == labelNames
      ensures series == map[]
    {
      this.name := name;
      this.labelNames := labelNames;
      series := map[];
    }

    /** counter.labels(*l).inc(): exactly series l grows by one, nothing is ever decremented. */
    method Inc(l: Labels)
      modifies this
      ensures series == Bumped(old(series), l)
      ensures Total(series) == old(Total(series)) + 1
    {
      TotalBumped(series, l);
      series := series[l := Count(series, l) + 1];
    }
  }
}
