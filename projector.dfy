/**
 * The two projections the dashboard renders: a snapshot (or one client's
 * protocol table) flattened into the chart's labels and its two datasets.
 */
module Projector {
  import opened Wrappers
  import opened Traffic

  /** The chart's data: its labels, dataset 0 (inbound) and dataset 1 (outbound). */
  datatype Series = Series(labels: seq<string>, inbound: seq<nat>, outbound: seq<nat>) {
    /** Label i belongs with value i of each dataset. */
    predicate Aligned() {
      |labels| == |inbound| == |outbound|
    }
  }

  const Empty := Series([], [], [])

  /** `keys.map(k => f(t[k]))` */
  function Column<V>(t: Table<V>, keys: seq<string>, f: V -> nat): (col: seq<nat>)
    requires forall k :: k in keys ==> k in Keys(t)
    ensures |col| == |keys|
    ensures forall i :: 0 <= i < |keys| ==> col[i] == f(Get(t, keys[i]).value)
  {
    if keys == [] then [] else [f(Get(t, keys[0]).value)] + Column(t, keys[1..], f)
  }

  /** Keys of t as labels; each label's inbound and outbound values looked up in t. */
  function Project<V>(t: Table<V>, inb: V -> nat, outb: V -> nat): (r: Series)
    ensures r.Aligned() && |r.labels| == |t|
    ensures forall i :: 0 <= i < |t| ==> r.labels[i] == t[i].0
    ensures forall i :: 0 <= i < |t| ==>
      && Get(t, r.labels[i]).Some?
      && r.inbound[i] == inb(Get(t, r.labels[i]).value)
      && r.outbound[i] == outb(Get(t, r.labels[i]).value)
  {
    var ks := Keys(t);
    Series(ks, Column(t, ks, inb), Column(t, ks, outb))
  }

  /** The aggregate view: one bar pair per client, in key order. */
  function MainSeries(s: Snapshot): (r: Series)
    ensures r.Aligned() && |r.labels| == |s|
    ensures forall i :: 0 <= i < |s| ==> r.labels[i] == s[i].0
    ensures forall i :: 0 <= i < |s| ==>
      && Get(s, r.labels[i]).Some?
      && r.inbound[i] == Get(s, r.labels[i]).value.inbound
      && r.outbound[i] == Get(s, r.labels[i]).value.outbound
    ensures s == [] ==> r == Empty
  {
    Project(s, (c: ClientStats) => c.inbound, (c: ClientStats) => c.outbound)
  }

  /**
   * The drill-down view of client `ip`: one bar pair per protocol. None when the
   * client is missing or has no `protocols` field; a present but empty
   * `protocols` object is truthy in JavaScript and yields an empty series.
   */
  function DrilldownSeries(s: Snapshot, ip: string): (r: Option<Series>)
    ensures r.None? <==> ip !in Keys(s) || Get(s, ip).value.protocols.None?
    ensures r.Some? ==>
      var p := Get(s, ip).value.protocols.value;
      && r.value.Aligned() && |r.value.labels| == |p|
      && (forall j :: 0 <= j < |p| ==> r.value.labels[j] == p[j].0)
      && (forall j :: 0 <= j < |p| ==>
            && Get(p, r.value.labels[j]).Some?
            && r.value.inbound[j] == Get(p, r.value.labels[j]).value.inbound
            && r.value.outbound[j] == Get(p, r.value.labels[j]).value.outbound)
    ensures ip in Keys(s) && Get(s, ip).value.protocols == Some([]) ==> r == Some(Empty)
  {
    match Get(s, ip)
    case None => None
    case Some(client) =>
      match client.protocols
      case None => None
      case Some(p) => Some(Project(p, (q: ProtocolStats) => q.inbound, (q: ProtocolStats) => q.outbound))
  }

  /** In a decoded snapshot, bar i of the aggregate view shows exactly client i's totals. */
  lemma MainSeriesAt(s: Snapshot, i: nat)
    requires DistinctKeys(s) && i < |s|
    ensures MainSeries(s).labels[i] == s[i].0
    ensures MainSeries(s).inbound[i] == s[i].1.inbound
    ensures MainSeries(s).outbound[i] == s[i].1.outbound
  {
  }

  /** In a decoded snapshot, bar j of a drill-down shows exactly protocol j's volumes. */
  lemma DrilldownSeriesAt(s: Snapshot, ip: string, j: nat)
    requires WellFormed(s) && ip in Keys(s)
    requires Get(s, ip).value.protocols.Some? && j < |Get(s, ip).value.protocols.value|
    ensures DrilldownSeries(s, ip).Some?
    ensures
      var p := Get(s, ip).value.protocols.value;
      var r := DrilldownSeries(s, ip).value;
      r.labels[j] == p[j].0 && r.inbound[j] == p[j].1.inbound && r.outbound[j] == p[j].1.outbound
  {
  }
}
