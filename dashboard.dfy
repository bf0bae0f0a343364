/**
 * The dashboard's coordinator: the cached snapshot, the view flags, the chart
 * and the connection status, updated in place by a poll result, a click on a
 * bar and the back button.
 */
module LiveTraffic {
  import opened Wrappers
  import opened Traffic
  import opened Projector

  /** The values of `currentView`: 'main' and 'drilldown'. */
  datatype ViewName = MainView | DrilldownView

  /** The view the two flags encode together. */
  datatype View = Main | Drilldown(ip: string)

  /** The connection indicator: yellow, green, red. */
  datatype Status = Connecting | Connected | Error

  /** The bar chart widget's data: its labels and its two datasets. */
  class Chart {
    var labels: seq<string>
    var inbound: seq<nat>
    var outbound: seq<nat>

    /** The chart is created with no labels and empty datasets. */
    constructor ()
      ensures Data() == Empty
    {
      labels, inbound, outbound := [], [], [];
    }

    function Data(): Series
      reads this
    {
      Series(labels, inbound, outbound)
    }
  }

  class Dashboard {
    const chart: Chart
    var currentView: ViewName
    var currentDrilldownIp: Option<string>
    var lastData: Snapshot
    var status: Status

    /**
     * The flags agree with each other, the chart always shows what the view
     * and the cache call for (a drill-down with nothing to show keeps the
     * earlier bars), and a drill-down names a client of the cache.
     */
    ghost predicate Valid()
      reads this, chart
    {
      && WellFormed(lastData)
      && (currentView == MainView <==> currentDrilldownIp.None?)
      && chart.Data().Aligned()
      && (currentView == MainView ==> chart.Data() == MainSeries(lastData))
      && (currentView == DrilldownView ==>
            var ip := currentDrilldownIp.value;
            && ip in Keys(lastData)
            && (DrilldownSeries(lastData, ip).Some? ==> chart.Data() == DrilldownSeries(lastData, ip).value))
    }

    function ActiveView(): View
      reads this
    {
      if currentView == DrilldownView && currentDrilldownIp.Some? then Drilldown(currentDrilldownIp.value) else Main
    }

    /** Page load: main view, empty cache, empty chart, status connecting. */
    constructor ()
      ensures Valid() && fresh(chart)
      ensures currentView == MainView && currentDrilldownIp == None && ActiveView() == Main
      ensures lastData == [] && status == Connecting && chart.Data() == Empty
    {
      chart := new Chart();
      currentView := MainView;
      currentDrilldownIp := None;
      lastData := [];
      status := Connecting;
    }

    /** Shows the aggregate projection of `data`. */
    method UpdateMainChart(data: Snapshot)
      modifies chart
      ensures chart.Data() == MainSeries(data)
    {
      var r := MainSeries(data);
      chart.labels := r.labels;
      chart.inbound := r.inbound;
      chart.outbound := r.outbound;
    }

    /**
     * Shows client `ip`'s protocol breakdown from the cache; returns early,
     * leaving the chart as it was, when the client or its protocols are missing.
     */
    method UpdateDrilldownChart(ip: string)
      modifies chart
      ensures DrilldownSeries(lastData, ip).Some? ==> chart.Data() == DrilldownSeries(lastData, ip).value
      ensures ip !in Keys(lastData) || Get(lastData, ip).value.protocols.None? ==> chart.Data() == old(chart.Data())
    {
      var clientData := Get(lastData, ip);
      if clientData.None? || clientData.value.protocols.None? {
        return;
      }
      var r := DrilldownSeries(lastData, ip).value;
      chart.labels := r.labels;
      chart.inbound := r.inbound;
      chart.outbound := r.outbound;
    }

    /** Enters the drill-down view for `ip`, whether or not it has anything to show. */
    method ShowDrilldownView(ip: string)
      requires Valid() && ip in Keys(lastData)
      modifies this, chart
      ensures Valid()
      ensures currentView == DrilldownView && currentDrilldownIp == Some(ip) && ActiveView() == Drilldown(ip)
      ensures lastData == old(lastData) && status == old(status)
      ensures chart.Data() == if DrilldownSeries(lastData, ip).Some? then DrilldownSeries(lastData, ip).value else old(chart.Data())
    {
      currentView := DrilldownView;
      currentDrilldownIp := Some(ip);
      UpdateDrilldownChart(ip);
    }

    /** Returns to the aggregate view of the cached snapshot (the back button). */
    method ShowMainView()
      requires WellFormed(lastData)
      modifies this, chart
      ensures Valid()
      ensures currentView == MainView && currentDrilldownIp == None && ActiveView() == Main
      ensures lastData == old(lastData) && status == old(status)
      ensures chart.Data() == MainSeries(lastData)
    {
      currentView := MainView;
      currentDrilldownIp := None;
      UpdateMainChart(lastData);
    }

    /**
     * One poll cycle; `response` is the decoded body, or None for a non-ok
     * status or a thrown error. A success replaces the cache and re-renders
     * the active view, falling back to the main view when the drilled-down
     * client has disappeared; a failure only turns the status to Error.
     */
    method FetchData(response: Option<Snapshot>)
      requires Valid()
      requires response.Some? ==> WellFormed(response.value)
      modifies this, chart
      ensures Valid()
      ensures response.None? ==>
        && status == Error && lastData == old(lastData)
        && currentView == old(currentView) && currentDrilldownIp == old(currentDrilldownIp)
        && chart.Data() == old(chart.Data())
      ensures response.Some? ==> status == Connected && lastData == response.value
      ensures response.Some? && old(ActiveView()) == Main ==>
        ActiveView() == Main && chart.Data() == MainSeries(response.value)
      ensures response.Some? && old(ActiveView()).Drilldown? && old(ActiveView()).ip in Keys(response.value) ==>
        var ip := old(ActiveView()).ip;
        && ActiveView() == Drilldown(ip)
        && chart.Data() == if DrilldownSeries(response.value, ip).Some? then DrilldownSeries(response.value, ip).value else old(chart.Data())
      ensures response.Some? && old(ActiveView()).Drilldown? && old(ActiveView()).ip !in Keys(response.value) ==>
        ActiveView() == Main && chart.Data() == MainSeries(response.value)
    {
      if response.None? {
        status := Error;
        return;
      }
      var data := response.value;
      lastData := data;
      if currentView == MainView {
        UpdateMainChart(data);
      } else if Get(data, currentDrilldownIp.value).Some? {
        UpdateDrilldownChart(currentDrilldownIp.value);
      } else {
        ShowMainView();
      }
      status := Connected;
    }

    /**
     * A click on the chart; `elements` are the indices of the bars under the
     * pointer. Only a hit in the main view does anything: it drills into the
     * client whose label was hit.
     */
    method OnClick(elements: seq<nat>)
      requires Valid()
      requires forall i :: 0 <= i < |elements| ==> elements[i] < |chart.labels|
      modifies this, chart
      ensures Valid()
      ensures old(currentView) != MainView || elements == [] ==> unchanged(this) && unchanged(chart)
      ensures old(currentView) == MainView && elements != [] ==>
        var ip := old(chart.labels)[elements[0]];
        && ip in Keys(lastData)
        && ActiveView() == Drilldown(ip)
        && lastData == old(lastData) && status == old(status)
        && chart.Data() == if DrilldownSeries(lastData, ip).Some? then DrilldownSeries(lastData, ip).value else old(chart.Data())
    {
      if currentView != MainView || |elements| == 0 {
        return;
      }
      var index := elements[0];
      var ip := chart.labels[index];
      assert ip in Keys(lastData) by {
        var m := MainSeries(lastData);
        assert chart.labels == m.labels;
        assert m.labels[index] == lastData[index].0 == Keys(lastData)[index];
      }
      ShowDrilldownView(ip);
    }
  }

  /** In the main view, bar i is exactly the i-th cached client's id and totals. */
  lemma MainViewShowsClients(d: Dashboard, i: nat)
    requires d.Valid() && d.currentView == MainView && i < |d.lastData|
    ensures |d.chart.labels| == |d.lastData|
    ensures d.chart.labels[i] == d.lastData[i].0
    ensures d.chart.inbound[i] == d.lastData[i].1.inbound
    ensures d.chart.outbound[i] == d.lastData[i].1.outbound
  {
  }

  /** Polling the snapshot already cached changes nothing but the status. */
  method RefetchIsIdempotent(d: Dashboard)
    requires d.Valid()
    modifies d, d.chart
    ensures d.Valid() && d.status == Connected
    ensures d.lastData == old(d.lastData)
    ensures d.currentView == old(d.currentView) && d.currentDrilldownIp == old(d.currentDrilldownIp)
    ensures d.chart.Data() == old(d.chart.Data())
  {
    d.FetchData(Some(d.lastData));
  }

  /** One client polled, clicked, dropped by the server, then a failed poll. */
  method DrilldownWalkthrough()
  {
    var tcp := ProtocolStats(2048, 1024);
    var host := ClientStats(2048, 1024, Some([("TCP", tcp)]));
    var d := new Dashboard();

    d.FetchData(Some([("10.0.0.1", host)]));
    assert d.chart.Data() == Series(["10.0.0.1"], [2048], [1024]);

    d.OnClick([0]);
    assert d.ActiveView() == Drilldown("10.0.0.1");
    assert d.chart.Data() == Series(["TCP"], [2048], [1024]);

    d.FetchData(Some([]));
    assert d.ActiveView() == Main && d.chart.Data() == Empty;

    var before := d.chart.Data();
    d.FetchData(None);
    assert d.status == Error && d.chart.Data() == before;
  }
}
