/** The store's `chart` slice: chart data, the selected chart, request flags
    and the Chart.js options object. */
module StoreChartSlice {
  import opened Values

  /** `chartOptions` is a JSON object, modelled as its field map. */
  datatype ChartState = ChartState(chartData: Json, selectedChart: Json, loading: bool, error: Json,
                                   chartOptions: map<string, Json>)

  datatype Action =
    | SetChartData(data: Json)
    | SetSelectedChart(chart: Json)
    | SetLoading(loading: bool)
    | SetError(error: Json)
    | UpdateChartOptions(options: map<string, Json>)
    | ResetChartState

  /** `{ type: 'line', data: { labels: [], datasets: [] } }`. */
  const InitialOptions: map<string, Json> :=
    map["type" := JStr("line"), "data" := JObj(map["labels" := JArr([]), "datasets" := JArr([])])]

  const Initial := ChartState(JNull, JNull, false, JNull, InitialOptions)

  /** `{ ...old, ...payload }`: exactly the payload's keys are overwritten
      and every other key keeps its value. */
  function Merge(current: map<string, Json>, payload: map<string, Json>): (r: map<string, Json>)
    ensures r.Keys == current.Keys + payload.Keys
    ensures forall k :: k in payload ==> r[k] == payload[k]
    ensures forall k :: k in current && k !in payload ==> r[k] == current[k]
  {
    current + payload
  }

  function Reduce(s: ChartState, a: Action): (r: ChartState)
    ensures a.SetChartData? ==> r == s.(chartData := a.data)
    ensures a.SetSelectedChart? ==> r == s.(selectedChart := a.chart)
    ensures a.SetLoading? ==> r == s.(loading := a.loading)
    ensures a.SetError? ==> r == s.(error := a.error)
    ensures a.UpdateChartOptions? ==> r == s.(chartOptions := Merge(s.chartOptions, a.options))
    ensures a.ResetChartState? ==> r == Initial
  {
    match a
    case SetChartData(d) => s.(chartData := d)
    case SetSelectedChart(c) => s.(selectedChart := c)
    case SetLoading(l) => s.(loading := l)
    case SetError(e) => s.(error := e)
    case UpdateChartOptions(o) => s.(chartOptions := Merge(s.chartOptions, o))
    case ResetChartState => Initial
  }

  /** Every reducer is idempotent: the setters and the merge because the
      payload wins, and the reset because it ignores the state. */
  lemma ReduceIdempotent(s: ChartState, a: Action)
    ensures Reduce(Reduce(s, a), a) == Reduce(s, a)
  {
    if a.UpdateChartOptions? {
      var m := Merge(s.chartOptions, a.options);
      assert Merge(m, a.options) == m;
    }
  }

  /** Two option updates in a row are one update with both payloads, the
      later one winning. */
  lemma {:induction false} MergeTwice(s: ChartState, p: map<string, Json>, q: map<string, Json>)
    ensures Reduce(Reduce(s, UpdateChartOptions(p)), UpdateChartOptions(q))
         == Reduce(s, UpdateChartOptions(Merge(p, q)))
  {
    var lhs := Merge(Merge(s.chartOptions, p), q);
    var rhs := Merge(s.chartOptions, Merge(p, q));
    assert lhs.Keys == rhs.Keys;
    forall k | k in lhs
      ensures lhs[k] == rhs[k]
    {
    }
    assert lhs == rhs;
  }

  /** An empty payload leaves the options as they are. */
  lemma MergeNothing(s: ChartState)
    ensures Reduce(s, UpdateChartOptions(map[])) == s
  {
    assert Merge(s.chartOptions, map[]) == s.chartOptions;
  }

  class ChartSlice {
    var chartData: Json
    var selectedChart: Json
    var loading: bool
    var error: Json
    var chartOptions: map<string, Json>

    function State(): ChartState
      reads this
    {
      ChartState(chartData, selectedChart, loading, error, chartOptions)
    }

    constructor ()
      ensures State() == Initial
    {
      chartData := JNull;
      selectedChart := JNull;
      loading := false;
      error := JNull;
      chartOptions := InitialOptions;
    }

    method SetChartData(payload: Json)
      modifies this
      ensures State() == Reduce(old(State()), Action.SetChartData(payload))
    {
      chartData := payload;
    }

    method SetSelectedChart(payload: Json)
      modifies this
      ensures State() == Reduce(old(State()), Action.SetSelectedChart(payload))
    {
      selectedChart := payload;
    }

    method SetLoading(payload: bool)
      modifies this
      ensures State() == Reduce(old(State()), Action.SetLoading(payload))
    {
      loading := payload;
    }

    method SetError(payload: Json)
      modifies this
      ensures State() == Reduce(old(State()), Action.SetError(payload))
    {
      error := payload;
    }

    method UpdateChartOptions(payload: map<string, Json>)
      modifies this
      ensures State() == Reduce(old(State()), Action.UpdateChartOptions(payload))
    {
      chartOptions := chartOptions + payload;
    }

    method ResetChartState()
      modifies this
      ensures State() == Reduce(old(State()), Action.ResetChartState)
    {
      chartData := JNull;
      selectedChart := JNull;
      loading := false;
      error := JNull;
      chartOptions := InitialOptions;
    }
  }
}
