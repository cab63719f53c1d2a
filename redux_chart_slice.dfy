/** The Redux `chart` slice: the chart's data and its type. */
module ReduxChartSlice {
  import opened Values

  const InitialChartType := "2D"

  datatype ChartState = ChartState(chartData: Json, chartType: string)

  datatype Action = SetChartData(data: Json) | SetChartType(chartType: string)

  const Initial := ChartState(JNull, InitialChartType)

  /** Each setter changes its own field and nothing else. */
  function Reduce(s: ChartState, a: Action): (r: ChartState)
    ensures a.SetChartData? ==> r.chartData == a.data && r.chartType == s.chartType
    ensures a.SetChartType? ==> r.chartType == a.chartType && r.chartData == s.chartData
  {
    match a
    case SetChartData(d) => s.(chartData := d)
    case SetChartType(t) => s.(chartType := t)
  }

  /** Setting the same payload twice is setting it once. */
  lemma ReduceIdempotent(s: ChartState, a: Action)
    ensures Reduce(Reduce(s, a), a) == Reduce(s, a)
  {
  }

  /** Setting the data and setting the type do not interfere. */
  lemma SettersCommute(s: ChartState, d: Json, t: string)
    ensures Reduce(Reduce(s, SetChartData(d)), SetChartType(t))
         == Reduce(Reduce(s, SetChartType(t)), SetChartData(d))
  {
  }

  class ChartSlice {
    var chartData: Json
    var chartType: string

    function State(): ChartState
      reads this
    {
      ChartState(chartData, chartType)
    }

    constructor ()
      ensures State() == Initial
    {
      chartData := JNull;
      chartType := InitialChartType;
    }

    method SetChartData(payload: Json)
      modifies this
      ensures State() == Reduce(old(State()), Action.SetChartData(payload))
    {
      chartData := payload;
    }

    method SetChartType(payload: string)
      modifies this
      ensures State() == Reduce(old(State()), Action.SetChartType(payload))
    {
      chartType := payload;
    }
  }
}
