/** Which charts the dashboard draws for the selected chart kind, and with
    what heading and values. */
module ChartSelection {
  import opened Dataset

  /** A chart the dashboard can draw: the bar chart, or the pie chart,
      plain or as a donut. */
  datatype Chart = Bar | Pie(donut: bool)

  /** The options offered by the chart-kind radio buttons, in display order. */
  const CHART_OPTIONS: seq<string> := ["Bar Chart", "Pie Chart", "Donut Chart", "Show All"]

  /** The charts drawn by "Show All", in drawing order. */
  const ALL_CHARTS: seq<Chart> := [Bar, Pie(false), Pie(true)]

  /** The radio option that asks for this chart on its own. */
  function ChoiceFor(c: Chart): (o: string)
    ensures o in CHART_OPTIONS && o != "Show All"
  {
    match c
    case Bar => "Bar Chart"
    case Pie(donut) => if donut then "Donut Chart" else "Pie Chart"
  }

  /** The display chain: the charts drawn, in order, for a chart-kind choice.
      A choice naming one chart draws that chart alone; anything else,
      "Show All" included, draws all three. There is no error case. */
  function Charts(choice: string): (cs: seq<Chart>)
    ensures forall c :: ChoiceFor(c) == choice ==> cs == [c]
    ensures (forall c :: ChoiceFor(c) != choice) ==> cs == ALL_CHARTS
  {
    if choice == "Bar Chart" then [Bar]
    else if choice == "Pie Chart" then [Pie(false)]
    else if choice == "Donut Chart" then [Pie(true)]
    else
      assert ChoiceFor(Bar) != choice && ChoiceFor(Pie(false)) != choice
        && ChoiceFor(Pie(true)) != choice;
      ALL_CHARTS
  }

  /** The subheader a chart function writes above its chart. */
  function Subheader(c: Chart, state: string): (s: string)
    ensures s == ChoiceFor(c) + ": " + state
  {
    match c
    case Bar => "Bar Chart: " + state
    case Pie(donut) => (if donut then "Donut" else "Pie") + " Chart: " + state
  }

  /** One call of a chart function: the chart, its subheader and the values. */
  datatype RenderCall = RenderCall(chart: Chart, subheader: string, values: seq<int>)

  /** The chart-function calls made for a region choice and a chart-kind
      choice, in order. Every call draws the selected region's own vector. */
  function RenderCalls(t: Table, stateChoice: string, chartChoice: string): (calls: seq<RenderCall>)
    requires stateChoice in Names(t)
    ensures |calls| == |Charts(chartChoice)|
    ensures forall k :: 0 <= k < |calls| ==>
              calls[k].chart == Charts(chartChoice)[k] &&
              calls[k].subheader == ChoiceFor(calls[k].chart) + ": " + stateChoice
    ensures Distinct(Names(t)) ==>
              forall k, r :: 0 <= k < |calls| && 0 <= r < |t| && t[r].name == stateChoice ==>
                calls[k].values == t[r].counts
  {
    var cs := Charts(chartChoice);
    var values := CountsOf(t, stateChoice);
    seq(|cs|, k requires 0 <= k < |cs| => RenderCall(cs[k], Subheader(cs[k], stateChoice), values))
  }

  /** Distinct charts are asked for by distinct radio options. */
  lemma ChoiceForInjective(c1: Chart, c2: Chart)
    ensures ChoiceFor(c1) == ChoiceFor(c2) <==> c1 == c2
  {
  }

  /** The four radio options: the three single-chart options in order, then
      "Show All", which draws every chart exactly once. */
  lemma OptionsCoverCharts()
    ensures CHART_OPTIONS == [ChoiceFor(Bar), ChoiceFor(Pie(false)), ChoiceFor(Pie(true)), "Show All"]
    ensures Charts("Show All") == ALL_CHARTS
    ensures forall c :: multiset(Charts("Show All"))[c] == 1
  {
    forall c ensures ChoiceFor(c) != "Show All" { }
    forall c ensures multiset(ALL_CHARTS)[c] == 1 {
      assert multiset(ALL_CHARTS) == multiset{Bar} + multiset{Pie(false)} + multiset{Pie(true)};
      match c
      case Bar =>
      case Pie(donut) =>
    }
  }

  /** Choosing a single chart kind makes exactly one call, headed by that
      choice and the region name and drawing the region's vector. */
  lemma SingleChoiceOneCall(t: Table, stateChoice: string, c: Chart)
    requires stateChoice in Names(t)
    ensures RenderCalls(t, stateChoice, ChoiceFor(c)) ==
            [RenderCall(c, ChoiceFor(c) + ": " + stateChoice, CountsOf(t, stateChoice))]
  {
  }
}
