# Resource Management Dashboard — Dafny model

The dashboard is a single script. It holds a table of five Indian states, each with worker counts for five
product categories (furniture, dairy products, bakery products, wooden containers, cement), plus a table of
each state's coordinates. The user picks a state and a chart kind. The script draws that state's counts as
a bar chart, a pie chart, a donut chart, or all three. It also flattens the whole table into one record per
(state, category) pair and feeds those records to a scatter map and a density map.

This project models the parts of the script whose behaviour can be stated without the plotting libraries:

- `dataset.dfy`, module `Dataset`: the state table as an insertion-ordered sequence of `(name, counts)`
  entries, the coordinate table, the labels and the colours. It also holds the dictionary lookup
  `data[state_choice]`.
- `chart_selection.dfy`, module `ChartSelection`: the radio options and the `if/elif/else` display chain.
  The chain picks the charts to draw. A `RenderCall` records one call of a chart function: the chart, its
  subheader and the values it draws.
- `map_data.dfy`, module `MapData`: the nested loop that builds `map_data_list`. `BuildMapData` is a method
  with loop invariants, proved equal to the recursive specification `Flatten`. Lemmas about `Flatten` give
  its length, the record at each index, where each record's fields come from, and that every
  (state, category) pair appears exactly once.
- `dashboard.dfy`, module `Dashboard`: one run of the script. The widget selections are parameters, and the
  map records are shown not to depend on them.

Coordinates are `real` literals. The script only copies them and never computes with them.

The script's `else` branch accepts any chart-kind value other than the three single-chart options. It draws
all three charts. The script raises no error for an unknown kind, and the model follows the code: `Charts`
has no error result.

## Model

| member | source | states |
|---|---|---|
| `Dataset.CountsOf` | Resource_management_project_6.py:32 | The lookup returns the count vector of an entry whose key is the chosen name. When keys are distinct, as dictionary keys are, it is the vector of every entry with that name. |
| `Dataset.TablesConsistent` | Resource_management_project_6.py:9-26 | State names are distinct and labels are distinct. Every state has coordinates. Every count vector and the colour list have exactly one entry per label, and there are 5 labels. |
| `ChartSelection.ChoiceFor` | Resource_management_project_6.py:33 | The option naming a single chart is one of the four radio options, and it is never "Show All". |
| `ChartSelection.Charts` | Resource_management_project_6.py:52-62 | A choice equal to the option for chart `c` draws exactly `[c]`. Any choice matching no single-chart option, "Show All" among them, draws bar, pie, donut in that order. |
| `ChartSelection.RenderCalls` | Resource_management_project_6.py:32-62 | There is one call per chart `Charts` selects, in the same order. Each call's subheader is that chart's radio option, ": " and the state name. Each call draws the chosen state's own count vector. |
| `ChartSelection.Subheader` | Resource_management_project_6.py:33-45 | The subheader that `plot_bar`/`plot_pie` write is the radio option for that chart, followed by ": " and the state. |
| `ChartSelection.ChoiceForInjective` | Resource_management_project_6.py:33 | Two charts share a radio option if and only if they are the same chart. |
| `ChartSelection.OptionsCoverCharts` | Resource_management_project_6.py:33-62 | The radio options are the three single-chart options in chart order, then "Show All". "Show All" draws every chart exactly once. |
| `ChartSelection.SingleChoiceOneCall` | Resource_management_project_6.py:52-57 | A single-chart choice makes exactly one call. Its subheader is the choice, ": " and the state, and it draws the state's vector. |
| `MapData.BuildMapData` | Resource_management_project_6.py:66-73 | The list built by the nested loop equals `Flatten`: states in table order, each followed by its records in label order. |
| `MapData.FlattenLength` | Resource_management_project_6.py:66-73 | The flattened list has (number of states) × (number of labels) records. |
| `MapData.FlattenAt` | Resource_management_project_6.py:67-72 | The record at index `r*|labels| + i` has state `r`'s name, label `i`, state `r`'s count `i` unchanged, and state `r`'s coordinates. |
| `MapData.FlattenProvenance` | Resource_management_project_6.py:67-72 | Every record's state is a table key and its product is a label. Its lat/lon are its own state's coordinates, so records of one state share coordinates. |
| `MapData.FlattenPairOnce` | Resource_management_project_6.py:67-69 | With distinct names and labels, a record matches state `r` and label `i` if and only if its index is `r*|labels| + i`: each pair appears exactly once. |
| `MapData.OnlyIndex` | Resource_management_project_6.py:67-69 | The inductive step of `FlattenPairOnce` for a single index: a record matching state `r` and label `i` sits at `r*|labels| + i`. |
| `Dashboard.Run` | Resource_management_project_6.py:9-74 | A run raises no lookup error: state names are distinct and the tables meet the loop's requirement. The charts drawn are `RenderCalls` of the two selections, each drawing the chosen state's vector. The map data is `Flatten` of the three constant tables, the same whatever is selected, and it has 25 records. |
| `Dashboard.MapDataOfTables` | Resource_management_project_6.py:9-73 | For the script's own tables the loop can run without a failed lookup and gives 25 records. Record `5*r + i` is state `r` with label `i`, and it is the only record for that pair. |
| `Dashboard.TamilNaduCharts` | Resource_management_project_6.py:9-62 | "Tamil Nadu" with "Bar Chart" gives exactly one bar call, headed "Bar Chart: Tamil Nadu", drawing `[1886, 4379, 1422, 7808, 2849]`. With "Show All" it gives bar, pie, donut calls drawing that same vector. |

## Left out

- Streamlit page setup, title, divider, columns and tabs (lines 7, 28, 60-62, 65, 77-94): these only lay out the page. The model keeps the order of the chart calls but not their placement in columns.
- The widgets themselves (lines 31, 33): the selections they return are parameters of `Dashboard.Run`. The state selector offers only the table's keys, which is the `requires` of `Run` and `RenderCalls`.
- Matplotlib drawing (lines 38-48): figure sizes, the y-axis label, the `'%1.1f%%'` percentage labels (computed in floating point inside the library), the donut's wedge width of 0.5 and the start angle of 140. A `RenderCall` records only the chart, its subheader and its values. The labels and colours passed with every call are the constants `LABELS` and `COLORS`.
- `pd.DataFrame` construction and the Plotly scatter and density maps (lines 74, 81-94): these are library calls. The model stops at the list handed to `DataFrame`.
- The `KeyError`/`IndexError` the loop would raise for a table with a state missing from `state_coords` or a count vector shorter than the labels: the script's tables never do this. `Flattenable` requires that it does not happen, and `TablesConsistent` proves the script's tables meet that requirement.
- Unpacking `lat, lon` from a two-element list (line 68): the model's `Coord` is always a pair.
