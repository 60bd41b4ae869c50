/** One run of the dashboard script: the charts drawn for the widget
    selections, and the records handed to the two maps. */
module Dashboard {
  import opened Dataset
  import opened ChartSelection
  import opened MapData

  /** The script from top to bottom. The selections the widgets return are
      parameters; the region selector offers only the table's keys. */
  method Run(stateChoice: string, chartChoice: string)
    returns (calls: seq<RenderCall>, mapData: seq<MapRecord>)
    requires stateChoice in Names(DATA)
    ensures Distinct(Names(DATA)) && Flattenable(DATA, STATE_COORDS, LABELS)
    ensures calls == RenderCalls(DATA, stateChoice, chartChoice)
    ensures forall k :: 0 <= k < |calls| ==> calls[k].values == CountsOf(DATA, stateChoice)
    ensures mapData == Flatten(DATA, STATE_COORDS, LABELS)
    ensures |mapData| == |DATA| * |LABELS| == 25
  {
    TablesConsistent();
    calls := RenderCalls(DATA, stateChoice, chartChoice);
    mapData := BuildMapData(DATA, STATE_COORDS, LABELS);
    FlattenLength(DATA, STATE_COORDS, LABELS);
  }

  /** The map records for the dashboard's own tables: 25 of them, every
      (region, category) pair exactly once, each with its region's count
      and coordinates. */
  lemma MapDataOfTables(r: nat, i: nat)
    requires r < |DATA| && i < |LABELS|
    ensures Flattenable(DATA, STATE_COORDS, LABELS)
    ensures |Flatten(DATA, STATE_COORDS, LABELS)| == 25
    ensures var rows := Flatten(DATA, STATE_COORDS, LABELS);
            rows[5 * r + i] == MapRecord(DATA[r].name, LABELS[i], DATA[r].counts[i],
                                         STATE_COORDS[DATA[r].name].lat, STATE_COORDS[DATA[r].name].lon) &&
            forall k :: 0 <= k < |rows| && rows[k].state == DATA[r].name && rows[k].product == LABELS[i] ==>
              k == 5 * r + i
  {
    TablesConsistent();
    FlattenLength(DATA, STATE_COORDS, LABELS);
    FlattenAt(DATA, STATE_COORDS, LABELS, r, i);
    FlattenPairOnce(DATA, STATE_COORDS, LABELS, r, i);
  }

  /** Tamil Nadu with "Bar Chart" draws one bar chart of Tamil Nadu's
      vector; with "Show All" it draws the bar, pie and donut charts of the
      same vector, in that order. */
  lemma TamilNaduCharts()
    ensures "Tamil Nadu" in Names(DATA)
    ensures RenderCalls(DATA, "Tamil Nadu", "Bar Chart") ==
            [RenderCall(Bar, "Bar Chart: Tamil Nadu", [1886, 4379, 1422, 7808, 2849])]
    ensures var calls := RenderCalls(DATA, "Tamil Nadu", "Show All");
            |calls| == 3 &&
            calls[0].chart == Bar && calls[1].chart == Pie(false) && calls[2].chart == Pie(true) &&
            forall k :: 0 <= k < 3 ==> calls[k].values == [1886, 4379, 1422, 7808, 2849]
  {
    TablesConsistent();
    assert Names(DATA)[0] == "Tamil Nadu";
    SingleChoiceOneCall(DATA, "Tamil Nadu", Bar);
    assert CountsOf(DATA, "Tamil Nadu") == DATA[0].counts;
    assert "Bar Chart" + ": " + "Tamil Nadu" == "Bar Chart: Tamil Nadu";
    OptionsCoverCharts();
  }
}
