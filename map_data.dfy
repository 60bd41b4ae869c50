/** The records handed to the map renderers: one per (region, category)
    pair, built by a nested loop over the region table and the labels. */
module MapData {
  import opened Dataset

  /** One map record: a region, a category, that region's count for the
      category, and the region's coordinates. */
  datatype MapRecord = MapRecord(state: string, product: string, workers: int, lat: real, lon: real)

  /** The loop can run without a failed lookup: every region has coordinates
      and at least one count per label. */
  predicate Flattenable(data: Table, coords: map<string, Coord>, labels: seq<string>)
  {
    forall r :: 0 <= r < |data| ==> data[r].name in coords && |labels| <= |data[r].counts|
  }

  /** The records of one region, in label order. */
  function RegionRecords(region: Region, at: Coord, labels: seq<string>): (rows: seq<MapRecord>)
    requires |labels| <= |region.counts|
  {
    seq(|labels|, i requires 0 <= i < |labels| =>
      MapRecord(region.name, labels[i], region.counts[i], at.lat, at.lon))
  }

  /** The specification of the loop: regions in table order, each followed
      by its records in label order. */
  function Flatten(data: Table, coords: map<string, Coord>, labels: seq<string>): (rows: seq<MapRecord>)
    requires Flattenable(data, coords, labels)
    decreases |data|
  {
    if data == [] then []
    else
      var last := data[|data| - 1];
      Flatten(data[..|data| - 1], coords, labels) + RegionRecords(last, coords[last.name], labels)
  }

  /** Builds `map_data_list`: starts empty and appends one record per
      (region, category) pair. */
  method BuildMapData(data: Table, coords: map<string, Coord>, labels: seq<string>)
    returns (rows: seq<MapRecord>)
    requires Flattenable(data, coords, labels)
    ensures rows == Flatten(data, coords, labels)
  {
    rows := [];
    var r := 0;
    while r < |data|
      invariant 0 <= r <= |data|
      invariant Flattenable(data[..r], coords, labels)
      invariant rows == Flatten(data[..r], coords, labels)
    {
      var region := data[r];
      var at := coords[region.name];
      var i := 0;
      while i < |labels|
        invariant 0 <= i <= |labels|
        invariant rows == Flatten(data[..r], coords, labels) + RegionRecords(region, at, labels[..i])
      {
        rows := rows + [MapRecord(region.name, labels[i], region.counts[i], at.lat, at.lon)];
        i := i + 1;
      }
      assert labels[..i] == labels;
      assert data[..r + 1][..r] == data[..r];
      r := r + 1;
    }
    assert data[..r] == data;
  }

  /** There is one record per region and label. */
  lemma {:induction false} FlattenLength(data: Table, coords: map<string, Coord>, labels: seq<string>)
    requires Flattenable(data, coords, labels)
    ensures |Flatten(data, coords, labels)| == |data| * |labels|
    decreases |data|
  {
    if data != [] {
      var n, l, front := |data|, |labels|, data[..|data| - 1];
      FlattenLength(front, coords, labels);
      assert |Flatten(data, coords, labels)| == |Flatten(front, coords, labels)| + l;
      assert (n - 1) * l + l == n * l;
    }
  }

  /** The record at index r * |labels| + i belongs to region r and label i,
      carries that region's count for label i unchanged, and carries the
      region's coordinates. */
  lemma {:induction false} FlattenAt(data: Table, coords: map<string, Coord>, labels: seq<string>, r: nat, i: nat)
    requires Flattenable(data, coords, labels)
    requires r < |data| && i < |labels|
    ensures r * |labels| + i < |Flatten(data, coords, labels)|
    ensures Flatten(data, coords, labels)[r * |labels| + i] ==
            MapRecord(data[r].name, labels[i], data[r].counts[i],
                      coords[data[r].name].lat, coords[data[r].name].lon)
    decreases |data|
  {
    var n, front := |data|, data[..|data| - 1];
    FlattenLength(data, coords, labels);
    FlattenLength(front, coords, labels);
    if r < n - 1 {
      FlattenAt(front, coords, labels, r, i);
      assert r * |labels| + i < (r + 1) * |labels| <= (n - 1) * |labels|;
    } else {
      assert r * |labels| == |Flatten(front, coords, labels)|;
    }
  }

  /** A record drawn from the tables: its region is in the table, its
      category is a label, and its coordinates are its own region's. */
  predicate FromTables(rec: MapRecord, data: Table, coords: map<string, Coord>, labels: seq<string>)
  {
    rec.state in Names(data) && rec.product in labels && rec.state in coords &&
    rec.lat == coords[rec.state].lat && rec.lon == coords[rec.state].lon
  }

  /** Every record names a region of the table and one of the labels, and
      carries its own region's coordinates; so all records of one region
      share the same coordinates. */
  lemma {:induction false} FlattenProvenance(data: Table, coords: map<string, Coord>, labels: seq<string>)
    requires Flattenable(data, coords, labels)
    ensures forall k :: 0 <= k < |Flatten(data, coords, labels)| ==>
              FromTables(Flatten(data, coords, labels)[k], data, coords, labels)
    ensures var rows := Flatten(data, coords, labels);
            forall k1, k2 :: 0 <= k1 < |rows| && 0 <= k2 < |rows| && rows[k1].state == rows[k2].state ==>
              rows[k1].lat == rows[k2].lat && rows[k1].lon == rows[k2].lon
    decreases |data|
  {
    if data != [] {
      var n, front := |data|, data[..|data| - 1];
      FlattenProvenance(front, coords, labels);
      var rows, before := Flatten(data, coords, labels), Flatten(front, coords, labels);
      forall k | 0 <= k < |rows|
        ensures FromTables(rows[k], data, coords, labels)
      {
        if k < |before| {
          assert rows[k] == before[k];
          assert FromTables(before[k], front, coords, labels);
          var r :| 0 <= r < |front| && Names(front)[r] == rows[k].state;
          assert Names(data)[r] == rows[k].state;
        } else {
          assert rows[k].state == Names(data)[n - 1];
          assert rows[k].product == labels[k - |before|];
        }
      }
    }
  }

  /** Every (region, category) pair appears exactly once: when region names
      and labels are distinct, the records of region r and label i are
      exactly the one at index r * |labels| + i. */
  lemma {:induction false} FlattenPairOnce(data: Table, coords: map<string, Coord>, labels: seq<string>, r: nat, i: nat)
    requires Flattenable(data, coords, labels)
    requires Distinct(Names(data)) && Distinct(labels)
    requires r < |data| && i < |labels|
    ensures var rows := Flatten(data, coords, labels);
            forall k :: 0 <= k < |rows| ==>
              (rows[k].state == data[r].name && rows[k].product == labels[i] <==> k == r * |labels| + i)
    decreases |data|
  {
    var rows := Flatten(data, coords, labels);
    FlattenAt(data, coords, labels, r, i);
    forall k | 0 <= k < |rows| && rows[k].state == data[r].name && rows[k].product == labels[i]
      ensures k == r * |labels| + i
    {
      OnlyIndex(data, coords, labels, r, i, k);
    }
  }

  /** The induction behind FlattenPairOnce, for one index. */
  lemma {:induction false} OnlyIndex(data: Table, coords: map<string, Coord>, labels: seq<string>, r: nat, i: nat, k: nat)
    requires Flattenable(data, coords, labels)
    requires Distinct(Names(data)) && Distinct(labels)
    requires r < |data| && i < |labels|
    requires k < |Flatten(data, coords, labels)|
    requires Flatten(data, coords, labels)[k].state == data[r].name
    requires Flatten(data, coords, labels)[k].product == labels[i]
    ensures k == r * |labels| + i
    decreases |data|
  {
    var n, front := |data|, data[..|data| - 1];
    var rows, before := Flatten(data, coords, labels), Flatten(front, coords, labels);
    FlattenLength(front, coords, labels);
    if k < |before| {
      assert rows[k] == before[k];
      FlattenProvenance(front, coords, labels);
      assert FromTables(before[k], front, coords, labels);
      var r' :| 0 <= r' < |front| && Names(front)[r'] == rows[k].state;
      assert Names(data)[r'] == Names(data)[r];
      assert Distinct(Names(front)) by {
        forall a, b | 0 <= a < b < |front| ensures Names(front)[a] != Names(front)[b] {
          assert Names(data)[a] != Names(data)[b];
        }
      }
      OnlyIndex(front, coords, labels, r, i, k);
    } else {
      var j := k - |before|;
      assert rows[k].state == Names(data)[n - 1];
      assert rows[k].product == labels[j];
      assert Names(data)[r] == Names(data)[n - 1];
      assert r == n - 1;
      assert j == i;
    }
  }
}
