/** The dashboard's static data: the region table, the coordinates of each
    region, the category labels and their colours, and the lookup of one
    region's count vector. */
module Dataset {

  /** One entry of the region table: a region's name and its worker count
      for each category, in the order of the category labels. */
  datatype Region = Region(name: string, counts: seq<int>)

  /** A latitude/longitude pair. The dashboard only copies these values. */
  datatype Coord = Coord(lat: real, lon: real)

  /** An insertion-ordered dictionary from region name to count vector.
      Only a table whose names are distinct (`Distinct(Names(t))`) stands
      for a dictionary; the members that rely on it state it as a condition. */
  type Table = seq<Region>

  /** The keys of a table, in insertion order. */
  function Names(t: Table): (ns: seq<string>)
  {
    seq(|t|, r requires 0 <= r < |t| => t[r].name)
  }

  predicate Distinct<T(==)>(s: seq<T>)
  {
    forall i, j :: 0 <= i < j < |s| ==> s[i] != s[j]
  }

  /** Dictionary lookup `t[name]`: the count vector stored under `name`. */
  function CountsOf(t: Table, name: string): (c: seq<int>)
    requires name in Names(t)
    ensures exists r :: 0 <= r < |t| && t[r].name == name && c == t[r].counts
    ensures Distinct(Names(t)) ==>
              forall r :: 0 <= r < |t| && t[r].name == name ==> c == t[r].counts
    decreases |t|
  {
    if t[0].name == name then
      assert Distinct(Names(t)) ==> forall r :: 0 < r < |t| ==> t[r].name != name by {
        if Distinct(Names(t)) {
          forall r | 0 < r < |t| ensures t[r].name != name {
            assert Names(t)[0] != Names(t)[r];
          }
        }
      }
      t[0].counts
    else
      assert name in Names(t[1..]) by {
        var r :| 0 <= r < |t| && Names(t)[r] == name;
        assert Names(t[1..])[r - 1] == name;
      }
      var c := CountsOf(t[1..], name);
      assert Distinct(Names(t)) ==> Distinct(Names(t[1..])) by {
        if Distinct(Names(t)) {
          forall i, j | 0 <= i < j < |t| - 1
            ensures Names(t[1..])[i] != Names(t[1..])[j]
          {
            assert Names(t)[i + 1] != Names(t)[j + 1];
          }
        }
      }
      c
  }

  /** The region table `data`, in insertion order. */
  const DATA: Table := [
    Region("Tamil Nadu", [1886, 4379, 1422, 7808, 2849]),
    Region("Kerala", [4231, 740, 1154, 2379, 1846]),
    Region("Karnataka", [8076, 3420, 1537, 13321, 2512]),
    Region("Maharastra", [16441, 3737, 2094, 9639, 2262]),
    Region("Gujarat", [1396, 1546, 431, 3193, 300])
  ]

  /** The coordinate table `state_coords`. */
  const STATE_COORDS: map<string, Coord> := map[
    "Tamil Nadu" := Coord(11.1271, 78.6569),
    "Kerala" := Coord(10.8505, 76.2711),
    "Karnataka" := Coord(15.3173, 75.7139),
    "Maharastra" := Coord(19.7515, 75.7139),
    "Gujarat" := Coord(22.2587, 71.1924)
  ]

  /** The category labels; position i names entry i of every count vector. */
  const LABELS: seq<string> :=
    ["furniture", "dairy products", "bakery products", "wooden containers", "cement"]

  /** One colour per category, in label order. */
  const COLORS: seq<string> := ["#ff9999", "#66b3ff", "#99ff99", "#ffcc99", "#c2c2f0"]

  /** The tables agree with each other: region names and labels are distinct,
      every region has coordinates, and every count vector and the colour
      list have exactly one entry per label. */
  lemma TablesConsistent()
    ensures Distinct(Names(DATA)) && Distinct(LABELS)
    ensures |LABELS| == 5 && |COLORS| == |LABELS|
    ensures forall r :: 0 <= r < |DATA| ==>
              DATA[r].name in STATE_COORDS && |DATA[r].counts| == |LABELS|
  {
  }
}
