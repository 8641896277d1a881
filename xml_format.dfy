/**
 * The XML cell writer: one `<cell .../>` record per cell with a fixed
 * attribute order, and the `<time ...>` / `</time>` lines that frame a
 * sampled timestep.
 *
 * Doubles are rendered by a formatting function `fmt` passed in (the C++
 * stream's double formatting is not modelled); unsigned and int values are
 * rendered in decimal by `FmtNat`. The text of a record is given by the
 * specification function `CellRecord`, and `ParseCellRecord` reads it back.
 */
module XmlFormat {
  import opened Text
  import opened CellBased

  /** `DBL_MAX`, the largest finite double, written out exactly. */
  const DblMax: real := 179769313486231570814527423731704356798070567525844996598917476803157260780028538760589558632766878171540458953514382464234321326889464182768467546703537516986049910576551282076245490090389328944075868508455133942304583236903222948165808559332123348274797826204144723168738177180919299881250404026184124858368.0

  const CellOpen: string := "<cell "
  const CellClose: string := "/>\n"
  const TimeOpen: string := "<time t=\""
  const TimeMiddle: string := " tau=\""
  const TimeEnd: string := ">\n"
  const TimeClose: string := "</time>\n"

  /** The attributes a record can carry. */
  datatype AttributeName =
    | CellIdAttr | XAttr | YAttr | AreaAttr | CellLabelAttr | TargetAreaAttr
    | OdeAreaAttr | GAttr | PerimeterAttr | NumNeighboursAttr | NeighborsAttr | NumEdgesAttr

  /** Every attribute name, in the order the writer emits them. */
  const AttributeOrder: seq<AttributeName> :=
    [CellIdAttr, XAttr, YAttr, AreaAttr, CellLabelAttr, TargetAreaAttr,
     OdeAreaAttr, GAttr, PerimeterAttr, NumNeighboursAttr, NeighborsAttr, NumEdgesAttr]

  /** The position of a name in the emission order. */
  function Rank(n: AttributeName): (k: nat)
    ensures k < |AttributeOrder| && AttributeOrder[k] == n
  {
    match n
    case CellIdAttr => 0
    case XAttr => 1
    case YAttr => 2
    case AreaAttr => 3
    case CellLabelAttr => 4
    case TargetAreaAttr => 5
    case OdeAreaAttr => 6
    case GAttr => 7
    case PerimeterAttr => 8
    case NumNeighboursAttr => 9
    case NeighborsAttr => 10
    case NumEdgesAttr => 11
  }

  /** The text of each attribute name as it appears in the file, in emission order. */
  const NameTexts: seq<string> :=
    ["cell_id", "x", "y", "area", "CellLabel", "target_area", "ODE_area", "G",
     "perimeter", "num_neighbours", "neighbors", "num_edges"]

  function NameText(n: AttributeName): string
  {
    NameTexts[Rank(n)]
  }

  datatype Attribute = Attribute(name: AttributeName, value: string)

  /**
   * What the writer reads about one cell from the population: its id,
   * centroid, label flag, perimeter, the location indices of its
   * neighbours, the cell id at each location index, and the node count of
   * its element.
   */
  datatype CellView = CellView(
    cellId: nat, x: real, y: real, labelled: bool, perimeter: real,
    neighbours: set<nat>, cellIdAt: map<nat, nat>, numEdges: nat)

  /** Every neighbour location holds a cell. */
  predicate Readable(v: CellView)
  {
    v.neighbours <= v.cellIdAt.Keys
  }

  /** The four data items the writer reads from the cell's `CellData`. */
  datatype DataItems = DataItems(volume: real, targetArea: real, odeArea: real, g: real)

  /** The cell data holds every item the writer reads. */
  predicate HasItems(items: map<string, real>)
  {
    VolumeKey in items && TargetAreaKey in items && AreaKey in items && GKey in items
  }

  function ItemsOf(items: map<string, real>): DataItems
    requires HasItems(items)
  {
    DataItems(items[VolumeKey], items[TargetAreaKey], items[AreaKey], items[GKey])
  }

  /** `name="value" ` */
  function AttributeText(a: Attribute): string
  {
    NameText(a.name) + "=\"" + a.value + "\" "
  }

  function RenderAttributes(attrs: seq<Attribute>): string
  {
    if attrs == [] then [] else AttributeText(attrs[0]) + RenderAttributes(attrs[1..])
  }

  lemma {:induction false} RenderAttributesSnoc(attrs: seq<Attribute>, a: Attribute)
    ensures RenderAttributes(attrs + [a]) == RenderAttributes(attrs) + AttributeText(a)
  {
    if attrs != [] {
      assert (attrs + [a])[1..] == attrs[1..] + [a];
      RenderAttributesSnoc(attrs[1..], a);
    }
  }

  lemma {:induction false} RenderAttributesConcat(a: seq<Attribute>, b: seq<Attribute>)
    ensures RenderAttributes(a + b) == RenderAttributes(a) + RenderAttributes(b)
  {
    if a == [] {
      assert a + b == b;
    } else {
      assert (a + b)[0] == a[0];
      assert (a + b)[1..] == a[1..] + b;
      RenderAttributesConcat(a[1..], b);
    }
  }

  lemma RenderAttributesThree(a: Attribute, b: Attribute, c: Attribute)
    ensures RenderAttributes([a, b, c]) == AttributeText(a) + AttributeText(b) + AttributeText(c)
  {
    assert [a, b, c][1..] == [b, c];
    assert [b, c][1..] == [c];
    assert [c][1..] == [];
    assert RenderAttributes([c]) == AttributeText(c);
  }

  lemma RenderAttributesFour(a: Attribute, b: Attribute, c: Attribute, e: Attribute)
    ensures RenderAttributes([a, b, c, e]) == AttributeText(a) + AttributeText(b) + AttributeText(c) + AttributeText(e)
  {
    assert [a, b, c, e][1..] == [b, c, e];
    RenderAttributesThree(b, c, e);
  }

  /** The cell ids found at the given location indices. */
  function IdsAt(indices: seq<nat>, cellIdAt: map<nat, nat>): (ids: seq<nat>)
    requires forall k :: 0 <= k < |indices| ==> indices[k] in cellIdAt
    ensures |ids| == |indices|
    ensures forall k :: 0 <= k < |indices| ==> ids[k] == cellIdAt[indices[k]]
  {
    seq(|indices|, k requires 0 <= k < |indices| && indices[k] in cellIdAt => cellIdAt[indices[k]])
  }

  /** The neighbours' cell ids, one per neighbour, in ascending order of location index. */
  ghost function NeighbourIds(v: CellView): (ids: seq<nat>)
    requires Readable(v)
    ensures |ids| == |v.neighbours|
  {
    AscendingMembers(v.neighbours);
    AscendingLength(v.neighbours);
    IdsAt(Ascending(v.neighbours), v.cellIdAt)
  }

  /** Value of the `neighbors` attribute: each id preceded by one space. */
  function NeighbourList(ids: seq<nat>): string
  {
    if ids == [] then [] else " " + FmtNat(ids[0]) + NeighbourList(ids[1..])
  }

  lemma {:induction false} NeighbourListSnoc(ids: seq<nat>, id: nat)
    ensures NeighbourList(ids + [id]) == NeighbourList(ids) + (" " + FmtNat(id))
  {
    if ids != [] {
      assert (ids + [id])[1..] == ids[1..] + [id];
      NeighbourListSnoc(ids[1..], id);
    }
  }

  /** `cell_id`, `x` and `y`: always written first. */
  function LeadingAttributes(v: CellView, fmt: real -> string): seq<Attribute>
  {
    [Attribute(CellIdAttr, FmtNat(v.cellId)), Attribute(XAttr, fmt(v.x)), Attribute(YAttr, fmt(v.y))]
  }

  /** `area`: written only for a volume below `DBL_MAX`. */
  function AreaAttribute(volume: real, fmt: real -> string): seq<Attribute>
  {
    if volume < DblMax then [Attribute(AreaAttr, fmt(volume))] else []
  }

  /** `CellLabel="1"`: written only for a labelled cell. */
  function LabelAttribute(labelled: bool): seq<Attribute>
  {
    if labelled then [Attribute(CellLabelAttr, FmtNat(1))] else []
  }

  /** `target_area`, `ODE_area` and `G`, from the data items. The G attribute carries the target area. */
  function ItemAttributes(d: DataItems, fmt: real -> string): seq<Attribute>
  {
    [Attribute(TargetAreaAttr, fmt(d.targetArea)),
     Attribute(OdeAreaAttr, fmt(d.odeArea)),
     Attribute(GAttr, fmt(d.targetArea))]
  }

  /** `perimeter`, `num_neighbours`, `neighbors` and `num_edges`, from the population. */
  ghost function ShapeAttributes(v: CellView, fmt: real -> string): seq<Attribute>
    requires Readable(v)
  {
    [Attribute(PerimeterAttr, fmt(v.perimeter)),
     Attribute(NumNeighboursAttr, FmtNat(|v.neighbours|)),
     Attribute(NeighborsAttr, NeighbourList(NeighbourIds(v))),
     Attribute(NumEdgesAttr, FmtNat(v.numEdges))]
  }

  /** The seven attributes that always close a record. */
  ghost function TrailingAttributes(v: CellView, d: DataItems, fmt: real -> string): seq<Attribute>
    requires Readable(v)
  {
    ItemAttributes(d, fmt) + ShapeAttributes(v, fmt)
  }

  /** The attributes of one cell's record, in emission order. */
  ghost function CellAttributes(v: CellView, d: DataItems, fmt: real -> string): (attrs: seq<Attribute>)
    requires Readable(v)
    ensures |attrs| == 10 + (if d.volume < DblMax then 1 else 0) + (if v.labelled then 1 else 0)
    ensures attrs[0] == Attribute(CellIdAttr, FmtNat(v.cellId))
    ensures attrs[|attrs| - 1] == Attribute(NumEdgesAttr, FmtNat(v.numEdges))
  {
    LeadingAttributes(v, fmt) + AreaAttribute(d.volume, fmt) + LabelAttribute(v.labelled) + TrailingAttributes(v, d, fmt)
  }

  /** The full text of one cell's record. */
  ghost function CellRecord(v: CellView, d: DataItems, fmt: real -> string): (r: string)
    requires Readable(v)
    ensures |r| > |CellOpen| + |CellClose|
    ensures r[..|CellOpen|] == CellOpen && r[|r| - |CellClose|..] == CellClose
  {
    CellOpen + RenderAttributes(CellAttributes(v, d, fmt)) + CellClose
  }

  /** The line that opens a sampled timestep: `<time t="T" tau="N">`. */
  function TimeStamp(time: real, timeStepsElapsed: nat, fmt: real -> string): (s: string)
    ensures |s| > |TimeOpen| + |TimeEnd|
    ensures s[..|TimeOpen|] == TimeOpen && s[|s| - |TimeEnd|..] == TimeEnd
  {
    TimeOpen + fmt(time) + "\"" + TimeMiddle + FmtNat(timeStepsElapsed) + "\"" + TimeEnd
  }
}
