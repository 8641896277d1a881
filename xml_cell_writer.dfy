/**
 * The writer object: it owns the text written so far to `cell_data.xml`
 * and appends one record per visited cell, framed by the time-stamp line
 * and the closing `</time>` line of each sampled timestep.
 */
module CellWriters {
  import opened Text
  import opened CellBased
  import opened XmlFormat

  class XmlCellWriter {
    /** Everything written to the output stream so far. */
    var out: string
    const fileName: string
    const vtkCellDataName: string

    constructor ()
      ensures out == []
      ensures fileName == "cell_data.xml"
      ensures vtkCellDataName == "XML_dummy_attribute"
    {
      out := [];
      fileName := "cell_data.xml";
      vtkCellDataName := "XML_dummy_attribute";
    }

    /** Closes the block of a sampled timestep. */
    method WriteNewline()
      modifies this
      ensures out == old(out) + TimeClose
    {
      out := out + TimeClose;
    }

    /** Opens the block of a sampled timestep with the simulation time and the step count. */
    method WriteTimeStamp(time: real, timeStepsElapsed: nat, fmt: real -> string)
      modifies this
      ensures out == old(out) + TimeStamp(time, timeStepsElapsed, fmt)
    {
      out := out + TimeOpen + fmt(time) + "\"" + TimeMiddle + FmtNat(timeStepsElapsed) + "\"" + TimeEnd;
    }

    /** Appends one `name="value" ` item. */
    method WriteAttribute(name: AttributeName, value: string)
      modifies this
      ensures out == old(out) + AttributeText(Attribute(name, value))
    {
      out := out + NameText(name) + "=\"" + value + "\" ";
    }

    /** Appends `cell_id`, `x` and `y`. */
    method WriteLeading(v: CellView, fmt: real -> string)
      modifies this
      ensures out == old(out) + RenderAttributes(LeadingAttributes(v, fmt))
    {
      var a, b, c := Attribute(CellIdAttr, FmtNat(v.cellId)), Attribute(XAttr, fmt(v.x)), Attribute(YAttr, fmt(v.y));
      ghost var start := out;
      WriteAttribute(CellIdAttr, FmtNat(v.cellId));
      WriteAttribute(XAttr, fmt(v.x));
      WriteAttribute(YAttr, fmt(v.y));
      AppendThree(start, AttributeText(a), AttributeText(b), AttributeText(c));
      RenderAttributesThree(a, b, c);
    }

    /** Appends `area` when the volume is below `DBL_MAX`, and `CellLabel` when the cell is labelled. */
    method WriteOptional(volume: real, labelled: bool, fmt: real -> string)
      modifies this
      ensures out == old(out) + RenderAttributes(AreaAttribute(volume, fmt)) + RenderAttributes(LabelAttribute(labelled))
    {
      ghost var start := out;
      if volume < DblMax {
        WriteAttribute(AreaAttr, fmt(volume));
      }
      assert out == start + RenderAttributes(AreaAttribute(volume, fmt));
      ghost var mid := out;
      if labelled {
        WriteAttribute(CellLabelAttr, FmtNat(1));
      }
      assert out == mid + RenderAttributes(LabelAttribute(labelled));
    }

    /** Appends `target_area`, `ODE_area` and `G`; the G attribute is given the target area. */
    method WriteItems(d: DataItems, fmt: real -> string)
      modifies this
      ensures out == old(out) + RenderAttributes(ItemAttributes(d, fmt))
    {
      var a, b, c := Attribute(TargetAreaAttr, fmt(d.targetArea)), Attribute(OdeAreaAttr, fmt(d.odeArea)), Attribute(GAttr, fmt(d.targetArea));
      ghost var start := out;
      WriteAttribute(TargetAreaAttr, fmt(d.targetArea));
      WriteAttribute(OdeAreaAttr, fmt(d.odeArea));
      WriteAttribute(GAttr, fmt(d.targetArea));
      AppendThree(start, AttributeText(a), AttributeText(b), AttributeText(c));
      RenderAttributesThree(a, b, c);
    }

    /**
     * Appends the neighbours' cell ids, each after one space, visiting the
     * neighbour location indices in ascending order as a `std::set` does.
     */
    method WriteNeighbourIds(v: CellView)
      requires Readable(v)
      modifies this
      ensures out == old(out) + NeighbourList(NeighbourIds(v))
    {
      var neighbours, cellIdAt := v.neighbours, v.cellIdAt;
      var rest := neighbours;
      ghost var done: seq<nat> := [];
      ghost var ids: seq<nat> := [];
      while rest != {}
        invariant rest <= neighbours
        invariant Ascending(neighbours) == done + Ascending(rest)
        invariant |ids| == |done|
        invariant forall k :: 0 <= k < |done| ==> done[k] in cellIdAt && ids[k] == cellIdAt[done[k]]
        invariant out == old(out) + NeighbourList(ids)
        decreases rest
      {
        var index :| index in rest && forall j :: j in rest ==> index <= j;
        AscendingFirst(rest, index);
        AppendAssoc(done, [index], Ascending(rest - {index}));
        NeighbourListSnoc(ids, cellIdAt[index]);
        AppendAssoc(old(out), NeighbourList(ids), " " + FmtNat(cellIdAt[index]));
        out := out + (" " + FmtNat(cellIdAt[index]));
        done := done + [index];
        ids := ids + [cellIdAt[index]];
        rest := rest - {index};
      }
      assert done == Ascending(neighbours);
      AscendingMembers(neighbours);
      AscendingLength(neighbours);
      assert ids == NeighbourIds(v);
    }

    /** Appends the `neighbors` item: its name, then the id list, then the closing quote. */
    method WriteNeighbours(v: CellView)
      requires Readable(v)
      modifies this
      ensures out == old(out) + AttributeText(Attribute(NeighborsAttr, NeighbourList(NeighbourIds(v))))
    {
      out := out + NameText(NeighborsAttr) + "=\"";
      WriteNeighbourIds(v);
      out := out + "\" ";
    }

    /** Appends `perimeter`, `num_neighbours`, `neighbors` and `num_edges`. */
    method WriteShape(v: CellView, fmt: real -> string)
      requires Readable(v)
      modifies this
      ensures out == old(out) + RenderAttributes(ShapeAttributes(v, fmt))
    {
      var a, b := Attribute(PerimeterAttr, fmt(v.perimeter)), Attribute(NumNeighboursAttr, FmtNat(|v.neighbours|));
      ghost var c := Attribute(NeighborsAttr, NeighbourList(NeighbourIds(v)));
      var e := Attribute(NumEdgesAttr, FmtNat(v.numEdges));
      ghost var start := out;
      WriteAttribute(PerimeterAttr, fmt(v.perimeter));
      WriteAttribute(NumNeighboursAttr, FmtNat(|v.neighbours|));
      WriteNeighbours(v);
      WriteAttribute(NumEdgesAttr, FmtNat(v.numEdges));
      AppendFour(start, AttributeText(a), AttributeText(b), AttributeText(c), AttributeText(e));
      RenderAttributesFour(a, b, c, e);
    }

    /**
     * Appends the record of one cell: the text `CellRecord` gives, so that
     * every property proved about `CellRecord` holds of what was written.
     */
    method VisitCell(v: CellView, data: CellData, fmt: real -> string)
      requires Readable(v) && HasItems(data.items)
      modifies this
      ensures out == old(out) + CellRecord(v, ItemsOf(data.items), fmt)
    {
      out := out + CellOpen;
      WriteLeading(v, fmt);
      var volume := data.items[VolumeKey];
      WriteOptional(volume, v.labelled, fmt);
      var targetArea := data.items[TargetAreaKey];
      var odeArea := data.items[AreaKey];
      var g := data.items[GKey];
      var d := DataItems(volume, targetArea, odeArea, g);
      WriteItems(d, fmt);
      WriteShape(v, fmt);
      ghost var lead, area, lab := LeadingAttributes(v, fmt), AreaAttribute(volume, fmt), LabelAttribute(v.labelled);
      ghost var items, shape := ItemAttributes(d, fmt), ShapeAttributes(v, fmt);
      RenderAttributesConcat(lead, area);
      RenderAttributesConcat(lead + area, lab);
      RenderAttributesConcat(items, shape);
      RenderAttributesConcat(lead + area + lab, items + shape);
      out := out + CellClose;
      RecordAppend(old(out), CellOpen, RenderAttributes(lead), RenderAttributes(area), RenderAttributes(lab),
        RenderAttributes(items), RenderAttributes(shape), CellClose);
    }

    /** The writer contributes no VTK cell data: the value is always zero. */
    method GetCellDataForVtkOutput(v: CellView, data: CellData) returns (r: real)
      ensures r == 0.0
    {
      r := 0.0;
    }
  }

  /** Regroups the pieces of a record appended one after another onto the output. */
  lemma RecordAppend(s: string, open: string, lead: string, area: string, lab: string, items: string, shape: string, close: string)
    ensures s + open + lead + area + lab + items + shape + close
         == s + (open + (lead + area + lab + (items + shape)) + close)
  {
  }
}
