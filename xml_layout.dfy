/** Which attributes a cell record carries, in which order, and with which values. */
module XmlLayout {
  import opened Text
  import opened XmlFormat

  function Names(attrs: seq<Attribute>): (names: seq<AttributeName>)
    ensures |names| == |attrs|
    ensures forall k :: 0 <= k < |attrs| ==> names[k] == attrs[k].name
  {
    if attrs == [] then [] else [attrs[0].name] + Names(attrs[1..])
  }

  lemma {:induction false} NamesConcat(a: seq<Attribute>, b: seq<Attribute>)
    ensures Names(a + b) == Names(a) + Names(b)
  {
    if a != [] {
      assert (a + b)[0] == a[0];
      assert (a + b)[1..] == a[1..] + b;
      NamesConcat(a[1..], b);
    }
  }

  /** `names` with the members of `absent` deleted, order kept. */
  function Without(names: seq<AttributeName>, absent: set<AttributeName>): seq<AttributeName>
  {
    if names == [] then []
    else (if names[0] in absent then [] else [names[0]]) + Without(names[1..], absent)
  }

  lemma {:induction false} WithoutConcat(a: seq<AttributeName>, b: seq<AttributeName>, absent: set<AttributeName>)
    ensures Without(a + b, absent) == Without(a, absent) + Without(b, absent)
  {
    if a != [] {
      var head := if a[0] in absent then [] else [a[0]];
      assert (a + b)[0] == a[0];
      assert (a + b)[1..] == a[1..] + b;
      WithoutConcat(a[1..], b, absent);
      assert Without(a + b, absent) == head + Without(a[1..] + b, absent);
      assert Without(a, absent) == head + Without(a[1..], absent);
    } else {
      assert a + b == b;
    }
  }

  lemma {:induction false} WithoutNothing(a: seq<AttributeName>, absent: set<AttributeName>)
    requires forall k :: 0 <= k < |a| ==> a[k] !in absent
    ensures Without(a, absent) == a
  {
    if a != [] {
      WithoutNothing(a[1..], absent);
    }
  }

  /** The optional attributes a cell's record leaves out. */
  function AbsentAttributes(v: CellView, d: DataItems): (absent: set<AttributeName>)
    requires Readable(v)
    ensures AreaAttr in absent <==> d.volume >= DblMax
    ensures CellLabelAttr in absent <==> !v.labelled
    ensures absent <= {AreaAttr, CellLabelAttr}
  {
    (if d.volume < DblMax then {} else {AreaAttr})
    + (if v.labelled then {} else {CellLabelAttr})
  }

  lemma CellNamesConcat(v: CellView, d: DataItems, fmt: real -> string)
    requires Readable(v)
    ensures Names(CellAttributes(v, d, fmt))
         == Names(LeadingAttributes(v, fmt)) + Names(AreaAttribute(d.volume, fmt)) + Names(LabelAttribute(v.labelled)) + Names(TrailingAttributes(v, d, fmt))
  {
    var lead := LeadingAttributes(v, fmt);
    var area := AreaAttribute(d.volume, fmt);
    var lab := LabelAttribute(v.labelled);
    NamesConcat(lead, area);
    NamesConcat(lead + area, lab);
    NamesConcat(lead + area + lab, TrailingAttributes(v, d, fmt));
  }

  const LeadingNames: seq<AttributeName> := [CellIdAttr, XAttr, YAttr]
  const TrailingNames: seq<AttributeName> :=
    [TargetAreaAttr, OdeAreaAttr, GAttr, PerimeterAttr, NumNeighboursAttr, NeighborsAttr, NumEdgesAttr]

  lemma LeadingPieceNames(v: CellView, d: DataItems, fmt: real -> string)
    requires Readable(v)
    ensures Names(LeadingAttributes(v, fmt)) == LeadingNames
    ensures Names(AreaAttribute(d.volume, fmt)) == Without([AreaAttr], AbsentAttributes(v, d))
    ensures Names(LabelAttribute(v.labelled)) == Without([CellLabelAttr], AbsentAttributes(v, d))
  {
  }

  lemma TrailingPieceNames(v: CellView, d: DataItems, fmt: real -> string)
    requires Readable(v)
    ensures Names(TrailingAttributes(v, d, fmt)) == TrailingNames
  {
  }

  lemma OrderWithout(absent: set<AttributeName>)
    requires absent <= {AreaAttr, CellLabelAttr}
    ensures Without(AttributeOrder, absent)
         == LeadingNames + Without([AreaAttr], absent) + Without([CellLabelAttr], absent) + TrailingNames
  {
    assert AttributeOrder == LeadingNames + [AreaAttr] + [CellLabelAttr] + TrailingNames;
    WithoutConcat(LeadingNames, [AreaAttr], absent);
    WithoutConcat(LeadingNames + [AreaAttr], [CellLabelAttr], absent);
    WithoutConcat(LeadingNames + [AreaAttr] + [CellLabelAttr], TrailingNames, absent);
    WithoutNothing(LeadingNames, absent);
    WithoutNothing(TrailingNames, absent);
  }

  /**
   * The attribute names of a record are the canonical order with exactly
   * the absent optional attributes deleted: `area` is there if and only if
   * the volume is below `DBL_MAX`, `CellLabel` if and only if the cell is
   * labelled, every other attribute always, and always in the canonical order.
   */
  lemma AttributeLayout(v: CellView, d: DataItems, fmt: real -> string)
    requires Readable(v)
    ensures Names(CellAttributes(v, d, fmt)) == Without(AttributeOrder, AbsentAttributes(v, d))
  {
    CellNamesConcat(v, d, fmt);
    LeadingPieceNames(v, d, fmt);
    TrailingPieceNames(v, d, fmt);
    OrderWithout(AbsentAttributes(v, d));
  }

  /** The G attribute carries the target area, the same value as `target_area`. */
  lemma GAttributeIsTargetArea(v: CellView, d: DataItems, fmt: real -> string)
    requires Readable(v)
    ensures Attribute(GAttr, fmt(d.targetArea)) in CellAttributes(v, d, fmt)
    ensures Attribute(TargetAreaAttr, fmt(d.targetArea)) in CellAttributes(v, d, fmt)
  {
    assert TrailingAttributes(v, d, fmt)[2] == Attribute(GAttr, fmt(d.targetArea));
    assert TrailingAttributes(v, d, fmt)[0] == Attribute(TargetAreaAttr, fmt(d.targetArea));
  }

  /** The "G" data item does not reach the record: changing it leaves the text unchanged. */
  lemma GItemNotWritten(v: CellView, d: DataItems, fmt: real -> string, g: real)
    requires Readable(v)
    ensures CellRecord(v, d.(g := g), fmt) == CellRecord(v, d, fmt)
  {
  }

  /** Deleting names keeps exactly the names that are not deleted. */
  lemma {:induction false} WithoutMembers(names: seq<AttributeName>, absent: set<AttributeName>)
    ensures forall n :: n in Without(names, absent) <==> n in names && n !in absent
  {
    if names != [] {
      WithoutMembers(names[1..], absent);
      assert names == [names[0]] + names[1..];
    }
  }

  predicate Distinct(names: seq<AttributeName>)
  {
    forall i, j :: 0 <= i < j < |names| ==> names[i] != names[j]
  }

  lemma {:induction false} WithoutDistinct(names: seq<AttributeName>, absent: set<AttributeName>)
    requires Distinct(names)
    ensures Distinct(Without(names, absent))
  {
    if names != [] {
      var rest := Without(names[1..], absent);
      assert Distinct(names[1..]) by {
        forall i, j | 0 <= i < j < |names[1..]| ensures names[1..][i] != names[1..][j] {
          assert names[1..][i] == names[i + 1] && names[1..][j] == names[j + 1];
        }
      }
      WithoutDistinct(names[1..], absent);
      WithoutMembers(names[1..], absent);
      assert names[0] !in names[1..] by {
        forall k | 0 <= k < |names[1..]| ensures names[1..][k] != names[0] {
          assert names[1..][k] == names[k + 1];
        }
      }
      if names[0] !in absent {
        var r := [names[0]] + rest;
        forall i, j | 0 <= i < j < |r| ensures r[i] != r[j] {
          assert r[j] == rest[j - 1];
          if i > 0 {
            assert r[i] == rest[i - 1];
          }
        }
      }
    }
  }

  lemma OrderDistinct()
    ensures Distinct(AttributeOrder)
    ensures forall n: AttributeName :: n in AttributeOrder
  {
    forall n: AttributeName ensures n in AttributeOrder {
      match n
      case CellIdAttr => assert AttributeOrder[0] == n;
      case XAttr => assert AttributeOrder[1] == n;
      case YAttr => assert AttributeOrder[2] == n;
      case AreaAttr => assert AttributeOrder[3] == n;
      case CellLabelAttr => assert AttributeOrder[4] == n;
      case TargetAreaAttr => assert AttributeOrder[5] == n;
      case OdeAreaAttr => assert AttributeOrder[6] == n;
      case GAttr => assert AttributeOrder[7] == n;
      case PerimeterAttr => assert AttributeOrder[8] == n;
      case NumNeighboursAttr => assert AttributeOrder[9] == n;
      case NeighborsAttr => assert AttributeOrder[10] == n;
      case NumEdgesAttr => assert AttributeOrder[11] == n;
    }
  }

  /**
   * A record names each attribute at most once, and names exactly the
   * attributes that are not absent.
   */
  lemma RecordNames(v: CellView, d: DataItems, fmt: real -> string)
    requires Readable(v)
    ensures Distinct(Names(CellAttributes(v, d, fmt)))
    ensures forall n :: n in Names(CellAttributes(v, d, fmt)) <==> n !in AbsentAttributes(v, d)
  {
    AttributeLayout(v, d, fmt);
    OrderDistinct();
    WithoutDistinct(AttributeOrder, AbsentAttributes(v, d));
    WithoutMembers(AttributeOrder, AbsentAttributes(v, d));
  }

  /** In a list of attributes with distinct names, the name determines the attribute. */
  lemma NameDetermines(attrs: seq<Attribute>, a: Attribute, b: Attribute)
    requires Distinct(Names(attrs))
    requires a in attrs && b in attrs && a.name == b.name
    ensures a == b
  {
    var i :| 0 <= i < |attrs| && attrs[i] == a;
    var j :| 0 <= j < |attrs| && attrs[j] == b;
    var names := Names(attrs);
    assert names[i] == names[j];
    assert i == j;
  }

  /** The record's one G attribute carries the target area. */
  lemma GAttributeOnlyTargetArea(v: CellView, d: DataItems, fmt: real -> string)
    requires Readable(v)
    ensures forall a :: a in CellAttributes(v, d, fmt) && a.name == GAttr ==> a.value == fmt(d.targetArea)
  {
    GAttributeIsTargetArea(v, d, fmt);
    RecordNames(v, d, fmt);
    forall a | a in CellAttributes(v, d, fmt) && a.name == GAttr ensures a.value == fmt(d.targetArea) {
      NameDetermines(CellAttributes(v, d, fmt), a, Attribute(GAttr, fmt(d.targetArea)));
    }
  }

  /** An attribute named `n` is in a record exactly when `n` is in its names. */
  lemma NamedIn(attrs: seq<Attribute>, a: Attribute)
    requires a in attrs
    ensures a.name in Names(attrs)
  {
    var i :| 0 <= i < |attrs| && attrs[i] == a;
    assert Names(attrs)[i] == a.name;
  }

  /** `area` is written, carrying the volume, exactly when the volume is below `DBL_MAX`. */
  lemma AreaWrittenIff(v: CellView, d: DataItems, fmt: real -> string)
    requires Readable(v)
    ensures d.volume < DblMax <==> Attribute(AreaAttr, fmt(d.volume)) in CellAttributes(v, d, fmt)
  {
    var attrs := CellAttributes(v, d, fmt);
    var a := Attribute(AreaAttr, fmt(d.volume));
    if d.volume < DblMax {
      assert attrs[3] == a;
    } else if a in attrs {
      NamedIn(attrs, a);
      RecordNames(v, d, fmt);
    }
  }

  /** `CellLabel="1"` is written exactly when the cell is labelled. */
  lemma LabelWrittenIff(v: CellView, d: DataItems, fmt: real -> string)
    requires Readable(v)
    ensures v.labelled <==> Attribute(CellLabelAttr, "1") in CellAttributes(v, d, fmt)
  {
    var attrs := CellAttributes(v, d, fmt);
    var a := Attribute(CellLabelAttr, "1");
    assert FmtNat(1) == "1";
    if v.labelled {
      assert attrs[3 + |AreaAttribute(d.volume, fmt)|] == a;
    } else if a in attrs {
      NamedIn(attrs, a);
      RecordNames(v, d, fmt);
    }
  }
}
