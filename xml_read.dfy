/** Reading the writer's text back: every record and time stamp parses to what it was written from. */
module XmlRead {
  import opened Wrappers
  import opened Text
  import opened XmlFormat

  /** The attribute a name text denotes, if any. */
  function ParseName(s: string): (n: Option<AttributeName>)
  {
    if s == "cell_id" then Some(CellIdAttr)
    else if s == "x" then Some(XAttr)
    else if s == "y" then Some(YAttr)
    else if s == "area" then Some(AreaAttr)
    else if s == "CellLabel" then Some(CellLabelAttr)
    else if s == "target_area" then Some(TargetAreaAttr)
    else if s == "ODE_area" then Some(OdeAreaAttr)
    else if s == "G" then Some(GAttr)
    else if s == "perimeter" then Some(PerimeterAttr)
    else if s == "num_neighbours" then Some(NumNeighboursAttr)
    else if s == "neighbors" then Some(NeighborsAttr)
    else if s == "num_edges" then Some(NumEdgesAttr)
    else None
  }

  /** Every name text reads back as its name. */
  lemma NameTextRoundTrip(n: AttributeName)
    ensures ParseName(NameText(n)) == Some(n)
  {
  }

  /** Name texts are made of letters and underscores only. */
  lemma NameTextLetters(n: AttributeName)
    ensures forall k :: 0 <= k < |NameText(n)| ==> 'A' <= NameText(n)[k] <= 'z'
  {
  }

  /** Reads a sequence of `name="value" ` items. */
  function ParseAttributes(s: string): Option<seq<Attribute>>
    decreases |s|
  {
    if s == [] then Some([])
    else
      match SplitAt(s, '=')
      case None => None
      case Some((nameText, r1)) =>
        match ParseName(nameText)
        case None => None
        case Some(name) =>
          if r1 == [] || r1[0] != '"' then None
          else
            match SplitAt(r1[1..], '"')
            case None => None
            case Some((value, r2)) =>
              if r2 == [] || r2[0] != ' ' then None
              else
                match ParseAttributes(r2[1..])
                case None => None
                case Some(tail) => Some([Attribute(name, value)] + tail)
  }

  /** Reads a whole `<cell .../>` record back into its attributes. */
  function ParseCellRecord(r: string): Option<seq<Attribute>>
  {
    if |r| >= |CellOpen| + |CellClose| && r[..|CellOpen|] == CellOpen && r[|r| - |CellClose|..] == CellClose
    then ParseAttributes(r[|CellOpen|..|r| - |CellClose|])
    else None
  }

  /** Reads a `neighbors` value back into cell ids. */
  function ParseNeighbourList(s: string): Option<seq<nat>>
    decreases |s|
  {
    if s == [] then Some([])
    else if s[0] != ' ' then None
    else
      match SplitAt(s[1..], ' ')
      case None =>
        if s[1..] != [] && AllDigits(s[1..]) then Some([ParseNat(s[1..])]) else None
      case Some((digits, rest)) =>
        if digits != [] && AllDigits(digits) then
          match ParseNeighbourList(" " + rest)
          case None => None
          case Some(tail) => Some([ParseNat(digits)] + tail)
        else None
  }

  /** Reads a `<time t="T" tau="N">` line back into the time text and the step count. */
  function ParseTimeStamp(s: string): Option<(string, nat)>
  {
    if |s| >= |TimeOpen| && s[..|TimeOpen|] == TimeOpen then
      match SplitAt(s[|TimeOpen|..], '"')
      case None => None
      case Some((time, r1)) =>
        if |r1| >= |TimeMiddle| && r1[..|TimeMiddle|] == TimeMiddle then
          match SplitAt(r1[|TimeMiddle|..], '"')
          case None => None
          case Some((steps, r2)) =>
            if r2 == TimeEnd && AllDigits(steps) then Some((time, ParseNat(steps))) else None
        else None
    else None
  }

  /** The double formatter never prints a double quote. */
  ghost predicate QuoteFree(fmt: real -> string)
  {
    forall x :: '"' !in fmt(x)
  }

  ghost predicate ValuesQuoteFree(attrs: seq<Attribute>)
  {
    forall k :: 0 <= k < |attrs| ==> '"' !in attrs[k].value
  }

  lemma DigitsHaveNo(s: string, c: char)
    requires AllDigits(s) && !IsDigit(c)
    ensures c !in s
  {
  }

  /** An attribute's text regrouped around its `=` and its closing quote. */
  lemma AttributeTextShape(a: Attribute, tail: string)
    ensures AttributeText(a) + tail == NameText(a.name) + ['='] + ("\"" + (a.value + ['"'] + (" " + tail)))
  {
  }

  /** Reading one attribute with a quote-free value off the front of a text. */
  lemma ParseAttributesStep(a: Attribute, tail: string, attrs: seq<Attribute>)
    requires '"' !in a.value
    requires ParseAttributes(tail) == Some(attrs)
    ensures ParseAttributes(AttributeText(a) + tail) == Some([a] + attrs)
  {
    var name := NameText(a.name);
    NameTextRoundTrip(a.name);
    NameTextLetters(a.name);
    assert '=' !in name;
    var r2 := " " + tail;
    var r1 := "\"" + (a.value + ['"'] + r2);
    AttributeTextShape(a, tail);
    SplitAtFirst(name, '=', r1);
    assert r1[1..] == a.value + ['"'] + r2;
    SplitAtFirst(a.value, '"', r2);
    assert r2[1..] == tail;
  }

  /** Rendering then parsing a sequence of attributes with quote-free values gives it back. */
  lemma {:induction false} ParseRenderAttributes(attrs: seq<Attribute>)
    requires ValuesQuoteFree(attrs)
    ensures ParseAttributes(RenderAttributes(attrs)) == Some(attrs)
  {
    if attrs != [] {
      ParseRenderAttributes(attrs[1..]);
      ParseAttributesStep(attrs[0], RenderAttributes(attrs[1..]), attrs[1..]);
      assert [attrs[0]] + attrs[1..] == attrs;
    }
  }

  /** Reading one id off the front of a neighbour list. */
  lemma ParseNeighbourListStep(id: nat, ids: seq<nat>)
    requires ParseNeighbourList(NeighbourList(ids)) == Some(ids)
    ensures ParseNeighbourList(NeighbourList([id] + ids)) == Some([id] + ids)
  {
    var d := FmtNat(id);
    var tail := NeighbourList(ids);
    var s := NeighbourList([id] + ids);
    assert ([id] + ids)[1..] == ids;
    assert s == " " + (d + tail);
    assert s[1..] == d + tail;
    DigitsHaveNo(d, ' ');
    ParseFmtNat(id);
    if ids == [] {
      assert s[1..] == d;
      assert SplitAt(s[1..], ' ').None?;
      assert [id] + ids == [id];
    } else {
      var rest := tail[1..];
      assert tail == " " + rest;
      assert s[1..] == d + [' '] + rest;
      SplitAtFirst(d, ' ', rest);
    }
  }

  /** A neighbour list reads back as the ids it was written from. */
  lemma {:induction false} ParseRenderNeighbourList(ids: seq<nat>)
    ensures ParseNeighbourList(NeighbourList(ids)) == Some(ids)
  {
    if ids != [] {
      ParseRenderNeighbourList(ids[1..]);
      ParseNeighbourListStep(ids[0], ids[1..]);
      assert [ids[0]] + ids[1..] == ids;
    }
  }

  lemma {:induction false} NeighbourListQuoteFree(ids: seq<nat>)
    ensures '"' !in NeighbourList(ids)
  {
    if ids != [] {
      NeighbourListQuoteFree(ids[1..]);
      DigitsHaveNo(FmtNat(ids[0]), '"');
    }
  }

  lemma ValuesQuoteFreeConcat(a: seq<Attribute>, b: seq<Attribute>)
    requires ValuesQuoteFree(a) && ValuesQuoteFree(b)
    ensures ValuesQuoteFree(a + b)
  {
  }

  lemma TrailingQuoteFree(v: CellView, d: DataItems, fmt: real -> string)
    requires Readable(v) && QuoteFree(fmt)
    ensures ValuesQuoteFree(TrailingAttributes(v, d, fmt))
  {
    var t := TrailingAttributes(v, d, fmt);
    var targetArea, area := d.targetArea, d.odeArea;
    assert '"' !in fmt(targetArea) && '"' !in fmt(area) && '"' !in fmt(v.perimeter);
    NeighbourListQuoteFree(NeighbourIds(v));
    DigitsHaveNo(FmtNat(|v.neighbours|), '"');
    DigitsHaveNo(FmtNat(v.numEdges), '"');
    assert '"' !in t[0].value && '"' !in t[1].value && '"' !in t[2].value && '"' !in t[3].value;
    assert '"' !in t[4].value && '"' !in t[5].value && '"' !in t[6].value;
  }

  /** Every value of a record is free of double quotes when doubles print without them. */
  lemma CellAttributesQuoteFree(v: CellView, d: DataItems, fmt: real -> string)
    requires Readable(v) && QuoteFree(fmt)
    ensures ValuesQuoteFree(CellAttributes(v, d, fmt))
  {
    var lead := LeadingAttributes(v, fmt);
    DigitsHaveNo(FmtNat(v.cellId), '"');
    assert '"' !in lead[0].value && '"' !in lead[1].value && '"' !in lead[2].value;
    DigitsHaveNo(FmtNat(1), '"');
    assert ValuesQuoteFree(LabelAttribute(v.labelled));
    assert ValuesQuoteFree(AreaAttribute(d.volume, fmt));
    TrailingQuoteFree(v, d, fmt);
    ValuesQuoteFreeConcat(lead, AreaAttribute(d.volume, fmt));
    ValuesQuoteFreeConcat(lead + AreaAttribute(d.volume, fmt), LabelAttribute(v.labelled));
    ValuesQuoteFreeConcat(lead + AreaAttribute(d.volume, fmt) + LabelAttribute(v.labelled), TrailingAttributes(v, d, fmt));
  }

  /**
   * A cell record starts with `<cell `, ends with `/>` and a newline, and
   * reads back as exactly the attributes it was written from.
   */
  lemma CellRecordRoundTrip(v: CellView, d: DataItems, fmt: real -> string)
    requires Readable(v) && QuoteFree(fmt)
    ensures CellRecord(v, d, fmt)[..|CellOpen|] == CellOpen
    ensures CellRecord(v, d, fmt)[|CellRecord(v, d, fmt)| - |CellClose|..] == CellClose
    ensures ParseCellRecord(CellRecord(v, d, fmt)) == Some(CellAttributes(v, d, fmt))
  {
    var body := RenderAttributes(CellAttributes(v, d, fmt));
    var r := CellRecord(v, d, fmt);
    assert r[..|CellOpen|] == CellOpen;
    assert r[|r| - |CellClose|..] == CellClose;
    assert r[|CellOpen|..|r| - |CellClose|] == body;
    CellAttributesQuoteFree(v, d, fmt);
    ParseRenderAttributes(CellAttributes(v, d, fmt));
  }

  /** A time stamp reads back as the formatted time and the step count. */
  lemma TimeStampRoundTrip(time: real, timeStepsElapsed: nat, fmt: real -> string)
    requires '"' !in fmt(time)
    ensures ParseTimeStamp(TimeStamp(time, timeStepsElapsed, fmt)) == Some((fmt(time), timeStepsElapsed))
  {
    var t := fmt(time);
    var n := FmtNat(timeStepsElapsed);
    var s := TimeStamp(time, timeStepsElapsed, fmt);
    var r1 := TimeMiddle + n + ['"'] + TimeEnd;
    assert s[..|TimeOpen|] == TimeOpen;
    assert s[|TimeOpen|..] == t + ['"'] + r1;
    SplitAtFirst(t, '"', r1);
    assert r1[..|TimeMiddle|] == TimeMiddle;
    assert r1[|TimeMiddle|..] == n + ['"'] + TimeEnd;
    DigitsHaveNo(n, '"');
    SplitAtFirst(n, '"', TimeEnd);
    ParseFmtNat(timeStepsElapsed);
  }

  /**
   * `num_neighbours` is the size of the neighbour set, and `neighbors`
   * holds that many ids, which read back as the neighbours' cell ids in
   * ascending order of location index.
   */
  lemma NeighbourAttributes(v: CellView, d: DataItems, fmt: real -> string)
    requires Readable(v)
    ensures Attribute(NumNeighboursAttr, FmtNat(|v.neighbours|)) in CellAttributes(v, d, fmt)
    ensures Attribute(NeighborsAttr, NeighbourList(NeighbourIds(v))) in CellAttributes(v, d, fmt)
    ensures ParseNeighbourList(NeighbourList(NeighbourIds(v))) == Some(NeighbourIds(v))
    ensures ParseNat(FmtNat(|v.neighbours|)) == |NeighbourIds(v)|
  {
    ParseRenderNeighbourList(NeighbourIds(v));
    ParseFmtNat(|v.neighbours|);
    assert TrailingAttributes(v, d, fmt)[4] == Attribute(NumNeighboursAttr, FmtNat(|v.neighbours|));
    assert TrailingAttributes(v, d, fmt)[5] == Attribute(NeighborsAttr, NeighbourList(NeighbourIds(v)));
  }
}
