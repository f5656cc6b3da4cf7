/** The document field extractor of `scrape_filing`: the reporting date found
    through the Part A anchor chain, and one record per Part C holding heading. */
module Extraction {
  import opened Wrappers
  import opened Faults
  import Text
  import opened Html

  // Anchors and labels, exactly as the script writes them.
  const PartAHeading := Query("h1", Some("NPORT-P: Part A: General Information"))
  const ReportingPeriodHeading := Query("h4", Some("Item A.3. Reporting period"))
  const DateCaption := "b. Date as of which information is reported"
  const PartCHeading := Query("h1", Some("NPORT-P: Part C: Schedule of Portfolio Investments"))
  const IdentificationHeading := Query("h4", Some("Item C.1. Identification of investment"))
  const AmountHeading := Query("h4", Some("Item C.2. Amount of each investment"))
  const IssuerCaption := "a. Name of issuer (if any)"
  const CusipCaption := "d. CUSIP (if any)"
  const BalanceCaption := "Balance"
  const ValueCaption := "Report values in U.S. dollars"
  const PercentCaption := "Percentage value compared to net assets of the Fund"
  const AnyTable := Query("table", None)
  const AnyCell := Query("td", None)

  // Keys of a holding record.
  const IssuerKey := "Name of Issuer"
  const CusipKey := "CUSIP"
  const SharesKey := "Number of Shares"
  const ValueKey := "Value (USD)"
  const PercentKey := "Percentage of Net Assets"

  /** One holding: the `investment_data` dict, field name to text. */
  type Record = map<string, string>

  /** Where each record field comes from: the heading after the Part C heading,
      and the caption of the label cell in the table after that heading. */
  datatype FieldSpec = FieldSpec(key: string, heading: Query, caption: string)

  /** The Item C.1 fields, in the order the script reads them. */
  const IdentificationFields := [
    FieldSpec(IssuerKey, IdentificationHeading, IssuerCaption),
    FieldSpec(CusipKey, IdentificationHeading, CusipCaption)]

  /** The Item C.2 fields, in the order the script reads them. */
  const AmountFields := [
    FieldSpec(SharesKey, AmountHeading, BalanceCaption),
    FieldSpec(ValueKey, AmountHeading, ValueCaption),
    FieldSpec(PercentKey, AmountHeading, PercentCaption)]

  const Fields := IdentificationFields + AmountFields

  /** What `scrape_filing` gives back: `(None, None)`, a date with its
      holdings, or an exception. */
  datatype Outcome = Failed | Scraped(date: string, holdings: seq<Record>) | Crashed(fault: Fault)

  function CellQuery(caption: string): Query {
    Query("td", Some(caption))
  }

  /** Looking up a labelled value in a table: no label cell, a label cell
      without a following `td` sibling (the script then fails), or the
      sibling's stripped text. */
  datatype Cell = Absent | NoValueCell | Value(text: string)

  /** `table.find('td', string=caption)` and then
      `.find_next_sibling('td').get_text(strip=True)`. */
  function LabelledValue(table: Node, caption: string): Cell {
    match FindIn(Children(table), CellQuery(caption))
    case None => Absent
    case Some(h) =>
      match FindFrom(h.after, 0, AnyCell)
      case None => NoValueCell
      case Some(j) => Value(GetText(h.after[j]))
  }

  /** `anchor.find_next(heading)` and then `.find_next('table')`, for the anchor
      at position `i`; None when either is missing. */
  function TableAfter(flat: seq<Node>, i: nat, heading: Query): Option<Node> {
    match FindFrom(flat, i + 1, heading)
    case None => None
    case Some(h) =>
      match FindFrom(flat, h + 1, AnyTable)
      case None => None
      case Some(t) => Some(flat[t])
  }

  // ---------------------------------------------------------------------
  // The reporting date
  // ---------------------------------------------------------------------

  /** The anchor chain of one Part A heading. */
  datatype Chain = Broken | Reached(date: string) | Faulted(fault: Fault)

  function DateChain(flat: seq<Node>, i: nat): Chain {
    match TableAfter(flat, i, ReportingPeriodHeading)
    case None => Broken
    case Some(t) =>
      match LabelledValue(t, DateCaption)
      case Absent => Broken
      case NoValueCell => Faulted(MissingValueCell(DateCaption))
      case Value(d) => Reached(d)
  }

  /** The loop over Part A headings, which stops at the first chain that reaches
      the date cell. */
  function FirstDate(flat: seq<Node>, heads: seq<nat>): Chain {
    if heads == [] then Broken
    else if DateChain(flat, heads[0]).Broken? then FirstDate(flat, heads[1..])
    else DateChain(flat, heads[0])
  }

  /** The date comes from the first heading in document order whose chain is
      complete; the headings after it are never consulted. */
  lemma {:induction false} FirstDateIsFirstComplete(flat: seq<Node>, heads: seq<nat>, k: nat)
    requires k < |heads| && !DateChain(flat, heads[k]).Broken?
    requires forall j :: 0 <= j < k ==> DateChain(flat, heads[j]).Broken?
    ensures FirstDate(flat, heads) == DateChain(flat, heads[k])
  {
    if k > 0 {
      assert DateChain(flat, heads[0]).Broken?;
      assert forall j :: 0 <= j < k - 1 ==> heads[1..][j] == heads[j + 1];
      FirstDateIsFirstComplete(flat, heads[1..], k - 1);
    }
  }

  /** There is no date exactly when no Part A heading has a complete chain. */
  lemma {:induction false} FirstDateBrokenIffNoChain(flat: seq<Node>, heads: seq<nat>)
    ensures FirstDate(flat, heads).Broken? <==> forall k :: 0 <= k < |heads| ==> DateChain(flat, heads[k]).Broken?
  {
    if heads != [] {
      FirstDateBrokenIffNoChain(flat, heads[1..]);
      assert forall k :: 1 <= k < |heads| ==> heads[k] == heads[1..][k - 1];
    }
  }

  // ---------------------------------------------------------------------
  // One holding
  // ---------------------------------------------------------------------

  /** The cell a field is read from, for the Part C heading at position `i`:
      its heading after the Part C heading, the next table, the label cell
      in that table and the label's next `td`. */
  function FieldCell(flat: seq<Node>, i: nat, f: FieldSpec): Cell {
    match TableAfter(flat, i, f.heading)
    case None => Absent
    case Some(t) => LabelledValue(t, f.caption)
  }

  /** `if label is not None: investment_data[key] = label.find_next_sibling('td').get_text(strip=True)`. */
  function PutField(acc: Result<Record, Fault>, f: FieldSpec, cell: Cell): Result<Record, Fault> {
    match acc
    case Err(_) => acc
    case Ok(rec) =>
      match cell
      case Absent => acc
      case NoValueCell => Err(MissingValueCell(f.caption))
      case Value(v) => Ok(rec[f.key := v])
  }

  /** The field steps for `fs`, one after the other, each with its cell. */
  function PutFields(acc: Result<Record, Fault>, fs: seq<FieldSpec>, cells: seq<Cell>): Result<Record, Fault>
    requires |cells| == |fs|
    decreases |fs|
  {
    if fs == [] then acc
    else PutFields(PutField(acc, fs[0], cells[0]), fs[1..], cells[1..])
  }

  /** The cells of the fields `fs` for the Part C heading at position `i`. */
  function CellsOf(flat: seq<Node>, i: nat, fs: seq<FieldSpec>): (r: seq<Cell>)
    ensures |r| == |fs| && forall k :: 0 <= k < |fs| ==> r[k] == FieldCell(flat, i, fs[k])
  {
    if fs == [] then [] else [FieldCell(flat, i, fs[0])] + CellsOf(flat, i, fs[1..])
  }

  /** The record of the Part C heading at position `i`. The Item C.1 part is
      optional; a missing Item C.2 heading makes `c2.find_next` fail. */
  function HoldingAt(flat: seq<Node>, i: nat): Result<Record, Fault> {
    var ident := PutFields(Ok(map[]), IdentificationFields, CellsOf(flat, i, IdentificationFields));
    if ident.Err? then ident
    else if FindFrom(flat, i + 1, AmountHeading).None? then Err(MissingAmountHeading)
    else PutFields(ident, AmountFields, CellsOf(flat, i, AmountFields))
  }

  /** One field step, taken off the front of the fold. */
  lemma PutFieldsUnfold(acc: Result<Record, Fault>, fs: seq<FieldSpec>, cells: seq<Cell>)
    requires |cells| == |fs| && fs != []
    ensures PutFields(acc, fs, cells) == PutFields(PutField(acc, fs[0], cells[0]), fs[1..], cells[1..])
    ensures |fs| == 1 ==> PutFields(acc, fs, cells) == PutField(acc, fs[0], cells[0])
  {
  }

  /** The keys the fields `fs` are stored under, in order. */
  function Keys(fs: seq<FieldSpec>): (r: seq<string>)
    ensures |r| == |fs| && forall k :: 0 <= k < |fs| ==> r[k] == fs[k].key
  {
    if fs == [] then [] else [fs[0].key] + Keys(fs[1..])
  }

  ghost predicate DistinctKeys(fs: seq<FieldSpec>) {
    forall j, k :: 0 <= j < k < |fs| ==> fs[j].key != fs[k].key
  }

  /** The field steps for distinct keys add exactly the fields whose cell
      holds a value, with that value, and leave every other key alone. */
  lemma {:induction false} PutFieldsAdds(acc: Result<Record, Fault>, fs: seq<FieldSpec>, cells: seq<Cell>)
    decreases |fs|
    requires |cells| == |fs| && DistinctKeys(fs) && PutFields(acc, fs, cells).Ok?
    ensures acc.Ok?
    ensures var r := PutFields(acc, fs, cells).value;
            && (forall k :: 0 <= k < |fs| ==> (fs[k].key in r <==> cells[k].Value? || fs[k].key in acc.value))
            && (forall k :: 0 <= k < |fs| && cells[k].Value? ==> r[fs[k].key] == cells[k].text)
            && (forall key :: key !in Keys(fs) ==> (key in r <==> key in acc.value))
            && (forall key :: key !in Keys(fs) && key in r ==> r[key] == acc.value[key])
  {
    if fs != [] {
      var next := PutField(acc, fs[0], cells[0]);
      assert DistinctKeys(fs[1..]) by {
        forall j, k | 0 <= j < k < |fs[1..]| ensures fs[1..][j].key != fs[1..][k].key {
          assert fs[1..][j] == fs[j + 1] && fs[1..][k] == fs[k + 1];
        }
      }
      PutFieldsAdds(next, fs[1..], cells[1..]);
      assert acc.Ok?;
      assert fs[0].key !in Keys(fs[1..]);
      assert forall k :: 1 <= k < |fs| ==> fs[k] == fs[1..][k - 1] && cells[k] == cells[1..][k - 1];
      assert forall key :: key !in Keys(fs) ==> key != fs[0].key && key !in Keys(fs[1..]) by {
        assert Keys(fs) == [fs[0].key] + Keys(fs[1..]);
      }
    }
  }

  /** When the field steps fail, the failure is a label cell of one of the
      fields whose value cell is missing, or a failure carried in. */
  lemma {:induction false} PutFieldsFault(acc: Result<Record, Fault>, fs: seq<FieldSpec>, cells: seq<Cell>)
    decreases |fs|
    requires |cells| == |fs| && PutFields(acc, fs, cells).Err?
    ensures || acc == PutFields(acc, fs, cells)
            || exists k :: 0 <= k < |fs| && cells[k] == NoValueCell
                           && PutFields(acc, fs, cells).error == MissingValueCell(fs[k].caption)
  {
    if fs != [] {
      var next := PutField(acc, fs[0], cells[0]);
      PutFieldsFault(next, fs[1..], cells[1..]);
      if next != PutFields(next, fs[1..], cells[1..]) {
        var k :| 0 <= k < |fs[1..]| && cells[1..][k] == NoValueCell
                 && PutFields(next, fs[1..], cells[1..]).error == MissingValueCell(fs[1..][k].caption);
        assert cells[k + 1] == NoValueCell && fs[k + 1] == fs[1..][k];
      }
    }
  }

  /** Folding over two runs of fields is folding over the first and then
      over the second. */
  lemma {:induction false} PutFieldsConcat(acc: Result<Record, Fault>, fs1: seq<FieldSpec>, fs2: seq<FieldSpec>,
                                           c1: seq<Cell>, c2: seq<Cell>)
    decreases |fs1|
    requires |c1| == |fs1| && |c2| == |fs2|
    ensures PutFields(acc, fs1 + fs2, c1 + c2) == PutFields(PutFields(acc, fs1, c1), fs2, c2)
  {
    if fs1 == [] {
      assert fs1 + fs2 == fs2 && c1 + c2 == c2;
    } else {
      assert (fs1 + fs2)[1..] == fs1[1..] + fs2 && (c1 + c2)[1..] == c1[1..] + c2;
      PutFieldsConcat(PutField(acc, fs1[0], c1[0]), fs1[1..], fs2, c1[1..], c2);
    }
  }

  lemma {:induction false} CellsOfConcat(flat: seq<Node>, i: nat, fs1: seq<FieldSpec>, fs2: seq<FieldSpec>)
    decreases |fs1|
    ensures CellsOf(flat, i, fs1 + fs2) == CellsOf(flat, i, fs1) + CellsOf(flat, i, fs2)
  {
    if fs1 == [] {
      assert fs1 + fs2 == fs2;
    } else {
      assert (fs1 + fs2)[0] == fs1[0] && (fs1 + fs2)[1..] == fs1[1..] + fs2;
      CellsOfConcat(flat, i, fs1[1..], fs2);
    }
  }

  /** A holding record holds exactly the fields whose label cell was found,
      each with the stripped text of the label's next `td` sibling, and no
      other key. */
  lemma HoldingHasFoundFieldsOnly(flat: seq<Node>, i: nat)
    requires HoldingAt(flat, i).Ok?
    ensures forall key :: key in HoldingAt(flat, i).value ==> key in Keys(Fields)
    ensures forall k :: 0 <= k < |Fields| ==>
      && (Fields[k].key in HoldingAt(flat, i).value <==> FieldCell(flat, i, Fields[k]).Value?)
      && (Fields[k].key in HoldingAt(flat, i).value ==> HoldingAt(flat, i).value[Fields[k].key] == FieldCell(flat, i, Fields[k]).text)
  {
    var empty: Result<Record, Fault> := Ok(map[]);
    var identCells, amountCells := CellsOf(flat, i, IdentificationFields), CellsOf(flat, i, AmountFields);
    var cells := CellsOf(flat, i, Fields);
    CellsOfConcat(flat, i, IdentificationFields, AmountFields);
    PutFieldsConcat(empty, IdentificationFields, AmountFields, identCells, amountCells);
    assert HoldingAt(flat, i) == PutFields(empty, Fields, cells);
    assert DistinctKeys(Fields);
    PutFieldsAdds(empty, Fields, cells);
  }

  /** Every failure while reading a holding is one of the script's crash
      sites: a label cell without a value cell, or no Item C.2 heading. */
  lemma HoldingFaultSites(flat: seq<Node>, i: nat)
    requires HoldingAt(flat, i).Err?
    ensures || (HoldingAt(flat, i).error == MissingAmountHeading && FindFrom(flat, i + 1, AmountHeading).None?)
            || (exists k :: 0 <= k < |Fields| && FieldCell(flat, i, Fields[k]) == NoValueCell
                            && HoldingAt(flat, i).error == MissingValueCell(Fields[k].caption))
  {
    var empty: Result<Record, Fault> := Ok(map[]);
    var identCells, amountCells := CellsOf(flat, i, IdentificationFields), CellsOf(flat, i, AmountFields);
    var ident := PutFields(empty, IdentificationFields, identCells);
    if ident.Err? {
      PutFieldsFault(empty, IdentificationFields, identCells);
      var k :| 0 <= k < 2 && identCells[k] == NoValueCell && ident.error == MissingValueCell(IdentificationFields[k].caption);
      assert Fields[k] == IdentificationFields[k];
    } else if FindFrom(flat, i + 1, AmountHeading).Some? {
      var rec := PutFields(ident, AmountFields, amountCells);
      PutFieldsFault(ident, AmountFields, amountCells);
      var k :| 0 <= k < 3 && amountCells[k] == NoValueCell && rec.error == MissingValueCell(AmountFields[k].caption);
      assert Fields[k + 2] == AmountFields[k];
    }
  }

  /** A Part C heading with no Item C.2 heading anywhere after it makes the
      whole filing fail with an exception, whatever Item C.1 held. */
  lemma NoAmountHeadingCrashes(flat: seq<Node>, i: nat)
    requires FindFrom(flat, i + 1, AmountHeading).None?
    ensures HoldingAt(flat, i).Err?
  {
  }

  // ---------------------------------------------------------------------
  // All holdings
  // ---------------------------------------------------------------------

  /** The results of the Part C headings, in heading order. */
  function Results(flat: seq<Node>, parts: seq<nat>): (r: seq<Result<Record, Fault>>)
    ensures |r| == |parts| && forall k :: 0 <= k < |parts| ==> r[k] == HoldingAt(flat, parts[k])
  {
    seq(|parts|, k requires 0 <= k < |parts| => HoldingAt(flat, parts[k]))
  }

  /** The records of a run of results, in order, or the first failure. */
  function Collect(outs: seq<Result<Record, Fault>>): Result<seq<Record>, Fault> {
    if outs == [] then Ok([])
    else
      match Collect(outs[..|outs| - 1])
      case Err(e) => Err(e)
      case Ok(rs) =>
        match outs[|outs| - 1]
        case Err(e) => Err(e)
        case Ok(rec) => Ok(rs + [rec])
  }

  /** The records are collected exactly when every result is a record, in
      order; otherwise the failure is the first failing result's. */
  lemma {:induction false} CollectSpec(outs: seq<Result<Record, Fault>>)
    ensures var r := Collect(outs);
            && (r.Ok? <==> forall k :: 0 <= k < |outs| ==> outs[k].Ok?)
            && (r.Ok? ==> |r.value| == |outs| && forall k :: 0 <= k < |outs| ==> outs[k] == Ok(r.value[k]))
            && (r.Err? ==> exists k :: 0 <= k < |outs| && outs[k] == Err(r.error)
                                      && forall j :: 0 <= j < k ==> outs[j].Ok?)
  {
    if outs != [] {
      var init := outs[..|outs| - 1];
      CollectSpec(init);
      assert forall k :: 0 <= k < |init| ==> init[k] == outs[k];
    }
  }

  /** A failure after clean results is the failure of the whole run. */
  lemma CollectFirstFault(outs: seq<Result<Record, Fault>>, j: nat)
    requires j < |outs| && Collect(outs[..j]).Ok? && outs[j].Err?
    ensures Collect(outs) == Err(outs[j].error)
  {
    var r := Collect(outs);
    CollectSpec(outs);
    CollectSpec(outs[..j]);
    assert forall k :: 0 <= k < j ==> outs[..j][k] == outs[k];
    var k :| 0 <= k < |outs| && outs[k] == Err(r.error) && forall m :: 0 <= m < k ==> outs[m].Ok?;
    assert k == j;
  }

  /** `if investment_data: holdings_data.append(investment_data)`: the empty
      records are dropped. */
  function DropEmpty(rs: seq<Record>): (r: seq<Record>)
    ensures |r| <= |rs|
  {
    if rs == [] then []
    else
      var last := rs[|rs| - 1];
      assert rs == rs[..|rs| - 1] + [last];
      DropEmpty(rs[..|rs| - 1]) + (if last != map[] then [last] else [])
  }

  /** The kept records are exactly the non-empty ones. */
  lemma {:induction false} DropEmptyMembers(rs: seq<Record>)
    ensures forall x :: x in DropEmpty(rs) <==> x in rs && x != map[]
  {
    if rs != [] {
      var init := rs[..|rs| - 1];
      DropEmptyMembers(init);
      assert rs == init + [rs[|rs| - 1]];
    }
  }

  /** Dropping empty records keeps the others in their order. */
  lemma {:induction false} DropEmptyConcat(a: seq<Record>, b: seq<Record>)
    decreases |b|
    ensures DropEmpty(a + b) == DropEmpty(a) + DropEmpty(b)
  {
    if b == [] {
      assert a + b == a;
    } else {
      var init := b[..|b| - 1];
      assert (a + b)[..|a + b| - 1] == a + init;
      assert (a + b)[|a + b| - 1] == b[|b| - 1];
      DropEmptyConcat(a, init);
    }
  }

  /** Exactly the empty records are dropped: the kept count is the total
      minus the number of empty records. */
  lemma {:induction false} DropEmptyCount(rs: seq<Record>)
    ensures |DropEmpty(rs)| == |rs| - multiset(rs)[map[]]
  {
    if rs != [] {
      var init := rs[..|rs| - 1];
      assert rs == init + [rs[|rs| - 1]];
      DropEmptyCount(init);
    }
  }

  /** The holdings of a filing, or the first failure. */
  function Holdings(flat: seq<Node>, parts: seq<nat>): Result<seq<Record>, Fault> {
    match Collect(Results(flat, parts))
    case Err(e) => Err(e)
    case Ok(rs) => Ok(DropEmpty(rs))
  }

  // ---------------------------------------------------------------------
  // The whole extraction
  // ---------------------------------------------------------------------

  /** The part of `scrape_filing` after the page was fetched and parsed. */
  function Extract(doc: Document): Outcome {
    var flat := FlattenAll(doc);
    match FirstDate(flat, FindAllFrom(flat, 0, PartAHeading))
    case Broken => Failed
    case Faulted(f) => Crashed(f)
    case Reached(d) =>
      if d == "" then Failed
      else
        match Holdings(flat, FindAllFrom(flat, 0, PartCHeading))
        case Err(f) => Crashed(f)
        case Ok(hs) => Scraped(d, hs)
  }

  /** No Part A heading of the page has a complete anchor chain. */
  predicate NoCompleteChain(flat: seq<Node>) {
    var heads := FindAllFrom(flat, 0, PartAHeading);
    forall k :: 0 <= k < |heads| ==> DateChain(flat, heads[k]).Broken?
  }

  /** With no Part A heading whose chain is complete, the filing yields
      nothing, whatever its Part C content. */
  lemma NoCompleteChainNoOutput(doc: Document)
    requires NoCompleteChain(FlattenAll(doc))
    ensures Extract(doc) == Failed
  {
    var flat := FlattenAll(doc);
    var heads := FindAllFrom(flat, 0, PartAHeading);
    FirstDateBrokenIffNoChain(flat, heads);
    assert FirstDate(flat, heads).Broken?;
  }

  /** A page with no cell labelled with the date caption anywhere yields nothing. */
  lemma NoDateCaptionNoOutput(doc: Document)
    requires forall n :: n in FlattenAll(doc) ==> !Hits(CellQuery(DateCaption), n)
    ensures Extract(doc) == Failed
  {
    var flat := FlattenAll(doc);
    var heads := FindAllFrom(flat, 0, PartAHeading);
    forall k | 0 <= k < |heads| ensures DateChain(flat, heads[k]).Broken? {
      match TableAfter(flat, heads[k], ReportingPeriodHeading)
      case None =>
      case Some(t) =>
        assert t in flat;
        DescendantsInForest(doc, t);
        match t
        case Str(_) =>
        case Tag(_, cs) =>
          assert Flatten(t) == [t] + FlattenAll(cs);
          FindInNone(cs, CellQuery(DateCaption));
    }
    FirstDateBrokenIffNoChain(flat, heads);
  }

  /** The first Part A heading with a complete chain decides the outcome: a
      non-empty date leads on to the holdings, an empty one yields nothing. */
  lemma DateFromFirstCompleteChain(doc: Document, k: nat)
    requires var flat := FlattenAll(doc);
             var heads := FindAllFrom(flat, 0, PartAHeading);
             && k < |heads| && DateChain(flat, heads[k]).Reached?
             && forall j :: 0 <= j < k ==> DateChain(flat, heads[j]).Broken?
    ensures var d := DateChain(FlattenAll(doc), FindAllFrom(FlattenAll(doc), 0, PartAHeading)[k]).date;
            && (d == "" ==> Extract(doc) == Failed)
            && (d != "" ==> Extract(doc).Scraped? || Extract(doc).Crashed?)
            && (Extract(doc).Scraped? ==> Extract(doc).date == d)
  {
    var flat := FlattenAll(doc);
    FirstDateIsFirstComplete(flat, FindAllFrom(flat, 0, PartAHeading), k);
  }

  /** A scraped reporting date is non-empty and has no surrounding whitespace. */
  lemma ScrapedDateTrimmed(doc: Document)
    requires Extract(doc).Scraped?
    ensures Extract(doc).date != "" && Text.Trimmed(Extract(doc).date)
  {
    var flat := FlattenAll(doc);
    var heads := FindAllFrom(flat, 0, PartAHeading);
    var c := FirstDate(flat, heads);
    FirstDateBrokenIffNoChain(flat, heads);
    var k :| 0 <= k < |heads| && !DateChain(flat, heads[k]).Broken?;
    var k0 := FirstComplete(flat, heads, k);
    FirstDateIsFirstComplete(flat, heads, k0);
    var t := TableAfter(flat, heads[k0], ReportingPeriodHeading).value;
    var h := FindIn(Children(t), CellQuery(DateCaption)).value;
    var j := FindFrom(h.after, 0, AnyCell).value;
    GetTextTrimmed(h.after[j]);
  }

  /** The earliest position up to `k` whose chain is complete. */
  lemma FirstComplete(flat: seq<Node>, heads: seq<nat>, k: nat) returns (k0: nat)
    requires k < |heads| && !DateChain(flat, heads[k]).Broken?
    ensures k0 <= k && !DateChain(flat, heads[k0]).Broken?
    ensures forall j :: 0 <= j < k0 ==> DateChain(flat, heads[j]).Broken?
  {
    k0 := 0;
    while DateChain(flat, heads[k0]).Broken?
      invariant k0 <= k
      decreases k - k0
      invariant forall j :: 0 <= j < k0 ==> DateChain(flat, heads[j]).Broken?
    {
      k0 := k0 + 1;
    }
  }

  /** The scraped holdings are the records of the Part C headings in heading
      order with the empty ones dropped, so there are at most as many as
      there are Part C headings, and none is empty. */
  lemma ScrapedHoldingsShape(doc: Document)
    requires Extract(doc).Scraped?
    ensures var flat := FlattenAll(doc);
            var parts := FindAllFrom(flat, 0, PartCHeading);
            var rs := Collect(Results(flat, parts));
            var hs := Extract(doc).holdings;
            && rs.Ok? && |rs.value| == |parts|
            && (forall k :: 0 <= k < |parts| ==> HoldingAt(flat, parts[k]) == Ok(rs.value[k]))
            && hs == DropEmpty(rs.value)
            && |hs| == |parts| - multiset(rs.value)[map[]]
            && (forall r :: r in hs ==> r != map[])
  {
    var flat := FlattenAll(doc);
    var outs := Results(flat, FindAllFrom(flat, 0, PartCHeading));
    CollectSpec(outs);
    DropEmptyCount(Collect(outs).value);
    DropEmptyMembers(Collect(outs).value);
  }

  /** A Part C heading whose record fails makes the whole filing fail with
      the first such failure, once a date was found. */
  lemma HoldingFaultCrashesFiling(doc: Document, j: nat)
    requires var flat := FlattenAll(doc);
             var parts := FindAllFrom(flat, 0, PartCHeading);
             && FirstDate(flat, FindAllFrom(flat, 0, PartAHeading)).Reached?
             && FirstDate(flat, FindAllFrom(flat, 0, PartAHeading)).date != ""
             && j < |parts| && HoldingAt(flat, parts[j]).Err?
             && forall m :: 0 <= m < j ==> HoldingAt(flat, parts[m]).Ok?
    ensures Extract(doc) == Crashed(HoldingAt(FlattenAll(doc), FindAllFrom(FlattenAll(doc), 0, PartCHeading)[j]).error)
  {
    var flat := FlattenAll(doc);
    var parts := FindAllFrom(flat, 0, PartCHeading);
    var outs := Results(flat, parts);
    assert forall m :: 0 <= m < j ==> outs[..j][m] == outs[m];
    CollectSpec(outs[..j]);
    CollectFirstFault(outs, j);
  }

  // ---------------------------------------------------------------------
  // The loops of `scrape_filing`
  // ---------------------------------------------------------------------

  /** The label lookup of one field in its table, written as the script does it. */
  method AddField(data: Record, f: FieldSpec, table: Node) returns (r: Result<Record, Fault>)
    ensures r == PutField(Ok(data), f, LabelledValue(table, f.caption))
  {
    var labelCell := FindIn(Children(table), CellQuery(f.caption));
    if labelCell.None? {
      return Ok(data);
    }
    var sibling := FindFrom(labelCell.value.after, 0, AnyCell);
    if sibling.None? {
      return Err(MissingValueCell(f.caption));
    }
    return Ok(data[f.key := GetText(labelCell.value.after[sibling.value])]);
  }

  /** The Item C.1 block of the holding loop: the issuer name and the CUSIP,
      when the Item C.1 heading and its table are there. */
  method ReadIdentification(flat: seq<Node>, i: nat) returns (r: Result<Record, Fault>)
    ensures r == PutFields(Ok(map[]), IdentificationFields, CellsOf(flat, i, IdentificationFields))
  {
    var issuer, cusip := IdentificationFields[0], IdentificationFields[1];
    ghost var cells := CellsOf(flat, i, IdentificationFields);
    ghost var first := PutField(Ok(map[]), issuer, cells[0]);
    PutFieldsUnfold(Ok(map[]), IdentificationFields, cells);
    PutFieldsUnfold(first, IdentificationFields[1..], cells[1..]);
    assert PutFields(Ok(map[]), IdentificationFields, cells) == PutField(first, cusip, cells[1]);

    var data: Record := map[];
    var c1 := FindFrom(flat, i + 1, IdentificationHeading);
    if c1.Some? {
      var c1Table := FindFrom(flat, c1.value + 1, AnyTable);
      if c1Table.Some? {
        var table := flat[c1Table.value];
        assert TableAfter(flat, i, IdentificationHeading) == Some(table);
        r := AddField(data, issuer, table);
        if r.Err? { return; }
        r := AddField(r.value, cusip, table);
        return;
      }
    }
    return Ok(data);
  }

  /** The Item C.2 block of the holding loop, for the Item C.2 heading at
      position `c2`: the balance, the value and the percentage, when its
      table is there. */
  method ReadAmounts(flat: seq<Node>, i: nat, data: Record, c2: nat) returns (r: Result<Record, Fault>)
    requires FindFrom(flat, i + 1, AmountHeading) == Some(c2)
    ensures r == PutFields(Ok(data), AmountFields, CellsOf(flat, i, AmountFields))
  {
    var shares, value, percent := AmountFields[0], AmountFields[1], AmountFields[2];
    ghost var cells := CellsOf(flat, i, AmountFields);
    ghost var s1 := PutField(Ok(data), shares, cells[0]);
    ghost var s2 := PutField(s1, value, cells[1]);
    PutFieldsUnfold(Ok(data), AmountFields, cells);
    PutFieldsUnfold(s1, AmountFields[1..], cells[1..]);
    PutFieldsUnfold(s2, AmountFields[1..][1..], cells[1..][1..]);
    assert PutFields(Ok(data), AmountFields, cells) == PutField(s2, percent, cells[2]);

    var c2Table := FindFrom(flat, c2 + 1, AnyTable);
    if c2Table.Some? {
      var table := flat[c2Table.value];
      assert TableAfter(flat, i, AmountHeading) == Some(table);
      r := AddField(data, shares, table);
      if r.Err? { return; }
      r := AddField(r.value, value, table);
      if r.Err? { return; }
      r := AddField(r.value, percent, table);
      return;
    }
    return Ok(data);
  }

  /** Fills `investment_data` for the Part C heading at position `i`. */
  method CollectFields(flat: seq<Node>, i: nat) returns (r: Result<Record, Fault>)
    ensures r == HoldingAt(flat, i)
  {
    r := ReadIdentification(flat, i);
    if r.Err? {
      return;
    }
    var c2 := FindFrom(flat, i + 1, AmountHeading);
    if c2.None? {
      return Err(MissingAmountHeading);
    }
    r := ReadAmounts(flat, i, r.value, c2.value);
  }

  /** The loop over Part A headings, left at the first complete chain. */
  method ReadReportingDate(flat: seq<Node>) returns (c: Chain)
    ensures c == FirstDate(flat, FindAllFrom(flat, 0, PartAHeading))
  {
    var sections := FindAllFrom(flat, 0, PartAHeading);
    var k := 0;
    while k < |sections|
      invariant 0 <= k <= |sections|
      invariant FirstDate(flat, sections) == FirstDate(flat, sections[k..])
    {
      assert sections[k..][0] == sections[k] && sections[k..][1..] == sections[k + 1..];
      ghost var chain := DateChain(flat, sections[k]);
      assert FirstDate(flat, sections[k..]) == if chain.Broken? then FirstDate(flat, sections[k + 1..]) else chain;
      var a3 := FindFrom(flat, sections[k] + 1, ReportingPeriodHeading);
      if a3.Some? {
        var table := FindFrom(flat, a3.value + 1, AnyTable);
        if table.Some? {
          assert TableAfter(flat, sections[k], ReportingPeriodHeading) == Some(flat[table.value]);
          var cell := FindIn(Children(flat[table.value]), CellQuery(DateCaption));
          if cell.Some? {
            var sibling := FindFrom(cell.value.after, 0, AnyCell);
            if sibling.None? {
              return Faulted(MissingValueCell(DateCaption));
            }
            return Reached(GetText(cell.value.after[sibling.value]));
          }
        }
      }
      assert chain.Broken?;
      k := k + 1;
    }
    return Broken;
  }

  /** The loop over Part C headings: one record each, the empty ones dropped,
      the first failure ending the loop. */
  method CollectHoldings(flat: seq<Node>) returns (r: Result<seq<Record>, Fault>)
    ensures r == Holdings(flat, FindAllFrom(flat, 0, PartCHeading))
  {
    var parts := FindAllFrom(flat, 0, PartCHeading);
    ghost var outs := Results(flat, parts);
    var holdings: seq<Record> := [];
    ghost var records: seq<Record> := [];
    for j := 0 to |parts|
      invariant Collect(outs[..j]) == Ok(records)
      invariant holdings == DropEmpty(records)
    {
      var data := CollectFields(flat, parts[j]);
      if data.Err? {
        CollectFirstFault(outs, j);
        return Err(data.error);
      }
      assert outs[..j + 1][..j] == outs[..j];
      records := records + [data.value];
      if data.value != map[] {
        holdings := holdings + [data.value];
      }
    }
    assert outs[..|parts|] == outs;
    return Ok(holdings);
  }

  /** Both loops of `scrape_filing`, on a fetched and parsed page. */
  method ExtractFiling(doc: Document) returns (o: Outcome)
    ensures o == Extract(doc)
  {
    var flat := FlattenAll(doc);
    var date := ReadReportingDate(flat);
    if date.Broken? {
      return Failed;
    }
    if date.Faulted? {
      return Crashed(date.fault);
    }
    if date.date == "" {
      return Failed;
    }
    var holdings := CollectHoldings(flat);
    if holdings.Err? {
      return Crashed(holdings.error);
    }
    return Scraped(date.date, holdings.value);
  }
}
