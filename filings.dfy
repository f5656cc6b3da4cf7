/** The filing index client's pure part: turning the `filings.recent` arrays of
    the submissions record into rows and keeping the NPORT-P ones
    (`filter_nport_p_filings`). */
module Filings {
  import opened Wrappers
  import opened Faults

  /** The `filings.recent` object: four parallel arrays, each possibly absent. */
  datatype Recent = Recent(
    accessionNumber: Option<seq<string>>,
    filingDate: Option<seq<string>>,
    form: Option<seq<string>>,
    primaryDocument: Option<seq<string>>)

  /** The submissions JSON object, reduced to what the scraper reads.
      `filings` is None when the key is absent and Some(None) when it holds no
      `recent`; `otherKeys` counts the remaining top-level keys, which only
      affect Python's truth test on the object. */
  datatype Submissions = Submissions(filings: Option<Option<Recent>>, otherKeys: nat)

  /** One row of the filings table. */
  datatype Filing = Filing(accessionNumber: string, filingDate: string, form: string, primaryDocument: string)

  const NportP := "NPORT-P"

  /** `not data`: an empty JSON object is false in Python. */
  predicate IsEmpty(data: Submissions) {
    data.filings.None? && data.otherKeys == 0
  }

  /** `data.get("filings", {}).get("recent", {})`: absent levels read as empty. */
  function RecentOf(data: Submissions): Recent {
    match data.filings
    case None => Recent(None, None, None, None)
    case Some(None) => Recent(None, None, None, None)
    case Some(Some(r)) => r
  }

  /** `filings.get(key, [])`. */
  function Column(c: Option<seq<string>>): seq<string> {
    match c
    case None => []
    case Some(xs) => xs
  }

  /** The DataFrame built from the four arrays: row `i` pairs element `i` of
      each, and arrays of different lengths are refused (pandas raises). */
  function Rows(r: Recent): (res: Result<seq<Filing>, Fault>)
    ensures res.Ok? <==>
      (|Column(r.accessionNumber)| == |Column(r.filingDate)| == |Column(r.form)| == |Column(r.primaryDocument)|)
    ensures res.Err? ==> res.error == ColumnLengthMismatch
    ensures res.Ok? ==> |res.value| == |Column(r.accessionNumber)|
    ensures res.Ok? ==> forall i :: 0 <= i < |res.value| ==>
      && res.value[i].accessionNumber == Column(r.accessionNumber)[i]
      && res.value[i].filingDate == Column(r.filingDate)[i]
      && res.value[i].form == Column(r.form)[i]
      && res.value[i].primaryDocument == Column(r.primaryDocument)[i]
  {
    var a, d, f, p := Column(r.accessionNumber), Column(r.filingDate), Column(r.form), Column(r.primaryDocument);
    if |a| == |d| == |f| == |p| then
      Ok(seq(|a|, i requires 0 <= i < |a| => Filing(a[i], d[i], f[i], p[i])))
    else
      Err(ColumnLengthMismatch)
  }

  /** `df[df["Form Type"] == form]`: the rows whose form equals `form` exactly. */
  function SelectForm(rows: seq<Filing>, form: string): (r: seq<Filing>)
    ensures |r| <= |rows|
  {
    if rows == [] then []
    else if rows[0].form == form then [rows[0]] + SelectForm(rows[1..], form)
    else SelectForm(rows[1..], form)
  }

  /** The selected rows are exactly the rows with the form. */
  lemma {:induction false} SelectFormMembers(rows: seq<Filing>, form: string)
    ensures forall x :: x in SelectForm(rows, form) <==> x in rows && x.form == form
  {
    if rows != [] {
      SelectFormMembers(rows[1..], form);
      assert rows == [rows[0]] + rows[1..];
    }
  }

  /** `filter_nport_p_filings`. */
  function FilterNportP(data: Submissions): Result<seq<Filing>, Fault> {
    match Rows(RecentOf(data))
    case Err(e) => Err(e)
    case Ok(rows) => Ok(SelectForm(rows, NportP))
  }

  /** Selection keeps relative order: selecting from a concatenation is
      concatenating the selections. */
  lemma {:induction false} SelectFormConcat(a: seq<Filing>, b: seq<Filing>, form: string)
    ensures SelectForm(a + b, form) == SelectForm(a, form) + SelectForm(b, form)
  {
    if a != [] {
      assert (a + b)[0] == a[0] && (a + b)[1..] == a[1..] + b;
      SelectFormConcat(a[1..], b, form);
    } else {
      assert a + b == b;
    }
  }

  /** Selection keeps every matching row as often as it occurs, and no other row. */
  lemma {:induction false} SelectFormCounts(rows: seq<Filing>, form: string, x: Filing)
    ensures multiset(SelectForm(rows, form))[x] == if x.form == form then multiset(rows)[x] else 0
  {
    if rows != [] {
      SelectFormCounts(rows[1..], form, x);
      assert rows == [rows[0]] + rows[1..];
      assert multiset(rows) == multiset([rows[0]]) + multiset(rows[1..]);
    }
  }

  /** Row `k` of the filtered table is row `idx[k]` of the full table, for
      strictly increasing positions `idx` that are exactly the NPORT-P rows. */
  ghost predicate PicksInOrder(rows: seq<Filing>, picked: seq<Filing>, idx: seq<nat>, form: string) {
    && |idx| == |picked|
    && (forall k :: 0 <= k < |idx| ==> idx[k] < |rows| && picked[k] == rows[idx[k]])
    && (forall k, l :: 0 <= k < l < |idx| ==> idx[k] < idx[l])
    && (forall i :: 0 <= i < |rows| ==> (rows[i].form == form <==> i in idx))
  }

  /** The positions of the rows whose form matches, in increasing order. */
  ghost function MatchingPositions(rows: seq<Filing>, form: string, from: nat): (idx: seq<nat>)
    decreases |rows| - from
    ensures forall k :: 0 <= k < |idx| ==> from <= idx[k] < |rows| && rows[idx[k]].form == form
    ensures forall k, l :: 0 <= k < l < |idx| ==> idx[k] < idx[l]
    ensures forall i :: from <= i < |rows| && rows[i].form == form ==> i in idx
  {
    if from >= |rows| then []
    else if rows[from].form == form then [from] + MatchingPositions(rows, form, from + 1)
    else MatchingPositions(rows, form, from + 1)
  }

  lemma {:induction false} SelectFormFrom(rows: seq<Filing>, form: string, from: nat)
    requires from <= |rows|
    decreases |rows| - from
    ensures var idx := MatchingPositions(rows, form, from);
            var picked := SelectForm(rows[from..], form);
            |idx| == |picked| && forall k :: 0 <= k < |idx| ==> picked[k] == rows[idx[k]]
  {
    if from < |rows| {
      SelectFormFrom(rows, form, from + 1);
      assert rows[from..][0] == rows[from] && rows[from..][1..] == rows[from + 1..];
      var idx1 := MatchingPositions(rows, form, from + 1);
      var picked1 := SelectForm(rows[from + 1..], form);
      if rows[from].form == form {
        assert MatchingPositions(rows, form, from) == [from] + idx1;
        assert SelectForm(rows[from..], form) == [rows[from]] + picked1;
      } else {
        assert MatchingPositions(rows, form, from) == idx1;
        assert SelectForm(rows[from..], form) == picked1;
      }
    }
  }

  /** `filter_nport_p_filings` returns exactly the rows whose form is
      "NPORT-P", in their original relative order. */
  lemma FilterPicksNportPRowsInOrder(data: Submissions)
    requires FilterNportP(data).Ok?
    ensures Rows(RecentOf(data)).Ok?
    ensures exists idx :: PicksInOrder(Rows(RecentOf(data)).value, FilterNportP(data).value, idx, NportP)
  {
    var rows := Rows(RecentOf(data)).value;
    var idx := MatchingPositions(rows, NportP, 0);
    SelectFormFrom(rows, NportP, 0);
    assert rows[0..] == rows;
    assert PicksInOrder(rows, FilterNportP(data).value, idx, NportP);
  }
}
