/** The scraper object: the fund's CIK, its submissions URL and the master map
    from reporting date to holdings table, with the run that fills the map
    filing by filing and then saves one table per date. The two HTTP GETs
    are parameters: each maps a URL to the status code and the decoded body
    the server would send. */
module Scraper {
  import opened Wrappers
  import opened Faults
  import Html
  import Filings
  import Naming
  import Extraction

  type Record = Extraction.Record

  /** An HTTP answer: the status code and the decoded body. */
  datatype Response<T> = Response(status: int, body: T)

  /** `master_df_list`, as a value: the dates in the order they were first
      stored (a Python dict keeps insertion order) and the table per date. */
  datatype Master = Master(dates: seq<string>, frames: map<string, seq<Record>>)

  const EmptyMaster := Master([], map[])

  /** The dates are exactly the keys, each listed once. */
  ghost predicate WellFormed(m: Master) {
    && (forall i, j :: 0 <= i < j < |m.dates| ==> m.dates[i] != m.dates[j])
    && (forall d :: d in m.frames <==> d in m.dates)
  }

  /** `self.master_df_list[reporting_date] = holdings_df`: the new table
      replaces any earlier one for the date, and a date seen before keeps
      its place in the order. */
  function Put(m: Master, date: string, hs: seq<Record>): (r: Master)
    ensures r.frames == m.frames[date := hs]
    ensures m.dates <= r.dates
    ensures WellFormed(m) ==> WellFormed(r)
  {
    if date in m.frames then Master(m.dates, m.frames[date := hs])
    else Master(m.dates + [date], m.frames[date := hs])
  }

  /** `if holdings_df is not None: ...`: only a scraped filing is stored. */
  function Store(m: Master, o: Extraction.Outcome): (r: Master)
    ensures WellFormed(m) ==> WellFormed(r)
    ensures m.dates <= r.dates
  {
    match o
    case Scraped(date, hs) => Put(m, date, hs)
    case _ => m
  }

  /** The map after storing the outcomes `os` one after the other. */
  function StoreAll(m: Master, os: seq<Extraction.Outcome>): (r: Master)
    decreases |os|
    ensures WellFormed(m) ==> WellFormed(r)
    ensures m.dates <= r.dates
  {
    if os == [] then m else StoreAll(Store(m, os[0]), os[1..])
  }

  /** Outcome `k` writes the date `d`. */
  predicate Writes(os: seq<Extraction.Outcome>, k: int, d: string) {
    0 <= k < |os| && os[k].Scraped? && os[k].date == d
  }

  /** A date is a key afterwards exactly when it was one before or some
      scraped filing reported it. */
  lemma {:induction false} StoreAllKeys(m: Master, os: seq<Extraction.Outcome>, d: string)
    decreases |os|
    ensures d in StoreAll(m, os).frames <==> d in m.frames || exists k :: Writes(os, k, d)
  {
    if os != [] {
      var rest := os[1..];
      StoreAllKeys(Store(m, os[0]), rest, d);
      assert d in Store(m, os[0]).frames <==> d in m.frames || Writes(os, 0, d);
      if exists k :: Writes(rest, k, d) {
        var k :| Writes(rest, k, d);
        assert Writes(os, k + 1, d);
      }
      if exists k :: Writes(os, k, d) {
        var k :| Writes(os, k, d);
        if k > 0 { assert Writes(rest, k - 1, d); }
      }
    }
  }

  /** Last write wins: the table kept for a date is the one of the last
      scraped filing that reported that date. */
  lemma {:induction false} LastWriteWins(m: Master, os: seq<Extraction.Outcome>, k: nat)
    decreases |os|
    requires k < |os| && os[k].Scraped?
    requires forall j :: k < j < |os| ==> !Writes(os, j, os[k].date)
    ensures os[k].date in StoreAll(m, os).frames
    ensures StoreAll(m, os).frames[os[k].date] == os[k].holdings
  {
    var rest := os[1..];
    var d := os[k].date;
    if k == 0 {
      forall j | 0 <= j < |rest| ensures !Writes(rest, j, d) {
        assert !Writes(os, j + 1, d);
      }
      UnwrittenDateUnchanged(Store(m, os[0]), rest, d);
    } else {
      forall j | k - 1 < j < |rest| ensures !Writes(rest, j, d) {
        assert !Writes(os, j + 1, d);
      }
      assert rest[k - 1] == os[k];
      LastWriteWins(Store(m, os[0]), rest, k - 1);
    }
  }

  /** A date that no scraped filing reported keeps whatever it had, and a
      failed or crashed filing changes nothing. */
  lemma {:induction false} UnwrittenDateUnchanged(m: Master, os: seq<Extraction.Outcome>, d: string)
    decreases |os|
    requires d in m.frames && forall k :: 0 <= k < |os| ==> !Writes(os, k, d)
    ensures d in StoreAll(m, os).frames && StoreAll(m, os).frames[d] == m.frames[d]
  {
    if os != [] {
      var rest := os[1..];
      forall k | 0 <= k < |rest| ensures !Writes(rest, k, d) {
        assert !Writes(os, k + 1, d);
      }
      assert !Writes(os, 0, d);
      UnwrittenDateUnchanged(Store(m, os[0]), rest, d);
    }
  }

  /** One saved CSV file: its name and the table written to it. */
  datatype SavedFile = SavedFile(name: string, holdings: seq<Record>)

  /** `save_holdings`: one file per date, in the map's order. */
  function SavedFiles(m: Master): (r: seq<SavedFile>)
    requires WellFormed(m)
    ensures |r| == |m.dates|
  {
    seq(|m.dates|, k requires 0 <= k < |m.dates| => SavedFile(Naming.FileName(m.dates[k]), m.frames[m.dates[k]]))
  }

  /** Every date of the map gets its own file, named after the date and
      holding its table; no two files share a name. */
  lemma SavedFilesOnePerDate(m: Master)
    requires WellFormed(m)
    ensures var files := SavedFiles(m);
            && (forall d :: d in m.frames ==> exists k :: 0 <= k < |files| && files[k] == SavedFile(Naming.FileName(d), m.frames[d]))
            && (forall k :: 0 <= k < |files| ==> Naming.DateOfFileName(files[k].name) in m.frames)
            && (forall j, k :: 0 <= j < k < |files| ==> files[j].name != files[k].name)
  {
    var files := SavedFiles(m);
    forall d | d in m.frames
      ensures exists k :: 0 <= k < |files| && files[k] == SavedFile(Naming.FileName(d), m.frames[d])
    {
      var k :| 0 <= k < |m.dates| && m.dates[k] == d;
      assert files[k] == SavedFile(Naming.FileName(d), m.frames[d]);
    }
    forall k | 0 <= k < |files| ensures Naming.DateOfFileName(files[k].name) in m.frames {
      Naming.FileNameRoundTrip(m.dates[k], m.dates[k]);
    }
    forall j, k | 0 <= j < k < |files| ensures files[j].name != files[k].name {
      Naming.FileNameRoundTrip(m.dates[j], m.dates[k]);
    }
  }

  // ---------------------------------------------------------------------
  // What a run does, as a value
  // ---------------------------------------------------------------------

  /** `scrape_filing` on the answer to the filing request: a failed request
      yields nothing, a page is scraped. */
  function FilingOutcome(resp: Response<Html.Document>): Extraction.Outcome {
    if resp.status != 200 then Extraction.Failed else Extraction.Extract(resp.body)
  }

  /** The filing URLs of the listed filings, in order. */
  function FilingUrls(cik: string, filings: seq<Filings.Filing>): (r: seq<string>)
    ensures |r| == |filings|
  {
    seq(|filings|, k requires 0 <= k < |filings| =>
      Naming.FilingUrl(cik, filings[k].accessionNumber, filings[k].primaryDocument))
  }

  /** The outcome each listed filing would give. */
  function Outcomes(urls: seq<string>, fetchFiling: string -> Response<Html.Document>): (r: seq<Extraction.Outcome>)
    ensures |r| == |urls|
  {
    seq(|urls|, k requires 0 <= k < |urls| => FilingOutcome(fetchFiling(urls[k])))
  }

  /** The position of the first crash, or the length when none crashed. */
  function FirstCrash(os: seq<Extraction.Outcome>): (c: nat)
    ensures c <= |os|
    ensures forall k :: 0 <= k < c ==> !os[k].Crashed?
    ensures c < |os| ==> os[c].Crashed?
  {
    if os == [] then 0
    else if os[0].Crashed? then 0
    else 1 + FirstCrash(os[1..])
  }

  /** How a run ends: no submissions data, an exception, or the saved files. */
  datatype RunResult = NoData | Aborted(fault: Fault) | Saved(files: seq<SavedFile>)

  /** A run's result, the master map it leaves and the URLs it requested, in order. */
  datatype Trace = Trace(result: RunResult, master: Master, requested: seq<string>)

  /** The trace `t` preceded by the requests `first`. */
  function After(first: seq<string>, t: Trace): (r: Trace)
    ensures r.result == t.result && r.master == t.master
    ensures |r.requested| == |first| + |t.requested|
    ensures r.requested[..|first|] == first && r.requested[|first|..] == t.requested
  {
    Trace(t.result, t.master, first + t.requested)
  }

  lemma AfterAfter(p: seq<string>, q: seq<string>, t: Trace)
    ensures After(p, After(q, t)) == After(p + q, t)
  {
    assert p + (q + t.requested) == (p + q) + t.requested;
  }

  /** The loop of `run` and `save_holdings`, from the listed filings on:
      each filing is scraped and stored in turn, the first one that raises
      ends the run, and otherwise every table is saved. */
  function RunFilings(m: Master, cik: string, filings: seq<Filings.Filing>,
                      fetchFiling: string -> Response<Html.Document>): Trace
    requires WellFormed(m)
    decreases |filings|
  {
    if filings == [] then Trace(Saved(SavedFiles(m)), m, [])
    else
      var url := Naming.FilingUrl(cik, filings[0].accessionNumber, filings[0].primaryDocument);
      var o := FilingOutcome(fetchFiling(url));
      if o.Crashed? then Trace(Aborted(o.fault), m, [url])
      else After([url], RunFilings(Store(m, o), cik, filings[1..], fetchFiling))
  }

  /** The same run seen whole: with `os` the outcomes of all listed filings,
      it stops at the first crash, after storing the outcomes before it;
      without a crash it stores all of them and saves. */
  function RunUntilCrash(m: Master, urls: seq<string>, os: seq<Extraction.Outcome>): Trace
    requires WellFormed(m) && |urls| == |os|
  {
    var c := FirstCrash(os);
    if c < |os| then Trace(Aborted(os[c].fault), StoreAll(m, os[..c]), urls[..c + 1])
    else Trace(Saved(SavedFiles(StoreAll(m, os))), StoreAll(m, os), urls)
  }

  /** A filing that does not crash is stored, and the rest of the run starts
      from the map it leaves. */
  lemma UntilCrashStep(m: Master, urls: seq<string>, os: seq<Extraction.Outcome>)
    requires WellFormed(m) && |urls| == |os| > 0 && !os[0].Crashed?
    ensures RunUntilCrash(m, urls, os) == After([urls[0]], RunUntilCrash(Store(m, os[0]), urls[1..], os[1..]))
  {
    var os1 := os[1..];
    var c1 := FirstCrash(os1);
    assert FirstCrash(os) == c1 + 1;
    if c1 < |os1| {
      assert os[..c1 + 1][0] == os[0] && os[..c1 + 1][1..] == os1[..c1];
      assert [urls[0]] + urls[1..][..c1 + 1] == urls[..c1 + 2];
    } else {
      assert [urls[0]] + urls[1..] == urls;
    }
  }

  /** The step-by-step run and the whole-run description agree. */
  lemma {:induction false} RunFilingsUntilCrash(m: Master, cik: string, filings: seq<Filings.Filing>,
                                                fetchFiling: string -> Response<Html.Document>)
    requires WellFormed(m)
    decreases |filings|
    ensures var urls := FilingUrls(cik, filings);
            RunFilings(m, cik, filings, fetchFiling) == RunUntilCrash(m, urls, Outcomes(urls, fetchFiling))
  {
    var urls := FilingUrls(cik, filings);
    var os := Outcomes(urls, fetchFiling);
    if filings != [] {
      if os[0].Crashed? {
        assert urls[..1] == [urls[0]];
      } else {
        var urls1 := FilingUrls(cik, filings[1..]);
        assert urls1 == urls[1..];
        assert Outcomes(urls1, fetchFiling) == os[1..];
        RunFilingsUntilCrash(Store(m, os[0]), cik, filings[1..], fetchFiling);
        UntilCrashStep(m, urls, os);
      }
    }
  }

  /** `run` on a scraper for `cik` whose map is `m`. */
  function RunSpec(m: Master, cik: string,
                   fetchIndex: string -> Response<Filings.Submissions>,
                   fetchFiling: string -> Response<Html.Document>): Trace
    requires WellFormed(m)
  {
    var indexUrl := Naming.SubmissionsUrl(cik);
    var resp := fetchIndex(indexUrl);
    if resp.status != 200 || Filings.IsEmpty(resp.body) then Trace(NoData, m, [indexUrl])
    else
      match Filings.FilterNportP(resp.body)
      case Err(e) => Trace(Aborted(e), m, [indexUrl])
      case Ok(filings) =>
        After([indexUrl], RunFilings(m, cik, filings, fetchFiling))
  }

  /** Without a successful, non-empty submissions answer the run stops at
      once: nothing else is requested, stored or saved. */
  lemma NoIndexNoWork(m: Master, cik: string,
                      fetchIndex: string -> Response<Filings.Submissions>,
                      fetchFiling: string -> Response<Html.Document>)
    requires WellFormed(m)
    requires var resp := fetchIndex(Naming.SubmissionsUrl(cik));
             resp.status != 200 || Filings.IsEmpty(resp.body)
    ensures RunSpec(m, cik, fetchIndex, fetchFiling) == Trace(NoData, m, [Naming.SubmissionsUrl(cik)])
  {
  }

  /** The run asks for the submissions index first and then for the NPORT-P
      filings in table order, stopping after the first one that raised. An
      aborted run saves nothing; a run that saves has fetched every filing. */
  lemma RunRequestsInOrder(m: Master, cik: string,
                           fetchIndex: string -> Response<Filings.Submissions>,
                           fetchFiling: string -> Response<Html.Document>)
    requires WellFormed(m)
    requires var resp := fetchIndex(Naming.SubmissionsUrl(cik));
             resp.status == 200 && !Filings.IsEmpty(resp.body) && Filings.FilterNportP(resp.body).Ok?
    ensures var t := RunSpec(m, cik, fetchIndex, fetchFiling);
            var filings := Filings.FilterNportP(fetchIndex(Naming.SubmissionsUrl(cik)).body).value;
            var urls := FilingUrls(cik, filings);
            && t.requested[0] == Naming.SubmissionsUrl(cik)
            && t.requested[1..] <= urls
            && (t.result.Saved? <==> t.requested[1..] == urls && forall k :: 0 <= k < |urls| ==> !FilingOutcome(fetchFiling(urls[k])).Crashed?)
            && (t.result.Aborted? ==> |t.requested| >= 2 && FilingOutcome(fetchFiling(t.requested[|t.requested| - 1])).Crashed?)
  {
    var resp := fetchIndex(Naming.SubmissionsUrl(cik));
    var filings := Filings.FilterNportP(resp.body).value;
    var urls := FilingUrls(cik, filings);
    var os := Outcomes(urls, fetchFiling);
    RunFilingsUntilCrash(m, cik, filings, fetchFiling);
    var c := FirstCrash(os);
    var t := RunSpec(m, cik, fetchIndex, fetchFiling);
    assert forall k :: 0 <= k < |urls| ==> os[k] == FilingOutcome(fetchFiling(urls[k]));
    if c < |os| {
      assert t.requested == [Naming.SubmissionsUrl(cik)] + urls[..c + 1];
      assert t.requested[1..] == urls[..c + 1];
      assert t.requested[|t.requested| - 1] == urls[c];
    } else {
      assert t.requested[1..] == urls;
    }
  }

  /** After a run that saves, each date some filing reported has a file
      holding the table of the last filing that reported it. */
  lemma SavedRunKeepsLastTable(m: Master, cik: string,
                               fetchIndex: string -> Response<Filings.Submissions>,
                               fetchFiling: string -> Response<Html.Document>, k: nat)
    requires WellFormed(m)
    requires RunSpec(m, cik, fetchIndex, fetchFiling).result.Saved?
    requires var filings := Filings.FilterNportP(fetchIndex(Naming.SubmissionsUrl(cik)).body).value;
             var os := Outcomes(FilingUrls(cik, filings), fetchFiling);
             && k < |os| && os[k].Scraped?
             && forall j :: k < j < |os| ==> !Writes(os, j, os[k].date)
    ensures var filings := Filings.FilterNportP(fetchIndex(Naming.SubmissionsUrl(cik)).body).value;
            var o := Outcomes(FilingUrls(cik, filings), fetchFiling)[k];
            var files := RunSpec(m, cik, fetchIndex, fetchFiling).result.files;
            exists j :: 0 <= j < |files| && files[j] == SavedFile(Naming.FileName(o.date), o.holdings)
  {
    var filings := Filings.FilterNportP(fetchIndex(Naming.SubmissionsUrl(cik)).body).value;
    var os := Outcomes(FilingUrls(cik, filings), fetchFiling);
    var after := StoreAll(m, os);
    RunFilingsUntilCrash(m, cik, filings, fetchFiling);
    LastWriteWins(m, os, k);
    SavedFilesOnePerDate(after);
  }

  /** A run from the empty map saves a file only for a date that some filing
      reported. */
  lemma SavedRunOnlyReportedDates(cik: string,
                                  fetchIndex: string -> Response<Filings.Submissions>,
                                  fetchFiling: string -> Response<Html.Document>, j: nat)
    requires RunSpec(EmptyMaster, cik, fetchIndex, fetchFiling).result.Saved?
    requires j < |RunSpec(EmptyMaster, cik, fetchIndex, fetchFiling).result.files|
    ensures var filings := Filings.FilterNportP(fetchIndex(Naming.SubmissionsUrl(cik)).body).value;
            var os := Outcomes(FilingUrls(cik, filings), fetchFiling);
            var name := RunSpec(EmptyMaster, cik, fetchIndex, fetchFiling).result.files[j].name;
            |name| >= |Naming.HoldingsSuffix| && exists k :: Writes(os, k, Naming.DateOfFileName(name))
  {
    var filings := Filings.FilterNportP(fetchIndex(Naming.SubmissionsUrl(cik)).body).value;
    var os := Outcomes(FilingUrls(cik, filings), fetchFiling);
    var after := StoreAll(EmptyMaster, os);
    RunFilingsUntilCrash(EmptyMaster, cik, filings, fetchFiling);
    var d := after.dates[j];
    Naming.FileNameRoundTrip(d, d);
    StoreAllKeys(EmptyMaster, os, d);
  }

  /** What `main` does with the typed CIK. */
  datatype MainResult = Rejected | Ran(result: RunResult)

  // ---------------------------------------------------------------------
  // The scraper object
  // ---------------------------------------------------------------------

  class NPORTPScraper {
    const cik: string
    const baseUrl: string
    var dates: seq<string>
    var frames: map<string, seq<Record>>

    ghost predicate Valid()
      reads this
    {
      baseUrl == Naming.SubmissionsUrl(cik) && WellFormed(MasterList())
    }

    /** `self.master_df_list`. */
    function MasterList(): Master
      reads this
    {
      Master(dates, frames)
    }

    constructor (etfCik: string)
      ensures cik == etfCik && baseUrl == Naming.SubmissionsUrl(etfCik)
      ensures MasterList() == EmptyMaster && Valid()
    {
      cik := etfCik;
      baseUrl := Naming.SubmissionsUrl(etfCik);
      dates := [];
      frames := map[];
    }

    /** `fetch_submission_data`: the decoded index, or None on a failed request. */
    method FetchSubmissionData(fetchIndex: string -> Response<Filings.Submissions>) returns (data: Option<Filings.Submissions>)
      ensures fetchIndex(baseUrl).status == 200 <==> data.Some?
      ensures data.Some? ==> data.value == fetchIndex(baseUrl).body
    {
      var response := fetchIndex(baseUrl);
      if response.status != 200 {
        return None;
      }
      return Some(response.body);
    }

    /** `scrape_filing`: builds the filing URL, requests it and scrapes the page. */
    method ScrapeFiling(accessionNumber: string, primaryDocument: string,
                        fetchFiling: string -> Response<Html.Document>) returns (o: Extraction.Outcome, url: string)
      ensures url == Naming.FilingUrl(cik, accessionNumber, primaryDocument)
      ensures o == FilingOutcome(fetchFiling(url))
    {
      url := Naming.FilingUrl(cik, accessionNumber, primaryDocument);
      var response := fetchFiling(url);
      if response.status != 200 {
        return Extraction.Failed, url;
      }
      o := Extraction.ExtractFiling(response.body);
    }

    /** `self.master_df_list[reporting_date] = holdings_df`. */
    method StoreHoldings(date: string, holdings: seq<Record>)
      modifies this
      requires Valid()
      ensures Valid()
      ensures MasterList() == Put(old(MasterList()), date, holdings)
    {
      if date !in frames {
        dates := dates + [date];
      }
      frames := frames[date := holdings];
    }

    /** `save_holdings`: one file per date, in the map's order. */
    method SaveHoldings() returns (files: seq<SavedFile>)
      requires Valid()
      ensures files == SavedFiles(MasterList())
    {
      files := [];
      for k := 0 to |dates|
        invariant files == SavedFiles(MasterList())[..k]
      {
        assert dates[k] in frames;
        files := files + [SavedFile(Naming.FileName(dates[k]), frames[dates[k]])];
      }
    }

    /** The loop of `run` over the NPORT-P rows: scrape each filing in
        order and store what it yields, until one raises. */
    method ScrapeFilings(filings: seq<Filings.Filing>, fetchFiling: string -> Response<Html.Document>)
      returns (crash: Option<Fault>, requested: seq<string>)
      modifies this
      requires Valid()
      ensures Valid()
      ensures RunFilings(old(MasterList()), cik, filings, fetchFiling)
              == Trace(if crash.Some? then Aborted(crash.value) else Saved(SavedFiles(MasterList())), MasterList(), requested)
    {
      ghost var run := RunFilings(MasterList(), cik, filings, fetchFiling);
      requested := [];
      for k := 0 to |filings|
        invariant Valid()
        invariant run == After(requested, RunFilings(MasterList(), cik, filings[k..], fetchFiling))
      {
        var o, url := ScrapeFiling(filings[k].accessionNumber, filings[k].primaryDocument, fetchFiling);
        assert filings[k..][0] == filings[k] && filings[k..][1..] == filings[k + 1..];
        AfterAfter(requested, [url], RunFilings(Store(MasterList(), o), cik, filings[k + 1..], fetchFiling));
        requested := requested + [url];
        if o.Crashed? {
          return Some(o.fault), requested;
        }
        if o.Scraped? {
          StoreHoldings(o.date, o.holdings);
        }
      }
      assert requested + [] == requested;
      return None, requested;
    }

    /** `run`: fetch the index, keep the NPORT-P filings, scrape each in
        order into the master map, then save every table. */
    method Run(fetchIndex: string -> Response<Filings.Submissions>,
               fetchFiling: string -> Response<Html.Document>) returns (result: RunResult, requested: seq<string>)
      modifies this
      requires Valid()
      ensures Valid()
      ensures Trace(result, MasterList(), requested) == RunSpec(old(MasterList()), cik, fetchIndex, fetchFiling)
    {
      var data := FetchSubmissionData(fetchIndex);
      if data.None? || Filings.IsEmpty(data.value) {
        return NoData, [baseUrl];
      }
      var filtered := Filings.FilterNportP(data.value);
      if filtered.Err? {
        return Aborted(filtered.error), [baseUrl];
      }
      var crash, urls := ScrapeFilings(filtered.value, fetchFiling);
      requested := [baseUrl] + urls;
      if crash.Some? {
        result := Aborted(crash.value);
      } else {
        var files := SaveHoldings();
        result := Saved(files);
      }
    }
  }

  /** `main`: strip the typed CIK, refuse anything but ten digits, and run a
      fresh scraper otherwise. */
  method Start(typed: string,
               fetchIndex: string -> Response<Filings.Submissions>,
               fetchFiling: string -> Response<Html.Document>) returns (r: MainResult, requested: seq<string>)
    ensures !Naming.ValidCik(Naming.CleanCik(typed)) ==> r == Rejected && requested == []
    ensures Naming.ValidCik(Naming.CleanCik(typed)) ==>
      var t := RunSpec(EmptyMaster, Naming.CleanCik(typed), fetchIndex, fetchFiling);
      r == Ran(t.result) && requested == t.requested
  {
    var etfCik := Naming.CleanCik(typed);
    if !Naming.ValidCik(etfCik) {
      return Rejected, [];
    }
    var scraper := new NPORTPScraper(etfCik);
    var result;
    result, requested := scraper.Run(fetchIndex, fetchFiling);
    return Ran(result), requested;
  }
}
