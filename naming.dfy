/** The script's small string rules: which CIK `main` accepts, the two request
    URLs, and the name each saved table gets. */
module Naming {
  import Text

  /** `main` strips the typed CIK and accepts it when it is ten digits. */
  function CleanCik(typed: string): string {
    Text.Strip(typed)
  }

  /** `etf_cik.isdigit() and len(etf_cik) == 10`. */
  predicate ValidCik(cik: string) {
    Text.IsDigits(cik) && |cik| == 10
  }

  /** `typed` holds a valid CIK at position `i`, with only whitespace around it. */
  predicate CikPaddedAt(typed: string, i: int) {
    0 <= i <= |typed| - 10 && ValidCik(typed[i..i + 10]) && Text.PaddedAt(typed, typed[i..i + 10], i)
  }

  /** The typed line is accepted exactly when it is ten digits with nothing
      but whitespace before and after them. */
  lemma TypedCikAccepted(typed: string)
    ensures ValidCik(CleanCik(typed)) <==> exists i :: CikPaddedAt(typed, i)
  {
    var c := CleanCik(typed);
    var i0 := |typed| - |Text.TrimStart(typed)|;
    Text.StripSpec(typed);
    if ValidCik(c) {
      assert c == typed[i0..i0 + 10];
      assert CikPaddedAt(typed, i0);
    }
    if exists i :: CikPaddedAt(typed, i) {
      var i :| CikPaddedAt(typed, i);
      var d := typed[i..i + 10];
      assert Text.Trimmed(d) by {
        assert Text.IsDigit(d[0]) && Text.IsDigit(d[9]);
      }
      Text.PaddedUnique(typed, c, i0, d, i);
    }
  }

  /** `accession_number.replace('-', '')`. */
  function RemoveDashes(s: string): (r: string)
    ensures '-' !in r
    ensures |r| <= |s|
  {
    if s == [] then []
    else if s[0] == '-' then RemoveDashes(s[1..]) else [s[0]] + RemoveDashes(s[1..])
  }

  /** Removing dashes keeps every other character as often as it occurs. */
  lemma {:induction false} RemoveDashesKeepsOthers(s: string, c: char)
    requires c != '-'
    ensures multiset(RemoveDashes(s))[c] == multiset(s)[c]
  {
    if s != [] {
      assert s == [s[0]] + s[1..];
      RemoveDashesKeepsOthers(s[1..], c);
    }
  }

  /** Removing dashes works piece by piece, so the kept characters stay in order. */
  lemma {:induction false} RemoveDashesConcat(a: string, b: string)
    ensures RemoveDashes(a + b) == RemoveDashes(a) + RemoveDashes(b)
  {
    if a == [] {
      assert a + b == b;
    } else {
      assert (a + b)[0] == a[0] && (a + b)[1..] == a[1..] + b;
      RemoveDashesConcat(a[1..], b);
    }
  }

  /** A string without dashes is kept as it is. */
  lemma {:induction false} RemoveDashesNoDash(s: string)
    requires '-' !in s
    ensures RemoveDashes(s) == s
  {
    if s != [] {
      assert s[0] != '-' && '-' !in s[1..];
      RemoveDashesNoDash(s[1..]);
    }
  }

  /** The regulator's accession number layout: ten digits, two digits and six
      digits, separated by dashes. */
  predicate AccessionShaped(a: string) {
    && |a| == 20 && a[10] == '-' && a[13] == '-'
    && (forall i :: 0 <= i < 20 && i != 10 && i != 13 ==> Text.IsDigit(a[i]))
  }

  /** Puts the dashes of the accession layout back into an 18-digit string. */
  function Dashed(s: string): string
    requires |s| == 18
  {
    s[..10] + "-" + s[10..12] + "-" + s[12..]
  }

  /** For an accession number in the regulator's layout, the URL segment is
      its 18 digits, and putting the dashes back recovers the number. */
  lemma AccessionRoundTrip(a: string)
    requires AccessionShaped(a)
    ensures |RemoveDashes(a)| == 18 && Dashed(RemoveDashes(a)) == a
  {
    var x, y, z := a[..10], a[11..13], a[14..];
    NoDashInDigits(a, 0, 10);
    NoDashInDigits(a, 11, 13);
    NoDashInDigits(a, 14, 20);
    RemoveDashesNoDash(x);
    RemoveDashesNoDash(y);
    RemoveDashesNoDash(z);
    SplitAtDashes(a);
    RemoveDashesBetween(x, y, z);
    DashedPieces(x, y, z);
  }

  /** A 20-character string is its three runs around positions 10 and 13
      with the characters there in between. */
  lemma SplitAtDashes(a: string)
    requires |a| == 20 && a[10] == '-' && a[13] == '-'
    ensures a == a[..10] + ("-" + (a[11..13] + ("-" + a[14..])))
  {
    assert a[13..] == "-" + a[14..];
    assert a[11..] == a[11..13] + a[13..];
    assert a[10..] == "-" + a[11..];
    assert a == a[..10] + a[10..];
  }

  /** The two dashes between three runs are removed and the runs are kept. */
  lemma RemoveDashesBetween(x: string, y: string, z: string)
    ensures RemoveDashes(x + ("-" + (y + ("-" + z)))) == RemoveDashes(x) + (RemoveDashes(y) + RemoveDashes(z))
  {
    var dz := "-" + z;
    var ydz := y + dz;
    var dydz := "-" + ydz;
    assert dz[1..] == z && dydz[1..] == ydz;
    RemoveDashesConcat(x, dydz);
    RemoveDashesConcat(y, dz);
  }

  lemma DashedPieces(x: string, y: string, z: string)
    requires |x| == 10 && |y| == 2 && |z| == 6
    ensures Dashed(x + (y + z)) == x + ("-" + (y + ("-" + z)))
  {
    var r := x + (y + z);
    assert r[..10] == x && r[10..12] == y && r[12..] == z;
  }

  /** The characters `a[from..to]` of an accession number are digits, so none is a dash. */
  lemma NoDashInDigits(a: string, from: nat, to: nat)
    requires AccessionShaped(a) && from <= to <= 20 && (from > 13 || to <= 13) && (from > 10 || to <= 10)
    ensures '-' !in a[from..to]
  {
    forall j | 0 <= j < to - from ensures a[from..to][j] != '-' {
      assert a[from..to][j] == a[from + j];
    }
  }

  const SubmissionsPrefix := "https://data.sec.gov/submissions/CIK"
  const ArchivePrefix := "https://www.sec.gov/Archives/edgar/data/"
  const HoldingsSuffix := "_NPORT-P_HOLDINGS.csv"

  /** `self.base_url`, the submissions index of the fund. */
  function SubmissionsUrl(cik: string): string {
    SubmissionsPrefix + cik + ".json"
  }

  /** The filing URL of `scrape_filing`: `.../data/{cik}/{accession without dashes}/{document}`. */
  function FilingUrl(cik: string, accession: string, document: string): string {
    ArchivePrefix + cik + "/" + RemoveDashes(accession) + "/" + document
  }

  /** The three path segments of a filing URL can be read back from it: the
      CIK, the accession number with every dash removed, and the document. */
  lemma FilingUrlSegments(cik: string, accession: string, document: string)
    ensures var u := FilingUrl(cik, accession, document);
            var p, c, a := |ArchivePrefix|, |cik|, |RemoveDashes(accession)|;
            && u[..p] == ArchivePrefix
            && u[p..p + c] == cik && u[p + c] == '/'
            && u[p + c + 1..p + c + 1 + a] == RemoveDashes(accession) && u[p + c + 1 + a] == '/'
            && u[p + c + a + 2..] == document
  {
  }

  /** For one fund, filings whose accession numbers have the regulator's
      layout get different URLs: the URL determines both the accession
      number and the document. */
  lemma FilingUrlInjective(cik: string, a1: string, d1: string, a2: string, d2: string)
    requires AccessionShaped(a1) && AccessionShaped(a2)
    ensures FilingUrl(cik, a1, d1) == FilingUrl(cik, a2, d2) <==> a1 == a2 && d1 == d2
  {
    if FilingUrl(cik, a1, d1) == FilingUrl(cik, a2, d2) {
      AccessionRoundTrip(a1);
      AccessionRoundTrip(a2);
      FilingUrlSegments(cik, a1, d1);
      FilingUrlSegments(cik, a2, d2);
      assert RemoveDashes(a1) == RemoveDashes(a2);
    }
  }

  /** `f"{date}_NPORT-P_HOLDINGS.csv"` in `save_holdings`. */
  function FileName(date: string): string {
    date + HoldingsSuffix
  }

  /** The reporting date, read back from a saved file's name. */
  function DateOfFileName(name: string): string
    requires |name| >= |HoldingsSuffix|
  {
    name[..|name| - |HoldingsSuffix|]
  }

  /** Each reporting date names its own file: the date can be read back from
      the name, so two dates never share a file. */
  lemma FileNameRoundTrip(date: string, other: string)
    ensures |FileName(date)| >= |HoldingsSuffix| && DateOfFileName(FileName(date)) == date
    ensures FileName(date) == FileName(other) ==> date == other
  {
    assert DateOfFileName(FileName(date)) == date;
    if FileName(date) == FileName(other) {
      assert DateOfFileName(FileName(other)) == other;
    }
  }
}
