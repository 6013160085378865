/** The indicator lookup of the threat-hunting page
    (src/pages/ThreatHunting.tsx): a scan of an IP address, URL or file hash
    that completes two seconds later with a simulated verdict, newest first. */
module ThreatHunting {
  import opened Types
  import opened Text

  /** A scan whose completion timer is still running, with the type and
      value the timer callback captured when the scan started. */
  datatype PendingScan = PendingScan(kind: ScanType, value: string)

  /** `Math.floor(draw * 40) + 60` for a draw `Math.random()` returns. */
  function Confidence(draw: real): (c: int)
    requires 0.0 <= draw < 1.0
    ensures 60 <= c <= 99
    ensures (c - 60) as real <= draw * 40.0 < (c - 59) as real
  {
    (draw * 40.0).Floor + 60
  }

  /** The simulated verdict of a completed scan: the three `Math.random()`
      draws decide the status, the threat type and the confidence. */
  function ScanOutcome(scan: PendingScan, statusDraw: real, typeDraw: real, confidenceDraw: real,
                       now: int): (r: ScanResult)
    requires 0.0 <= statusDraw < 1.0 && 0.0 <= typeDraw < 1.0 && 0.0 <= confidenceDraw < 1.0
    ensures r.kind == scan.kind && r.value == scan.value && r.timestamp == now
    ensures r.status != Suspicious
    ensures r.status == Malicious <==> statusDraw > 0.5
    ensures r.threatType == (if typeDraw > 0.5 then Some("Trojan") else None)
    ensures 60 <= r.confidence <= 99
  {
    ScanResult(
      scan.kind,
      scan.value,
      if statusDraw > 0.5 then Malicious else Clean,
      if typeDraw > 0.5 then Some("Trojan") else None,
      Confidence(confidenceDraw),
      now)
  }

  /** The Scan button is enabled when no scan is running and the input is not
      blank after trimming. */
  predicate ScanButtonEnabled(isScanning: bool, searchValue: string)
  {
    !isScanning && Trim(searchValue) != ""
  }

  /** The button is enabled exactly when no scan is running and the input
      has a character that is not white space. */
  lemma ScanButtonEnabledIff(isScanning: bool, searchValue: string)
    ensures ScanButtonEnabled(isScanning, searchValue) <==>
            !isScanning && exists i :: 0 <= i < |searchValue| && !IsWhitespace(searchValue[i])
  {
    TrimEmptyIff(searchValue);
  }

  /** The lookup page's component state. The Enter key calls the scan handler
      even while a scan runs, so several completions may be pending; their
      timers have the same delay and fire in the order the scans started. */
  class HuntingPage {
    var searchType: ScanType
    var searchValue: string
    var scanResults: seq<ScanResult>
    var isScanning: bool
    var pending: seq<PendingScan>

    /** The scanning flag is only raised while some scan is pending. */
    ghost predicate Valid()
      reads this
    {
      isScanning ==> pending != []
    }

    constructor ()
      ensures Valid()
      ensures searchType == Ip && searchValue == "" && scanResults == [] && !isScanning && pending == []
    {
      searchType := Ip;
      searchValue := "";
      scanResults := [];
      isScanning := false;
      pending := [];
    }

    method SetSearchType(kind: ScanType)
      modifies this`searchType
      ensures searchType == kind
    {
      searchType := kind;
    }

    method SetSearchValue(value: string)
      modifies this`searchValue
      ensures searchValue == value
    {
      searchValue := value;
    }

    /** `handleScan` up to the timer: a blank input changes nothing; otherwise
        the page starts scanning and a completion is scheduled for the current
        type and the untrimmed value. */
    method StartScan() returns (started: bool)
      requires Valid()
      modifies this`isScanning, this`pending
      ensures Valid()
      ensures started <==> exists i :: 0 <= i < |searchValue| && !IsWhitespace(searchValue[i])
      ensures started ==> isScanning && pending == old(pending) + [PendingScan(searchType, searchValue)]
      ensures !started ==> isScanning == old(isScanning) && pending == old(pending)
    {
      TrimEmptyIff(searchValue);
      if Trim(searchValue) == "" {
        return false;
      }
      assert !AllWhitespace(searchValue);
      ghost var i :| 0 <= i < |searchValue| && !IsWhitespace(searchValue[i]);
      isScanning := true;
      pending := pending + [PendingScan(searchType, searchValue)];
      started := true;
      assert !IsWhitespace(searchValue[i]);
    }

    /** The timer callback of the oldest pending scan, with the three
        `Math.random()` draws and `new Date()` as parameters: the verdict goes
        to the front of the history and the scanning flag drops. */
    method CompleteScan(statusDraw: real, typeDraw: real, confidenceDraw: real, now: int)
      requires Valid() && pending != []
      requires 0.0 <= statusDraw < 1.0 && 0.0 <= typeDraw < 1.0 && 0.0 <= confidenceDraw < 1.0
      modifies this`scanResults, this`isScanning, this`pending
      ensures Valid() && !isScanning
      ensures pending == old(pending)[1..]
      ensures scanResults == [ScanOutcome(old(pending)[0], statusDraw, typeDraw, confidenceDraw, now)] + old(scanResults)
    {
      var result := ScanOutcome(pending[0], statusDraw, typeDraw, confidenceDraw, now);
      scanResults := [result] + scanResults;
      pending := pending[1..];
      isScanning := false;
    }
  }

  /** A single scan as the page runs it: the flag is up between start and
      completion and down after, and the history gains exactly one verdict
      for the value typed, in front of the earlier ones. */
  method ScanOnce(page: HuntingPage, value: string, draws: (real, real, real), now: int)
    requires page.Valid() && !page.isScanning && page.pending == []
    requires exists i :: 0 <= i < |value| && !IsWhitespace(value[i])
    requires 0.0 <= draws.0 < 1.0 && 0.0 <= draws.1 < 1.0 && 0.0 <= draws.2 < 1.0
    modifies page
    ensures !page.isScanning && page.pending == []
    ensures |page.scanResults| == |old(page.scanResults)| + 1
    ensures page.scanResults[1..] == old(page.scanResults)
    ensures page.scanResults[0].value == value && page.scanResults[0].kind == old(page.searchType)
  {
    page.SetSearchValue(value);
    ghost var i :| 0 <= i < |value| && !IsWhitespace(value[i]);
    assert !IsWhitespace(page.searchValue[i]);
    var started := page.StartScan();
    assert started && page.isScanning;
    page.CompleteScan(draws.0, draws.1, draws.2, now);
  }
}
