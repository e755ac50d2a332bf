/**
 * The camera scanner's bookkeeping: the gate that drops a code just scanned
 * again within the cool-down, and the result list that keeps the newest
 * scans first and at most twenty of them.
 */
module Scanner {
  import opened Wrappers

  /** Milliseconds during which the same code is not taken twice. */
  const ScanCooldown := 3000
  /** Entries a result list keeps. */
  const MaxResults := 20

  /** One entry of a result list; `format` and `kind` are what the decoder's format maps to. */
  datatype ScanEntry = ScanEntry(text: string, format: string, kind: string, timestamp: string, source: string)

  /** The rejecting condition of `processCameraScan`. */
  predicate IsRecentDuplicate(last: Option<string>, lastTime: int, text: string, now: int) {
    last == Some(text) && now - lastTime < ScanCooldown
  }

  /** A different text, or the same one once the cool-down is over, is never a duplicate. */
  lemma DuplicateIff(last: Option<string>, lastTime: int, text: string, now: int)
    ensures !IsRecentDuplicate(last, lastTime, text, now) <==>
            (last != Some(text) || now >= lastTime + ScanCooldown)
  {
  }

  /** The list after `addScanResult`: the entry in front, then the last entry dropped when the
      list has grown past `MaxResults`. */
  function WithNewest(h: seq<ScanEntry>, e: ScanEntry): (r: seq<ScanEntry>)
    ensures |r| >= 1 && r[0] == e
    ensures |r| == if |h| + 1 > MaxResults then |h| else |h| + 1
    ensures forall k :: 1 <= k < |r| ==> r[k] == h[k - 1]
  {
    var l := [e] + h;
    if |l| > MaxResults then l[..|l| - 1] else l
  }

  /** A list within the cap stays within it, and the older entries keep their order. */
  lemma WithNewestKeepsCap(h: seq<ScanEntry>, e: ScanEntry)
    requires |h| <= MaxResults
    ensures |WithNewest(h, e)| <= MaxResults
    ensures WithNewest(h, e)[1..] == h[..|WithNewest(h, e)| - 1]
  {
  }

  function Reverse(s: seq<ScanEntry>): (r: seq<ScanEntry>)
    ensures |r| == |s|
  {
    if |s| == 0 then [] else Reverse(s[1..]) + [s[0]]
  }

  lemma {:induction false} ReverseIndex(s: seq<ScanEntry>, k: nat)
    requires k < |s|
    ensures Reverse(s)[k] == s[|s| - 1 - k]
  {
    if k < |s| - 1 {
      ReverseIndex(s[1..], k);
    }
  }

  /** The list after adding `scans` one after the other to an empty list. */
  function History(scans: seq<ScanEntry>): seq<ScanEntry> {
    if |scans| == 0 then [] else WithNewest(History(scans[..|scans| - 1]), scans[|scans| - 1])
  }

  /** After any run of scans, the list holds the last `min(n, 20)` of them, newest first. */
  lemma {:induction false} HistoryIsNewestFirst(scans: seq<ScanEntry>)
    ensures var m := if |scans| < MaxResults then |scans| else MaxResults;
            History(scans) == Reverse(scans[|scans| - m..])
  {
    if |scans| > 0 {
      var init := scans[..|scans| - 1];
      HistoryIsNewestFirst(init);
      var m0 := if |init| < MaxResults then |init| else MaxResults;
      var e := scans[|scans| - 1];
      assert History(scans) == WithNewest(History(init), e);
      NewestOnReversedTail(init, e, m0);
      assert init + [e] == scans;
    }
  }

  /** Putting `e` in front of the newest-first view of the last `m0` scans gives the view of
      the last `min(m0 + 1, 20)` scans once `e` has been appended. */
  lemma NewestOnReversedTail(init: seq<ScanEntry>, e: ScanEntry, m0: nat)
    requires m0 <= |init| && m0 <= MaxResults
    requires m0 == |init| || m0 == MaxResults
    ensures var s := init + [e];
            var m := if |s| < MaxResults then |s| else MaxResults;
            WithNewest(Reverse(init[|init| - m0..]), e) == Reverse(s[|s| - m..])
  {
    var s := init + [e];
    var m := if |s| < MaxResults then |s| else MaxResults;
    var r := WithNewest(Reverse(init[|init| - m0..]), e);
    var want := Reverse(s[|s| - m..]);
    assert |r| == m;
    forall k | 0 <= k < m ensures r[k] == want[k] {
      ReverseIndex(s[|s| - m..], k);
      if k > 0 {
        ReverseIndex(init[|init| - m0..], k - 1);
      }
    }
  }

  /** One result list of the page, updated in place by `addScanResult`. */
  class ResultList {
    var entries: seq<ScanEntry>

    constructor ()
      ensures entries == []
    {
      entries := [];
    }

    /** Puts `e` in front and, when the list has grown past the cap, removes its last entry. */
    method Add(e: ScanEntry)
      modifies this
      ensures entries == WithNewest(old(entries), e)
    {
      entries := [e] + entries;
      if |entries| > MaxResults {
        entries := entries[..|entries| - 1];
      }
    }
  }

  /** The scanner state `lastScannedCode`/`lastScanTime` with the camera's result list. */
  class CameraScanner {
    var lastScannedCode: Option<string>
    var lastScanTime: int
    var results: ResultList

    constructor (results: ResultList)
      ensures lastScannedCode == None && lastScanTime == 0 && this.results == results
    {
      lastScannedCode := None;
      lastScanTime := 0;
      this.results := results;
    }

    /** `processCameraScan` at clock time `now`, with the format and kind the decoder's format
        maps to and the displayed time. */
    method ProcessCameraScan(text: string, now: int, format: string, kind: string, timestamp: string)
      returns (accepted: bool)
      modifies this, results
      ensures accepted == !IsRecentDuplicate(old(lastScannedCode), old(lastScanTime), text, now)
      ensures results == old(results)
      ensures accepted ==> lastScannedCode == Some(text) && lastScanTime == now &&
                           results.entries == WithNewest(old(results.entries), ScanEntry(text, format, kind, timestamp, "Camera"))
      ensures !accepted ==> lastScannedCode == old(lastScannedCode) && lastScanTime == old(lastScanTime) &&
                            results.entries == old(results.entries)
    {
      if IsRecentDuplicate(lastScannedCode, lastScanTime, text, now) {
        return false;
      }
      lastScannedCode := Some(text);
      lastScanTime := now;
      results.Add(ScanEntry(text, format, kind, timestamp, "Camera"));
      accepted := true;
    }
  }
}
