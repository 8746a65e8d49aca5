/** How old a reported descriptor or proportional-memory value can be. */
module Freshness {
  import opened Wrappers
  import opened StateMaps
  import opened Schedule
  import opened KeptProcesses
  import opened Ledgers
  import opened Runs

  /** The latest descriptor refresh among the first `n` readings of a tenure. */
  function LatestFds(log: Tenure, n: nat): (r: Option<nat>)
    requires n <= |log|
    ensures r.Some? ==> r.value < n && log[r.value].walks.fds
    ensures forall j :: 0 <= j < n && log[j].walks.fds ==> r.Some? && j <= r.value
  {
    if n == 0 then None else if log[n - 1].walks.fds then Some(n - 1) else LatestFds(log, n - 1)
  }

  function LatestSmaps(log: Tenure, n: nat): (r: Option<nat>)
    requires n <= |log|
    ensures r.Some? ==> r.value < n && log[r.value].walks.smaps
    ensures forall j :: 0 <= j < n && log[j].walks.smaps ==> r.Some? && j <= r.value
  {
    if n == 0 then None else if log[n - 1].walks.smaps then Some(n - 1) else LatestSmaps(log, n - 1)
  }

  lemma GaugesAt(log: Tenure, k: nat)
    requires Chain(log) && k < |log|
    ensures GaugeLaw(if k == 0 then None else Some(log[k - 1].entry), log[k])
    ensures log[k].scanNo >= 1 && log[k].walks == WalksOf(log[k].cfg, log[k].scanNo)
  {
    if k > 0 {
      assert KeptLaw(Some(log[k - 1].entry), log[k]);
    }
  }

  /** The reported descriptor values are those of the latest refresh in the process's own
      tenure, never another process's; a failed refresh clears them, and before the first
      refresh there are none. */
  lemma {:induction false} FdsComeFromLatestRefresh(log: Tenure, k: nat)
    requires Chain(log) && k < |log|
    ensures log[k].report.fd == match LatestFds(log, k + 1)
                                case None => NO_FDS
                                case Some(j) => FdsRead(log[j].item.files)
  {
    GaugesAt(log, k);
    if k > 0 && !log[k].walks.fds {
      FdsComeFromLatestRefresh(log, k - 1);
      GaugesAt(log, k - 1);
    }
  }

  ghost predicate SmapsOnThroughout(log: Tenure) {
    forall i :: 0 <= i < |log| ==> log[i].cfg.readSmaps
  }

  /** The same for proportional memory, while its collection stays switched on. */
  lemma {:induction false} PssComesFromLatestRefresh(log: Tenure, k: nat)
    requires Chain(log) && k < |log| && SmapsOnThroughout(log)
    ensures log[k].report.pss == match LatestSmaps(log, k + 1)
                                 case None => NO_PSS
                                 case Some(j) => PssRead(log[j].item.files)
  {
    GaugesAt(log, k);
    if k > 0 && !log[k].walks.smaps {
      PssComesFromLatestRefresh(log, k - 1);
      GaugesAt(log, k - 1);
    }
  }

  /** The process was kept on every scan of its tenure. */
  ghost predicate KeptEveryScan(log: Tenure) {
    forall i :: 0 <= i < |log| ==> log[i].scanNo == log[0].scanNo + i
  }

  ghost predicate FdPeriod(log: Tenure, n: int) {
    forall i :: 0 <= i < |log| ==> log[i].cfg.fdScanEvery == n
  }

  ghost predicate SmapsPeriod(log: Tenure, n: int) {
    forall i :: 0 <= i < |log| ==> log[i].cfg.smapsScanEvery == n
  }

  function Period(n: int): nat { if n <= 1 then 1 else n }

  /** Bounded staleness: a process kept on every scan reports descriptor values read for
      that same process at most n - 1 scans ago. */
  lemma FdStaleness(log: Tenure, k: nat, n: int) returns (j: nat)
    requires Chain(log) && k < |log|
    requires KeptEveryScan(log) && FdPeriod(log, n)
    requires log[k].report.fd.have
    ensures j <= k && log[k].scanNo - log[j].scanNo < Period(n)
    ensures log[j].walks.fds && log[j].item.files.fds.Ok?
    ensures log[k].report.fd == FdsRead(log[j].item.files)
  {
    FdsComeFromLatestRefresh(log, k);
    j := LatestFds(log, k + 1).value;
    var s := log[k].scanNo;
    GaugesAt(log, k);
    var r := FdRefreshWithin(log[k].cfg, s);
    if r >= log[0].scanNo {
      var i := r - log[0].scanNo;
      GaugesAt(log, i);
      assert log[i].scanNo == r && log[i].walks.fds;
    }
  }

  lemma PssStaleness(log: Tenure, k: nat, n: int) returns (j: nat)
    requires Chain(log) && k < |log|
    requires KeptEveryScan(log) && SmapsPeriod(log, n) && SmapsOnThroughout(log)
    requires log[k].report.pss.have
    ensures j <= k && log[k].scanNo - log[j].scanNo < Period(n)
    ensures log[j].walks.smaps && log[j].item.files.smaps.Ok?
    ensures log[k].report.pss == PssRead(log[j].item.files)
  {
    PssComesFromLatestRefresh(log, k);
    j := LatestSmaps(log, k + 1).value;
    var s := log[k].scanNo;
    GaugesAt(log, k);
    var r := SmapsRefreshWithin(log[k].cfg, s);
    if r >= log[0].scanNo {
      var i := r - log[0].scanNo;
      GaugesAt(log, i);
      assert log[i].scanNo == r && log[i].walks.smaps;
    }
  }

  /** The tenures of every run are chains, and every report is in one of them
      (`Reports.EveryReportLedgered`), so all of this holds of every report of every run. */
  lemma TenuresOfRuns(evs: seq<Event>)
    ensures Chains(Run(evs).track.ledger)
  {
    var all: Selection := (t: Tag) => true;
    Conservation(evs, all, UTime);
  }
}
