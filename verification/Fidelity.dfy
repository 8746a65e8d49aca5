/** Every report against the files it was made from, in every scan of every run. */
module Fidelity {
  import opened Wrappers
  import opened Procfs
  import opened StateMaps
  import opened Decimal
  import opened Reading
  import opened Schedule
  import opened Ledgers
  import opened Runs
  import opened Groups
  import opened GroupTotals
  import N = Namers

  // ---- One report ----

  /** What `stat` shows is reported as it is. */
  ghost predicate StatLaw(st: Stat, p: Process) {
    && p.ppid == st.ppid && p.comm == st.comm && p.state == st.state
    && p.threads == st.threads && p.startTicks == st.startTicks
  }

  /** Start times are seconds after the epoch, from ticks after boot. */
  ghost predicate StartLaw(sys: System, st: Stat, p: Process) {
    if sys.clockTicks > 0 then (p.startUnix - sys.bootTime) * sys.clockTicks as real == st.startTicks as real
    else p.startUnix == sys.bootTime
  }

  /** Memory is in bytes, from the pages of `statm`, or of `stat` if that is unreadable. */
  ghost predicate MemoryLaw(pageSize: nat, f: Files, st: Stat, m: Memory) {
    match f.statm
    case Ok(pages) =>
      && m.rssBytes == pages.residentPages * pageSize && m.vsizeBytes == pages.sizePages * pageSize
      && m.sharedBytes == pages.sharedPages * pageSize && m.dataBytes == pages.dataPages * pageSize
    case _ =>
      && m.rssBytes == st.rssPages * pageSize && m.vsizeBytes == st.vsizeBytes
      && m.sharedBytes == 0 && m.dataBytes == 0
  }

  /** What only `status` and `io` show. */
  ghost predicate OptionalLaw(cfg: ScanConfig, f: Files, p: Process) {
    && (p.haveStatus ==> f.status.Ok? && p.uid == f.status.value.uid && p.swapBytes == f.status.value.swapBytes)
    && (!p.haveStatus ==> p.swapBytes == 0)
    && (cfg.readStatus ==> (p.haveStatus <==> f.status.Ok?))
    && (p.haveIO <==> cfg.readIO && f.io.Ok?)
  }

  /** What the scheduled walks show, when they are made. */
  ghost predicate WalkLaw(cfg: ScanConfig, walks: Walks, f: Files, p: Process) {
    && (walks.fds && f.fds.Ok? ==>
          && p.fd.have && p.fd.openFDs == f.fds.value
          && p.fd.maxFDs == (if f.limits.Ok? then f.limits.value else -1))
    && (walks.fds && !f.fds.Ok? ==> !p.fd.have)
    && (cfg.readSmaps && walks.smaps && f.smaps.Ok? ==>
          && p.pss.have && p.pss.pssBytes == f.smaps.value.pssBytes
          && p.pss.swapPssBytes == f.smaps.value.swapPssBytes)
    && (cfg.readSmaps && walks.smaps && !f.smaps.Ok? ==> !p.pss.have)
    && (!cfg.readSmaps ==> !p.pss.have)
  }

  ghost predicate ReportLaw(e: Env, walks: Walks, item: Listed, p: Process) {
    && item.files.stat.Ok? && p.pid == item.pid
    && StatLaw(item.files.stat.value, p)
    && StartLaw(e.sys, item.files.stat.value, p)
    && MemoryLaw(e.sys.pageSize, item.files, item.files.stat.value, p.mem)
    && OptionalLaw(e.cfg, item.files, p)
    && WalkLaw(e.cfg, walks, item.files, p)
  }

  lemma SecondsTimesRate(sys: System, ticks: nat)
    requires sys.clockTicks > 0
    ensures sys.TicksToSeconds(ticks) * sys.clockTicks as real == ticks as real
  {
  }

  lemma VisitReports(v: Visit, item: Listed)
    requires v.files == item.files && item.files.stat == Ok(v.stat) && v.pid == item.pid
    ensures ReportLaw(v.env, v.walks, item, v.Report())
  {
    if v.env.sys.clockTicks > 0 {
      SecondsTimesRate(v.env.sys, v.stat.startTicks);
    }
  }

  /** Every kept process is reported as its files show it. */
  lemma ObservedIsReported(e: Env, walks: Walks, prev: Option<Entry>, item: Listed)
    requires Observe(e, walks, prev, item).verdict.Kept?
    ensures ReportLaw(e, walks, item, Observe(e, walks, prev, item).verdict.report)
  {
    VisitReports(VisitOf(e, walks, prev, item), item);
  }

  /** The group key of a process not remembered: its name from its comm, executable and
      arguments, and its owner by name, or by number if there is no name to be had. */
  lemma FreshKey(e: Env, walks: Walks, item: Listed)
    requires Observe(e, walks, None, item).verdict.Kept?
    ensures var p, f := Observe(e, walks, None, item).verdict.report, item.files;
            var argv := if f.cmdline.Ok? then f.cmdline.value else [];
            && f.stat.Ok? && p.name == N.GroupName(e.namer, N.NameInput(f.stat.value.comm, f.exe, argv))
            && (f.status.Ok? && e.cfg.resolveUsers && e.users(f.status.value.uid) != "" ==>
                  p.user == e.users(f.status.value.uid))
            && (f.status.Ok? && (!e.cfg.resolveUsers || e.users(f.status.value.uid) == "") ==>
                  p.user == UidString(f.status.value.uid))
            && (!f.status.Ok? ==> p.user == UidString(0) && p.uid == 0)
  {
  }

  // ---- One scan ----

  /** What the reports of a scan were made from: one listed process each. */
  ghost predicate MadeFrom(e: Env, walks: Walks, items: seq<Listed>, origins: seq<Listed>, procs: seq<Process>) {
    && |origins| == |procs|
    && (forall i :: 0 <= i < |procs| ==> origins[i] in items && ReportLaw(e, walks, origins[i], procs[i]))
  }

  lemma {:induction false} WalkReports(e: Env, walks: Walks, gen: nat, start: Slots, items: seq<Listed>)
    returns (origins: seq<Listed>)
    ensures MadeFrom(e, walks, items, origins, Walk(e, walks, gen, start, items).tally.procs)
  {
    if items == [] {
      return [];
    }
    var init, item := items[..|items| - 1], items[|items| - 1];
    var made := WalkReports(e, walks, gen, start, init);
    var w := Walk(e, walks, gen, start, init);
    var prev := Recalled(w.slots, item);
    if Observe(e, walks, prev, item).verdict.Kept? {
      ObservedIsReported(e, walks, prev, item);
      origins := made + [item];
    } else {
      origins := made;
    }
  }

  // ---- Every run ----

  /** The scan that was passed on as step `n` of the feed. */
  ghost predicate ScanOf(evs: seq<Event>, n: nat, s: nat) {
    && s < |evs| && evs[s].Completed? && n < |Run(evs).feed| && |Run(evs[..s]).feed| == n
  }

  lemma StepFeeds(m: Machine, ev: Event, n: nat)
    requires n < |Step(m, ev).feed| && Step(m, ev).feed[n].Apply?
    ensures n < |m.feed| ==> Step(m, ev).feed[n] == m.feed[n]
    ensures n >= |m.feed| ==> n == |m.feed| && ev.Completed? && Step(m, ev).feed[n].procs == Found(m, ev.env, ev.items)
  {
  }

  lemma {:induction false} FeedHasScan(evs: seq<Event>, n: nat) returns (s: nat)
    requires n < |Run(evs).feed| && Run(evs).feed[n].Apply?
    ensures ScanOf(evs, n, s)
    ensures Run(evs).feed[n].procs == Found(Run(evs[..s]), evs[s].env, evs[s].items)
  {
    var k := |evs| - 1;
    var init := evs[..k];
    StepFeeds(Run(init), evs[k], n);
    if n < |Run(init).feed| {
      s := FeedHasScan(init, n);
      assert init[..s] == evs[..s];
    } else {
      s := k;
    }
  }

  lemma FoundIsMade(m: Machine, e: Env, items: seq<Listed>, tag: ScanTag) returns (origins: seq<Listed>)
    requires tag == TagOfScan(m, e.cfg)
    ensures MadeFrom(e, tag.walks, items, origins, Found(m, e, items))
  {
    origins := WalkReports(e, tag.walks, tag.gen, m.track.slots, items);
    FoundUnder(m, e, items, tag);
  }

  /** The scheduled walks that scan `s` of the run makes. */
  ghost function WalksAt(evs: seq<Event>, s: nat): Walks
    requires s < |evs| && evs[s].Completed?
  {
    WalksOf(evs[s].env.cfg, Run(evs[..s]).scanNo + 1)
  }

  /** The reports of scan `s` of the run, and the files it read. */
  ghost predicate ScanMade(evs: seq<Event>, s: nat, origins: seq<Listed>, procs: seq<Process>) {
    && s < |evs| && evs[s].Completed?
    && MadeFrom(evs[s].env, WalksAt(evs, s), evs[s].items, origins, procs)
  }

  lemma WalksOfTag(evs: seq<Event>, s: nat, m: Machine, tag: ScanTag)
    requires s < |evs| && evs[s].Completed? && m == Run(evs[..s]) && tag == TagOfScan(m, evs[s].env.cfg)
    ensures tag.walks == WalksAt(evs, s)
  {
  }

  lemma ScanIsMade(evs: seq<Event>, s: nat, m: Machine, tag: ScanTag) returns (origins: seq<Listed>)
    requires s < |evs| && evs[s].Completed? && m == Run(evs[..s]) && tag == TagOfScan(m, evs[s].env.cfg)
    ensures ScanMade(evs, s, origins, Found(m, evs[s].env, evs[s].items))
  {
    WalksOfTag(evs, s, m, tag);
    origins := FoundIsMade(m, evs[s].env, evs[s].items, tag);
  }

  /** In every run each process passed on is reported as its files showed it in that very
      scan. */
  lemma EveryReportIsFaithful(evs: seq<Event>, n: nat) returns (s: nat, origins: seq<Listed>)
    requires n < |Run(evs).feed| && Run(evs).feed[n].Apply?
    ensures ScanOf(evs, n, s) && ScanMade(evs, s, origins, Run(evs).feed[n].procs)
  {
    s := FeedHasScan(evs, n);
    var m := Run(evs[..s]);
    origins := ScanIsMade(evs, s, m, TagOfScan(m, evs[s].env.cfg));
  }

  // ---- Groups ----

  /** What one listed process adds to a gauge of its group, from its files. */
  function FileShare(sys: System, item: Listed, m: Measure): int
    requires item.files.stat.Ok?
  {
    var st, statm := item.files.stat.value, item.files.statm;
    match m
    case Members => 1
    case Threads => st.threads
    case Rss => (if statm.Ok? then statm.value.residentPages else st.rssPages) * sys.pageSize
    case VSize => if statm.Ok? then statm.value.sizePages * sys.pageSize else st.vsizeBytes
    case Shared => if statm.Ok? then statm.value.sharedPages * sys.pageSize else 0
    case Data => if statm.Ok? then statm.value.dataPages * sys.pageSize else 0
    case _ => 0
  }

  predicate FromFiles(m: Measure) {
    m.Members? || m.Threads? || m.Rss? || m.VSize? || m.Shared? || m.Data?
  }

  /** The sum over the processes that are in the group. */
  function FileSum(sys: System, origins: seq<Listed>, procs: seq<Process>, k: Key, m: Measure): int
    requires |origins| == |procs| && forall i :: 0 <= i < |origins| ==> origins[i].files.stat.Ok?
  {
    if procs == [] then 0
    else
      var n := |procs| - 1;
      FileSum(sys, origins[..n], procs[..n], k, m)
      + if KeyOf(procs[n]) == k then FileShare(sys, origins[n], m) else 0
  }

  lemma ShareIsFileShare(e: Env, walks: Walks, item: Listed, p: Process, m: Measure)
    requires ReportLaw(e, walks, item, p) && FromFiles(m)
    ensures Share(p, m) == FileShare(e.sys, item, m)
  {
  }

  lemma {:induction false} SumIsFileSum(e: Env, walks: Walks, items: seq<Listed>, origins: seq<Listed>,
                                        procs: seq<Process>, k: Key, m: Measure)
    requires MadeFrom(e, walks, items, origins, procs) && FromFiles(m)
    ensures forall i :: 0 <= i < |origins| ==> origins[i].files.stat.Ok?
    ensures SumOf(procs, k, m) == FileSum(e.sys, origins, procs, k, m)
  {
    if procs != [] {
      var n := |procs| - 1;
      SumIsFileSum(e, walks, items, origins[..n], procs[..n], k, m);
      ShareIsFileShare(e, walks, origins[n], procs[n], m);
    }
  }

  /** In every scan of every run the sizes and threads of a group are the sums of what the
      files of its members showed in that scan. */
  lemma GroupsShowFiles(evs: seq<Event>, n: nat, k: Key, m: Measure) returns (s: nat, origins: seq<Listed>)
    requires n < |Run(evs).feed| && Run(evs).feed[n].Apply?
    requires k in Grouped(Run(evs).feed[n].procs) && FromFiles(m)
    ensures var procs := Run(evs).feed[n].procs;
            && ScanOf(evs, n, s) && ScanMade(evs, s, origins, procs)
            && (forall i :: 0 <= i < |origins| ==> origins[i].files.stat.Ok?)
            && Shown(Grouped(procs)[k], m) == FileSum(evs[s].env.sys, origins, procs, k, m)
  {
    s, origins := EveryReportIsFaithful(evs, n);
    ScanSums(evs, s, origins, Run(evs).feed[n].procs, k, m);
  }

  lemma ScanSums(evs: seq<Event>, s: nat, origins: seq<Listed>, procs: seq<Process>, k: Key, m: Measure)
    requires ScanMade(evs, s, origins, procs) && k in Grouped(procs) && FromFiles(m)
    ensures forall i :: 0 <= i < |origins| ==> origins[i].files.stat.Ok?
    ensures Shown(Grouped(procs)[k], m) == FileSum(evs[s].env.sys, origins, procs, k, m)
  {
    var e := evs[s].env;
    SumIsFileSum(e, WalksAt(evs, s), evs[s].items, origins, procs, k, m);
    GaugesMean(procs, k);
    TotalsAre(procs, k, Grouped(procs)[k], m);
  }

  lemma TotalsAre(procs: seq<Process>, k: Key, g: Gauges, m: Measure)
    requires Totals(procs, k, g)
    ensures Shown(g, m) == SumOf(procs, k, m)
  {
  }
}
