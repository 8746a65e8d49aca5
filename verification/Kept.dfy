/** What is guaranteed about a process the scanner keeps: how its remembered entry, its
    report, the entry remembered before, and the files just read hang together. */
module KeptProcesses {
  import opened Wrappers
  import opened Procfs
  import opened StateMaps
  import opened Reading
  import opened Accounts
  import opened Schedule
  import N = Namers

  /** The eight counters; the first four come from `stat`, two from `status`, two from `io`. */
  datatype Field = UTime | STime | MinorFaults | MajorFaults | VolCtxSw | InvolCtxSw | ReadBytes | WriteBytes

  predicate FromStat(f: Field) { f.UTime? || f.STime? || f.MinorFaults? || f.MajorFaults? }

  function Raw(c: Counters, f: Field): nat {
    match f
    case UTime => c.utimeTicks
    case STime => c.stimeTicks
    case MinorFaults => c.minorFaults
    case MajorFaults => c.majorFaults
    case VolCtxSw => c.volCtxSw
    case InvolCtxSw => c.involCtxSw
    case ReadBytes => c.readBytes
    case WriteBytes => c.writeBytes
  }

  /** The kernel's own value of a counter, if its file could be read. */
  function FileValue(files: Files, f: Field): Option<nat> {
    match f
    case UTime => if files.stat.Ok? then Some(files.stat.value.utimeTicks) else None
    case STime => if files.stat.Ok? then Some(files.stat.value.stimeTicks) else None
    case MinorFaults => if files.stat.Ok? then Some(files.stat.value.minorFaults) else None
    case MajorFaults => if files.stat.Ok? then Some(files.stat.value.majorFaults) else None
    case VolCtxSw => if files.status.Ok? then Some(files.status.value.volCtxSw) else None
    case InvolCtxSw => if files.status.Ok? then Some(files.status.value.involCtxSw) else None
    case ReadBytes => if files.io.Ok? then Some(files.io.value.readBytes) else None
    case WriteBytes => if files.io.Ok? then Some(files.io.value.writeBytes) else None
  }

  /** Whether a report carries a value for the counter. */
  predicate Carries(p: Process, f: Field) {
    match f
    case VolCtxSw => p.haveStatus
    case InvolCtxSw => p.haveStatus
    case ReadBytes => p.haveIO
    case WriteBytes => p.haveIO
    case _ => true
  }

  /** What one report adds to its group's accumulator. */
  function Contribution(p: Process, f: Field): nat {
    if p.haveDeltas && Carries(p, f) then Raw(p.deltas, f) else 0
  }

  /** One stored reading, with the scan it was made in. */
  datatype Put = Put(scanNo: nat, cfg: ScanConfig, walks: Walks, item: Listed, entry: Entry, report: Process)

  function ReadingOf(put: Put, f: Field): Option<nat> {
    if Carries(put.report, f) then Some(Raw(put.entry.counters, f)) else None
  }

  /** A stored counter is the kernel's value, or zero when the file was not read; and the
      report's delta is the difference to the entry remembered before. */
  ghost predicate CounterLaw(prev: Option<Entry>, put: Put, f: Field) {
    && (Carries(put.report, f) ==> FileValue(put.item.files, f) == Some(Raw(put.entry.counters, f)))
    && (!Carries(put.report, f) ==> Raw(put.entry.counters, f) == 0)
    && Contribution(put.report, f) ==
         if prev.Some? then Gain(Some(Raw(prev.value.counters, f)), ReadingOf(put, f)) else 0
  }

  /** Identity and group: the group key never changes while it is cached. */
  ghost predicate IdentityLaw(prev: Option<Entry>, put: Put) {
    && put.item.files.stat.Ok?
    && put.report.pid == put.item.pid
    && put.entry.startTicks == put.report.startTicks == put.item.files.stat.value.startTicks
    && put.report.name == put.entry.name != "" && put.report.user == put.entry.user != ""
    && put.report.haveDeltas == prev.Some?
    && (put.cfg.cacheCmdline && prev.Some? ==>
          && (prev.value.name != "" ==> put.entry.name == prev.value.name)
          && (prev.value.user != "" ==> put.entry.user == prev.value.user))
  }

  /** Off schedule the remembered gauges are kept; on schedule they are read afresh, and
      a failed refresh clears them. */
  ghost predicate GaugeLaw(prev: Option<Entry>, put: Put) {
    && put.report.fd == put.entry.fd && put.report.pss == put.entry.pss
    && put.entry.fd ==
         (if put.walks.fds then FdsRead(put.item.files)
          else if prev.Some? && prev.value.fd.have then prev.value.fd else NO_FDS)
    && put.entry.pss ==
         (if !put.cfg.readSmaps then NO_PSS
          else if put.walks.smaps then PssRead(put.item.files)
          else if prev.Some? && prev.value.pss.have then prev.value.pss else NO_PSS)
  }

  function FdsRead(files: Files): FdView {
    if files.fds.Ok? then RefreshedFds(files.fds.value, files.limits) else NO_FDS
  }

  function PssRead(files: Files): PssView {
    if files.smaps.Ok? then PssView(files.smaps.value.pssBytes, files.smaps.value.swapPssBytes, true) else NO_PSS
  }

  ghost predicate KeptLaw(prev: Option<Entry>, put: Put) {
    && put.scanNo >= 1 && put.walks == WalksOf(put.cfg, put.scanNo)
    && IdentityLaw(prev, put)
    && (forall f :: CounterLaw(prev, put, f))
    && GaugeLaw(prev, put)
  }

  function PutOf(scanNo: nat, v: Visit, item: Listed): Put {
    Put(scanNo, v.env.cfg, v.walks, item, v.NewEntry(), v.Report())
  }

  lemma VisitCounters(scanNo: nat, v: Visit, item: Listed, f: Field)
    requires v.files == item.files && item.files.stat == Ok(v.stat)
    ensures CounterLaw(v.prev, PutOf(scanNo, v, item), f)
  {
    var s, p := v.Stored(), v.Report();
    if v.prev.Some? {
      assert p.deltas == Differences(s, v.prev.value.counters);
    }
  }

  lemma VisitIdentity(scanNo: nat, v: Visit, item: Listed)
    requires v.files == item.files && item.files.stat == Ok(v.stat) && v.pid == item.pid
    ensures IdentityLaw(v.prev, PutOf(scanNo, v, item))
  {
    var inp := N.NameInput(v.stat.comm, v.files.exe, v.Argv());
    N.SanitizedIsLabel(N.RawName(v.env.namer.rules, v.env.namer.fallback, inp));
    assert N.GroupName(v.env.namer, inp) != "";
  }

  /** Every kept process obeys the law, whatever the environment answers. */
  lemma ObservedKeepsLaw(scanNo: nat, e: Env, walks: Walks, prev: Option<Entry>, item: Listed)
    requires scanNo >= 1 && walks == WalksOf(e.cfg, scanNo)
    requires Observe(e, walks, prev, item).verdict.Kept?
    ensures var v := Observe(e, walks, prev, item).verdict;
            KeptLaw(prev, Put(scanNo, e.cfg, walks, item, v.entry, v.report))
  {
    var v := VisitOf(e, walks, prev, item);
    forall f ensures CounterLaw(prev, PutOf(scanNo, v, item), f) {
      VisitCounters(scanNo, v, item, f);
    }
    VisitIdentity(scanNo, v, item);
    assert GaugeLaw(prev, PutOf(scanNo, v, item));
  }
}
