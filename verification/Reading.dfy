/** internal/scan/scan.go on values: what one scan makes of one listed process
    (`readProcess`), and of a whole listing. */
module Reading {
  import opened Wrappers
  import opened Decimal
  import opened Procfs
  import opened StateMaps
  import F = Filters
  import N = Namers

  datatype ScanConfig = ScanConfig(
    batchSize: int,
    batchSleep: int,
    fdScanEvery: int,
    readSmaps: bool,
    smapsScanEvery: int,
    readIO: bool,
    readStatus: bool,
    cacheCmdline: bool,
    resolveUsers: bool)

  /** What one scan takes from the rest of the system; `users` resolves a user id. */
  datatype Env = Env(
    cfg: ScanConfig,
    filter: F.Filter,
    namer: N.Namer,
    users: nat -> string,
    sys: System)

  datatype Memory = Memory(rssBytes: nat, vsizeBytes: nat, sharedBytes: nat, dataBytes: nat)

  /** One process as read in one scan. */
  datatype Process = Process(
    pid: Pid,
    ppid: int,
    comm: string,
    name: string,
    user: string,
    uid: nat,
    state: char,
    startTicks: nat,
    startUnix: real,
    mem: Memory,
    swapBytes: nat,
    threads: int,
    fd: FdView,
    pss: PssView,
    deltas: Counters,
    haveDeltas: bool,
    haveIO: bool,
    haveStatus: bool)

  /** `computeDeltas` */
  function Differences(cur: Counters, prev: Counters): Counters {
    Counters(
      Delta(cur.utimeTicks, prev.utimeTicks),
      Delta(cur.stimeTicks, prev.stimeTicks),
      Delta(cur.minorFaults, prev.minorFaults),
      Delta(cur.majorFaults, prev.majorFaults),
      Delta(cur.volCtxSw, prev.volCtxSw),
      Delta(cur.involCtxSw, prev.involCtxSw),
      Delta(cur.readBytes, prev.readBytes),
      Delta(cur.writeBytes, prev.writeBytes))
  }

  /** The descriptor values of one refresh. A limit that is absent, unlimited or zero
      gives no ratio. */
  function RefreshedFds(count: nat, limits: Outcome<int>): FdView {
    var max := if limits.Ok? then limits.value else -1;
    FdView(count, max, if max > 0 then count as real / max as real else 0.0, true)
  }

  /** Which of the two scheduled walks a scan performs. */
  datatype Walks = Walks(fds: bool, smaps: bool)

  // ---- One optional read ----

  /** The labels counted in `ReadErrs`. */
  datatype Label = AtStat | AtCmdline | AtStatus | AtStatm | AtIO | AtFD | AtSmaps

  /** The effect of reading one file on the rest of the scan: the process is `gone`,
      or it goes on with the labels counted so far. */
  datatype Trial = Trial(gone: bool, errs: seq<Label>)

  const CALM := Trial(false, [])

  function Attempt(tag: Label, wanted: bool, f: Fault, quietDenial: bool): (t: Trial)
    ensures !tag.AtStat? ==> AtStat !in t.errs
  {
    if !wanted || f.Fine? || (f.WasDenied? && quietDenial) then CALM
    else if f.ItVanished? then Trial(true, [])
    else Trial(false, [tag])
  }

  function Then(a: Trial, b: Trial): (t: Trial)
    ensures AtStat !in a.errs && AtStat !in b.errs ==> AtStat !in t.errs
  {
    if a.gone then a else Trial(b.gone, a.errs + b.errs)
  }

  /** One process whose `stat` was read, with the entry remembered for it if any. */
  datatype Visit = Visit(env: Env, walks: Walks, pid: Pid, stat: Stat, prev: Option<Entry>, files: Files) {

    // The command line and the owner.

    predicate ArgvWanted() {
      env.filter.needsCmdline || prev.None? || !env.cfg.cacheCmdline || prev.value.name == ""
    }

    function Argv(): seq<string> {
      if ArgvWanted() && files.cmdline.Ok? then files.cmdline.value else []
    }

    function CachedUser(): string {
      if prev.Some? && env.cfg.cacheCmdline then prev.value.user else ""
    }

    predicate StatusWanted() { env.cfg.readStatus || CachedUser() == "" }

    function StatusRead(): Option<Status> {
      if StatusWanted() && files.status.Ok? then Some(files.status.value) else None
    }

    function Uid(): nat {
      if StatusRead().Some? then StatusRead().value.uid
      else if CachedUser() != "" then prev.value.uid
      else 0
    }

    /** The user the filter sees; empty when it could not be told. */
    function FilterUser(): string {
      if CachedUser() != "" then CachedUser()
      else if StatusRead().None? then ""
      else if env.cfg.resolveUsers then env.users(Uid())
      else UidString(Uid())
    }

    function Early(): (t: Trial)
      ensures AtStat !in t.errs
    {
      Then(Attempt(AtCmdline, ArgvWanted(), files.cmdline.Fault(), false),
           Attempt(AtStatus, StatusWanted(), files.status.Fault(), false))
    }

    /** The files read before the filter decides: `stat`, and the two others as wanted. */
    function ReadsBeforeFilter(): nat {
      1 + (if ArgvWanted() then 1 else 0) + (if StatusWanted() then 1 else 0)
    }

    function FilterInput(): F.Input {
      F.Input(stat.comm, Argv(), FilterUser(), stat.ppid,
              ArgvWanted() && F.IsKernelThread(Argv(), stat.ppid))
    }

    ghost predicate Passes() { F.Keeps(env.filter, FilterInput()) }

    // The group key.

    function User(): (user: string)
      ensures user != ""
    {
      if FilterUser() == "" then UidString(Uid()) else FilterUser()
    }

    function Name(): string {
      if prev.Some? && env.cfg.cacheCmdline && prev.value.name != "" then prev.value.name
      else N.GroupName(env.namer, N.NameInput(stat.comm, files.exe, Argv()))
    }

    // The remaining reads.

    function Late(): (t: Trial)
      ensures AtStat !in t.errs
    {
      Then(Then(Attempt(AtStatm, true, files.statm.Fault(), false),
                Attempt(AtIO, env.cfg.readIO, files.io.Fault(), true)),
           Then(Attempt(AtFD, walks.fds, files.fds.Fault(), true),
                Attempt(AtSmaps, env.cfg.readSmaps && walks.smaps, files.smaps.Fault(), true)))
    }

    function Io(): Option<IO> {
      if env.cfg.readIO && files.io.Ok? then Some(files.io.value) else None
    }

    function Fd(): FdView {
      if walks.fds then
        if files.fds.Ok? then RefreshedFds(files.fds.value, files.limits) else NO_FDS
      else if prev.Some? && prev.value.fd.have then prev.value.fd
      else NO_FDS
    }

    function Pss(): PssView {
      if !env.cfg.readSmaps then NO_PSS
      else if walks.smaps then
        if files.smaps.Ok? then PssView(files.smaps.value.pssBytes, files.smaps.value.swapPssBytes, true) else NO_PSS
      else if prev.Some? && prev.value.pss.have then prev.value.pss
      else NO_PSS
    }

    // What is remembered and what is reported.

    /** The counters stored as the next baseline; an unread file stores zero. */
    function Stored(): Counters {
      Counters(
        stat.utimeTicks,
        stat.stimeTicks,
        stat.minorFaults,
        stat.majorFaults,
        if StatusRead().Some? then StatusRead().value.volCtxSw else 0,
        if StatusRead().Some? then StatusRead().value.involCtxSw else 0,
        if Io().Some? then Io().value.readBytes else 0,
        if Io().Some? then Io().value.writeBytes else 0)
    }

    function NewEntry(): Entry {
      Entry(stat.startTicks, Stored(), Name(), User(), Uid(), Fd(), Pss())
    }

    /** Memory figures: `statm` supersedes `stat` when it could be read. */
    function Mem(): Memory {
      match files.statm
      case Ok(m) => Memory(env.sys.PagesToBytes(m.residentPages), env.sys.PagesToBytes(m.sizePages),
                           env.sys.PagesToBytes(m.sharedPages), env.sys.PagesToBytes(m.dataPages))
      case _ => Memory(env.sys.PagesToBytes(stat.rssPages), stat.vsizeBytes, 0, 0)
    }

    function Report(): Process {
      Process(
        pid,
        stat.ppid,
        stat.comm,
        Name(),
        User(),
        Uid(),
        stat.state,
        stat.startTicks,
        env.sys.StartTimeUnix(stat.startTicks),
        Mem(),
        if StatusRead().Some? then StatusRead().value.swapBytes else 0,
        stat.threads,
        Fd(),
        Pss(),
        if prev.Some? then Differences(Stored(), prev.value.counters) else ZERO_COUNTERS,
        prev.Some?,
        Io().Some?,
        StatusRead().Some?)
    }
  }

  // ---- One listed process ----

  /** How a listed process ends up in one scan; a kept one is remembered as `entry`
      and reported as `report`. */
  datatype Verdict = Kept(visit: Visit, entry: Entry, report: Process) | Ignored | Gone | Refused | Unreadable

  datatype Observation = Observation(verdict: Verdict, errs: seq<Label>)

  /** The entry the scan finds for a listed process. */
  function Recalled(slots: Slots, item: Listed): Option<Entry> {
    match item.files.stat
    case Ok(st) => Matching(slots, item.pid, st.startTicks)
    case _ => None
  }

  function VisitOf(e: Env, walks: Walks, prev: Option<Entry>, item: Listed): Visit
    requires item.files.stat.Ok?
  {
    Visit(e, walks, item.pid, item.files.stat.value, prev, item.files)
  }

  /** The order of the exits: early reads, filter, late reads. */
  function Judge(v: Visit, keep: bool): Observation {
    var early, all := v.Early(), Then(v.Early(), v.Late());
    if early.gone then Observation(Gone, early.errs)
    else if !keep then Observation(Ignored, early.errs)
    else if all.gone then Observation(Gone, all.errs)
    else Observation(Kept(v, v.NewEntry(), v.Report()), all.errs)
  }

  ghost function Observe(e: Env, walks: Walks, prev: Option<Entry>, item: Listed): Observation {
    match item.files.stat
    case Vanished => Observation(Gone, [])
    case Denied => Observation(Refused, [])
    case Failed => Observation(Unreadable, [AtStat])
    case Ok(_) =>
      var v := VisitOf(e, walks, prev, item);
      Judge(v, v.Passes())
  }

  /** A kept process is stored, an ignored one stamped, and the others leave no mark. */
  function Settle(slots: Slots, gen: nat, pid: Pid, verdict: Verdict): Slots {
    match verdict
    case Kept(_, entry, _) => slots[pid := Slot(entry, gen)]
    case Ignored => Stamped(slots, pid, gen)
    case _ => slots
  }

  /** A stale entry is dropped as soon as `stat` is read, whatever happens next. */
  function Cleared(slots: Slots, item: Listed): Slots {
    match item.files.stat
    case Ok(st) => AfterLookup(slots, item.pid, st.startTicks)
    case _ => slots
  }

  /** The state map after one listed process. */
  function Remember(slots: Slots, gen: nat, item: Listed, verdict: Verdict): Slots {
    Settle(Cleared(slots, item), gen, item.pid, verdict)
  }

  // ---- A whole listing ----

  /** What a scan makes of one listed process, given the entry it finds. */
  type Observer = (Option<Entry>, Listed) -> Observation

  ghost function ObserverOf(e: Env, walks: Walks): Observer {
    (prev, item) => Observe(e, walks, prev, item)
  }

  /** The running result of a scan: processes reported, labels counted, and counts. */
  datatype Tally = Tally(procs: seq<Process>, errs: multiset<Label>, counts: Counts)

  const NOTHING := Tally([], multiset{}, Counts(0, 0, 0, 0))

  datatype Counts = Counts(scanned: nat, ignored: nat, vanished: nat, denied: nat)

  function Count(c: Counts, v: Verdict): Counts {
    match v
    case Kept(_, _, _) => c.(scanned := c.scanned + 1)
    case Ignored => c.(ignored := c.ignored + 1)
    case Gone => c.(vanished := c.vanished + 1)
    case Refused => c.(denied := c.denied + 1)
    case Unreadable => c
  }

  function Reported(o: Observation): seq<Process> {
    if o.verdict.Kept? then [o.verdict.report] else []
  }

  function Tallied(t: Tally, o: Observation): Tally {
    Tally(t.procs + Reported(o), t.errs + multiset(o.errs), Count(t.counts, o.verdict))
  }

  /** A scan under way: the state map, what was observed so far, and the result so far. */
  datatype Walked = Walked(slots: Slots, seen: seq<Observation>, tally: Tally)

  function Setout(slots: Slots): Walked { Walked(slots, [], NOTHING) }

  function Next(obs: Observer, gen: nat, w: Walked, item: Listed): Walked {
    var o := obs(Recalled(w.slots, item), item);
    Walked(Remember(w.slots, gen, item, o.verdict), w.seen + [o], Tallied(w.tally, o))
  }

  type Stepper = (Walked, Listed) -> Walked

  function StepWith(obs: Observer, gen: nat): Stepper {
    (w, item) => Next(obs, gen, w, item)
  }

  ghost function StepOf(e: Env, walks: Walks, gen: nat): Stepper {
    StepWith(ObserverOf(e, walks), gen)
  }

  /** Every listed process once, in listing order. */
  function Fold(step: Stepper, w: Walked, items: seq<Listed>): Walked {
    if items == [] then w else step(Fold(step, w, items[..|items| - 1]), items[|items| - 1])
  }

  ghost function Walk(e: Env, walks: Walks, gen: nat, slots: Slots, items: seq<Listed>): Walked {
    Fold(StepOf(e, walks, gen), Setout(slots), items)
  }

  lemma FoldStep(step: Stepper, w: Walked, items: seq<Listed>, k: nat)
    requires k < |items|
    ensures Fold(step, w, items[..k + 1]) == step(Fold(step, w, items[..k]), items[k])
  {
    var now := items[..k + 1];
    assert now[..|now| - 1] == items[..k] && now[|now| - 1] == items[k];
  }

  // ---- Accounting for every listed process ----

  /** Only a failed `stat` is counted under its label, and only once. */
  ghost predicate StatErrorsAgree(o: Observation) {
    if o.verdict.Unreadable? then o.errs == [AtStat] else AtStat !in o.errs
  }

  lemma JudgeStatErrors(v: Visit, keep: bool)
    ensures StatErrorsAgree(Judge(v, keep))
  {
  }

  lemma StatErrorsOf(e: Env, walks: Walks, prev: Option<Entry>, item: Listed)
    ensures StatErrorsAgree(Observe(e, walks, prev, item))
  {
    if item.files.stat.Ok? {
      var v := VisitOf(e, walks, prev, item);
      JudgeStatErrors(v, v.Passes());
    }
  }

  ghost predicate Balanced(t: Tally, n: nat) {
    var c := t.counts;
    && n == c.scanned + c.ignored + c.vanished + c.denied + t.errs[AtStat]
    && c.scanned == |t.procs|
  }

  lemma BalanceKept(t: Tally, n: nat, o: Observation)
    requires Balanced(t, n) && StatErrorsAgree(o)
    ensures Balanced(Tallied(t, o), n + 1)
  {
  }

  /** Nothing listed is lost: every process is scanned, ignored, vanished, denied, or
      counted as a failed `stat`. */
  lemma {:induction false} EveryProcessAccounted(e: Env, walks: Walks, gen: nat, slots: Slots, items: seq<Listed>)
    ensures var w := Walk(e, walks, gen, slots, items);
            |w.seen| == |items| && Balanced(w.tally, |items|)
  {
    if items != [] {
      var init, last := items[..|items| - 1], items[|items| - 1];
      EveryProcessAccounted(e, walks, gen, slots, init);
      var w := Walk(e, walks, gen, slots, init);
      StatErrorsOf(e, walks, Recalled(w.slots, last), last);
      BalanceKept(w.tally, |init|, ObserverOf(e, walks)(Recalled(w.slots, last), last));
    }
  }
}
