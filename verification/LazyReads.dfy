/** What the scanner reads only when it must: how many files an ignored process costs, that
    the decision does not suffer, and what is reported of `status` when it is read once. */
module LazyReads {
  import opened Wrappers
  import opened Procfs
  import opened StateMaps
  import opened Reading
  import opened KeptProcesses
  import opened Ledgers
  import opened Runs
  import opened Truth
  import F = Filters

  // ---- The decision ----

  /** The filter decides as if everything were known: whenever a rule needs the command
      line, the scanner has read it by then. */
  lemma LazyFilterSound(v: Visit)
    requires F.Compiled(v.env.filter) && v.files.cmdline.Ok?
    ensures v.Passes() <==>
              F.EagerlyKeeps(v.env.filter, v.stat.comm, v.files.cmdline.value, v.FilterUser(), v.stat.ppid)
  {
    assert v.env.filter.needsCmdline ==> v.ArgvWanted();
    F.LazyDecision(v.env.filter, v.ArgvWanted(), v.stat.comm, v.files.cmdline.value, v.FilterUser(), v.stat.ppid);
  }

  /** The command line was wanted, and could not be read though the process was there. */
  predicate CmdlineRefused(v: Visit) {
    v.ArgvWanted() && (v.files.cmdline.Denied? || v.files.cmdline.Failed?)
  }

  lemma RefusedInput(v: Visit)
    requires CmdlineRefused(v)
    ensures v.FilterInput() == F.LazyInput(true, v.stat.comm, [], v.FilterUser(), v.stat.ppid)
  {
  }

  /** A process whose command line is refused looks like a kernel thread: with
      `ignore_kernel_threads` it is always dropped, and otherwise it is decided by its comm
      and user alone, whatever its real arguments are. */
  lemma FailedCmdlineRead(v: Visit)
    requires CmdlineRefused(v)
    ensures var f := v.env.filter;
            v.Passes() <==>
              !f.ignoreKernel && F.CommIncluded(f, v.stat.comm) && !F.CommIgnored(f, v.stat.comm)
              && !F.UserIgnored(f, v.FilterUser())
  {
    RefusedInput(v);
    F.ArglessDecision(v.env.filter, v.stat.comm, v.FilterUser(), v.stat.ppid);
  }

  /** Its decision is the right one exactly when its real arguments do not matter. */
  lemma FailedReadIsRight(v: Visit, argv: seq<string>)
    requires CmdlineRefused(v)
    ensures (v.Passes() <==> F.EagerlyKeeps(v.env.filter, v.stat.comm, argv, v.FilterUser(), v.stat.ppid)) <==>
            F.ArgsDoNotMatter(v.env.filter, v.stat.comm, argv, v.FilterUser(), v.stat.ppid)
  {
    RefusedInput(v);
    F.ArglessIsRight(v.env.filter, v.stat.comm, argv, v.FilterUser(), v.stat.ppid);
  }

  /** An ordinary process whose command line is denied, under a filter that ignores kernel
      threads only, is ignored; with its arguments it would be kept. */
  lemma DeniedLooksLikeKernel(v: Visit, argv: seq<string>)
    requires v.env.filter == F.NO_KERNEL && v.files.cmdline.Denied? && !v.files.status.Vanished?
    requires argv != [] && v.stat.ppid != 2
    ensures Judge(v, v.Passes()).verdict == Ignored
    ensures F.EagerlyKeeps(v.env.filter, v.stat.comm, argv, v.FilterUser(), v.stat.ppid)
  {
    FailedCmdlineRead(v);
    FailedReadIsRight(v, argv);
  }

  // ---- The cost of an ignored process ----

  /** The settings under which a known process is decided from `stat` alone. */
  predicate Frugal(e: Env) {
    e.cfg.cacheCmdline && !e.filter.needsCmdline && !e.cfg.readStatus
  }

  ghost predicate NamedEntry(prev: Option<Entry>) {
    prev.Some? ==> prev.value.name != "" && prev.value.user != ""
  }

  lemma OneRead(v: Visit)
    requires NamedEntry(v.prev)
    ensures v.ReadsBeforeFilter() == 1 <==> v.prev.Some? && Frugal(v.env)
    ensures v.prev.None? ==> v.ReadsBeforeFilter() == 3
  {
  }

  /** The process has a running tenure: it was kept, and has not left the map since. */
  predicate RunningTenure(t: Track, item: Listed) {
    && item.files.stat.Ok? && item.pid in t.open && t.open[item.pid] < |t.ledger|
    && IsTenureOf(t.ledger[t.open[item.pid]], item.pid, item.files.stat.value.startTicks)
  }

  predicate IsTenureOf(log: Tenure, pid: Pid, startTicks: nat) {
    log != [] && log[0].report.pid == pid && log[0].report.startTicks == startTicks
  }

  /** What is remembered of a process is the end of its running tenure, with a group key. */
  lemma RecalledIsRunning(t: Track, item: Listed)
    requires Books(t) && Chains(t.ledger) && item.files.stat.Ok?
    ensures Recalled(t.slots, item).Some? <==> RunningTenure(t, item)
    ensures NamedEntry(Recalled(t.slots, item))
  {
    if item.pid in t.open {
      assert Current(t, item.pid);
      var log := t.ledger[t.open[item.pid]];
      assert Chain(log);
      LastStart(log);
      LastIsNamed(log);
    }
  }

  lemma LastIsNamed(log: Tenure)
    requires Chain(log)
    ensures NamedEntry(Some(log[|log| - 1].entry))
  {
    var n := |log|;
    if n > 1 {
      assert KeptLaw(Some(log[n - 2].entry), log[n - 1]);
    }
  }

  /** The ledger when the next scan comes to the process at place `k`. */
  ghost function TrackAt(m: Machine, e: Env, items: seq<Listed>, k: nat): Track
    requires k < |items|
  {
    Watched(m, e, items[..k])
  }

  /** The visit of that process. */
  ghost function VisitAt(m: Machine, e: Env, items: seq<Listed>, k: nat): Visit
    requires k < |items| && items[k].files.stat.Ok?
  {
    VisitOf(e, TagOfScan(m, e.cfg).walks, Recalled(TrackAt(m, e, items, k).slots, items[k]), items[k])
  }

  lemma {:induction false} SeenAt(obs: Observer, tag: ScanTag, t: Track, items: seq<Listed>, k: nat)
    requires k < |items|
    ensures var w := Fold(StepWith(obs, tag.gen), Setout(t.slots), items);
            && |w.seen| == |items|
            && w.seen[k] == obs(Recalled(TrackAll(obs, tag, t, items[..k]).slots, items[k]), items[k])
  {
    var n := |items| - 1;
    var init := items[..n];
    if k < n {
      SeenAt(obs, tag, t, init, k);
      assert init[..k] == items[..k];
    } else {
      TrackSlots(obs, tag, t, init);
      if n > 0 {
        SeenAt(obs, tag, t, init, 0);
      }
    }
  }

  lemma WalkSees(m: Machine, e: Env, items: seq<Listed>, k: nat, tag: ScanTag)
    requires k < |items| && tag == TagOfScan(m, e.cfg)
    ensures var w := Walk(e, tag.walks, tag.gen, m.track.slots, items);
            |w.seen| == |items|
            && w.seen[k] == Observe(e, tag.walks, Recalled(TrackAt(m, e, items, k).slots, items[k]), items[k])
  {
    SeenAt(ObserverOf(e, tag.walks), tag, m.track, items, k);
  }

  /** What the walk sees of the process is the verdict on that visit. */
  lemma VisitIsSeen(m: Machine, e: Env, items: seq<Listed>, k: nat)
    requires k < |items| && items[k].files.stat.Ok?
    ensures var tag, v := TagOfScan(m, e.cfg), VisitAt(m, e, items, k);
            var w := Walk(e, tag.walks, tag.gen, m.track.slots, items);
            |w.seen| == |items| && w.seen[k] == Judge(v, v.Passes())
  {
    WalkSees(m, e, items, k, TagOfScan(m, e.cfg));
  }

  lemma TrackAtInOrder(evs: seq<Event>, e: Env, items: seq<Listed>, k: nat)
    requires k < |items|
    ensures var t := TrackAt(Run(evs), e, items, k); Books(t) && Chains(t.ledger)
  {
    Conservation(evs, EVERYONE, UTime);
    WatchAgrees(Run(evs), e, items[..k], EVERYONE, UTime);
  }

  /** The promise of one read, exactly: in the next scan of any run a process costs one
      read up to the filter iff it was kept earlier in a tenure that still runs, and the
      settings are frugal. A process without a tenure costs three. */
  lemma IgnoredCostsOneRead(evs: seq<Event>, e: Env, items: seq<Listed>, k: nat)
    requires k < |items| && items[k].files.stat.Ok?
    ensures var m := Run(evs);
            var running := RunningTenure(TrackAt(m, e, items, k), items[k]);
            && (VisitAt(m, e, items, k).ReadsBeforeFilter() == 1 <==> running && Frugal(e))
            && (!running ==> VisitAt(m, e, items, k).ReadsBeforeFilter() == 3)
  {
    TrackAtInOrder(evs, e, items, k);
    RecalledIsRunning(TrackAt(Run(evs), e, items, k), items[k]);
    OneRead(VisitAt(Run(evs), e, items, k));
  }

  // ---- A process that is never kept ----

  predicate Identified(item: Listed, pid: Pid, startTicks: nat) {
    item.pid == pid && item.files.stat.Ok? && item.files.stat.value.startTicks == startTicks
  }

  /** No reading of the process was ever stored. */
  predicate NeverKept(ledger: seq<Tenure>, pid: Pid, startTicks: nat) {
    forall i :: 0 <= i < |ledger| ==> !IsTenureOf(ledger[i], pid, startTicks)
  }

  /** Whatever is remembered of it, the process is not kept. */
  ghost predicate Drops(obs: Observer, item: Listed) {
    forall prev :: !obs(prev, item).verdict.Kept?
  }

  lemma EnterNeverKept(ledger: seq<Tenure>, open: map<Pid, nat>, put: Put, pid: Pid, startTicks: nat)
    requires NeverKept(ledger, pid, startTicks)
    requires put.item.pid in open && open[put.item.pid] < |ledger| ==> ledger[open[put.item.pid]] != []
    requires !(put.report.pid == pid && put.report.startTicks == startTicks)
    ensures NeverKept(Enter(ledger, open, put).0, pid, startTicks)
  {
  }

  lemma ItemNeverKept(obs: Observer, tag: ScanTag, t: Track, item: Listed, pid: Pid, startTicks: nat)
    requires Lawful(obs, tag) && Books(t) && NeverKept(t.ledger, pid, startTicks)
    requires Identified(item, pid, startTicks) ==> Drops(obs, item)
    ensures NeverKept(TrackItem(t, tag, item, obs(Recalled(t.slots, item), item).verdict).ledger, pid, startTicks)
  {
    var v := obs(Recalled(t.slots, item), item).verdict;
    assert LawfulAt(obs, tag, Recalled(t.slots, item), item);
    if v.Kept? {
      var put := Put(tag.scanNo, tag.cfg, tag.walks, item, v.entry, v.report);
      var d := Dropped(t, item);
      DropKeepsBooks(t, item);
      if item.pid in d.open {
        assert Current(d, item.pid);
      }
      EnterNeverKept(t.ledger, d.open, put, pid, startTicks);
    }
  }

  lemma {:induction false} WalkNeverKept(obs: Observer, tag: ScanTag, t: Track, items: seq<Listed>, pid: Pid,
                                         startTicks: nat)
    requires Lawful(obs, tag) && Books(t) && Chains(t.ledger) && NeverKept(t.ledger, pid, startTicks)
    requires forall j :: 0 <= j < |items| && Identified(items[j], pid, startTicks) ==> Drops(obs, items[j])
    ensures NeverKept(TrackAll(obs, tag, t, items).ledger, pid, startTicks)
  {
    if items != [] {
      var init, item := items[..|items| - 1], items[|items| - 1];
      WalkNeverKept(obs, tag, t, init, pid, startTicks);
      WalkAgrees(obs, tag, t, init, EVERYONE, UTime);
      ItemNeverKept(obs, tag, TrackAll(obs, tag, t, init), item, pid, startTicks);
    }
  }

  /** Every listing of the process is dropped by the settings of its scan. */
  ghost predicate AlwaysDropped(e: Env, items: seq<Listed>, pid: Pid, startTicks: nat) {
    forall j, walks :: 0 <= j < |items| && Identified(items[j], pid, startTicks) ==>
      Drops(ObserverOf(e, walks), items[j])
  }

  ghost predicate RunDrops(evs: seq<Event>, pid: Pid, startTicks: nat) {
    forall i :: 0 <= i < |evs| && (evs[i].Completed? || evs[i].Cancelled?) ==>
      AlwaysDropped(evs[i].env, evs[i].items, pid, startTicks)
  }

  lemma WatchNeverKept(m: Machine, e: Env, items: seq<Listed>, pid: Pid, startTicks: nat)
    requires Books(m.track) && Chains(m.track.ledger) && NeverKept(m.track.ledger, pid, startTicks)
    requires AlwaysDropped(e, items, pid, startTicks)
    ensures NeverKept(Watched(m, e, items).ledger, pid, startTicks)
  {
    var tag := TagOfScan(m, e.cfg);
    var obs := ObserverOf(e, tag.walks);
    ObserverIsLawful(e, tag);
    WalkNeverKept(obs, tag, m.track, items, pid, startTicks);
    WatchedUnder(m, e, items, tag, obs);
  }

  lemma {:induction false} RunNeverKept(evs: seq<Event>, pid: Pid, startTicks: nat)
    requires RunDrops(evs, pid, startTicks)
    ensures NeverKept(Run(evs).track.ledger, pid, startTicks)
  {
    if evs != [] {
      var init, last := evs[..|evs| - 1], evs[|evs| - 1];
      RunNeverKept(init, pid, startTicks);
      Conservation(init, EVERYONE, UTime);
      if last.Completed? || last.Cancelled? {
        assert AlwaysDropped(last.env, last.items, pid, startTicks);
        WatchNeverKept(Run(init), last.env, last.items, pid, startTicks);
      }
    }
  }

  lemma NeverKeptIsNotRunning(t: Track, item: Listed, pid: Pid, startTicks: nat)
    requires NeverKept(t.ledger, pid, startTicks) && Identified(item, pid, startTicks)
    ensures !RunningTenure(t, item)
  {
  }

  lemma DroppedBefore(e: Env, items: seq<Listed>, k: nat, pid: Pid, startTicks: nat)
    requires AlwaysDropped(e, items, pid, startTicks) && k <= |items|
    ensures AlwaysDropped(e, items[..k], pid, startTicks)
  {
    forall j, walks | 0 <= j < k && Identified(items[..k][j], pid, startTicks)
      ensures Drops(ObserverOf(e, walks), items[..k][j])
    {
      assert items[..k][j] == items[j];
    }
  }

  lemma DroppedHasNoTenure(evs: seq<Event>, e: Env, items: seq<Listed>, k: nat, pid: Pid, startTicks: nat)
    requires RunDrops(evs, pid, startTicks) && AlwaysDropped(e, items, pid, startTicks)
    requires k < |items| && Identified(items[k], pid, startTicks)
    ensures !RunningTenure(TrackAt(Run(evs), e, items, k), items[k])
  {
    RunNeverKept(evs, pid, startTicks);
    Conservation(evs, EVERYONE, UTime);
    DroppedBefore(e, items, k, pid, startTicks);
    WatchNeverKept(Run(evs), e, items[..k], pid, startTicks);
    NeverKeptIsNotRunning(TrackAt(Run(evs), e, items, k), items[k], pid, startTicks);
  }

  /** A process that the filter has dropped since it was first listed is not remembered,
      for `Touch` stamps only what is stored: it costs `stat`, the command line and
      `status` on every scan, whatever the settings. */
  lemma DroppedCostsThreeReads(evs: seq<Event>, e: Env, items: seq<Listed>, k: nat, pid: Pid, startTicks: nat)
    requires RunDrops(evs, pid, startTicks) && AlwaysDropped(e, items, pid, startTicks)
    requires k < |items| && Identified(items[k], pid, startTicks)
    ensures VisitAt(Run(evs), e, items, k).ReadsBeforeFilter() == 3
  {
    DroppedHasNoTenure(evs, e, items, k, pid, startTicks);
    IgnoredCostsOneRead(evs, e, items, k);
  }

  /** The process shows a comm that the settings ignore. */
  ghost predicate CommIgnoredIn(e: Env, items: seq<Listed>, pid: Pid, startTicks: nat) {
    forall j :: 0 <= j < |items| && Identified(items[j], pid, startTicks) ==>
      items[j].files.stat.value.comm in e.filter.ignoreComm
  }

  lemma IgnoredCommIsDropped(e: Env, items: seq<Listed>, pid: Pid, startTicks: nat)
    requires CommIgnoredIn(e, items, pid, startTicks)
    ensures AlwaysDropped(e, items, pid, startTicks)
  {
    forall j, walks | 0 <= j < |items| && Identified(items[j], pid, startTicks)
      ensures Drops(ObserverOf(e, walks), items[j])
    {
      forall prev ensures !Observe(e, walks, prev, items[j]).verdict.Kept? {
        var v := VisitOf(e, walks, prev, items[j]);
        assert F.CommIgnored(e.filter, v.stat.comm) && !v.Passes();
      }
    }
  }

  /** Ignoring a comm is such a case: no rule needs the command line for it, the settings
      may be frugal, and still the process costs three reads on every scan. */
  lemma IgnoredCommCostsThreeReads(evs: seq<Event>, e: Env, items: seq<Listed>, k: nat, pid: Pid, startTicks: nat)
    requires forall i :: 0 <= i < |evs| && (evs[i].Completed? || evs[i].Cancelled?) ==>
               CommIgnoredIn(evs[i].env, evs[i].items, pid, startTicks)
    requires CommIgnoredIn(e, items, pid, startTicks) && k < |items| && Identified(items[k], pid, startTicks)
    ensures VisitAt(Run(evs), e, items, k).ReadsBeforeFilter() == 3
  {
    forall i | 0 <= i < |evs| && (evs[i].Completed? || evs[i].Cancelled?)
      ensures AlwaysDropped(evs[i].env, evs[i].items, pid, startTicks)
    {
      IgnoredCommIsDropped(evs[i].env, evs[i].items, pid, startTicks);
    }
    IgnoredCommIsDropped(e, items, pid, startTicks);
    DroppedCostsThreeReads(evs, e, items, k, pid, startTicks);
  }

  // ---- `status` read once ----

  /** With a delta comes no value of `status`. */
  predicate Silent(p: Process) {
    p.haveDeltas ==> !p.haveStatus && p.swapBytes == 0
  }

  predicate AllSilent(procs: seq<Process>) {
    forall i :: 0 <= i < |procs| ==> Silent(procs[i])
  }

  ghost predicate SilentObserver(obs: Observer) {
    forall prev, item :: NamedEntry(prev) ==> AllSilent(Reported(obs(prev, item)))
  }

  lemma ObserverIsSilent(e: Env, walks: Walks)
    requires e.cfg.cacheCmdline && !e.cfg.readStatus
    ensures SilentObserver(ObserverOf(e, walks))
  {
    forall prev, item | NamedEntry(prev) ensures AllSilent(Reported(Observe(e, walks, prev, item))) {
      if Observe(e, walks, prev, item).verdict.Kept? {
        var v := VisitOf(e, walks, prev, item);
        assert prev.Some? ==> v.StatusRead().None?;
      }
    }
  }

  lemma {:induction false} WalkIsSilent(obs: Observer, tag: ScanTag, t: Track, items: seq<Listed>)
    requires Lawful(obs, tag) && Books(t) && Chains(t.ledger) && SilentObserver(obs)
    ensures AllSilent(Fold(StepWith(obs, tag.gen), Setout(t.slots), items).tally.procs)
  {
    if items != [] {
      var init, item := items[..|items| - 1], items[|items| - 1];
      WalkIsSilent(obs, tag, t, init);
      WalkAgrees(obs, tag, t, init, EVERYONE, UTime);
      TrackSlots(obs, tag, t, init);
      var u := TrackAll(obs, tag, t, init);
      if item.files.stat.Ok? {
        RecalledIsRunning(u, item);
      }
      assert AllSilent(Reported(obs(Recalled(u.slots, item), item)));
    }
  }

  /** Group keys are cached and `status` is not read for its own sake. */
  ghost predicate StatusOnce(evs: seq<Event>) {
    forall i :: 0 <= i < |evs| && (evs[i].Completed? || evs[i].Cancelled?) ==>
      evs[i].env.cfg.cacheCmdline && !evs[i].env.cfg.readStatus
  }

  ghost predicate SilentMachine(m: Machine) {
    && AllSilent(m.lost)
    && (forall n :: 0 <= n < |m.feed| && m.feed[n].Apply? ==> AllSilent(m.feed[n].procs))
  }

  lemma FoundUnderIsSilent(m: Machine, e: Env, items: seq<Listed>, tag: ScanTag, obs: Observer)
    requires tag == TagOfScan(m, e.cfg) && obs == ObserverOf(e, tag.walks)
    requires Books(m.track) && Chains(m.track.ledger) && Lawful(obs, tag) && SilentObserver(obs)
    ensures AllSilent(Found(m, e, items))
  {
    WatchedUnder(m, e, items, tag, obs);
    WalkIsSilent(obs, tag, m.track, items);
  }

  lemma FoundIsSilent(m: Machine, e: Env, items: seq<Listed>)
    requires Books(m.track) && Chains(m.track.ledger) && e.cfg.cacheCmdline && !e.cfg.readStatus
    ensures AllSilent(Found(m, e, items))
  {
    var tag := TagOfScan(m, e.cfg);
    var obs := ObserverOf(e, tag.walks);
    ObserverIsLawful(e, tag);
    ObserverIsSilent(e, tag.walks);
    FoundUnderIsSilent(m, e, items, tag, obs);
  }

  lemma PassedOnSilent(m: Machine, m': Machine, procs: seq<Process>, now: int, retention: int)
    requires SilentMachine(m) && AllSilent(procs)
    requires m'.feed == m.feed + [Apply(procs, now, retention)] && m'.lost == m.lost
    ensures SilentMachine(m')
  {
  }

  lemma StepIsSilent(m: Machine, ev: Event)
    requires SilentMachine(m) && Books(m.track) && Chains(m.track.ledger)
    requires ev.Completed? || ev.Cancelled? ==> ev.env.cfg.cacheCmdline && !ev.env.cfg.readStatus
    ensures SilentMachine(Step(m, ev))
  {
    match ev
    case Completed(e, items, now, retention) =>
      FoundIsSilent(m, e, items);
      PassedOnSilent(m, Step(m, ev), Found(m, e, items), now, retention);
    case Cancelled(e, items) => FoundIsSilent(m, e, items);
    case _ =>
  }

  lemma {:induction false} RunIsSilent(evs: seq<Event>)
    requires StatusOnce(evs)
    ensures SilentMachine(Run(evs))
  {
    if evs != [] {
      var init := evs[..|evs| - 1];
      RunIsSilent(init);
      Conservation(init, EVERYONE, UTime);
      StepIsSilent(Run(init), evs[|evs| - 1]);
    }
  }

  lemma {:induction false} SilentCredit(procs: seq<Process>, sel: Selection, f: Field)
    requires AllSilent(procs) && (f.VolCtxSw? || f.InvolCtxSw?)
    ensures Credit(procs, sel, f) == 0
  {
    if procs != [] {
      SilentCredit(procs[..|procs| - 1], sel, f);
      assert Silent(procs[|procs| - 1]);
    }
  }

  lemma {:induction false} SilentFeedCredit(feed: seq<Feed>, sel: Selection, f: Field)
    requires forall n :: 0 <= n < |feed| && feed[n].Apply? ==> AllSilent(feed[n].procs)
    requires f.VolCtxSw? || f.InvolCtxSw?
    ensures FeedCredit(feed, sel, f) == 0
  {
    if feed != [] {
      SilentFeedCredit(feed[..|feed| - 1], sel, f);
      var last := feed[|feed| - 1];
      if last.Apply? {
        SilentCredit(last.procs, sel, f);
      }
    }
  }

  /** In every run with `cache_cmdline` on and `read_status` off, no report with deltas
      carries anything of `status`, so context switches are never counted. */
  lemma NoSwitchesCounted(evs: seq<Event>, sel: Selection, f: Field)
    requires StatusOnce(evs) && (f.VolCtxSw? || f.InvolCtxSw?)
    ensures SilentMachine(Run(evs))
    ensures FeedCredit(Run(evs).feed, sel, f) == 0 && Credit(Run(evs).lost, sel, f) == 0
  {
    RunIsSilent(evs);
    SilentFeedCredit(Run(evs).feed, sel, f);
    SilentCredit(Run(evs).lost, sel, f);
  }
}
