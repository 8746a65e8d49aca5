/** internal/scan/scan.go as it runs: the scanner, its state map and one scan. */
module Scanners {
  import opened Wrappers
  import opened Decimal
  import opened Procfs
  import opened StateMaps
  import opened Reading
  import opened Schedule
  import opened Batching
  import F = Filters
  import N = Namers

  /** `Result`: the outcome of one scan, counted up while it runs. */
  class ScanResult {
    const generation: nat
    const total: nat
    var procs: seq<Process>
    var scanned: nat
    var ignored: nat
    var vanished: nat
    var denied: nat
    var readErrs: multiset<Label>
    var stateEntries: nat
    var statePruned: nat

    constructor (generation: nat, total: nat)
      ensures this.generation == generation && this.total == total
      ensures procs == [] && readErrs == multiset{} && Counted() == Counts(0, 0, 0, 0)
    {
      this.generation, this.total := generation, total;
      procs, readErrs := [], multiset{};
      scanned, ignored, vanished, denied := 0, 0, 0, 0;
      stateEntries, statePruned := 0, 0;
    }

    function Counted(): Counts
      reads this
    {
      Counts(scanned, ignored, vanished, denied)
    }

    ghost function View(): Tally
      reads this
    {
      Tally(procs, readErrs, Counted())
    }

    /** Counts one process that is not reported, and the labels of its failed reads. */
    method Skip(v: Verdict, errs: seq<Label>)
      requires !v.Kept?
      modifies this`ignored, this`vanished, this`denied, this`readErrs
      ensures Counted() == Count(old(Counted()), v)
      ensures readErrs == old(readErrs) + multiset(errs)
    {
      match v {
        case Ignored => ignored := ignored + 1;
        case Gone => vanished := vanished + 1;
        case Refused => denied := denied + 1;
        case Unreadable =>
      }
      readErrs := readErrs + multiset(errs);
    }
  }

  /** The reads before the filter: command line, then status, each only when needed. */
  method ReadOwner(v: Visit)
    returns (t: Trial, argv: seq<string>, status: Option<Status>, uid: nat, user: string, ghost count: nat)
    ensures t == v.Early()
    ensures !t.gone ==> count == v.ReadsBeforeFilter()
    ensures !t.gone ==> argv == v.Argv() && status == v.StatusRead() && uid == v.Uid() && user == v.FilterUser()
  {
    var cfg := v.env.cfg;
    t, argv, status, uid, user, count := CALM, [], None, 0, "", 1;
    if v.env.filter.needsCmdline || v.prev.None? || !cfg.cacheCmdline || v.prev.value.name == "" {
      count := count + 1;
      match v.files.cmdline {
        case Ok(words) => argv := words;
        case Vanished => t := Trial(true, []); return;
        case Denied => t := Trial(false, [AtCmdline]);
        case Failed => t := Trial(false, [AtCmdline]);
      }
    }
    if v.prev.Some? && cfg.cacheCmdline && v.prev.value.user != "" {
      uid, user := v.prev.value.uid, v.prev.value.user;
    }
    if cfg.readStatus || user == "" {
      count := count + 1;
      match v.files.status {
        case Vanished => t := Trial(true, t.errs); return;
        case Denied => t := Trial(false, t.errs + [AtStatus]);
        case Failed => t := Trial(false, t.errs + [AtStatus]);
        case Ok(s) =>
          status, uid := Some(s), s.uid;
          if user == "" {
            if cfg.resolveUsers {
              user := v.env.users(uid);
            } else {
              user := UidString(uid);
            }
          }
      }
    }
  }

  /** The reads after the filter; the first vanished file ends them. */
  method ReadGauges(v: Visit) returns (t: Trial, mem: Memory, io: Option<IO>, fd: FdView, pss: PssView)
    ensures t == v.Late()
    ensures !t.gone ==> mem == v.Mem() && io == v.Io() && fd == v.Fd() && pss == v.Pss()
  {
    var cfg, sys := v.env.cfg, v.env.sys;
    t, io, fd, pss := CALM, None, NO_FDS, NO_PSS;
    mem := Memory(sys.PagesToBytes(v.stat.rssPages), v.stat.vsizeBytes, 0, 0);
    match v.files.statm {
      case Ok(m) =>
        mem := Memory(sys.PagesToBytes(m.residentPages), sys.PagesToBytes(m.sizePages),
                      sys.PagesToBytes(m.sharedPages), sys.PagesToBytes(m.dataPages));
      case Vanished => t := Trial(true, []); return;
      case Denied => t := Trial(false, [AtStatm]);
      case Failed => t := Trial(false, [AtStatm]);
    }
    if cfg.readIO {
      match v.files.io {
        case Ok(x) => io := Some(x);
        case Vanished => t := Trial(true, t.errs); return;
        case Denied =>
        case Failed => t := Trial(false, t.errs + [AtIO]);
      }
    }
    var more;
    more, fd, pss := ReadScheduled(v);
    t := Then(t, more);
  }

  /** The descriptor and proportional-memory reads; off schedule the remembered values
      stand in. */
  method ReadScheduled(v: Visit) returns (t: Trial, fd: FdView, pss: PssView)
    ensures t == Then(Attempt(AtFD, v.walks.fds, v.files.fds.Fault(), true),
                      Attempt(AtSmaps, v.env.cfg.readSmaps && v.walks.smaps, v.files.smaps.Fault(), true))
    ensures !t.gone ==> fd == v.Fd() && pss == v.Pss()
  {
    t, fd, pss := CALM, NO_FDS, NO_PSS;
    if v.walks.fds {
      match v.files.fds {
        case Ok(n) =>
          var max := -1;
          if v.files.limits.Ok? {
            max := v.files.limits.value;
          }
          var ratio := 0.0;
          if max > 0 {
            ratio := n as real / max as real;
          }
          fd := FdView(n, max, ratio, true);
        case Vanished => t := Trial(true, []); return;
        case Denied =>
        case Failed => t := Trial(false, [AtFD]);
      }
    } else if v.prev.Some? && v.prev.value.fd.have {
      fd := v.prev.value.fd;
    }
    if v.env.cfg.readSmaps {
      if v.walks.smaps {
        match v.files.smaps {
          case Ok(sm) => pss := PssView(sm.pssBytes, sm.swapPssBytes, true);
          case Vanished => t := Trial(true, t.errs); return;
          case Denied =>
          case Failed => t := Trial(false, t.errs + [AtSmaps]);
        }
      } else if v.prev.Some? && v.prev.value.pss.have {
        pss := v.prev.value.pss;
      }
    }
  }

  /** What is remembered of a kept process, and what is reported of it. */
  method Assemble(v: Visit, argv: seq<string>, status: Option<Status>, uid: nat, owner: string,
                  mem: Memory, io: Option<IO>, fd: FdView, pss: PssView) returns (cur: Entry, p: Process)
    requires argv == v.Argv() && status == v.StatusRead() && uid == v.Uid() && owner == v.FilterUser()
    requires mem == v.Mem() && io == v.Io() && fd == v.Fd() && pss == v.Pss()
    ensures cur == v.NewEntry() && p == v.Report()
  {
    var name, user := "", owner;
    if v.prev.Some? && v.env.cfg.cacheCmdline && v.prev.value.name != "" {
      name := v.prev.value.name;
    } else {
      name := N.Name(v.env.namer, N.NameInput(v.stat.comm, v.files.exe, argv));
    }
    if user == "" {
      user := UidString(uid);
    }
    var stored := Counters(
      v.stat.utimeTicks,
      v.stat.stimeTicks,
      v.stat.minorFaults,
      v.stat.majorFaults,
      if status.Some? then status.value.volCtxSw else 0,
      if status.Some? then status.value.involCtxSw else 0,
      if io.Some? then io.value.readBytes else 0,
      if io.Some? then io.value.writeBytes else 0);
    cur := Entry(v.stat.startTicks, stored, name, user, uid, fd, pss);
    var deltas, haveDeltas := ZERO_COUNTERS, false;
    if v.prev.Some? {
      deltas, haveDeltas := Differences(cur.counters, v.prev.value.counters), true;
    }
    p := Process(
      v.pid,
      v.stat.ppid,
      v.stat.comm,
      name,
      user,
      uid,
      v.stat.state,
      v.stat.startTicks,
      v.env.sys.StartTimeUnix(v.stat.startTicks),
      mem,
      if status.Some? then status.value.swapBytes else 0,
      v.stat.threads,
      fd,
      pss,
      deltas,
      haveDeltas,
      io.Some?,
      status.Some?);
  }

  /** The reads, the filter and the exits of `readProcess` in their order, up to the
      point where the state map is written. */
  method ReadFiles(v: Visit) returns (o: Observation)
    ensures o == Judge(v, v.Passes())
  {
    var early, argv, status, uid, user, _ := ReadOwner(v);
    if early.gone {
      o := Observation(Gone, early.errs);
      return;
    }
    var isKernel := v.ArgvWanted() && F.IsKernelThread(argv, v.stat.ppid);
    var keep, _ := F.Keep(v.env.filter, F.Input(v.stat.comm, argv, user, v.stat.ppid, isKernel));
    if !keep {
      o := Observation(Ignored, early.errs);
      return;
    }
    var late, mem, io, fd, pss := ReadGauges(v);
    var t := Then(early, late);
    if t.gone {
      o := Observation(Gone, t.errs);
      return;
    }
    var cur, p := Assemble(v, argv, status, uid, user, mem, io, fd, pss);
    o := Observation(Kept(v, cur, p), t.errs);
  }

  /** `readProcess` on values, given what `Lookup` found. */
  method Examine(e: Env, walks: Walks, prev: Option<Entry>, item: Listed) returns (o: Observation)
    ensures o == Observe(e, walks, prev, item)
  {
    match item.files.stat {
      case Vanished => o := Observation(Gone, []);
      case Denied => o := Observation(Refused, []);
      case Failed => o := Observation(Unreadable, [AtStat]);
      case Ok(st) => o := ReadFiles(Visit(e, walks, item.pid, st, prev, item.files));
    }
  }

  function CountUnlessKept(c: Counts, v: Verdict): Counts {
    if v.Kept? then c else Count(c, v)
  }

  /** `obs` is what a scan with these settings makes of each process. */
  ghost predicate Follows(obs: Observer, e: Env, walks: Walks) {
    forall prev, item {:trigger Observe(e, walks, prev, item)} :: obs(prev, item) == Observe(e, walks, prev, item)
  }

  /** `step` is what a scan with these settings does with each process. */
  ghost predicate Takes(step: Stepper, e: Env, walks: Walks, gen: nat) {
    forall w, item {:trigger Next(ObserverOf(e, walks), gen, w, item)} ::
      step(w, item) == Next(ObserverOf(e, walks), gen, w, item)
  }

  lemma TheStepper(e: Env, walks: Walks, gen: nat) returns (step: Stepper)
    ensures step == StepOf(e, walks, gen) && Takes(step, e, walks, gen)
  {
    step := StepOf(e, walks, gen);
  }

  lemma TheObserver(e: Env, walks: Walks) returns (obs: Observer)
    ensures obs == ObserverOf(e, walks) && Follows(obs, e, walks)
  {
    obs := ObserverOf(e, walks);
  }

  /** `Lookup`, once `stat` could be read. */
  method Recall(state: StateMap, item: Listed) returns (last: Option<Entry>)
    requires state.Valid()
    modifies state`m, state`slots
    ensures state.Valid()
    ensures last == Recalled(old(state.slots), item)
    ensures state.slots == Cleared(old(state.slots), item)
  {
    last := None;
    if item.files.stat.Ok? {
      var prev, havePrev := state.Lookup(item.pid, item.files.stat.value.startTicks);
      if havePrev {
        last := Some(prev.entry);
      }
    }
  }

  /** `readProcess`: nothing is reported of a process that vanished, cannot be read, or
      is ignored. */
  method ReadProcess(state: StateMap, e: Env, walks: Walks, item: Listed, res: ScanResult, ghost obs: Observer)
    returns (p: seq<Process>)
    requires state.Valid() && Follows(obs, e, walks)
    modifies state, state.repr, res`ignored, res`vanished, res`denied, res`readErrs
    ensures state.Valid()
    ensures state.gen == old(state.gen) && fresh(state.repr - old(state.repr))
    ensures var o := obs(Recalled(old(state.slots), item), item);
            && state.slots == Remember(old(state.slots), state.gen, item, o.verdict)
            && p == Reported(o)
            && res.readErrs == old(res.readErrs) + multiset(o.errs)
            && res.Counted() == CountUnlessKept(old(res.Counted()), o.verdict)
  {
    var last := Recall(state, item);
    var o := Examine(e, walks, last, item);
    p := Record(state, item.pid, o, res);
  }

  /** `Put` for a kept process, `Touch` for an ignored one, and the counts. */
  method Record(state: StateMap, pid: Pid, o: Observation, res: ScanResult) returns (p: seq<Process>)
    requires state.Valid()
    modifies state, state.repr, res`ignored, res`vanished, res`denied, res`readErrs
    ensures state.Valid()
    ensures state.gen == old(state.gen) && fresh(state.repr - old(state.repr))
    ensures state.slots == Settle(old(state.slots), state.gen, pid, o.verdict)
    ensures p == Reported(o)
    ensures res.readErrs == old(res.readErrs) + multiset(o.errs)
    ensures res.Counted() == CountUnlessKept(old(res.Counted()), o.verdict)
  {
    if o.verdict.Kept? {
      res.readErrs := res.readErrs + multiset(o.errs);
      var cur := new PIDState(o.verdict.entry);
      state.Put(pid, cur);
      return [o.verdict.report];
    }
    res.Skip(o.verdict, o.errs);
    if o.verdict.Ignored? {
      state.Touch(pid);
    }
    return [];
  }

  /** One listed process, and its place in the result. */
  method ReadNext(state: StateMap, e: Env, walks: Walks, item: Listed, res: ScanResult, ghost step: Stepper,
                  ghost w: Walked)
    requires state.Valid() && Takes(step, e, walks, state.gen)
    requires state.slots == w.slots && res.View() == w.tally
    modifies state, state.repr, res`procs, res`scanned, res`ignored, res`vanished, res`denied, res`readErrs
    ensures state.Valid()
    ensures state.gen == old(state.gen) && fresh(state.repr - old(state.repr))
    ensures state.slots == step(w, item).slots && res.View() == step(w, item).tally
  {
    ghost var obs := TheObserver(e, walks);
    assert step(w, item) == Next(obs, state.gen, w, item);
    var p := ReadProcess(state, e, walks, item, res, obs);
    if p != [] {
      res.procs := res.procs + p;
      res.scanned := res.scanned + 1;
    }
  }

  /** The processes listed at positions `lo` to `hi`, in order. */
  method ReadBatch(state: StateMap, e: Env, walks: Walks, items: seq<Listed>, lo: nat, hi: nat, res: ScanResult,
                   ghost step: Stepper, ghost start: Walked, ghost w0: Walked) returns (ghost w: Walked)
    requires state.Valid() && Takes(step, e, walks, state.gen) && lo <= hi <= |items|
    requires w0 == Fold(step, start, items[..lo])
    requires state.slots == w0.slots && res.View() == w0.tally
    modifies state, state.repr, res`procs, res`scanned, res`ignored, res`vanished, res`denied, res`readErrs
    ensures state.Valid()
    ensures state.gen == old(state.gen) && fresh(state.repr - old(state.repr))
    ensures w == Fold(step, start, items[..hi])
    ensures state.slots == w.slots && res.View() == w.tally
  {
    w := w0;
    for j := lo to hi
      invariant state.Valid()
      invariant state.gen == old(state.gen) && fresh(state.repr - old(state.repr))
      invariant w == Fold(step, start, items[..j])
      invariant state.slots == w.slots && res.View() == w.tally
    {
      ReadNext(state, e, walks, items[j], res, step, w);
      FoldStep(step, start, items, j);
      w := step(w, items[j]);
    }
  }

  /** What the walk does: as many processes, in order, as the course of the batches lets it. */
  ghost predicate WalkOutcome(cfg: ScanConfig, items: seq<Listed>, ctx: Context, step: Stepper, start: Slots,
                              course: Course, w: Walked) {
    course == CourseOf(ctx, cfg, |items|) && w == Fold(step, Setout(start), items[..course.walked])
  }

  /** The nested loops of `Scan`: batches with a sleep between two of them, until the
      listing ends or the context is cancelled. */
  method WalkAll(state: StateMap, e: Env, walks: Walks, items: seq<Listed>, ctx: Context, res: ScanResult,
                 ghost step: Stepper, ghost start: Slots)
    returns (course: Course, ghost w: Walked)
    requires state.slots == start && state.Valid() && Takes(step, e, walks, state.gen)
    requires res.View() == NOTHING
    modifies state, state.repr, res`procs, res`scanned, res`ignored, res`vanished, res`denied, res`readErrs
    ensures state.Valid()
    ensures state.gen == old(state.gen) && fresh(state.repr - old(state.repr))
    ensures WalkOutcome(e.cfg, items, ctx, step, start, course, w)
    ensures state.slots == w.slots && res.View() == w.tally
  {
    ghost var setout := Setout(start);
    var n, batch := |items|, BatchOf(e.cfg);
    w := setout;
    var i, k, sleeps, done := 0, 0, 0, true;
    ghost var goal := CourseOf(ctx, e.cfg, n);
    while i < n && done
      invariant i <= n
      invariant state.Valid()
      invariant state.gen == old(state.gen) && fresh(state.repr - old(state.repr))
      invariant w == Fold(step, setout, items[..i])
      invariant state.slots == w.slots && res.View() == w.tally
      invariant goal == if done then CourseFrom(ctx, e.cfg, n, i, k, sleeps) else Course(i, sleeps, false)
      decreases n - i, done
    {
      if ctx.done(k) {
        done := false;
      } else {
        var end := i + batch;
        if end > n {
          end := n;
        }
        w := ReadBatch(state, e, walks, items, i, end, res, step, setout, w);
        if end < n && e.cfg.batchSleep > 0 {
          if ctx.doneAsleep(k) {
            done := false;
          } else {
            sleeps := sleeps + 1;
          }
        }
        i, k := end, k + 1;
      }
    }
    course := Course(i, sleeps, done);
  }

  ghost predicate Finished(state: StateMap, r: ScanResult, walked: Slots)
    reads state, r
  {
    && state.slots == Survivors(walked, state.gen)
    && r.stateEntries == |state.slots|
    && r.statePruned + r.stateEntries == |walked|
  }

  /** The end of a completed scan: prune, and publish the sizes. */
  method Finish(state: StateMap, r: ScanResult)
    requires state.Valid()
    modifies state`m, state`slots, r`statePruned, r`stateEntries
    ensures state.Valid()
    ensures Finished(state, r, old(state.slots))
  {
    var before := state.Len();
    r.statePruned := state.Prune();
    r.stateEntries := state.Len();
  }

  /** What a scan of a successful listing leaves behind: everything walked unless the
      context was cancelled, and then pruned and published. */
  ghost predicate ScanOutcome(state: StateMap, cfg: ScanConfig, items: seq<Listed>, ctx: Context, step: Stepper,
                              start: Slots,
                              res: ScanResult?, course: Course, w: Walked)
    reads state, if res == null then {} else {res}
  {
    && WalkOutcome(cfg, items, ctx, step, start, course, w)
    && (res == null <==> !course.done)
    && (res == null ==> state.slots == w.slots)
    && (res != null ==>
          && Finished(state, res, w.slots)
          && res.View() == w.tally
          && res.total == |items| && res.generation == state.gen)
  }

  /** A walk that was not cancelled ends with a result. */
  method Conclude(state: StateMap, cfg: ScanConfig, items: seq<Listed>, ctx: Context, r: ScanResult, course: Course,
                  ghost step: Stepper, ghost start: Slots, ghost w: Walked) returns (res: ScanResult?)
    requires state.Valid() && WalkOutcome(cfg, items, ctx, step, start, course, w)
    requires state.slots == w.slots && r.View() == w.tally && r.total == |items| && r.generation == state.gen
    modifies state`m, state`slots, r`statePruned, r`stateEntries
    ensures state.Valid()
    ensures res == null || res == r
    ensures ScanOutcome(state, cfg, items, ctx, step, start, res, course, w)
  {
    if !course.done {
      return null;
    }
    Finish(state, r);
    res := r;
  }

  method ScanListed(state: StateMap, e: Env, walks: Walks, items: seq<Listed>, ctx: Context, ghost step: Stepper,
                    ghost start: Slots)
    returns (res: ScanResult?, course: Course, ghost w: Walked)
    requires state.slots == start && state.Valid() && Takes(step, e, walks, state.gen)
    modifies state, state.repr
    ensures state.Valid()
    ensures state.gen == old(state.gen) && fresh(state.repr - old(state.repr))
    ensures res != null ==> fresh(res)
    ensures ScanOutcome(state, e.cfg, items, ctx, step, start, res, course, w)
  {
    var r := new ScanResult(state.gen, |items|);
    course, w := WalkAll(state, e, walks, items, ctx, r, step, start);
    res := Conclude(state, e.cfg, items, ctx, r, course, step, start, w);
  }

  class Scanner {
    var state: StateMap
    var scanNo: nat

    constructor ()
      ensures fresh(state) && state.Valid() && state.repr == {} && state.slots == map[] && state.gen == 0
      ensures scanNo == 0
    {
      state := new StateMap();
      scanNo := 0;
    }

    method ResetState()
      modifies this`state
      ensures fresh(state) && state.Valid() && state.repr == {} && state.slots == map[] && state.gen == 0
    {
      state := new StateMap();
    }

    /** `Scan`: one generation, one walk, one prune. A failed listing and a cancellation
        return nothing and prune nothing. */
    method Scan(e: Env, listing: Option<seq<Listed>>, ctx: Context)
      returns (res: ScanResult?, course: Course, ghost w: Walked)
      requires state.Valid()
      modifies `scanNo, state, state.repr
      ensures state.Valid() && fresh(state.repr - old(state.repr))
      ensures scanNo == old(scanNo) + 1 && state.gen == old(state.gen) + 1
      ensures res != null <==> listing.Some? && !Interrupted(ctx, e.cfg, |listing.value|)
      ensures res != null ==> fresh(res)
      ensures listing.None? ==> state.slots == old(state.slots)
      ensures listing.Some? ==>
                ScanOutcome(state, e.cfg, listing.value, ctx,
                            StepOf(e, WalksOf(e.cfg, scanNo), state.gen), old(state.slots),
                            res, course, w)
    {
      res, course, w := null, Course(0, 0, false), Setout(map[]);
      var gen := state.NextGeneration();
      scanNo := scanNo + 1;
      if listing.Some? {
        ghost var start := state.slots;
        var walks := WalksOf(e.cfg, scanNo);
        ghost var step := TheStepper(e, walks, gen);
        res, course, w := ScanListed(state, e, walks, listing.value, ctx, step, start);
        CancellationStops(ctx, e.cfg, |listing.value|);
      }
    }
  }
}
