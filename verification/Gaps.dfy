/** What an unreadable file does to a counter, as a run of the scanner. */
module Gaps {
  import opened Wrappers
  import opened Procfs
  import opened Reading
  import opened Accounts
  import opened Schedule
  import opened KeptProcesses
  import opened Ledgers
  import opened Runs
  import opened Truth
  import F = Filters

  /** The same process with another answer of its `io` file. */
  function WithIO(item: Listed, io: Outcome<IO>): Listed {
    item.(files := item.files.(io := io))
  }

  function ReadBytesOf(io: Outcome<IO>): Option<nat> {
    if io.Ok? then Some(io.value.readBytes) else None
  }

  /** The process can be read, apart from `io`, and no file of it vanishes. */
  predicate Readable(item: Listed) {
    var f := item.files;
    && f.stat.Ok? && f.cmdline.Ok? && f.status.Ok? && f.statm.Ok?
    && !f.fds.Vanished? && !f.smaps.Vanished?
  }

  ghost predicate GapEnv(e: Env) { e.filter == F.NO_RULES && e.cfg.readIO }

  /** Without rules a readable process is kept, and its `io` counter stored as read. */
  lemma KeptWithoutRules(v: Visit)
    requires GapEnv(v.env) && !v.files.io.Vanished? && Readable(Listed(v.pid, v.files))
    ensures Judge(v, v.Passes()).verdict == Kept(v, v.NewEntry(), v.Report())
    ensures v.NewEntry().startTicks == v.stat.startTicks
    ensures v.NewEntry().counters.readBytes == OrZero(ReadBytesOf(v.files.io))
    ensures v.prev.None? ==> Contribution(v.Report(), ReadBytes) == 0
    ensures v.prev.Some? ==>
              Contribution(v.Report(), ReadBytes) ==
              Gain(Some(v.prev.value.counters.readBytes), ReadBytesOf(v.files.io))
  {
    assert !F.NotIncluded(v.env.filter, v.FilterInput()) && !F.CommIgnored(v.env.filter, v.stat.comm);
    assert !F.CmdlineIgnored(v.env.filter, v.Argv());
  }

  /** What is remembered of the process's `io` counter, if anything. */
  function Baseline(m: Machine, item: Listed): Option<nat> {
    match Recalled(m.track.slots, item)
    case None => None
    case Some(entry) => Some(entry.counters.readBytes)
  }

  lemma CreditOfOne(p: Process, f: Field)
    ensures Credit([p], EVERYONE, f) == Contribution(p, f)
  {
    assert [p][..0] == [] && [p] == [] + [p];
    CreditAppend([], p, EVERYONE, f);
  }

  lemma GapObserved(m: Machine, e: Env, x: Listed)
    requires GapEnv(e) && Readable(x) && !x.files.io.Vanished?
    ensures var v := SoleObservation(m, e, x).verdict;
            && v.Kept? && v.entry.startTicks == x.files.stat.value.startTicks
            && v.entry.counters.readBytes == OrZero(ReadBytesOf(x.files.io))
            && Contribution(v.report, ReadBytes) ==
                 (if Baseline(m, x).Some? then Gain(Baseline(m, x), ReadBytesOf(x.files.io)) else 0)
  {
    KeptWithoutRules(VisitOf(e, WalksOf(e.cfg, m.scanNo + 1), Recalled(m.track.slots, x), x));
  }

  /** One scan of the process: its remembered counter, and what is credited. */
  ghost predicate Stepped(m: Machine, m': Machine, item: Listed, io: Outcome<IO>) {
    && Baseline(m', item) == Some(OrZero(ReadBytesOf(io)))
    && m'.history == m.history + [WithIO(item, io)]
    && FeedCredit(m'.feed, EVERYONE, ReadBytes) ==
         FeedCredit(m.feed, EVERYONE, ReadBytes)
         + (if Baseline(m, item).Some? then Gain(Baseline(m, item), ReadBytesOf(io)) else 0)
  }

  lemma GapStep(m: Machine, e: Env, item: Listed, io: Outcome<IO>)
    requires GapEnv(e) && Readable(item) && !io.Vanished?
    ensures Stepped(m, Step(m, Completed(e, [WithIO(item, io)], 0, 0)), item, io)
  {
    var x := WithIO(item, io);
    assert Recalled(m.track.slots, x) == Recalled(m.track.slots, item);
    GapObserved(m, e, x);
    var report := SoleObservation(m, e, x).verdict.report;
    SingleScan(m, e, x, 0, 0);
    KeptIsRecalled(m, e, x, 0, 0, item);
    FeedAppend(m.feed, Apply([report], 0, 0), EVERYONE, ReadBytes);
    CreditOfOne(report, ReadBytes);
  }

  /** Three scans of one process: `io` shows 100 bytes, is refused, and shows 110. */
  function GapRun(e: Env, item: Listed): seq<Event> {
    [Completed(e, [WithIO(item, Ok(IO(100, 0)))], 0, 0),
     Completed(e, [WithIO(item, Denied)], 0, 0),
     Completed(e, [WithIO(item, Ok(IO(110, 0)))], 0, 0)]
  }

  lemma GapRunSteps(e: Env, item: Listed)
    ensures var evs := GapRun(e, item);
            Run(evs) == Step(Step(Step(START, evs[0]), evs[1]), evs[2])
  {
    var evs := GapRun(e, item);
    assert evs[..2][..1] == evs[..1] && evs[..1][..0] == [];
    assert Run(evs[..1]) == Step(Run([]), evs[0]);
    assert Run(evs[..2]) == Step(Run(evs[..1]), evs[1]);
  }

  function GapHistory(item: Listed): seq<Listed> {
    [WithIO(item, Ok(IO(100, 0))), WithIO(item, Denied), WithIO(item, Ok(IO(110, 0)))]
  }

  lemma GapRises(item: Listed)
    requires item.files.stat.Ok?
    ensures Monotone(GapHistory(item))
    ensures Shown(GapHistory(item), item.pid, item.files.stat.value.startTicks, ReadBytes, 100, 110)
  {
  }

  lemma GapSums(item: Listed, m0: Machine, m1: Machine, m2: Machine, m3: Machine)
    requires m0 == START
    requires Stepped(m0, m1, item, Ok(IO(100, 0))) && Stepped(m1, m2, item, Denied)
    requires Stepped(m2, m3, item, Ok(IO(110, 0)))
    ensures m3.history == GapHistory(item) && FeedCredit(m3.feed, EVERYONE, ReadBytes) == 110
  {
    assert Baseline(m0, item) == None;
  }

  /** Why the file must always be readable: in this run the counter never decreases and
      grows by ten bytes, and 110 are credited. */
  lemma GapExample(e: Env, item: Listed)
    requires GapEnv(e) && Readable(item)
    ensures var m := Run(GapRun(e, item));
            && Monotone(m.history)
            && Shown(m.history, item.pid, item.files.stat.value.startTicks, ReadBytes, 100, 110)
            && FeedCredit(m.feed, EVERYONE, ReadBytes) == 110
  {
    GapRunSteps(e, item);
    var evs := GapRun(e, item);
    var m1 := Step(START, evs[0]);
    var m2 := Step(m1, evs[1]);
    GapStep(START, e, item, Ok(IO(100, 0)));
    GapStep(m1, e, item, Denied);
    GapStep(m2, e, item, Ok(IO(110, 0)));
    GapSums(item, START, m1, m2, Run(evs));
    GapRises(item);
  }
}
