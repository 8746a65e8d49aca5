/** Every process a scan reports is a reading on the ledger, so what holds of tenures holds
    of everything published. */
module Reports {
  import opened Procfs
  import opened StateMaps
  import opened Reading
  import opened KeptProcesses
  import opened Ledgers
  import opened Runs
  import opened Freshness
  import opened Groups
  import opened GroupTotals

  /** The report is the reading at place `k` of tenure `i`. */
  ghost predicate At(ledger: seq<Tenure>, i: nat, k: nat, p: Process) {
    i < |ledger| && k < |ledger[i]| && ledger[i][k].report == p
  }

  ghost predicate Ledgered(ledger: seq<Tenure>, p: Process) {
    exists i: nat, k: nat :: At(ledger, i, k, p)
  }

  ghost predicate AllLedgered(ledger: seq<Tenure>, procs: seq<Process>) {
    forall n :: 0 <= n < |procs| ==> Ledgered(ledger, procs[n])
  }

  /** Readings are never taken off the ledger. */
  ghost predicate Extends(ledger: seq<Tenure>, more: seq<Tenure>) {
    |ledger| <= |more| && forall i :: 0 <= i < |ledger| ==> ledger[i] <= more[i]
  }

  lemma StaysLedgered(ledger: seq<Tenure>, more: seq<Tenure>, procs: seq<Process>)
    requires Extends(ledger, more) && AllLedgered(ledger, procs)
    ensures AllLedgered(more, procs)
  {
    forall n | 0 <= n < |procs| ensures Ledgered(more, procs[n]) {
      assert Ledgered(ledger, procs[n]);
      var i: nat, k: nat :| At(ledger, i, k, procs[n]);
      assert ledger[i] <= more[i];
      assert At(more, i, k, procs[n]);
    }
  }

  lemma EnterExtends(ledger: seq<Tenure>, open: map<Pid, nat>, put: Put)
    ensures Extends(ledger, Enter(ledger, open, put).0)
    ensures Ledgered(Enter(ledger, open, put).0, put.report)
  {
    var pid, more := put.item.pid, Enter(ledger, open, put).0;
    if pid in open && open[pid] < |ledger| {
      assert At(more, open[pid], |ledger[open[pid]]|, put.report);
    } else {
      assert At(more, |ledger|, 0, put.report);
    }
  }

  lemma ItemExtends(t: Track, tag: ScanTag, item: Listed, o: Observation)
    ensures var u := TrackItem(t, tag, item, o.verdict);
            Extends(t.ledger, u.ledger) && AllLedgered(u.ledger, Reported(o))
  {
    if o.verdict.Kept? {
      EnterExtends(t.ledger, StillOpen(t.open, Cleared(t.slots, item)),
                   Put(tag.scanNo, tag.cfg, tag.walks, item, o.verdict.entry, o.verdict.report));
    }
  }

  lemma AllLedgeredConcat(ledger: seq<Tenure>, a: seq<Process>, b: seq<Process>)
    requires AllLedgered(ledger, a) && AllLedgered(ledger, b)
    ensures AllLedgered(ledger, a + b)
  {
  }

  lemma ExtendsTwice(a: seq<Tenure>, b: seq<Tenure>, c: seq<Tenure>)
    requires Extends(a, b) && Extends(b, c)
    ensures Extends(a, c)
  {
    forall i | 0 <= i < |a| ensures a[i] <= c[i] {
      assert a[i] <= b[i] && b[i] <= c[i];
    }
  }

  /** A walk only adds to the ledger, and adds every process it reports. */
  lemma {:induction false} WalkIsLedgered(obs: Observer, tag: ScanTag, t: Track, items: seq<Listed>)
    ensures var u := TrackAll(obs, tag, t, items);
            Extends(t.ledger, u.ledger)
            && AllLedgered(u.ledger, Fold(StepWith(obs, tag.gen), Setout(t.slots), items).tally.procs)
  {
    if items != [] {
      var init, item := items[..|items| - 1], items[|items| - 1];
      WalkIsLedgered(obs, tag, t, init);
      TrackSlots(obs, tag, t, init);
      var u, w := TrackAll(obs, tag, t, init), Fold(StepWith(obs, tag.gen), Setout(t.slots), init);
      var o := obs(Recalled(u.slots, item), item);
      var more := TrackItem(u, tag, item, o.verdict).ledger;
      ItemExtends(u, tag, item, o);
      ExtendsTwice(t.ledger, u.ledger, more);
      StaysLedgered(u.ledger, more, w.tally.procs);
      AllLedgeredConcat(more, w.tally.procs, Reported(o));
    }
  }

  ghost predicate FeedLedgered(m: Machine) {
    forall n :: 0 <= n < |m.feed| && m.feed[n].Apply? ==> AllLedgered(m.track.ledger, m.feed[n].procs)
  }

  lemma WatchIsLedgered(m: Machine, e: Env, items: seq<Listed>, tag: ScanTag)
    requires tag == TagOfScan(m, e.cfg)
    ensures Extends(m.track.ledger, Watched(m, e, items).ledger)
    ensures AllLedgered(Watched(m, e, items).ledger, Found(m, e, items))
  {
    var obs := ObserverOf(e, tag.walks);
    WalkIsLedgered(obs, tag, m.track, items);
    WatchedUnder(m, e, items, tag, obs);
  }

  lemma FeedStaysLedgered(m: Machine, m': Machine, x: seq<Feed>)
    requires FeedLedgered(m) && Extends(m.track.ledger, m'.track.ledger) && m'.feed == m.feed + x
    requires forall n :: 0 <= n < |x| && x[n].Apply? ==> AllLedgered(m'.track.ledger, x[n].procs)
    ensures FeedLedgered(m')
  {
    forall n | 0 <= n < |m'.feed| && m'.feed[n].Apply? ensures AllLedgered(m'.track.ledger, m'.feed[n].procs) {
      if n < |m.feed| {
        StaysLedgered(m.track.ledger, m'.track.ledger, m.feed[n].procs);
      } else {
        assert m'.feed[n] == x[n - |m.feed|];
      }
    }
  }

  /** Over every run, everything passed on was read for a tenure of its own process. */
  lemma {:induction false} EveryReportLedgered(evs: seq<Event>)
    ensures FeedLedgered(Run(evs))
  {
    if evs != [] {
      var init, last := evs[..|evs| - 1], evs[|evs| - 1];
      EveryReportLedgered(init);
      var m := Run(init);
      if last.Completed? || last.Cancelled? {
        WatchIsLedgered(m, last.env, last.items, TagOfScan(m, last.env.cfg));
      }
      var x := match last
        case Completed(e, items, now, retention) => [Apply(Found(m, e, items), now, retention)]
        case ResetAccums => [Forget]
        case _ => [];
      FeedStaysLedgered(m, Run(evs), x);
    }
  }

  /** The cached descriptor values keep their ratio exact. */
  lemma TenureRatio(log: Tenure, k: nat)
    requires Chain(log) && k < |log|
    ensures Refreshed(log[k].report.fd)
  {
    FdsComeFromLatestRefresh(log, k);
  }

  lemma EveryReportHasRatio(evs: seq<Event>, n: nat, i: nat)
    requires n < |Run(evs).feed| && Run(evs).feed[n].Apply? && i < |Run(evs).feed[n].procs|
    ensures Refreshed(Run(evs).feed[n].procs[i].fd)
  {
    var m := Run(evs);
    EveryReportLedgered(evs);
    TenuresOfRuns(evs);
    assert Ledgered(m.track.ledger, m.feed[n].procs[i]);
    var j: nat, k: nat :| At(m.track.ledger, j, k, m.feed[n].procs[i]);
    TenureRatio(m.track.ledger[j], k);
  }

  /** In every scan of every run, no group hides a member near its limit: its worst ratio
      times its summed limits covers all descriptors held under a limit, and all
      descriptors if every counted member has one. */
  lemma NoGroupHidesItsWorst(evs: seq<Event>, n: nat, k: Key)
    requires n < |Run(evs).feed| && Run(evs).feed[n].Apply?
    requires k in Grouped(Run(evs).feed[n].procs)
    ensures var procs := Run(evs).feed[n].procs;
            var g := Grouped(procs)[k];
            && g.fds.max >= 0
            && LimitedOpen(procs, k) as real <= Times(g.fds.worst, g.fds.max)
            && (AllLimited(procs, k) ==> Covered(procs, k))
  {
    var procs := Run(evs).feed[n].procs;
    forall i | InGroup(procs, k, i) ensures RatioLaw(procs[i].fd) {
      EveryReportHasRatio(evs, n, i);
    }
    WorstRatioDominates(procs, k);
    if AllLimited(procs, k) {
      WorstRatioDominatesAll(procs, k);
    }
  }

  // ---- Start times ----

  predicate AllStarted(procs: seq<Process>) {
    forall i :: 0 <= i < |procs| ==> Started(procs[i])
  }

  ghost predicate StartingObserver(obs: Observer) {
    forall prev, item :: AllStarted(Reported(obs(prev, item)))
  }

  lemma ObserverStarts(e: Env, walks: Walks)
    requires e.sys.bootTime >= 0.0
    ensures StartingObserver(ObserverOf(e, walks))
  {
    forall prev, item ensures AllStarted(Reported(Observe(e, walks, prev, item))) {
      if Observe(e, walks, prev, item).verdict.Kept? {
        SecondsNotNegative(e.sys, item.files.stat.value.startTicks);
      }
    }
  }

  lemma SecondsNotNegative(sys: System, ticks: nat)
    ensures sys.TicksToSeconds(ticks) >= 0.0
  {
  }

  lemma {:induction false} WalkStarts(obs: Observer, gen: nat, start: Slots, items: seq<Listed>)
    requires StartingObserver(obs)
    ensures AllStarted(Fold(StepWith(obs, gen), Setout(start), items).tally.procs)
  {
    if items != [] {
      var init, item := items[..|items| - 1], items[|items| - 1];
      WalkStarts(obs, gen, start, init);
      var w := Fold(StepWith(obs, gen), Setout(start), init);
      assert AllStarted(Reported(obs(Recalled(w.slots, item), item)));
    }
  }

  lemma FoundStarts(m: Machine, e: Env, items: seq<Listed>)
    requires e.sys.bootTime >= 0.0
    ensures AllStarted(Found(m, e, items))
  {
    var tag := TagOfScan(m, e.cfg);
    var obs := ObserverOf(e, tag.walks);
    ObserverStarts(e, tag.walks);
    WalkStarts(obs, tag.gen, m.track.slots, items);
    WatchedUnder(m, e, items, tag, obs);
  }

  /** The boot time read at the start is not negative. */
  ghost predicate BootKnown(evs: seq<Event>) {
    forall i :: 0 <= i < |evs| && evs[i].Completed? ==> evs[i].env.sys.bootTime >= 0.0
  }

  lemma {:induction false} EveryStartNotNegative(evs: seq<Event>, n: nat)
    requires BootKnown(evs) && n < |Run(evs).feed| && Run(evs).feed[n].Apply?
    ensures AllStarted(Run(evs).feed[n].procs)
  {
    if evs != [] {
      var init, last := evs[..|evs| - 1], evs[|evs| - 1];
      if n < |Run(init).feed| {
        EveryStartNotNegative(init, n);
      } else {
        FoundStarts(Run(init), last.env, last.items);
      }
    }
  }

  /** So in every scan of every run the groups depend only on which processes it saw. */
  lemma NoScanMindsOrder(evs: seq<Event>, n: nat, procs: seq<Process>)
    requires BootKnown(evs) && n < |Run(evs).feed| && Run(evs).feed[n].Apply?
    requires multiset(procs) == multiset(Run(evs).feed[n].procs)
    ensures Grouped(procs) == Grouped(Run(evs).feed[n].procs)
  {
    EveryStartNotNegative(evs, n);
    GroupingIgnoresOrder(Run(evs).feed[n].procs, procs);
  }
}
