/** The ledger against the kernel's own counters: under the one assumption that a
    process's counters never decrease, tenures of one process cover disjoint stretches of
    its counters, in order, and every account has a closed form. */
module Truth {
  import opened Wrappers
  import opened Procfs
  import opened Reading
  import opened Accounts
  import opened KeptProcesses
  import opened Ledgers
  import opened Runs

  predicate SameListed(x: Listed, y: Listed) {
    && x.pid == y.pid && x.files.stat.Ok? && y.files.stat.Ok?
    && x.files.stat.value.startTicks == y.files.stat.value.startTicks
  }

  ghost predicate Rises(x: Files, y: Files) {
    forall f :: FileValue(x, f).Some? && FileValue(y, f).Some? ==> FileValue(x, f).value <= FileValue(y, f).value
  }

  /** If both speak of one process, its counters have not decreased from `x` to `y`. */
  ghost predicate NotAfter(x: Listed, y: Listed) {
    SameListed(x, y) ==> Rises(x.files, y.files)
  }

  /** The environment assumption: kernel counters of one process never decrease. */
  ghost predicate Monotone(history: seq<Listed>) {
    forall a, b :: 0 <= a < b < |history| ==> NotAfter(history[a], history[b])
  }

  ghost predicate Ascends(log: Tenure) {
    forall k, l :: 0 <= k < l < |log| ==> NotAfter(log[k].item, log[l].item)
  }

  ghost predicate Before(a: Tenure, b: Tenure) {
    forall k, l :: 0 <= k < |a| && 0 <= l < |b| ==> NotAfter(a[k].item, b[l].item)
  }

  /** Every stored reading was really listed. */
  ghost predicate Recorded(log: Tenure, history: seq<Listed>) {
    forall k :: 0 <= k < |log| ==> log[k].item in history
  }

  ghost predicate AllRecorded(ledger: seq<Tenure>, history: seq<Listed>) {
    forall i :: 0 <= i < |ledger| ==> Recorded(ledger[i], history)
  }

  /** Readings of one process ascend within a tenure and from each tenure to the next. */
  ghost predicate InOrder(ledger: seq<Tenure>) {
    && (forall i :: 0 <= i < |ledger| ==> Ascends(ledger[i]))
    && (forall i, j :: 0 <= i < j < |ledger| ==> Before(ledger[i], ledger[j]))
  }

  lemma RecordedMore(ledger: seq<Tenure>, h: seq<Listed>, more: seq<Listed>)
    requires AllRecorded(ledger, h)
    ensures AllRecorded(ledger, h + more)
  {
    forall i | 0 <= i < |ledger| ensures Recorded(ledger[i], h + more) {
      assert Recorded(ledger[i], h);
    }
  }

  lemma RecordedIsBefore(log: Tenure, h: seq<Listed>, item: Listed)
    requires Recorded(log, h) && Monotone(h + [item])
    ensures forall k :: 0 <= k < |log| ==> NotAfter(log[k].item, item)
  {
    var all := h + [item];
    forall k | 0 <= k < |log| ensures NotAfter(log[k].item, item) {
      var a :| 0 <= a < |h| && h[a] == log[k].item;
      assert NotAfter(all[a], all[|h|]);
    }
  }

  lemma ChainPid(log: Tenure, k: nat)
    requires Chain(log) && k < |log|
    ensures log[k].item.pid == log[0].report.pid
  {
    assert SameProcess(log[0], log[k]);
    if k > 0 {
      assert KeptLaw(Some(log[k - 1].entry), log[k]);
    }
  }

  lemma EnterNew(ledger: seq<Tenure>, put: Put, h: seq<Listed>)
    requires InOrder(ledger) && AllRecorded(ledger, h) && Monotone(h + [put.item])
    ensures InOrder(ledger + [[put]]) && AllRecorded(ledger + [[put]], h + [put.item])
  {
    RecordedMore(ledger, h, [put.item]);
    var all := ledger + [[put]];
    forall i, j | 0 <= i < j < |all| ensures Before(all[i], all[j]) {
      if j == |ledger| {
        assert Recorded(ledger[i], h);
        RecordedIsBefore(ledger[i], h, put.item);
      }
    }
    forall i | 0 <= i < |all| ensures Recorded(all[i], h + [put.item]) {
      if i < |ledger| {
        assert Recorded(ledger[i], h + [put.item]);
      }
    }
  }

  lemma AscendsMore(log: Tenure, put: Put, h: seq<Listed>)
    requires Ascends(log) && Recorded(log, h) && Monotone(h + [put.item])
    ensures Ascends(log + [put]) && Recorded(log + [put], h + [put.item])
  {
    RecordedIsBefore(log, h, put.item);
    var all := log + [put];
    forall k, l | 0 <= k < l < |all| ensures NotAfter(all[k].item, all[l].item) {
      if l < |log| {
        assert NotAfter(log[k].item, log[l].item);
      }
    }
  }

  lemma BeforeMore(a: Tenure, log: Tenure, put: Put, h: seq<Listed>)
    requires Before(a, log) && Recorded(a, h) && Monotone(h + [put.item])
    ensures Before(a, log + [put])
  {
    RecordedIsBefore(a, h, put.item);
    var all := log + [put];
    forall k, l | 0 <= k < |a| && 0 <= l < |all| ensures NotAfter(a[k].item, all[l].item) {
      if l < |log| {
        assert NotAfter(a[k].item, log[l].item);
      }
    }
  }

  lemma MoreBeforeOther(log: Tenure, put: Put, b: Tenure)
    requires Before(log, b) && Chain(b) && OfOther(b, put.item.pid)
    ensures Before(log + [put], b)
  {
    var all := log + [put];
    forall k, l | 0 <= k < |all| && 0 <= l < |b| ensures NotAfter(all[k].item, b[l].item) {
      if k < |log| {
        assert NotAfter(log[k].item, b[l].item);
      } else {
        ChainPid(b, l);
      }
    }
  }

  lemma GrowthInOrder(ledger: seq<Tenure>, n: nat, put: Put, h: seq<Listed>)
    requires n < |ledger| && Chains(ledger) && forall j :: n < j < |ledger| ==> OfOther(ledger[j], put.item.pid)
    requires InOrder(ledger) && AllRecorded(ledger, h) && Monotone(h + [put.item])
    ensures InOrder(ledger[n := ledger[n] + [put]])
  {
    var log := ledger[n];
    var more := ledger[n := log + [put]];
    assert Recorded(log, h) && Ascends(log);
    AscendsMore(log, put, h);
    forall i, j | 0 <= i < j < |more| ensures Before(more[i], more[j]) {
      assert Before(ledger[i], ledger[j]);
      if j == n {
        assert Recorded(ledger[i], h);
        BeforeMore(ledger[i], log, put, h);
      } else if i == n {
        assert OfOther(ledger[j], put.item.pid) && Chain(ledger[j]);
        MoreBeforeOther(log, put, ledger[j]);
      }
    }
  }

  lemma GrowthRecorded(ledger: seq<Tenure>, n: nat, put: Put, h: seq<Listed>)
    requires n < |ledger| && AllRecorded(ledger, h)
    ensures AllRecorded(ledger[n := ledger[n] + [put]], h + [put.item])
  {
    var more := ledger[n := ledger[n] + [put]];
    RecordedMore(ledger, h, [put.item]);
    forall i | 0 <= i < |more| ensures Recorded(more[i], h + [put.item]) {
      assert Recorded(ledger[i], h + [put.item]);
    }
  }

  lemma EnterGrowth(t: Track, put: Put, h: seq<Listed>)
    requires Books(t) && Chains(t.ledger) && put.item.pid in t.open
    requires InOrder(t.ledger) && AllRecorded(t.ledger, h) && Monotone(h + [put.item])
    ensures var ledger := Enter(t.ledger, t.open, put).0;
            InOrder(ledger) && AllRecorded(ledger, h + [put.item])
  {
    assert Current(t, put.item.pid);
    GrowthInOrder(t.ledger, t.open[put.item.pid], put, h);
    GrowthRecorded(t.ledger, t.open[put.item.pid], put, h);
  }

  lemma ItemKeepsOrder(t: Track, tag: ScanTag, item: Listed, v: Verdict, h: seq<Listed>)
    requires Books(t) && Chains(t.ledger) && VerdictLaw(t, tag, item, v)
    requires InOrder(t.ledger) && AllRecorded(t.ledger, h) && Monotone(h + [item])
    ensures var u := TrackItem(t, tag, item, v);
            InOrder(u.ledger) && AllRecorded(u.ledger, h + [item])
  {
    if v.Kept? {
      var put := Put(tag.scanNo, tag.cfg, tag.walks, item, v.entry, v.report);
      var d := Dropped(t, item);
      DropKeepsBooks(t, item);
      if item.pid in d.open {
        EnterGrowth(d, put, h);
      } else {
        EnterNew(t.ledger, put, h);
      }
    } else {
      RecordedMore(t.ledger, h, [item]);
    }
  }

  // ---- Runs ----

  /** Every process in every group. */
  const EVERYONE: Selection := (t: Tag) => true

  ghost predicate Ordered(m: Machine) {
    InOrder(m.track.ledger) && AllRecorded(m.track.ledger, m.history)
  }

  lemma MonotonePrefix(h: seq<Listed>, more: seq<Listed>)
    requires Monotone(h + more)
    ensures Monotone(h)
  {
    var all := h + more;
    forall a, b | 0 <= a < b < |h| ensures NotAfter(h[a], h[b]) {
      assert NotAfter(all[a], all[b]);
    }
  }

  lemma {:induction false} WalkKeepsOrder(obs: Observer, tag: ScanTag, t: Track, items: seq<Listed>, h: seq<Listed>)
    requires Lawful(obs, tag) && Books(t) && Chains(t.ledger)
    requires InOrder(t.ledger) && AllRecorded(t.ledger, h) && Monotone(h + items)
    ensures var u := TrackAll(obs, tag, t, items);
            InOrder(u.ledger) && AllRecorded(u.ledger, h + items)
  {
    if items == [] {
      assert h + items == h;
    } else {
      var init, item := items[..|items| - 1], items[|items| - 1];
      assert h + items == (h + init) + [item];
      MonotonePrefix(h + init, [item]);
      WalkKeepsOrder(obs, tag, t, init, h);
      WalkAgrees(obs, tag, t, init, EVERYONE, UTime);
      var u := TrackAll(obs, tag, t, init);
      assert LawfulAt(obs, tag, Recalled(u.slots, item), item);
      ItemKeepsOrder(u, tag, item, obs(Recalled(u.slots, item), item).verdict, h + init);
    }
  }

  lemma WatchKeepsOrder(m: Machine, e: Env, items: seq<Listed>)
    requires Books(m.track) && Chains(m.track.ledger) && Ordered(m) && Monotone(m.history + items)
    ensures var u := Watched(m, e, items);
            InOrder(u.ledger) && AllRecorded(u.ledger, m.history + items)
  {
    var tag := TagOfScan(m, e.cfg);
    var obs := ObserverOf(e, tag.walks);
    ObserverIsLawful(e, tag);
    WalkKeepsOrder(obs, tag, m.track, items, m.history);
    WatchedUnder(m, e, items, tag, obs);
  }

  lemma {:induction false} RunKeepsOrder(evs: seq<Event>)
    requires Monotone(Run(evs).history)
    ensures Ordered(Run(evs))
  {
    if evs != [] {
      var init, last := evs[..|evs| - 1], evs[|evs| - 1];
      var m := Run(init);
      if last.Completed? || last.Cancelled? {
        assert Run(evs).history == m.history + last.items;
        MonotonePrefix(m.history, last.items);
        RunKeepsOrder(init);
        Conservation(init, EVERYONE, UTime);
        WatchKeepsOrder(m, last.env, last.items);
      } else {
        RunKeepsOrder(init);
      }
    }
  }

  // ---- Closed forms ----

  /** What a tenure is worth: the sum of the final readings of its readable runs, less
      its first reading if that was readable. */
  function Worth(log: Tenure, f: Field): int {
    if log == [] then 0 else Finals(ReadingsOf(log, f)) - OrZero(ReadingOf(log[0], f))
  }

  function Settled(ledger: seq<Tenure>, sel: Selection, f: Field): int {
    if ledger == [] then 0
    else
      var log := ledger[|ledger| - 1];
      Settled(ledger[..|ledger| - 1], sel, f)
      + if log != [] && sel(TagOf(log[0].report)) then Worth(log, f) else 0
  }

  lemma StoredIsFileValue(log: Tenure, k: nat, f: Field)
    requires Chain(log) && k < |log| && ReadingOf(log[k], f).Some?
    ensures FileValue(log[k].item.files, f) == ReadingOf(log[k], f)
  {
    if k == 0 {
      assert CounterLaw(None, log[0], f);
    } else {
      assert CounterLaw(Some(log[k - 1].entry), log[k], f);
    }
  }

  lemma SameListedInTenure(log: Tenure, k: nat, l: nat)
    requires Chain(log) && k < |log| && l < |log|
    ensures SameListed(log[k].item, log[l].item)
  {
    IdentityOf(log, k);
    IdentityOf(log, l);
    assert SameProcess(log[0], log[k]) && SameProcess(log[0], log[l]);
  }

  lemma IdentityOf(log: Tenure, k: nat)
    requires Chain(log) && k < |log|
    ensures log[k].item.files.stat.Ok? && log[k].item.pid == log[0].report.pid
    ensures log[k].item.files.stat.value.startTicks == log[0].report.startTicks
  {
    ChainPid(log, k);
    assert SameProcess(log[0], log[k]);
    if k > 0 {
      assert KeptLaw(Some(log[k - 1].entry), log[k]);
    }
  }

  lemma TenureAscends(log: Tenure, f: Field)
    requires Chain(log) && Ascends(log)
    ensures Ascending(ReadingsOf(log, f))
  {
    var rs := ReadingsOf(log, f);
    forall k, l | 0 <= k < l < |rs| && rs[k].Some? && rs[l].Some? ensures rs[k].value <= rs[l].value {
      StoredIsFileValue(log, k, f);
      StoredIsFileValue(log, l, f);
      SameListedInTenure(log, k, l);
      assert NotAfter(log[k].item, log[l].item);
    }
  }

  lemma AccountIsWorth(log: Tenure, sel: Selection, f: Field)
    requires Chain(log) && Ascends(log)
    ensures Account(log, sel, f) == if sel(TagOf(log[0].report)) then Worth(log, f) else 0
  {
    TenureAscends(log, f);
    CreditIsFinals(ReadingsOf(log, f));
  }

  lemma PrefixInOrder(ledger: seq<Tenure>)
    requires Chains(ledger) && InOrder(ledger) && ledger != []
    ensures Chains(ledger[..|ledger| - 1]) && InOrder(ledger[..|ledger| - 1])
  {
    var init := ledger[..|ledger| - 1];
    forall i, j | 0 <= i < j < |init| ensures Before(init[i], init[j]) {
      assert Before(ledger[i], ledger[j]);
    }
  }

  lemma {:induction false} TotalIsSettled(ledger: seq<Tenure>, sel: Selection, f: Field)
    requires Chains(ledger) && InOrder(ledger)
    ensures Total(ledger, sel, f) == Settled(ledger, sel, f)
  {
    if ledger != [] {
      var n := |ledger| - 1;
      PrefixInOrder(ledger);
      TotalIsSettled(ledger[..n], sel, f);
      AccountIsWorth(ledger[n], sel, f);
    }
  }

  /** The exact account of every run: published plus thrown away equals, over the tenures
      of the selected processes, the final readings of the readable runs less the first
      reading. */
  lemma ExactAccount(evs: seq<Event>, sel: Selection, f: Field)
    requires IgnoresGroup(sel) || AllCached(evs)
    requires Monotone(Run(evs).history)
    ensures var m := Run(evs);
            FeedCredit(m.feed, sel, f) + Credit(m.lost, sel, f) == Settled(m.track.ledger, sel, f)
  {
    Conservation(evs, sel, f);
    RunKeepsOrder(evs);
    TotalIsSettled(Run(evs).track.ledger, sel, f);
  }

  /** For the counters of `stat`, which is read whenever a process is kept, a tenure is
      worth its last reading minus its first. */
  lemma StatWorth(log: Tenure, f: Field)
    requires Chain(log) && Ascends(log) && FromStat(f)
    ensures Worth(log, f) == Raw(log[|log| - 1].entry.counters, f) - Raw(log[0].entry.counters, f) >= 0
  {
    var rs := ReadingsOf(log, f);
    TenureAscends(log, f);
    CreditOfAllReadable(rs);
    CreditIsFinals(rs);
  }

  /** The same for any counter whose file was readable on every scan of the tenure. */
  lemma ReadableWorth(log: Tenure, f: Field)
    requires Chain(log) && Ascends(log) && AllReadable(ReadingsOf(log, f))
    ensures Worth(log, f) == Raw(log[|log| - 1].entry.counters, f) - Raw(log[0].entry.counters, f)
  {
    var rs := ReadingsOf(log, f);
    TenureAscends(log, f);
    CreditOfAllReadable(rs);
    CreditIsFinals(rs);
    assert rs[0].Some? && rs[|rs| - 1].Some?;
  }

  /** Unreadable scans in between inflate a tenure's account: it is the true growth
      exactly when no non-zero readable run is followed by another and the counter was
      readable, or zero, at first. */
  lemma TenureExact(log: Tenure, f: Field)
    requires Chain(log) && Ascends(log)
    ensures var rs := ReadingsOf(log, f);
            Worth(log, f) == Growth(rs) <==>
              (forall i: nat :: !CountedTwice(rs, i)) && (rs[0].Some? || OrZero(FirstReadable(rs)) == 0)
    ensures Worth(log, f) >= Growth(ReadingsOf(log, f))
  {
    var rs := ReadingsOf(log, f);
    TenureAscends(log, f);
    CreditIsFinals(rs);
    GapsInflate(rs);
    CreditExact(rs);
  }

  // ---- No double and no foreign counting ----

  /** One process, whatever group it is counted in. */
  function JustProcess(pid: Pid, startTicks: nat): Selection {
    (t: Tag) => t.pid == pid && t.startTicks == startTicks
  }

  /** Tenures of one process cover disjoint stretches of each counter, in ledger order,
      as far as the ends of the stretches could be read. */
  lemma TenuresDisjoint(ledger: seq<Tenure>, i: nat, j: nat, f: Field)
    requires Chains(ledger) && InOrder(ledger) && i < j < |ledger|
    requires SameProcess(ledger[i][0], ledger[j][0])
    requires Carries(ledger[i][|ledger[i]| - 1].report, f) && Carries(ledger[j][0].report, f)
    ensures Raw(ledger[i][|ledger[i]| - 1].entry.counters, f) <= Raw(ledger[j][0].entry.counters, f)
  {
    var a, b := ledger[i], ledger[j];
    var k := |a| - 1;
    assert Before(a, b);
    IdentityOf(a, k);
    IdentityOf(b, 0);
    StoredIsFileValue(a, k, f);
    StoredIsFileValue(b, 0, f);
    assert NotAfter(a[k].item, b[0].item);
  }

  /** The counter's file could be read whenever the process was stored; that of the `stat`
      counters always is. */
  ghost predicate AlwaysRead(ledger: seq<Tenure>, sel: Selection, f: Field) {
    forall i :: 0 <= i < |ledger| ==> TenureRead(ledger[i], sel, f)
  }

  ghost predicate TenureRead(log: Tenure, sel: Selection, f: Field) {
    log != [] && sel(TagOf(log[0].report)) ==> forall k :: 0 <= k < |log| ==> Carries(log[k].report, f)
  }

  lemma StatAlwaysRead(ledger: seq<Tenure>, sel: Selection, f: Field)
    requires FromStat(f)
    ensures AlwaysRead(ledger, sel, f)
  {
  }

  /** Every selected reading lies between `lo` and `hi`. */
  ghost predicate Within(ledger: seq<Tenure>, sel: Selection, f: Field, lo: int, hi: int) {
    forall i :: 0 <= i < |ledger| ==> TenureWithin(ledger[i], sel, f, lo, hi)
  }

  ghost predicate TenureWithin(log: Tenure, sel: Selection, f: Field, lo: int, hi: int) {
    log != [] && sel(TagOf(log[0].report)) ==>
      lo <= Raw(log[0].entry.counters, f) && Raw(log[|log| - 1].entry.counters, f) <= hi
  }

  /** Below the last selected tenure's first reading lies everything before it. */
  lemma EarlierWithin(ledger: seq<Tenure>, pid: Pid, startTicks: nat, f: Field, lo: int, hi: int, top: int)
    requires Chains(ledger) && InOrder(ledger) && ledger != []
    requires AlwaysRead(ledger, JustProcess(pid, startTicks), f)
    requires Within(ledger, JustProcess(pid, startTicks), f, lo, hi)
    requires var log := ledger[|ledger| - 1];
             top == if JustProcess(pid, startTicks)(TagOf(log[0].report)) then Raw(log[0].entry.counters, f) else hi
    ensures Within(ledger[..|ledger| - 1], JustProcess(pid, startTicks), f, lo, top)
  {
    var n := |ledger| - 1;
    var sel := JustProcess(pid, startTicks);
    forall i | 0 <= i < n ensures TenureWithin(ledger[..n][i], sel, f, lo, top) {
      assert TenureWithin(ledger[i], sel, f, lo, hi);
      assert TenureRead(ledger[i], sel, f) && TenureRead(ledger[n], sel, f);
      if sel(TagOf(ledger[n][0].report)) && sel(TagOf(ledger[i][0].report)) {
        TenuresDisjoint(ledger, i, n, f);
      }
    }
  }

  lemma {:induction false} SettledWithin(ledger: seq<Tenure>, pid: Pid, startTicks: nat, f: Field, lo: int, hi: int)
    requires Chains(ledger) && InOrder(ledger) && lo <= hi
    requires AlwaysRead(ledger, JustProcess(pid, startTicks), f)
    requires Within(ledger, JustProcess(pid, startTicks), f, lo, hi)
    ensures Settled(ledger, JustProcess(pid, startTicks), f) <= hi - lo
  {
    if ledger != [] {
      var sel := JustProcess(pid, startTicks);
      var n := |ledger| - 1;
      var init, log := ledger[..n], ledger[n];
      PrefixInOrder(ledger);
      assert TenureWithin(log, sel, f, lo, hi) && TenureRead(log, sel, f);
      var top := hi;
      if sel(TagOf(log[0].report)) {
        ReadableWorth(log, f);
        top := Raw(log[0].entry.counters, f);
      }
      EarlierWithin(ledger, pid, startTicks, f, lo, hi, top);
      SettledWithin(init, pid, startTicks, f, lo, top);
    }
  }

  /** All the kernel ever showed of the process's counter lies between `lo` and `hi`. */
  ghost predicate Shown(history: seq<Listed>, pid: Pid, startTicks: nat, f: Field, lo: int, hi: int) {
    forall a :: 0 <= a < |history| ==> ShownAt(history[a], pid, startTicks, f, lo, hi)
  }

  ghost predicate ShownAt(x: Listed, pid: Pid, startTicks: nat, f: Field, lo: int, hi: int) {
    x.pid == pid && x.files.stat.Ok? && x.files.stat.value.startTicks == startTicks && FileValue(x.files, f).Some? ==>
      lo <= FileValue(x.files, f).value <= hi
  }

  lemma ShownIsWithin(m: Machine, pid: Pid, startTicks: nat, f: Field, lo: int, hi: int)
    requires Chains(m.track.ledger) && Ordered(m)
    requires AlwaysRead(m.track.ledger, JustProcess(pid, startTicks), f)
    requires Shown(m.history, pid, startTicks, f, lo, hi)
    ensures Within(m.track.ledger, JustProcess(pid, startTicks), f, lo, hi)
  {
    var ledger := m.track.ledger;
    forall i | 0 <= i < |ledger| ensures TenureWithin(ledger[i], JustProcess(pid, startTicks), f, lo, hi) {
      var log := ledger[i];
      assert Recorded(log, m.history) && Chain(log);
      forall k | k == 0 || k == |log| - 1
        ensures ShownAt(log[k].item, pid, startTicks, f, lo, hi)
      {
        assert log[k].item in m.history;
      }
      IdentityOf(log, 0);
      IdentityOf(log, |log| - 1);
      assert TenureRead(log, JustProcess(pid, startTicks), f);
      if JustProcess(pid, startTicks)(TagOf(log[0].report)) {
        StoredIsFileValue(log, 0, f);
        StoredIsFileValue(log, |log| - 1, f);
      }
    }
  }

  /** No double and no foreign counting: over every run, all the deltas of a counter ever
      reported for one process, published or thrown away, add up to no more than the growth
      the kernel ever showed for that very process, if the counter's file could be read
      whenever the process was stored. */
  lemma NoDoubleCounting(evs: seq<Event>, pid: Pid, startTicks: nat, f: Field, lo: int, hi: int)
    requires lo <= hi && AlwaysRead(Run(evs).track.ledger, JustProcess(pid, startTicks), f)
    requires Monotone(Run(evs).history) && Shown(Run(evs).history, pid, startTicks, f, lo, hi)
    ensures var m := Run(evs);
            var sel := JustProcess(pid, startTicks);
            FeedCredit(m.feed, sel, f) + Credit(m.lost, sel, f) <= hi - lo
  {
    var m, sel := Run(evs), JustProcess(pid, startTicks);
    assert IgnoresGroup(sel);
    ExactAccount(evs, sel, f);
    Conservation(evs, sel, f);
    RunKeepsOrder(evs);
    ShownIsWithin(m, pid, startTicks, f, lo, hi);
    SettledWithin(m.track.ledger, pid, startTicks, f, lo, hi);
  }

  /** In particular for the counters of `stat`, whatever else could be read. */
  lemma NoDoubleCountingOfStat(evs: seq<Event>, pid: Pid, startTicks: nat, f: Field, lo: int, hi: int)
    requires FromStat(f) && lo <= hi
    requires Monotone(Run(evs).history) && Shown(Run(evs).history, pid, startTicks, f, lo, hi)
    ensures var m := Run(evs);
            var sel := JustProcess(pid, startTicks);
            FeedCredit(m.feed, sel, f) + Credit(m.lost, sel, f) <= hi - lo
  {
    StatAlwaysRead(Run(evs).track.ledger, JustProcess(pid, startTicks), f);
    NoDoubleCounting(evs, pid, startTicks, f, lo, hi);
  }
}
