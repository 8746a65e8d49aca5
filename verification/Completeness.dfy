/** Nothing is lost either: a process that stays listed has one tenure, and is credited
    everything it did since it was first kept. */
module Completeness {
  import opened Procfs
  import opened StateMaps
  import opened Reading
  import opened KeptProcesses
  import opened Ledgers
  import opened Runs
  import opened Truth
  import opened LazyReads

  /** The process is listed, and none of its files vanishes. */
  predicate Present(item: Listed, pid: Pid, startTicks: nat) {
    var f := item.files;
    && Identified(item, pid, startTicks)
    && !f.cmdline.Vanished? && !f.status.Vanished? && !f.statm.Vanished? && !f.io.Vanished?
    && !f.fds.Vanished? && !f.smaps.Vanished?
  }

  /** The pid is not listed for any other process. */
  predicate NoOther(items: seq<Listed>, pid: Pid, startTicks: nat) {
    forall j :: 0 <= j < |items| && items[j].pid == pid ==> Identified(items[j], pid, startTicks)
  }

  ghost predicate StaysListed(ev: Event, pid: Pid, startTicks: nat) {
    match ev
    case Completed(_, items, _, _) =>
      NoOther(items, pid, startTicks) && exists j :: 0 <= j < |items| && Present(items[j], pid, startTicks)
    case Cancelled(_, items) => NoOther(items, pid, startTicks)
    case ResetState => false
    case _ => true
  }

  /** The process is listed in every completed scan of the run, and the state map is never
      reset. It may be kept or ignored, and its `io` readable or not. */
  ghost predicate AlwaysListed(evs: seq<Event>, pid: Pid, startTicks: nat) {
    forall i :: 0 <= i < |evs| ==> StaysListed(evs[i], pid, startTicks)
  }

  /** Every tenure of the pid is the running one, and is the process's. */
  ghost predicate Sole(t: Track, pid: Pid, startTicks: nat) {
    && (forall i :: 0 <= i < |t.ledger| && !OfOther(t.ledger[i], pid) ==> pid in t.open && t.open[pid] == i)
    && (pid in t.slots ==> t.slots[pid].entry.startTicks == startTicks)
  }

  lemma EnterSole(t: Track, put: Put, gen: nat, pid: Pid, startTicks: nat)
    requires Books(t) && Sole(t, pid, startTicks)
    requires put.report.pid == put.item.pid
    requires put.item.pid == pid ==> put.entry.startTicks == startTicks
    ensures var (ledger, open) := Enter(t.ledger, t.open, put);
            Sole(Track(t.slots[put.item.pid := Slot(put.entry, gen)], ledger, open), pid, startTicks)
  {
    if put.item.pid in t.open {
      assert Current(t, put.item.pid);
    }
  }

  lemma DropSole(t: Track, item: Listed, pid: Pid, startTicks: nat)
    requires Sole(t, pid, startTicks) && Books(t)
    requires item.pid == pid ==> Identified(item, pid, startTicks)
    ensures Sole(Dropped(t, item), pid, startTicks)
  {
    assert pid in Cleared(t.slots, item) <==> pid in t.slots;
  }

  lemma StampSole(t: Track, stamped: Pid, gen: nat, pid: Pid, startTicks: nat)
    requires Sole(t, pid, startTicks)
    ensures Sole(t.(slots := Stamped(t.slots, stamped, gen)), pid, startTicks)
  {
  }

  lemma ItemSole(obs: Observer, tag: ScanTag, t: Track, item: Listed, pid: Pid, startTicks: nat)
    requires Lawful(obs, tag) && Books(t) && Sole(t, pid, startTicks)
    requires item.pid == pid ==> Identified(item, pid, startTicks)
    ensures Sole(TrackItem(t, tag, item, obs(Recalled(t.slots, item), item).verdict), pid, startTicks)
  {
    var v := obs(Recalled(t.slots, item), item).verdict;
    var d := Dropped(t, item);
    DropKeepsBooks(t, item);
    DropSole(t, item, pid, startTicks);
    match v
    case Kept(_, entry, report) =>
      assert LawfulAt(obs, tag, Recalled(t.slots, item), item);
      EnterSole(d, Put(tag.scanNo, tag.cfg, tag.walks, item, entry, report), tag.gen, pid, startTicks);
    case Ignored => StampSole(d, item.pid, tag.gen, pid, startTicks);
    case _ =>
  }

  /** Whatever is remembered of it, the process is kept or ignored. */
  ghost predicate Attends(obs: Observer, item: Listed) {
    forall prev :: obs(prev, item).verdict.Kept? || obs(prev, item).verdict.Ignored?
  }

  lemma PresentAttended(e: Env, walks: Walks, item: Listed, pid: Pid, startTicks: nat)
    requires Present(item, pid, startTicks)
    ensures Attends(ObserverOf(e, walks), item)
  {
    forall prev ensures var o := Observe(e, walks, prev, item); o.verdict.Kept? || o.verdict.Ignored? {
      var v := VisitOf(e, walks, prev, item);
      assert !v.Early().gone && !v.Late().gone;
    }
  }

  /** What is remembered under the pid carries the stamp of this scan. */
  ghost predicate Seen(t: Track, pid: Pid, gen: nat) {
    pid in t.slots ==> t.slots[pid].generation >= gen
  }

  lemma ItemStamped(obs: Observer, tag: ScanTag, t: Track, item: Listed, pid: Pid)
    ensures var u := TrackItem(t, tag, item, obs(Recalled(t.slots, item), item).verdict);
            && (Seen(t, pid, tag.gen) ==> Seen(u, pid, tag.gen))
            && (item.pid == pid && Attends(obs, item) ==> Seen(u, pid, tag.gen))
  {
  }

  ghost predicate Attended(obs: Observer, items: seq<Listed>, pid: Pid) {
    exists j :: 0 <= j < |items| && items[j].pid == pid && Attends(obs, items[j])
  }

  lemma {:induction false} WalkSole(obs: Observer, tag: ScanTag, t: Track, items: seq<Listed>, pid: Pid,
                                    startTicks: nat)
    requires Lawful(obs, tag) && Books(t) && Chains(t.ledger) && Sole(t, pid, startTicks)
    requires NoOther(items, pid, startTicks)
    ensures Sole(TrackAll(obs, tag, t, items), pid, startTicks)
  {
    if items != [] {
      var init, item := items[..|items| - 1], items[|items| - 1];
      WalkSole(obs, tag, t, init, pid, startTicks);
      WalkAgrees(obs, tag, t, init, EVERYONE, UTime);
      ItemSole(obs, tag, TrackAll(obs, tag, t, init), item, pid, startTicks);
    }
  }

  lemma {:induction false} WalkStamped(obs: Observer, tag: ScanTag, t: Track, items: seq<Listed>, pid: Pid)
    requires Attended(obs, items, pid)
    ensures Seen(TrackAll(obs, tag, t, items), pid, tag.gen)
  {
    var n := |items| - 1;
    var init, item := items[..n], items[n];
    ItemStamped(obs, tag, TrackAll(obs, tag, t, init), item, pid);
    if !(item.pid == pid && Attends(obs, item)) {
      var j :| 0 <= j < |items| && items[j].pid == pid && Attends(obs, items[j]);
      assert j < n && init[j] == items[j];
      WalkStamped(obs, tag, t, init, pid);
    }
  }

  lemma PruneSole(u: Track, gen: nat, pid: Pid, startTicks: nat)
    requires Books(u) && Sole(u, pid, startTicks) && Seen(u, pid, gen)
    ensures Sole(Pruned(u, gen), pid, startTicks)
  {
    assert pid in u.slots ==> pid in Survivors(u.slots, gen);
  }

  lemma WatchSole(m: Machine, e: Env, items: seq<Listed>, pid: Pid, startTicks: nat)
    requires Books(m.track) && Chains(m.track.ledger) && Sole(m.track, pid, startTicks)
    requires NoOther(items, pid, startTicks)
    ensures Sole(Watched(m, e, items), pid, startTicks)
    ensures (exists j :: 0 <= j < |items| && Present(items[j], pid, startTicks)) ==>
              Seen(Watched(m, e, items), pid, m.gen + 1)
  {
    var tag := TagOfScan(m, e.cfg);
    var obs := ObserverOf(e, tag.walks);
    ObserverIsLawful(e, tag);
    WalkSole(obs, tag, m.track, items, pid, startTicks);
    WatchedUnder(m, e, items, tag, obs);
    if j :| 0 <= j < |items| && Present(items[j], pid, startTicks) {
      PresentAttended(e, tag.walks, items[j], pid, startTicks);
      assert Attended(obs, items, pid);
      WalkStamped(obs, tag, m.track, items, pid);
    }
  }

  lemma StepSole(m: Machine, ev: Event, pid: Pid, startTicks: nat)
    requires Books(m.track) && Chains(m.track.ledger) && Sole(m.track, pid, startTicks)
    requires StaysListed(ev, pid, startTicks)
    ensures Sole(Step(m, ev).track, pid, startTicks)
  {
    match ev
    case Completed(e, items, _, _) =>
      WatchSole(m, e, items, pid, startTicks);
      WatchAgrees(m, e, items, EVERYONE, UTime);
      PruneSole(Watched(m, e, items), m.gen + 1, pid, startTicks);
    case Cancelled(e, items) => WatchSole(m, e, items, pid, startTicks);
    case _ =>
  }

  lemma {:induction false} RunSole(evs: seq<Event>, pid: Pid, startTicks: nat)
    requires AlwaysListed(evs, pid, startTicks)
    ensures Sole(Run(evs).track, pid, startTicks)
  {
    if evs != [] {
      var init := evs[..|evs| - 1];
      RunSole(init, pid, startTicks);
      Conservation(init, EVERYONE, UTime);
      StepSole(Run(init), evs[|evs| - 1], pid, startTicks);
    }
  }

  // ---- What the one tenure is worth ----

  lemma {:induction false} SettledOfNone(ledger: seq<Tenure>, pid: Pid, startTicks: nat, f: Field)
    requires NeverKept(ledger, pid, startTicks)
    ensures Settled(ledger, JustProcess(pid, startTicks), f) == 0
  {
    if ledger != [] {
      SettledOfNone(ledger[..|ledger| - 1], pid, startTicks, f);
    }
  }

  lemma {:induction false} SettledOfOne(ledger: seq<Tenure>, n: nat, pid: Pid, startTicks: nat, f: Field)
    requires n < |ledger| && IsTenureOf(ledger[n], pid, startTicks)
    requires forall i :: 0 <= i < |ledger| && i != n ==> !IsTenureOf(ledger[i], pid, startTicks)
    ensures Settled(ledger, JustProcess(pid, startTicks), f) == Worth(ledger[n], f)
  {
    var last := |ledger| - 1;
    if n == last {
      SettledOfNone(ledger[..last], pid, startTicks, f);
    } else {
      SettledOfOne(ledger[..last], n, pid, startTicks, f);
    }
  }

  lemma RunningIsItsOwn(t: Track, pid: Pid, startTicks: nat)
    requires Books(t) && Chains(t.ledger) && Sole(t, pid, startTicks) && pid in t.open
    ensures t.open[pid] < |t.ledger| && IsTenureOf(t.ledger[t.open[pid]], pid, startTicks)
  {
    assert Current(t, pid);
    LastStart(t.ledger[t.open[pid]]);
  }

  /** The process has at most one tenure, and all that is credited to it is what that
      tenure is worth. */
  ghost predicate Complete(m: Machine, pid: Pid, startTicks: nat, f: Field, credit: int) {
    var ledger := m.track.ledger;
    if pid in m.track.open then
      var n := m.track.open[pid];
      && n < |ledger| && IsTenureOf(ledger[n], pid, startTicks)
      && (forall i :: 0 <= i < |ledger| && i != n ==> !IsTenureOf(ledger[i], pid, startTicks))
      && credit == Worth(ledger[n], f)
    else NeverKept(ledger, pid, startTicks) && credit == 0
  }

  lemma SoleIsComplete(m: Machine, pid: Pid, startTicks: nat, f: Field)
    requires Books(m.track) && Chains(m.track.ledger) && Sole(m.track, pid, startTicks)
    ensures Complete(m, pid, startTicks, f, Settled(m.track.ledger, JustProcess(pid, startTicks), f))
  {
    var t := m.track;
    if pid in t.open {
      RunningIsItsOwn(t, pid, startTicks);
      SettledOfOne(t.ledger, t.open[pid], pid, startTicks, f);
    } else {
      SettledOfNone(t.ledger, pid, startTicks, f);
    }
  }

  /** Nothing is lost: a process that stays listed, however often it is ignored or its
      files are refused, through cancelled scans and failed listings, is credited, once it
      has been kept, what its one tenure is worth. */
  lemma NothingLost(evs: seq<Event>, pid: Pid, startTicks: nat, f: Field)
    requires AlwaysListed(evs, pid, startTicks) && Monotone(Run(evs).history)
    ensures var m, sel := Run(evs), JustProcess(pid, startTicks);
            Complete(m, pid, startTicks, f, FeedCredit(m.feed, sel, f) + Credit(m.lost, sel, f))
  {
    var sel := JustProcess(pid, startTicks);
    assert IgnoresGroup(sel);
    RunSole(evs, pid, startTicks);
    Conservation(evs, sel, f);
    ExactAccount(evs, sel, f);
    SoleIsComplete(Run(evs), pid, startTicks, f);
  }

  /** For a counter of `stat` that is exactly its last stored reading less its first. */
  lemma NothingOfStatLost(evs: seq<Event>, pid: Pid, startTicks: nat, f: Field)
    requires AlwaysListed(evs, pid, startTicks) && Monotone(Run(evs).history)
    requires FromStat(f) && pid in Run(evs).track.open
    ensures var m, sel := Run(evs), JustProcess(pid, startTicks);
            var n := m.track.open[pid];
            && n < |m.track.ledger| && m.track.ledger[n] != []
            && var log := m.track.ledger[n];
               FeedCredit(m.feed, sel, f) + Credit(m.lost, sel, f) ==
               Raw(log[|log| - 1].entry.counters, f) - Raw(log[0].entry.counters, f)
  {
    NothingLost(evs, pid, startTicks, f);
    Conservation(evs, EVERYONE, f);
    RunKeepsOrder(evs);
    StatWorth(Run(evs).track.ledger[Run(evs).track.open[pid]], f);
  }
}
