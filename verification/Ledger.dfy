/** The reference account of a run: a ledger of tenures. A tenure is the time one process
    stays in the state map without a break, with every reading stored for it. The ledger
    is kept by watching what is stored and what leaves the map; it knows no deltas. */
module Ledgers {
  import opened Wrappers
  import opened Procfs
  import opened StateMaps
  import opened Reading
  import opened Accounts
  import opened KeptProcesses

  type Tenure = seq<Put>

  /** Who a report speaks of: a process, and the group it is counted in. */
  datatype Tag = Tag(pid: Pid, startTicks: nat, name: string, user: string)

  function TagOf(p: Process): Tag { Tag(p.pid, p.startTicks, p.name, p.user) }

  /** A selection of reports: one group, one process, or all. */
  type Selection = Tag -> bool

  ghost predicate IgnoresGroup(sel: Selection) {
    forall pid, start, n, u, n', u' :: sel(Tag(pid, start, n, u)) == sel(Tag(pid, start, n', u'))
  }

  // ---- One tenure ----

  /** Consecutive readings of one process, each differenced against the one before. */
  ghost predicate Chain(log: Tenure) {
    && log != []
    && KeptLaw(None, log[0])
    && (forall k :: 1 <= k < |log| ==> KeptLaw(Some(log[k - 1].entry), log[k]))
    && (forall k :: 0 <= k < |log| ==> SameProcess(log[0], log[k]))
  }

  predicate SameProcess(a: Put, b: Put) {
    a.report.pid == b.report.pid && a.report.startTicks == b.report.startTicks
  }

  function ReadingsOf(log: Tenure, f: Field): (rs: Readings)
    ensures |rs| == |log|
  {
    seq(|log|, i requires 0 <= i < |log| => ReadingOf(log[i], f))
  }

  /** The account of a tenure under a selection. */
  function Account(log: Tenure, sel: Selection, f: Field): nat {
    if log != [] && sel(TagOf(log[0].report)) then Credited(ReadingsOf(log, f)) else 0
  }

  /** The tenure never changes its group. */
  ghost predicate OneGroup(log: Tenure) {
    forall k :: 0 <= k < |log| ==> TagOf(log[k].report) == TagOf(log[0].report)
  }

  ghost predicate Steady(log: Tenure, sel: Selection) {
    OneGroup(log) || IgnoresGroup(sel)
  }

  lemma AccountOfNew(put: Put, sel: Selection, f: Field)
    requires KeptLaw(None, put)
    ensures Account([put], sel, f) == 0 == Contribution(put.report, f)
  {
    assert CounterLaw(None, put, f);
  }

  lemma AccountGrows(log: Tenure, put: Put, sel: Selection, f: Field)
    requires Chain(log) && KeptLaw(Some(log[|log| - 1].entry), put) && SameProcess(log[0], put)
    requires Steady(log + [put], sel)
    ensures Account(log + [put], sel, f) ==
            Account(log, sel, f) + if sel(TagOf(put.report)) then Contribution(put.report, f) else 0
  {
    var last, rs := log[|log| - 1], ReadingsOf(log, f);
    assert ReadingsOf(log + [put], f) == rs + [ReadingOf(put, f)];
    CreditedAppend(rs, ReadingOf(put, f));
    assert CounterLaw(Some(last.entry), put, f);
    CarriedIsStored(log, |log| - 1, f);
    var all := log + [put];
    assert all[0] == log[0] && all[|log|] == put;
    if OneGroup(all) {
      assert TagOf(all[|log|].report) == TagOf(all[0].report);
    }
  }

  lemma CarriedIsStored(log: Tenure, k: nat, f: Field)
    requires Chain(log) && k < |log|
    ensures OrZero(ReadingOf(log[k], f)) == Raw(log[k].entry.counters, f)
  {
    if k == 0 {
      assert CounterLaw(None, log[0], f);
    } else {
      assert CounterLaw(Some(log[k - 1].entry), log[k], f);
    }
  }

  // ---- The ledger ----

  /** The state map with its ledger. `open` numbers the tenures still running. */
  datatype Track = Track(slots: Slots, ledger: seq<Tenure>, open: map<Pid, nat>)

  /** Which scan is running. */
  datatype ScanTag = ScanTag(scanNo: nat, gen: nat, cfg: ScanConfig, walks: Walks)

  /** Records one stored reading: in the running tenure, or as the first of a new one. */
  function Enter(ledger: seq<Tenure>, open: map<Pid, nat>, put: Put): (seq<Tenure>, map<Pid, nat>) {
    var pid := put.item.pid;
    if pid in open && open[pid] < |ledger| then (ledger[open[pid] := ledger[open[pid]] + [put]], open)
    else (ledger + [[put]], open[pid := |ledger|])
  }

  /** Tenures end where the state map has no entry any more. */
  function StillOpen(open: map<Pid, nat>, slots: Slots): map<Pid, nat> {
    map pid | pid in open && pid in slots :: open[pid]
  }

  function TrackItem(t: Track, tag: ScanTag, item: Listed, v: Verdict): Track {
    var slots := Remember(t.slots, tag.gen, item, v);
    var open := StillOpen(t.open, Cleared(t.slots, item));
    match v
    case Kept(_, entry, report) =>
      var put := Put(tag.scanNo, tag.cfg, tag.walks, item, entry, report);
      var (ledger, open') := Enter(t.ledger, open, put);
      Track(slots, ledger, open')
    case _ => Track(slots, t.ledger, open)
  }

  /** The ledger agrees with the state map: a tenure is open for exactly the remembered
      processes, it is the latest of its pid, and its last reading is what is remembered. */
  ghost predicate Books(t: Track) {
    && t.open.Keys == t.slots.Keys
    && (forall pid :: pid in t.open ==> Current(t, pid))
  }

  ghost predicate Chains(ledger: seq<Tenure>) {
    forall i :: 0 <= i < |ledger| ==> Chain(ledger[i])
  }

  ghost predicate Current(t: Track, pid: Pid)
    requires pid in t.open
  {
    && pid in t.slots
    && t.open[pid] < |t.ledger|
    && (var log := t.ledger[t.open[pid]];
        log != [] && log[0].report.pid == pid && log[|log| - 1].entry == t.slots[pid].entry)
    && (forall j :: t.open[pid] < j < |t.ledger| ==> OfOther(t.ledger[j], pid))
  }

  predicate OfOther(log: Tenure, pid: Pid) {
    log != [] ==> log[0].report.pid != pid
  }

  ghost predicate VerdictLaw(t: Track, tag: ScanTag, item: Listed, v: Verdict) {
    && (v.Kept? ==> KeptLaw(Recalled(t.slots, item), Put(tag.scanNo, tag.cfg, tag.walks, item, v.entry, v.report)))
  }

  /** Dropping entries keeps the books. */
  lemma BooksAfterDrop(t: Track, slots: Slots)
    requires Books(t) && slots.Keys <= t.slots.Keys
    requires forall pid :: pid in slots ==> slots[pid].entry == t.slots[pid].entry
    ensures Books(Track(slots, t.ledger, StillOpen(t.open, slots)))
  {
    var u := Track(slots, t.ledger, StillOpen(t.open, slots));
    forall pid | pid in u.open ensures Current(u, pid) {
      assert Current(t, pid);
    }
  }

  lemma BooksAfterNew(t: Track, put: Put, gen: nat)
    requires Books(t) && put.item.pid !in t.open && put.report.pid == put.item.pid
    ensures var (ledger, open) := Enter(t.ledger, t.open, put);
            Books(Track(t.slots[put.item.pid := Slot(put.entry, gen)], ledger, open))
  {
    var pid := put.item.pid;
    var (ledger, open) := Enter(t.ledger, t.open, put);
    var u := Track(t.slots[pid := Slot(put.entry, gen)], ledger, open);
    forall q | q in u.open ensures Current(u, q) {
      if q != pid {
        assert Current(t, q);
      }
    }
  }

  lemma BooksAfterGrowth(t: Track, put: Put, gen: nat)
    requires Books(t) && put.item.pid in t.open
    ensures var (ledger, open) := Enter(t.ledger, t.open, put);
            Books(Track(t.slots[put.item.pid := Slot(put.entry, gen)], ledger, open))
  {
    var pid := put.item.pid;
    assert Current(t, pid);
    var i := t.open[pid];
    var (ledger, open) := Enter(t.ledger, t.open, put);
    assert ledger[i][0] == t.ledger[i][0];
    var u := Track(t.slots[pid := Slot(put.entry, gen)], ledger, open);
    forall q | q in u.open ensures Current(u, q) {
      assert Current(t, q);
    }
  }

  lemma ChainGrows(log: Tenure, put: Put)
    requires Chain(log) && KeptLaw(Some(log[|log| - 1].entry), put)
    requires put.item.pid == log[0].report.pid && log[|log| - 1].entry.startTicks == put.entry.startTicks
    ensures Chain(log + [put]) && SameProcess(log[0], put)
  {
    var all, n := log + [put], |log|;
    assert SameProcess(log[0], log[n - 1]);
    LastStart(log);
    forall k | 1 <= k < |all| ensures KeptLaw(Some(all[k - 1].entry), all[k]) {
      if k < n {
        assert all[k] == log[k] && all[k - 1] == log[k - 1];
      } else {
        assert all[k] == put && all[k - 1] == log[n - 1];
      }
    }
    forall k | 0 <= k < |all| ensures SameProcess(all[0], all[k]) {
      if k < n {
        assert all[k] == log[k];
      }
    }
  }

  lemma LastStart(log: Tenure)
    requires Chain(log)
    ensures log[|log| - 1].entry.startTicks == log[0].report.startTicks
  {
    var n := |log|;
    assert SameProcess(log[0], log[n - 1]);
    if n > 1 {
      assert KeptLaw(Some(log[n - 2].entry), log[n - 1]);
    }
  }

  // ---- One listed process ----

  lemma RecalledIsOpen(slots: Slots, item: Listed)
    requires item.files.stat.Ok?
    ensures var left := Cleared(slots, item);
            && left.Keys <= slots.Keys
            && (forall pid :: pid in left ==> left[pid] == slots[pid])
            && (item.pid in left <==> Recalled(slots, item).Some?)
            && (item.pid in left ==>
                  Recalled(slots, item) == Some(left[item.pid].entry)
                  && left[item.pid].entry.startTicks == item.files.stat.value.startTicks)
  {
  }

  /** The part of a step that only drops entries. */
  function Dropped(t: Track, item: Listed): Track {
    var left := Cleared(t.slots, item);
    Track(left, t.ledger, StillOpen(t.open, left))
  }

  lemma DropKeepsBooks(t: Track, item: Listed)
    requires Books(t)
    ensures Books(Dropped(t, item))
  {
    BooksAfterDrop(t, Cleared(t.slots, item));
  }

  lemma BooksAfterStamp(t: Track, pid: Pid, gen: nat)
    requires Books(t)
    ensures Books(t.(slots := Stamped(t.slots, pid, gen)))
  {
    var u := t.(slots := Stamped(t.slots, pid, gen));
    forall q | q in u.open ensures Current(u, q) {
      assert Current(t, q);
    }
  }

  /** What a reading finds open is the tenure it continues. */
  ghost predicate Continues(t: Track, put: Put) {
    put.item.pid in t.open ==>
      && Current(t, put.item.pid)
      && (var log := t.ledger[t.open[put.item.pid]];
          && log[|log| - 1].entry.startTicks == put.entry.startTicks
          && KeptLaw(Some(log[|log| - 1].entry), put))
  }

  lemma KeptContinues(t: Track, tag: ScanTag, item: Listed, v: Verdict)
    requires Books(t) && v.Kept? && VerdictLaw(t, tag, item, v)
    ensures var put := Put(tag.scanNo, tag.cfg, tag.walks, item, v.entry, v.report);
            && put.report.pid == item.pid
            && Continues(Dropped(t, item), put)
            && (item.pid !in Dropped(t, item).open ==> KeptLaw(None, put))
  {
    RecalledIsOpen(t.slots, item);
    DropKeepsBooks(t, item);
    var d := Dropped(t, item);
    assert item.pid in d.open <==> item.pid in d.slots;
    if item.pid in d.open {
      assert Current(d, item.pid);
    }
  }

  lemma ItemKeepsBooks(t: Track, tag: ScanTag, item: Listed, v: Verdict)
    requires Books(t) && VerdictLaw(t, tag, item, v)
    ensures Books(TrackItem(t, tag, item, v))
  {
    var d := Dropped(t, item);
    DropKeepsBooks(t, item);
    match v {
      case Kept(_, entry, report) =>
        var put := Put(tag.scanNo, tag.cfg, tag.walks, item, entry, report);
        KeptContinues(t, tag, item, v);
        if item.pid in d.open {
          BooksAfterGrowth(d, put, tag.gen);
        } else {
          BooksAfterNew(d, put, tag.gen);
        }
      case Ignored => BooksAfterStamp(d, item.pid, tag.gen);
      case _ =>
    }
  }

  lemma ChainsWith(ledger: seq<Tenure>, i: nat, log: Tenure)
    requires Chains(ledger) && i <= |ledger| && Chain(log)
    ensures Chains(if i < |ledger| then ledger[i := log] else ledger + [log])
  {
  }

  lemma NewChain(put: Put)
    requires KeptLaw(None, put)
    ensures Chain([put])
  {
  }

  lemma ContinuesChain(t: Track, put: Put)
    requires put.item.pid in t.open && Continues(t, put) && Chains(t.ledger)
    ensures Chain(t.ledger[t.open[put.item.pid]] + [put])
  {
    ChainGrows(t.ledger[t.open[put.item.pid]], put);
  }

  lemma EnterKeepsChains(t: Track, put: Put)
    requires Books(t) && Chains(t.ledger) && put.report.pid == put.item.pid && Continues(t, put)
    requires put.item.pid !in t.open ==> KeptLaw(None, put)
    ensures Chains(Enter(t.ledger, t.open, put).0)
  {
    var pid := put.item.pid;
    if pid in t.open {
      var i := t.open[pid];
      assert Current(t, pid);
      ContinuesChain(t, put);
      ChainsWith(t.ledger, i, t.ledger[i] + [put]);
    } else {
      NewChain(put);
      ChainsWith(t.ledger, |t.ledger|, [put]);
    }
  }

  lemma ItemKeepsChains(t: Track, tag: ScanTag, item: Listed, v: Verdict)
    requires Books(t) && Chains(t.ledger) && VerdictLaw(t, tag, item, v)
    ensures Chains(TrackItem(t, tag, item, v).ledger)
  {
    if v.Kept? {
      DropKeepsBooks(t, item);
      KeptContinues(t, tag, item, v);
      EnterKeepsChains(Dropped(t, item), Put(tag.scanNo, tag.cfg, tag.walks, item, v.entry, v.report));
    }
  }

  // ---- Totals ----

  function Total(ledger: seq<Tenure>, sel: Selection, f: Field): nat {
    if ledger == [] then 0
    else Total(ledger[..|ledger| - 1], sel, f) + Account(ledger[|ledger| - 1], sel, f)
  }

  function Credit(procs: seq<Process>, sel: Selection, f: Field): nat {
    if procs == [] then 0
    else
      var p := procs[|procs| - 1];
      Credit(procs[..|procs| - 1], sel, f) + if sel(TagOf(p)) then Contribution(p, f) else 0
  }

  lemma {:induction false} TotalUpdate(ledger: seq<Tenure>, i: nat, log: Tenure, sel: Selection, f: Field)
    requires i < |ledger|
    ensures Total(ledger[i := log], sel, f) + Account(ledger[i], sel, f) == Total(ledger, sel, f) + Account(log, sel, f)
  {
    var n := |ledger| - 1;
    var updated := ledger[i := log];
    if i == n {
      assert updated[..n] == ledger[..n];
    } else {
      assert updated[..n] == ledger[..n][i := log];
      TotalUpdate(ledger[..n], i, log, sel, f);
    }
  }

  ghost predicate AllSteady(ledger: seq<Tenure>, sel: Selection) {
    forall i :: 0 <= i < |ledger| ==> Steady(ledger[i], sel)
  }

  /** Storing a reading adds to the ledger what its report adds to its group. */
  lemma EnterCredits(t: Track, put: Put, sel: Selection, f: Field)
    requires Books(t) && Chains(t.ledger) && put.report.pid == put.item.pid && Continues(t, put)
    requires put.item.pid !in t.open ==> KeptLaw(None, put)
    requires AllSteady(Enter(t.ledger, t.open, put).0, sel)
    ensures Total(Enter(t.ledger, t.open, put).0, sel, f) ==
            Total(t.ledger, sel, f) + if sel(TagOf(put.report)) then Contribution(put.report, f) else 0
  {
    var (ledger, _) := Enter(t.ledger, t.open, put);
    if put.item.pid in t.open {
      var i := t.open[put.item.pid];
      assert ledger[i] == t.ledger[i] + [put];
      ChainGrows(t.ledger[i], put);
      AccountGrows(t.ledger[i], put, sel, f);
      TotalUpdate(t.ledger, i, t.ledger[i] + [put], sel, f);
    } else {
      assert ledger[..|t.ledger|] == t.ledger;
      AccountOfNew(put, sel, f);
    }
  }

  lemma ItemCredits(t: Track, tag: ScanTag, item: Listed, v: Verdict, sel: Selection, f: Field)
    requires Books(t) && Chains(t.ledger) && VerdictLaw(t, tag, item, v)
    requires AllSteady(TrackItem(t, tag, item, v).ledger, sel)
    ensures Total(TrackItem(t, tag, item, v).ledger, sel, f) ==
            Total(t.ledger, sel, f) + if v.Kept? && sel(TagOf(v.report)) then Contribution(v.report, f) else 0
  {
    if v.Kept? {
      DropKeepsBooks(t, item);
      KeptContinues(t, tag, item, v);
      EnterCredits(Dropped(t, item), Put(tag.scanNo, tag.cfg, tag.walks, item, v.entry, v.report), sel, f);
    }
  }

  // ---- Groups ----

  ghost predicate OneGroupEach(ledger: seq<Tenure>) {
    forall i :: 0 <= i < |ledger| ==> OneGroup(ledger[i])
  }

  lemma GroupKept(log: Tenure, put: Put)
    requires Chain(log) && OneGroup(log) && put.cfg.cacheCmdline
    requires KeptLaw(Some(log[|log| - 1].entry), put)
    requires put.report.pid == log[0].report.pid && log[|log| - 1].entry.startTicks == put.entry.startTicks
    ensures OneGroup(log + [put])
  {
    var n := |log|;
    LastStart(log);
    LastIdentity(log);
    assert TagOf(log[n - 1].report) == TagOf(log[0].report);
    var all := log + [put];
    forall k | 0 <= k < |all| ensures TagOf(all[k].report) == TagOf(all[0].report) {
      if k < n {
        assert all[k] == log[k];
      }
    }
  }

  lemma LastIdentity(log: Tenure)
    requires Chain(log)
    ensures var last := log[|log| - 1];
            last.report.name == last.entry.name != "" && last.report.user == last.entry.user != ""
  {
    var n := |log|;
    if n > 1 {
      assert KeptLaw(Some(log[n - 2].entry), log[n - 1]);
    }
  }

  lemma GroupsWith(ledger: seq<Tenure>, i: nat, log: Tenure)
    requires OneGroupEach(ledger) && i <= |ledger| && OneGroup(log)
    ensures OneGroupEach(if i < |ledger| then ledger[i := log] else ledger + [log])
  {
  }

  lemma ContinuesGroup(t: Track, put: Put)
    requires put.item.pid in t.open && Continues(t, put) && put.report.pid == put.item.pid
    requires Chains(t.ledger) && OneGroupEach(t.ledger) && put.cfg.cacheCmdline
    ensures OneGroup(t.ledger[t.open[put.item.pid]] + [put])
  {
    GroupKept(t.ledger[t.open[put.item.pid]], put);
  }

  lemma EnterKeepsGroups(t: Track, put: Put)
    requires Books(t) && Chains(t.ledger) && put.report.pid == put.item.pid && Continues(t, put)
    requires OneGroupEach(t.ledger) && put.cfg.cacheCmdline
    ensures OneGroupEach(Enter(t.ledger, t.open, put).0)
  {
    var pid := put.item.pid;
    if pid in t.open {
      var i := t.open[pid];
      assert Current(t, pid);
      ContinuesGroup(t, put);
      GroupsWith(t.ledger, i, t.ledger[i] + [put]);
    } else {
      GroupsWith(t.ledger, |t.ledger|, [put]);
    }
  }

  lemma ItemKeepsGroups(t: Track, tag: ScanTag, item: Listed, v: Verdict)
    requires Books(t) && Chains(t.ledger) && VerdictLaw(t, tag, item, v)
    requires OneGroupEach(t.ledger) && tag.cfg.cacheCmdline
    ensures OneGroupEach(TrackItem(t, tag, item, v).ledger)
  {
    if v.Kept? {
      DropKeepsBooks(t, item);
      KeptContinues(t, tag, item, v);
      EnterKeepsGroups(Dropped(t, item), Put(tag.scanNo, tag.cfg, tag.walks, item, v.entry, v.report));
    }
  }
}
