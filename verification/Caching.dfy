/** Caching the command line and the owner changes nothing that is published, as long as
    what is cached does not change: the run with `cache_cmdline` on refines the run with
    it off. */
module Caching {
  import opened Wrappers
  import opened Decimal
  import opened Procfs
  import opened StateMaps
  import opened Reading
  import opened Ledgers
  import opened Runs
  import F = Filters
  import N = Namers

  /** What is fixed for the lifetime of a process. */
  datatype Profile = Profile(comm: string, exe: string, argv: seq<string>, uid: nat)

  type Profiles = (Pid, nat) -> Profile

  /** Naming and users as they stay between two `ResetState`s. */
  datatype Naming = Naming(namer: N.Namer, users: nat -> string, resolve: bool) {

    function Name(p: Profile): string {
      N.GroupName(namer, N.NameInput(p.comm, p.exe, p.argv))
    }

    function User(p: Profile): string {
      if resolve then users(p.uid) else UidString(p.uid)
    }

    /** The user of the group key: the number stands in for an account without a name. */
    function KeyUser(p: Profile): string {
      if User(p) == "" then UidString(p.uid) else User(p)
    }
  }

  /** The listed process shows its fixed attributes, and they can be read. */
  predicate Faithful(ids: Profiles, item: Listed) {
    match item.files.stat
    case Ok(st) =>
      var p := ids(item.pid, st.startTicks);
      && st.comm == p.comm && item.files.exe == p.exe
      && item.files.cmdline == Ok(p.argv)
      && item.files.status.Ok? && item.files.status.value.uid == p.uid
    case _ => true
  }

  ghost predicate Uses(e: Env, naming: Naming) {
    e.namer == naming.namer && e.users == naming.users && e.cfg.resolveUsers == naming.resolve
  }

  /** The filter cannot tell whether the owner was cached: the account has a name, or its
      number is not ignored, or the process is dropped for another reason. */
  ghost predicate Harmless(naming: Naming, f: F.Filter, p: Profile, ppid: int) {
    || naming.User(p) != ""
    || UidString(p.uid) !in f.ignoreUsers
    || !F.EagerlyKeeps(f, p.comm, p.argv, "", ppid)
  }

  /** What only `status` shows is the same too: `status` is always read, or no rule keeps
      the process once its owner is cached. */
  ghost predicate StatusAlike(strict: bool, naming: Naming, e: Env, p: Profile, ppid: int) {
    strict ==> e.cfg.readStatus || !F.EagerlyKeeps(e.filter, p.comm, p.argv, naming.KeyUser(p), ppid)
  }

  ghost predicate StatusAlikeItem(strict: bool, naming: Naming, e: Env, ids: Profiles, item: Listed) {
    item.files.stat.Ok? ==>
      StatusAlike(strict, naming, e, ids(item.pid, item.files.stat.value.startTicks), item.files.stat.value.ppid)
  }

  ghost predicate HarmlessItem(naming: Naming, f: F.Filter, ids: Profiles, item: Listed) {
    item.files.stat.Ok? ==>
      Harmless(naming, f, ids(item.pid, item.files.stat.value.startTicks), item.files.stat.value.ppid)
  }

  function Uncached(e: Env): Env { e.(cfg := e.cfg.(cacheCmdline := false)) }

  // ---- What agrees ----

  /** Equal, except that the context-switch counters may differ unless `strict`. */
  predicate AlikeCounters(strict: bool, a: Counters, b: Counters) {
    && a.utimeTicks == b.utimeTicks && a.stimeTicks == b.stimeTicks
    && a.minorFaults == b.minorFaults && a.majorFaults == b.majorFaults
    && a.readBytes == b.readBytes && a.writeBytes == b.writeBytes
    && (strict ==> a == b)
  }

  predicate AlikeEntries(strict: bool, a: Entry, b: Entry) {
    && a.startTicks == b.startTicks && a.name == b.name && a.user == b.user && a.uid == b.uid
    && a.fd == b.fd && a.pss == b.pss
    && AlikeCounters(strict, a.counters, b.counters)
  }

  /** Reports agree in everything but what only `status` shows: context switches, swap,
      and whether `status` was read. With `strict` they are equal. */
  predicate AlikeReports(strict: bool, a: Process, b: Process) {
    && a == b.(deltas := a.deltas, swapBytes := a.swapBytes, haveStatus := a.haveStatus)
    && AlikeCounters(strict, a.deltas, b.deltas)
    && (strict ==> a == b)
  }

  ghost predicate AlikeObservations(strict: bool, a: Observation, b: Observation) {
    && a.errs == b.errs
    && (match a.verdict
        case Kept(_, entry, report) =>
          && b.verdict.Kept?
          && AlikeEntries(strict, entry, b.verdict.entry)
          && AlikeReports(strict, report, b.verdict.report)
        case v => v == b.verdict)
  }

  /** The entry holds the group key of its process. */
  predicate Keyed(naming: Naming, p: Profile, e: Entry) {
    e.name == naming.Name(p) && e.user == naming.KeyUser(p) && e.uid == p.uid
  }

  predicate AlikePrev(strict: bool, naming: Naming, p: Profile, a: Option<Entry>, b: Option<Entry>) {
    match a
    case None => b.None?
    case Some(x) => b.Some? && AlikeEntries(strict, x, b.value) && Keyed(naming, p, x)
  }

  // ---- One process ----

  /** The same process, visited with and without the cache. */
  ghost predicate Pair(strict: bool, naming: Naming, p: Profile, c: Visit, u: Visit) {
    && u.env == Uncached(c.env) && c.env.cfg.cacheCmdline && Uses(c.env, naming)
    && F.Compiled(c.env.filter)
    && StatusAlike(strict, naming, c.env, p, c.stat.ppid)
    && u.walks == c.walks && u.pid == c.pid && u.stat == c.stat && u.files == c.files
    && c.stat.comm == p.comm && c.files.exe == p.exe
    && c.files.cmdline == Ok(p.argv) && c.files.status.Ok? && c.files.status.value.uid == p.uid
    && Harmless(naming, c.env.filter, p, c.stat.ppid)
    && AlikePrev(strict, naming, p, c.prev, u.prev)
  }

  lemma NameNotEmpty(naming: Naming, p: Profile)
    ensures naming.Name(p) != ""
  {
    N.SanitizedIsLabel(N.RawName(naming.namer.rules, naming.namer.fallback, N.NameInput(p.comm, p.exe, p.argv)));
  }

  lemma PairOwners(strict: bool, naming: Naming, p: Profile, c: Visit, u: Visit)
    requires Pair(strict, naming, p, c, u)
    ensures c.User() == u.User() == naming.KeyUser(p)
    ensures u.FilterUser() == naming.User(p)
    ensures c.FilterUser() == naming.User(p) || c.FilterUser() == naming.KeyUser(p)
    ensures c.Uid() == u.Uid() == p.uid
    ensures u.Argv() == p.argv && u.ArgvWanted()
    ensures c.ArgvWanted() ==> c.Argv() == p.argv
    ensures !c.ArgvWanted() ==> c.Argv() == [] && c.prev.Some? && !c.env.filter.needsCmdline
    ensures c.Early() == u.Early() == CALM
  {
    NameNotEmpty(naming, p);
  }

  lemma PairNames(strict: bool, naming: Naming, p: Profile, c: Visit, u: Visit)
    requires Pair(strict, naming, p, c, u)
    ensures c.Name() == u.Name() == naming.Name(p)
  {
    PairOwners(strict, naming, p, c, u);
    NameNotEmpty(naming, p);
  }

  lemma PairDecisions(strict: bool, naming: Naming, p: Profile, c: Visit, u: Visit)
    requires Pair(strict, naming, p, c, u)
    ensures c.Passes() == u.Passes()
  {
    PairOwners(strict, naming, p, c, u);
    var f, comm, ppid := c.env.filter, c.stat.comm, c.stat.ppid;
    F.LazyDecision(f, c.ArgvWanted(), comm, p.argv, c.FilterUser(), ppid);
    F.LazyDecision(f, true, comm, p.argv, naming.User(p), ppid);
    F.UserDecides(f, comm, p.argv, naming.User(p), ppid);
    F.UserDecides(f, comm, p.argv, c.FilterUser(), ppid);
  }

  lemma PairLate(strict: bool, naming: Naming, p: Profile, c: Visit, u: Visit)
    requires Pair(strict, naming, p, c, u)
    ensures c.Late() == u.Late() && c.Io() == u.Io() && c.Fd() == u.Fd() && c.Pss() == u.Pss() && c.Mem() == u.Mem()
    ensures AlikeCounters(strict && c.env.cfg.readStatus, c.Stored(), u.Stored())
    ensures c.env.cfg.readStatus ==> c.StatusRead() == u.StatusRead()
  {
  }

  lemma PairResults(strict: bool, naming: Naming, p: Profile, c: Visit, u: Visit)
    requires Pair(strict, naming, p, c, u)
    ensures AlikeEntries(strict && c.env.cfg.readStatus, c.NewEntry(), u.NewEntry()) && Keyed(naming, p, c.NewEntry())
    ensures AlikeReports(strict && c.env.cfg.readStatus, c.Report(), u.Report())
  {
    PairOwners(strict, naming, p, c, u);
    PairNames(strict, naming, p, c, u);
    PairLate(strict, naming, p, c, u);
  }

  /** A process that is kept with its owner cached or not is one that the rules keep. */
  lemma PairKept(strict: bool, naming: Naming, p: Profile, c: Visit, u: Visit)
    requires Pair(strict, naming, p, c, u) && u.Passes()
    ensures strict ==> c.env.cfg.readStatus
  {
    PairOwners(strict, naming, p, c, u);
    var f, ppid := c.env.filter, c.stat.ppid;
    F.LazyDecision(f, true, p.comm, p.argv, naming.User(p), ppid);
    F.UserDecides(f, p.comm, p.argv, naming.User(p), ppid);
    F.UserDecides(f, p.comm, p.argv, naming.KeyUser(p), ppid);
  }

  lemma JudgedAlike(strict: bool, naming: Naming, p: Profile, c: Visit, u: Visit)
    requires Pair(strict, naming, p, c, u)
    ensures AlikeObservations(strict, Judge(c, c.Passes()), Judge(u, u.Passes()))
    ensures Judge(c, c.Passes()).verdict.Kept? ==> Keyed(naming, p, Judge(c, c.Passes()).verdict.entry)
  {
    PairDecisions(strict, naming, p, c, u);
    PairOwners(strict, naming, p, c, u);
    PairLate(strict, naming, p, c, u);
    PairResults(strict, naming, p, c, u);
    if u.Passes() {
      PairKept(strict, naming, p, c, u);
    }
  }

  /** Without `read_status`, `status` is read only until the owner is cached: the two
      runs agree on having read it exactly on a process's first scan. */
  lemma StatusAgreesExactly(strict: bool, naming: Naming, p: Profile, c: Visit, u: Visit)
    requires Pair(strict, naming, p, c, u)
    ensures c.Report().haveStatus == u.Report().haveStatus <==> c.env.cfg.readStatus || c.prev.None?
  {
    PairOwners(strict, naming, p, c, u);
    NameNotEmpty(naming, p);
  }

  // ---- The state map and a walk ----

  ghost predicate AlikeSlots(strict: bool, naming: Naming, ids: Profiles, c: Slots, u: Slots) {
    && c.Keys == u.Keys
    && forall pid :: pid in c ==> AlikeSlot(strict, naming, ids, pid, c[pid], u[pid])
  }

  ghost predicate AlikeSlot(strict: bool, naming: Naming, ids: Profiles, pid: Pid, c: Slot, u: Slot) {
    && c.generation == u.generation && AlikeEntries(strict, c.entry, u.entry)
    && Keyed(naming, ids(pid, c.entry.startTicks), c.entry)
  }

  ghost predicate AlikeProcs(strict: bool, c: seq<Process>, u: seq<Process>) {
    |c| == |u| && forall i :: 0 <= i < |c| ==> AlikeReports(strict, c[i], u[i])
  }

  ghost predicate AlikeWalks(strict: bool, naming: Naming, ids: Profiles, c: Walked, u: Walked) {
    && AlikeSlots(strict, naming, ids, c.slots, u.slots)
    && AlikeProcs(strict, c.tally.procs, u.tally.procs)
    && c.tally.errs == u.tally.errs && c.tally.counts == u.tally.counts
  }

  /** A kept process is stored with the key and start time of its profile. */
  ghost predicate KeyedVerdict(naming: Naming, ids: Profiles, item: Listed, v: Verdict) {
    v.Kept? ==> item.files.stat.Ok? && v.entry.startTicks == item.files.stat.value.startTicks
                && Keyed(naming, ids(item.pid, v.entry.startTicks), v.entry)
  }

  lemma ClearedAlike(strict: bool, naming: Naming, ids: Profiles, c: Slots, u: Slots, item: Listed)
    requires AlikeSlots(strict, naming, ids, c, u)
    ensures AlikeSlots(strict, naming, ids, Cleared(c, item), Cleared(u, item))
  {
    assert item.pid in c ==> AlikeSlot(strict, naming, ids, item.pid, c[item.pid], u[item.pid]);
  }

  lemma SettleAlike(strict: bool, naming: Naming, ids: Profiles, gen: nat, c: Slots, u: Slots, item: Listed,
                    a: Observation, b: Observation)
    requires AlikeSlots(strict, naming, ids, c, u)
    requires AlikeObservations(strict, a, b) && KeyedVerdict(naming, ids, item, a.verdict)
    ensures AlikeSlots(strict, naming, ids, Settle(c, gen, item.pid, a.verdict), Settle(u, gen, item.pid, b.verdict))
  {
    match a.verdict
    case Kept(_, entry, _) =>
      AlikeUpdate(strict, naming, ids, c, u, item.pid, Slot(entry, gen), Slot(b.verdict.entry, gen));
    case Ignored =>
      if item.pid in c {
        var x, y := c[item.pid], u[item.pid];
        assert AlikeSlot(strict, naming, ids, item.pid, x, y);
        AlikeUpdate(strict, naming, ids, c, u, item.pid, x.(generation := gen), y.(generation := gen));
      }
    case _ =>
  }

  lemma AlikeUpdate(strict: bool, naming: Naming, ids: Profiles, c: Slots, u: Slots, pid: Pid, x: Slot, y: Slot)
    requires AlikeSlots(strict, naming, ids, c, u) && AlikeSlot(strict, naming, ids, pid, x, y)
    ensures AlikeSlots(strict, naming, ids, c[pid := x], u[pid := y])
  {
  }

  lemma TallyAlike(strict: bool, c: Tally, u: Tally, a: Observation, b: Observation)
    requires AlikeProcs(strict, c.procs, u.procs) && c.errs == u.errs && c.counts == u.counts
    requires AlikeObservations(strict, a, b)
    ensures var c', u' := Tallied(c, a), Tallied(u, b);
            AlikeProcs(strict, c'.procs, u'.procs) && c'.errs == u'.errs && c'.counts == u'.counts
  {
  }

  /** Both observers see the same in a listed process, whatever agreeing entries they find. */
  ghost predicate AlikeOn(strict: bool, naming: Naming, ids: Profiles, c: Observer, u: Observer, item: Listed) {
    forall p, q :: AgreeOnPrev(strict, naming, ids, item, p, q) ==>
      AlikeObservations(strict, c(p, item), u(q, item)) && KeyedVerdict(naming, ids, item, c(p, item).verdict)
  }

  ghost predicate AgreeOnPrev(strict: bool, naming: Naming, ids: Profiles, item: Listed, p: Option<Entry>,
                              q: Option<Entry>) {
    if item.files.stat.Ok? then AlikePrev(strict, naming, ids(item.pid, item.files.stat.value.startTicks), p, q)
    else p.None? && q.None?
  }

  lemma RecalledAlike(strict: bool, naming: Naming, ids: Profiles, c: Slots, u: Slots, item: Listed)
    requires AlikeSlots(strict, naming, ids, c, u)
    ensures AgreeOnPrev(strict, naming, ids, item, Recalled(c, item), Recalled(u, item))
  {
    if item.pid in c {
      assert AlikeSlot(strict, naming, ids, item.pid, c[item.pid], u[item.pid]);
    }
  }

  lemma {:induction false} FoldsAlike(strict: bool, naming: Naming, ids: Profiles, gen: nat, c: Observer, u: Observer,
                                      cs: Slots, us: Slots, items: seq<Listed>)
    requires AlikeSlots(strict, naming, ids, cs, us)
    requires AllAlikeOn(strict, naming, ids, c, u, items)
    ensures AlikeWalks(strict, naming, ids,
                       Fold(StepWith(c, gen), Setout(cs), items), Fold(StepWith(u, gen), Setout(us), items))
  {
    if items != [] {
      var init, item := items[..|items| - 1], items[|items| - 1];
      FoldsAlike(strict, naming, ids, gen, c, u, cs, us, init);
      var cw, uw := Fold(StepWith(c, gen), Setout(cs), init), Fold(StepWith(u, gen), Setout(us), init);
      RecalledAlike(strict, naming, ids, cw.slots, uw.slots, item);
      assert AlikeOn(strict, naming, ids, c, u, item);
      var p, q := Recalled(cw.slots, item), Recalled(uw.slots, item);
      ClearedAlike(strict, naming, ids, cw.slots, uw.slots, item);
      SettleAlike(strict, naming, ids, gen, Cleared(cw.slots, item), Cleared(uw.slots, item), item,
                  c(p, item), u(q, item));
      TallyAlike(strict, cw.tally, uw.tally, c(p, item), u(q, item));
    }
  }

  ghost predicate SettledItem(strict: bool, naming: Naming, ids: Profiles, e: Env, item: Listed) {
    && Faithful(ids, item)
    && HarmlessItem(naming, e.filter, ids, item)
    && StatusAlikeItem(strict, naming, e, ids, item)
  }

  /** The conditions on one scan under which the cache is harmless. */
  ghost predicate Settled(strict: bool, naming: Naming, ids: Profiles, e: Env, items: seq<Listed>) {
    && e.cfg.cacheCmdline && Uses(e, naming) && F.Compiled(e.filter)
    && (forall i :: 0 <= i < |items| ==> SettledItem(strict, naming, ids, e, items[i]))
  }

  lemma ObserversAlike(strict: bool, naming: Naming, ids: Profiles, e: Env, walks: Walks, item: Listed)
    requires e.cfg.cacheCmdline && Uses(e, naming) && F.Compiled(e.filter)
    requires SettledItem(strict, naming, ids, e, item)
    ensures AlikeOn(strict, naming, ids, ObserverOf(e, walks), ObserverOf(Uncached(e), walks), item)
  {
    var c, u := ObserverOf(e, walks), ObserverOf(Uncached(e), walks);
    forall p, q | AgreeOnPrev(strict, naming, ids, item, p, q)
      ensures AlikeObservations(strict, c(p, item), u(q, item)) && KeyedVerdict(naming, ids, item, c(p, item).verdict)
    {
      if item.files.stat.Ok? {
        var profile := ids(item.pid, item.files.stat.value.startTicks);
        JudgedAlike(strict, naming, profile, VisitOf(e, walks, p, item), VisitOf(Uncached(e), walks, q, item));
      }
    }
  }

  // ---- Runs ----

  function UncachedEvent(ev: Event): Event {
    match ev
    case Completed(e, items, now, retention) => Completed(Uncached(e), items, now, retention)
    case Cancelled(e, items) => Cancelled(Uncached(e), items)
    case _ => ev
  }

  /** The same run with the cache switched off. */
  function UncachedRun(evs: seq<Event>): seq<Event> {
    if evs == [] then [] else UncachedRun(evs[..|evs| - 1]) + [UncachedEvent(evs[|evs| - 1])]
  }

  ghost predicate AlikeFeeds(strict: bool, a: Feed, b: Feed) {
    match a
    case Forget => b.Forget?
    case Apply(procs, now, retention) =>
      b.Apply? && AlikeProcs(strict, procs, b.procs) && now == b.now && retention == b.retention
  }

  /** What the aggregator is told agrees, scan by scan. */
  ghost predicate AlikePublished(strict: bool, a: seq<Feed>, b: seq<Feed>) {
    |a| == |b| && forall i :: 0 <= i < |a| ==> AlikeFeeds(strict, a[i], b[i])
  }

  ghost predicate AlikeMachines(strict: bool, naming: Naming, ids: Profiles, c: Machine, u: Machine) {
    && AlikeSlots(strict, naming, ids, c.track.slots, u.track.slots)
    && c.gen == u.gen && c.scanNo == u.scanNo
    && AlikePublished(strict, c.feed, u.feed)
  }

  ghost predicate SettledEvent(strict: bool, naming: Naming, ids: Profiles, ev: Event) {
    ev.Completed? || ev.Cancelled? ==> Settled(strict, naming, ids, ev.env, ev.items)
  }

  /** Naming and users at each moment of a run. */
  type Namings = nat -> Naming

  /** They change only when the cached names are thrown away. */
  ghost predicate SettledAt(strict: bool, at: Namings, ids: Profiles, evs: seq<Event>, i: nat)
    requires i < |evs|
  {
    SettledEvent(strict, at(i), ids, evs[i]) && (at(i + 1) == at(i) || evs[i].ResetState?)
  }

  ghost predicate SettledRun(strict: bool, at: Namings, ids: Profiles, evs: seq<Event>) {
    forall i: nat :: i < |evs| ==> SettledAt(strict, at, ids, evs, i)
  }

  ghost predicate AllAlikeOn(strict: bool, naming: Naming, ids: Profiles, oc: Observer, ou: Observer,
                             items: seq<Listed>) {
    forall i :: 0 <= i < |items| ==> AlikeOn(strict, naming, ids, oc, ou, items[i])
  }

  lemma ObserversAlikeOn(strict: bool, naming: Naming, ids: Profiles, e: Env, walks: Walks, items: seq<Listed>,
                         oc: Observer, ou: Observer)
    requires Settled(strict, naming, ids, e, items)
    requires oc == ObserverOf(e, walks) && ou == ObserverOf(Uncached(e), walks)
    ensures AllAlikeOn(strict, naming, ids, oc, ou, items)
  {
    forall i | 0 <= i < |items| ensures AlikeOn(strict, naming, ids, oc, ou, items[i]) {
      ObserversAlike(strict, naming, ids, e, walks, items[i]);
    }
  }

  lemma TracksAlike(strict: bool, naming: Naming, ids: Profiles, oc: Observer, ou: Observer, tc: ScanTag, tu: ScanTag,
                    c: Track, u: Track, items: seq<Listed>)
    requires AlikeSlots(strict, naming, ids, c.slots, u.slots) && tc.gen == tu.gen
    requires AllAlikeOn(strict, naming, ids, oc, ou, items)
    ensures AlikeSlots(strict, naming, ids, TrackAll(oc, tc, c, items).slots, TrackAll(ou, tu, u, items).slots)
  {
    TrackSlots(oc, tc, c, items);
    TrackSlots(ou, tu, u, items);
    FoldsAlike(strict, naming, ids, tc.gen, oc, ou, c.slots, u.slots, items);
  }

  lemma ScansAlikeUnder(strict: bool, naming: Naming, ids: Profiles, c: Machine, u: Machine, e: Env, items: seq<Listed>,
                        oc: Observer, ou: Observer, tc: ScanTag, tu: ScanTag)
    requires AlikeSlots(strict, naming, ids, c.track.slots, u.track.slots) && tc.gen == tu.gen
    requires tc == TagOfScan(c, e.cfg) && oc == ObserverOf(e, tc.walks)
    requires tu == TagOfScan(u, Uncached(e).cfg) && ou == ObserverOf(Uncached(e), tu.walks)
    requires AllAlikeOn(strict, naming, ids, oc, ou, items)
    ensures AlikeSlots(strict, naming, ids, Watched(c, e, items).slots, Watched(u, Uncached(e), items).slots)
    ensures AlikeProcs(strict, Found(c, e, items), Found(u, Uncached(e), items))
  {
    WatchedUnder(c, e, items, tc, oc);
    WatchedUnder(u, Uncached(e), items, tu, ou);
    TracksAlike(strict, naming, ids, oc, ou, tc, tu, c.track, u.track, items);
    FoldsAlike(strict, naming, ids, tc.gen, oc, ou, c.track.slots, u.track.slots, items);
  }

  lemma ScansAlike(strict: bool, naming: Naming, ids: Profiles, c: Machine, u: Machine, e: Env, items: seq<Listed>)
    requires AlikeMachines(strict, naming, ids, c, u) && Settled(strict, naming, ids, e, items)
    ensures AlikeSlots(strict, naming, ids, Watched(c, e, items).slots, Watched(u, Uncached(e), items).slots)
    ensures AlikeProcs(strict, Found(c, e, items), Found(u, Uncached(e), items))
  {
    var tc, tu := TagOfScan(c, e.cfg), TagOfScan(u, Uncached(e).cfg);
    var oc, ou := ObserverOf(e, tc.walks), ObserverOf(Uncached(e), tu.walks);
    assert tc.walks == tu.walks;
    ObserversAlikeOn(strict, naming, ids, e, tc.walks, items, oc, ou);
    ScansAlikeUnder(strict, naming, ids, c, u, e, items, oc, ou, tc, tu);
  }

  lemma SurvivorsAlike(strict: bool, naming: Naming, ids: Profiles, c: Slots, u: Slots, gen: nat)
    requires AlikeSlots(strict, naming, ids, c, u)
    ensures AlikeSlots(strict, naming, ids, Survivors(c, gen), Survivors(u, gen))
  {
    assert forall pid :: pid in c ==> AlikeSlot(strict, naming, ids, pid, c[pid], u[pid]);
    assert Survivors(c, gen).Keys == Survivors(u, gen).Keys;
  }

  lemma PublishedAlike(strict: bool, a: seq<Feed>, b: seq<Feed>, x: Feed, y: Feed)
    requires AlikePublished(strict, a, b) && AlikeFeeds(strict, x, y)
    ensures AlikePublished(strict, a + [x], b + [y])
  {
  }

  lemma CompletedAlike(strict: bool, naming: Naming, ids: Profiles, c: Machine, u: Machine, ev: Event)
    requires AlikeMachines(strict, naming, ids, c, u)
    requires ev.Completed? && SettledEvent(strict, naming, ids, ev)
    ensures AlikeMachines(strict, naming, ids, Step(c, ev), Step(u, UncachedEvent(ev)))
  {
    var e, items := ev.env, ev.items;
    ScansAlike(strict, naming, ids, c, u, e, items);
    SurvivorsAlike(strict, naming, ids, Watched(c, e, items).slots, Watched(u, Uncached(e), items).slots, c.gen + 1);
    PublishedAlike(strict, c.feed, u.feed, Apply(Found(c, e, items), ev.now, ev.retention),
                   Apply(Found(u, Uncached(e), items), ev.now, ev.retention));
  }

  lemma CancelledAlike(strict: bool, naming: Naming, ids: Profiles, c: Machine, u: Machine, ev: Event)
    requires AlikeMachines(strict, naming, ids, c, u)
    requires ev.Cancelled? && SettledEvent(strict, naming, ids, ev)
    ensures AlikeMachines(strict, naming, ids, Step(c, ev), Step(u, UncachedEvent(ev)))
  {
    ScansAlike(strict, naming, ids, c, u, ev.env, ev.items);
  }

  lemma StepAlike(strict: bool, now: Naming, next: Naming, ids: Profiles, c: Machine, u: Machine, ev: Event)
    requires AlikeMachines(strict, now, ids, c, u)
    requires SettledEvent(strict, now, ids, ev) && (next == now || ev.ResetState?)
    ensures AlikeMachines(strict, next, ids, Step(c, ev), Step(u, UncachedEvent(ev)))
  {
    match ev
    case Completed(_, _, _, _) => CompletedAlike(strict, now, ids, c, u, ev);
    case Cancelled(_, _) => CancelledAlike(strict, now, ids, c, u, ev);
    case ResetAccums => PublishedAlike(strict, c.feed, u.feed, Forget, Forget);
    case _ =>
  }

  /** The cached scan refines the uncached one: over every run in which naming and users
      change only with a `ResetState`, and every process's comm, executable, arguments and
      owner are fixed and readable, and no nameless account's number is ignored by a rule
      that alone decides, the same processes are kept, in the same groups, with the same
      values scan by scan. Context switches and swap agree too where `status` is read on
      every scan that keeps a process. */
  lemma {:induction false} CachedRefinesUncached(strict: bool, at: Namings, ids: Profiles, evs: seq<Event>)
    requires SettledRun(strict, at, ids, evs)
    ensures AlikeMachines(strict, at(|evs|), ids, Run(evs), Run(UncachedRun(evs)))
  {
    if evs != [] {
      var n := |evs| - 1;
      var init, last := evs[..n], evs[n];
      assert SettledAt(strict, at, ids, evs, n);
      forall i: nat | i < n ensures SettledAt(strict, at, ids, init, i) {
        assert SettledAt(strict, at, ids, evs, i);
      }
      CachedRefinesUncached(strict, at, ids, init);
      var us := UncachedRun(evs);
      assert us[..|us| - 1] == UncachedRun(init) && us[|us| - 1] == UncachedEvent(last);
      StepAlike(strict, at(n), at(n + 1), ids, Run(init), Run(UncachedRun(init)), last);
    }
  }
}
