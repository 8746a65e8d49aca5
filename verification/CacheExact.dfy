/** Exactly when caching changes what is published. */
module CacheExact {
  import opened Wrappers
  import opened Procfs
  import opened StateMaps
  import opened Reading
  import opened Schedule
  import opened Runs
  import opened Caching
  import F = Filters

  // ---- One process, scanned twice ----

  /** Nothing vanishes under the scan. */
  predicate Lasting(files: Files) {
    !files.statm.Vanished? && !files.io.Vanished? && !files.fds.Vanished? && !files.smaps.Vanished?
  }

  /** A visit of a process that shows its attributes. */
  ghost predicate Shows(naming: Naming, p: Profile, v: Visit) {
    && Uses(v.env, naming) && F.Compiled(v.env.filter) && Lasting(v.files)
    && v.stat.comm == p.comm && v.files.exe == p.exe
    && v.files.cmdline == Ok(p.argv) && v.files.status.Ok? && v.files.status.value.uid == p.uid
  }

  /** The rules keep the process under this user. */
  ghost predicate KeptAs(f: F.Filter, p: Profile, ppid: int, user: string) {
    F.EagerlyKeeps(f, p.comm, p.argv, user, ppid)
  }

  /** The user the filter is shown. */
  function ShownUser(naming: Naming, p: Profile, v: Visit): string {
    if v.CachedUser() == "" then naming.User(p) else v.CachedUser()
  }

  lemma ShownDecision(naming: Naming, p: Profile, v: Visit)
    requires Shows(naming, p, v)
    ensures Judge(v, v.Passes()).verdict ==
              if KeptAs(v.env.filter, p, v.stat.ppid, ShownUser(naming, p, v))
              then Kept(v, v.NewEntry(), v.Report())
              else Ignored
    ensures v.CachedUser() == "" ==> v.NewEntry().user == naming.KeyUser(p)
    ensures v.Report().haveStatus <==> v.env.cfg.readStatus || v.CachedUser() == ""
  {
    F.LazyDecision(v.env.filter, v.ArgvWanted(), p.comm, p.argv, v.FilterUser(), v.stat.ppid);
  }

  /** The same process listed twice. */
  function Twice(e: Env, item: Listed): seq<Event> {
    [Completed(e, [item], 0, 0), Completed(e, [item], 0, 0)]
  }

  lemma TwiceRuns(e: Env, item: Listed)
    ensures Run(Twice(e, item)) == Step(Step(START, Completed(e, [item], 0, 0)), Completed(e, [item], 0, 0))
  {
    var evs := Twice(e, item);
    assert evs[..1] == [Completed(e, [item], 0, 0)] && evs[..1][..0] == [];
    assert Run(evs[..1]) == Step(Run([]), Completed(e, [item], 0, 0));
  }

  /** The first scan keeps the process, and remembers its owner. */
  lemma FirstScan(naming: Naming, p: Profile, e: Env, item: Listed)
    requires item.files.stat.Ok? && Shows(naming, p, VisitOf(e, WalksOf(e.cfg, 1), None, item))
    requires KeptAs(e.filter, p, item.files.stat.value.ppid, naming.User(p))
    ensures var m := Step(START, Completed(e, [item], 0, 0));
            && |m.feed| == 1
            && Recalled(m.track.slots, item).Some? && Recalled(m.track.slots, item).value.user == naming.KeyUser(p)
  {
    ShownDecision(naming, p, VisitOf(e, WalksOf(e.cfg, 1), None, item));
    assert SoleObservation(START, e, item).verdict.Kept?;
    SingleScan(START, e, item, 0, 0);
    KeptIsRecalled(START, e, item, 0, 0, item);
  }

  /** The user shown to the filter once the process is known. */
  function LaterUser(naming: Naming, p: Profile, e: Env): string {
    if e.cfg.cacheCmdline then naming.KeyUser(p) else naming.User(p)
  }

  /** What a later scan reports of it. */
  ghost predicate LaterReport(naming: Naming, p: Profile, ppid: int, e: Env, procs: seq<Process>) {
    if KeptAs(e.filter, p, ppid, LaterUser(naming, p, e)) then
      |procs| == 1 && (procs[0].haveStatus <==> e.cfg.readStatus || !e.cfg.cacheCmdline)
    else procs == []
  }

  lemma LaterVisit(naming: Naming, p: Profile, v: Visit)
    requires Shows(naming, p, v) && v.prev.Some? && v.prev.value.user == naming.KeyUser(p)
    ensures LaterReport(naming, p, v.stat.ppid, v.env, Reported(Judge(v, v.Passes())))
  {
    ShownDecision(naming, p, v);
  }

  lemma SoleIsJudged(m: Machine, e: Env, item: Listed, walks: Walks)
    requires item.files.stat.Ok? && walks == WalksOf(e.cfg, m.scanNo + 1)
    ensures var v := VisitOf(e, walks, Recalled(m.track.slots, item), item);
            SoleObservation(m, e, item) == Judge(v, v.Passes())
  {
  }

  lemma LaterScan(naming: Naming, p: Profile, m: Machine, e: Env, item: Listed, prev: Entry)
    requires item.files.stat.Ok? && Recalled(m.track.slots, item) == Some(prev) && prev.user == naming.KeyUser(p)
    requires Shows(naming, p, VisitOf(e, WalksOf(e.cfg, m.scanNo + 1), Some(prev), item))
    ensures LaterReport(naming, p, item.files.stat.value.ppid, e, Reported(SoleObservation(m, e, item)))
  {
    LaterVisit(naming, p, VisitOf(e, WalksOf(e.cfg, m.scanNo + 1), Some(prev), item));
    SoleIsJudged(m, e, item, WalksOf(e.cfg, m.scanNo + 1));
  }

  lemma LaterFeed(naming: Naming, p: Profile, m: Machine, e: Env, item: Listed)
    requires item.files.stat.Ok?
    requires LaterReport(naming, p, item.files.stat.value.ppid, e, Reported(SoleObservation(m, e, item)))
    ensures var m' := Step(m, Completed(e, [item], 0, 0));
            && |m'.feed| == |m.feed| + 1 && m'.feed[|m.feed|].Apply?
            && LaterReport(naming, p, item.files.stat.value.ppid, e, m'.feed[|m.feed|].procs)
  {
    SingleScan(m, e, item, 0, 0);
  }

  lemma TwiceSees(naming: Naming, ids: Profiles, e: Env, item: Listed)
    requires Uses(e, naming) && F.Compiled(e.filter) && Lasting(item.files)
    requires item.files.stat.Ok? && Faithful(ids, item)
    requires var p := ProfileOf(ids, item); KeptAs(e.filter, p, item.files.stat.value.ppid, naming.User(p))
    ensures var m := Run(Twice(e, item));
            && |m.feed| == 2 && m.feed[1].Apply?
            && LaterReport(naming, ProfileOf(ids, item), item.files.stat.value.ppid, e, m.feed[1].procs)
  {
    var p := ProfileOf(ids, item);
    var m := Step(START, Completed(e, [item], 0, 0));
    TwiceRuns(e, item);
    FirstScan(naming, p, e, item);
    LaterScan(naming, p, m, e, item, Recalled(m.track.slots, item).value);
    LaterFeed(naming, p, m, e, item);
  }

  function ProfileOf(ids: Profiles, item: Listed): Profile
    requires item.files.stat.Ok?
  {
    ids(item.pid, item.files.stat.value.startTicks)
  }

  lemma TwiceUncached(e: Env, item: Listed)
    ensures UncachedRun(Twice(e, item)) == Twice(Uncached(e), item)
  {
    var evs := Twice(e, item);
    assert evs[..1] == [Completed(e, [item], 0, 0)] && evs[..1][..0] == [];
    assert UncachedRun(evs[..1]) == UncachedRun([]) + [UncachedEvent(evs[0])];
  }

  /** The second report with the cache and without it. */
  lemma TwiceBoth(naming: Naming, ids: Profiles, e: Env, item: Listed)
    requires Uses(e, naming) && F.Compiled(e.filter) && Lasting(item.files)
    requires item.files.stat.Ok? && Faithful(ids, item)
    requires var p := ProfileOf(ids, item); KeptAs(e.filter, p, item.files.stat.value.ppid, naming.User(p))
    ensures var c, u := Run(Twice(e, item)).feed, Run(UncachedRun(Twice(e, item))).feed;
            var p, ppid := ProfileOf(ids, item), item.files.stat.value.ppid;
            && |c| == |u| == 2 && c[1].Apply? && u[1].Apply?
            && LaterReport(naming, p, ppid, e, c[1].procs) && LaterReport(naming, p, ppid, Uncached(e), u[1].procs)
  {
    TwiceSees(naming, ids, e, item);
    TwiceUncached(e, item);
    TwiceSees(naming, ids, Uncached(e), item);
  }

  // ---- When the cache shows ----

  /** The cache changes nothing that is published in this run. */
  ghost predicate Unnoticed(strict: bool, evs: seq<Event>) {
    AlikePublished(strict, Run(evs).feed, Run(UncachedRun(evs)).feed)
  }

  /** Where an account has no name, its number is ignored, and no other rule drops the
      process, caching changes what is published: of two scans the second drops, under
      the number it has cached, a process that the run without the cache still keeps. */
  lemma EmptyAccountName(strict: bool, naming: Naming, ids: Profiles, e: Env, item: Listed)
    requires e.cfg.cacheCmdline && Uses(e, naming) && F.Compiled(e.filter) && Lasting(item.files)
    requires item.files.stat.Ok? && Faithful(ids, item) && !HarmlessItem(naming, e.filter, ids, item)
    ensures var c, u := Run(Twice(e, item)).feed, Run(UncachedRun(Twice(e, item))).feed;
            && |c| == |u| == 2 && c[1].Apply? && u[1].Apply? && c[1].procs == [] && |u[1].procs| == 1
    ensures !Unnoticed(strict, Twice(e, item))
  {
    var p, ppid := ProfileOf(ids, item), item.files.stat.value.ppid;
    F.UserDecides(e.filter, p.comm, p.argv, naming.KeyUser(p), ppid);
    TwiceBoth(naming, ids, e, item);
    var c, u := Run(Twice(e, item)).feed, Run(UncachedRun(Twice(e, item))).feed;
    assert !AlikeFeeds(strict, c[1], u[1]);
  }

  /** Where `status` is not read on every scan, a process that is kept shows it: from the
      second scan on nothing of `status` is reported, and without the cache it is. */
  lemma StatusOnceShows(naming: Naming, ids: Profiles, e: Env, item: Listed)
    requires e.cfg.cacheCmdline && !e.cfg.readStatus && Uses(e, naming) && F.Compiled(e.filter) && Lasting(item.files)
    requires item.files.stat.Ok? && Faithful(ids, item) && !StatusAlikeItem(true, naming, e, ids, item)
    ensures var c, u := Run(Twice(e, item)).feed, Run(UncachedRun(Twice(e, item))).feed;
            && |c| == |u| == 2 && c[1].Apply? && u[1].Apply? && |c[1].procs| == |u[1].procs| == 1
            && !c[1].procs[0].haveStatus && u[1].procs[0].haveStatus
    ensures !Unnoticed(true, Twice(e, item))
  {
    var p, ppid := ProfileOf(ids, item), item.files.stat.value.ppid;
    F.UserDecides(e.filter, p.comm, p.argv, naming.KeyUser(p), ppid);
    F.UserDecides(e.filter, p.comm, p.argv, naming.User(p), ppid);
    TwiceBoth(naming, ids, e, item);
    var c, u := Run(Twice(e, item)).feed, Run(UncachedRun(Twice(e, item))).feed;
    assert !AlikeReports(true, c[1].procs[0], u[1].procs[0]);
    assert !AlikeFeeds(true, c[1], u[1]);
  }

  // ---- Over all runs with given settings ----

  /** Every scan runs with these settings, on processes that show their attributes. */
  ghost predicate OnlyWith(e: Env, ids: Profiles, evs: seq<Event>) {
    forall i :: 0 <= i < |evs| && (evs[i].Completed? || evs[i].Cancelled?) ==>
      evs[i].env == e && forall j :: 0 <= j < |evs[i].items| ==> Faithful(ids, evs[i].items[j])
  }

  /** No process of any kind tells the two runs apart. */
  ghost predicate NoneTells(strict: bool, naming: Naming, e: Env) {
    forall p, ppid :: Harmless(naming, e.filter, p, ppid) && StatusAlike(strict, naming, e, p, ppid)
  }

  /** A process of the profile, as it may be listed. */
  function ListedAs(p: Profile, ppid: int): Listed {
    Listed(Pid(1), Files(Ok(Stat(1, p.comm, 'S', ppid, 0, 0, 0, 0, 1, 0, 0, 0)), Ok(p.argv), Ok(Status(p.uid, 0, 0, 0)),
                         p.exe, Denied, Denied, Denied, Denied, Denied))
  }

  lemma ListedAsProfile(ids: Profiles, p: Profile, ppid: int)
    requires ids(Pid(1), 0) == p
    ensures var item := ListedAs(p, ppid);
            && Lasting(item.files) && item.files.stat.Ok? && Faithful(ids, item)
            && ProfileOf(ids, item) == p && item.files.stat.value.ppid == ppid
  {
  }

  lemma NoneTellsUnnoticed(strict: bool, naming: Naming, e: Env, ids: Profiles, evs: seq<Event>)
    requires e.cfg.cacheCmdline && Uses(e, naming) && F.Compiled(e.filter)
    requires NoneTells(strict, naming, e) && OnlyWith(e, ids, evs)
    ensures Unnoticed(strict, evs)
  {
    var at: Namings := i => naming;
    forall i: nat | i < |evs| ensures SettledAt(strict, at, ids, evs, i) {
    }
    CachedRefinesUncached(strict, at, ids, evs);
  }

  lemma TwiceOnlyWith(ids: Profiles, e: Env, item: Listed)
    requires Faithful(ids, item)
    ensures OnlyWith(e, ids, Twice(e, item))
  {
  }

  lemma TwiceTells(strict: bool, naming: Naming, ids: Profiles, e: Env, item: Listed)
    requires e.cfg.cacheCmdline && Uses(e, naming) && F.Compiled(e.filter) && Lasting(item.files)
    requires item.files.stat.Ok? && Faithful(ids, item)
    requires !(HarmlessItem(naming, e.filter, ids, item) && StatusAlikeItem(strict, naming, e, ids, item))
    ensures !Unnoticed(strict, Twice(e, item))
  {
    if HarmlessItem(naming, e.filter, ids, item) {
      StatusOnceShows(naming, ids, e, item);
    } else {
      EmptyAccountName(strict, naming, ids, e, item);
    }
  }

  lemma SomeTells(strict: bool, naming: Naming, e: Env, p: Profile, ppid: int) returns (ids: Profiles, evs: seq<Event>)
    requires e.cfg.cacheCmdline && Uses(e, naming) && F.Compiled(e.filter)
    requires !(Harmless(naming, e.filter, p, ppid) && StatusAlike(strict, naming, e, p, ppid))
    ensures OnlyWith(e, ids, evs) && !Unnoticed(strict, evs)
  {
    ids := (pid, start) => p;
    var item := ListedAs(p, ppid);
    evs := Twice(e, item);
    ListedAsProfile(ids, p, ppid);
    TwiceTells(strict, naming, ids, e, item);
    TwiceOnlyWith(ids, e, item);
  }

  /** The refinement, exactly. With given settings and users the cache never changes what
      is published, apart from what only `status` shows, iff for every process the account
      has a name, or its number is not ignored, or another rule drops the process. And it
      changes nothing at all iff moreover `status` is read on every scan, or the rules
      keep no process whose owner is cached. */
  lemma RefinementExact(strict: bool, naming: Naming, e: Env)
    requires e.cfg.cacheCmdline && Uses(e, naming) && F.Compiled(e.filter)
    ensures NoneTells(strict, naming, e) <==>
            (forall ids: Profiles, evs: seq<Event> :: OnlyWith(e, ids, evs) ==> Unnoticed(strict, evs))
  {
    if NoneTells(strict, naming, e) {
      forall ids: Profiles, evs: seq<Event> | OnlyWith(e, ids, evs) ensures Unnoticed(strict, evs) {
        NoneTellsUnnoticed(strict, naming, e, ids, evs);
      }
    } else {
      var p, ppid :| !(Harmless(naming, e.filter, p, ppid) && StatusAlike(strict, naming, e, p, ppid));
      var ids, evs := SomeTells(strict, naming, e, p, ppid);
    }
  }
}
