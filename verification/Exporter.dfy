/** The scanner and the aggregator together, as objects, driven by any sequence of scans and
    resets: they do what the runs on values say, so every result about runs is about them. */
module Exporters {
  import opened Wrappers
  import opened Procfs
  import opened StateMaps
  import opened Reading
  import opened Schedule
  import opened Batching
  import opened KeptProcesses
  import opened Ledgers
  import opened Runs
  import opened Groups
  import opened Accumulators
  import opened Scanners
  import opened Aggregators

  /** What the program asks of the two objects, one at a time. */
  datatype Command =
    | Tick(env: Env, listing: Option<seq<Listed>>, ctx: Context, now: int, retention: int)
    | ForgetProcesses
    | ForgetGroups

  /** What the command amounts to: a cancelled scan read as far as its course went. */
  function EventOf(c: Command): Event {
    match c
    case Tick(e, None, _, _, _) => ListFailed
    case Tick(e, Some(items), ctx, now, retention) =>
      var course := CourseOf(ctx, e.cfg, |items|);
      if course.done then Completed(e, items, now, retention) else Cancelled(e, items[..course.walked])
    case ForgetProcesses => ResetState
    case ForgetGroups => ResetAccums
  }

  /** A scan is passed on exactly when the listing succeeded and cancellation never reached
      it. */
  lemma TickCompletes(c: Command)
    requires c.Tick?
    ensures EventOf(c).Completed? <==> c.listing.Some? && !Interrupted(c.ctx, c.env.cfg, |c.listing.value|)
    ensures EventOf(c).ListFailed? <==> c.listing.None?
  {
    if c.listing.Some? {
      CancellationStops(c.ctx, c.env.cfg, |c.listing.value|);
    }
  }

  function EventsOf(cs: seq<Command>): (evs: seq<Event>)
    ensures |evs| == |cs|
  {
    seq(|cs|, i requires 0 <= i < |cs| => EventOf(cs[i]))
  }

  /** The walk of the machine is the walk of the scanner. */
  lemma WatchedIsWalked(m: Machine, e: Env, items: seq<Listed>, tag: ScanTag)
    requires tag == TagOfScan(m, e.cfg)
    ensures Watched(m, e, items).slots == Walk(e, tag.walks, tag.gen, m.track.slots, items).slots
  {
    var obs := ObserverOf(e, tag.walks);
    TrackSlots(obs, tag, m.track, items);
    WatchedUnder(m, e, items, tag, obs);
  }

  /** What a scan of a listing leaves in the state map is what the machine's step does. */
  lemma WalkIsStep(m: Machine, c: Command, course: Course, w: Walked)
    requires c.Tick? && c.listing.Some? && course == CourseOf(c.ctx, c.env.cfg, |c.listing.value|)
    requires w == Walk(c.env, WalksOf(c.env.cfg, m.scanNo + 1), m.gen + 1, m.track.slots,
                       c.listing.value[..course.walked])
    ensures var ev := EventOf(c);
            && Step(m, ev).track.slots == (if course.done then Survivors(w.slots, m.gen + 1) else w.slots)
            && (ev.Completed? || ev.Cancelled?)
            && Found(m, c.env, ev.items) == w.tally.procs
  {
    var items := c.listing.value;
    if course.done {
      assert items[..course.walked] == items;
    }
    WatchedIsWalked(m, c.env, items[..course.walked], TagOfScan(m, c.env.cfg));
  }

  lemma ScanIsStep(m: Machine, c: Command, scanNo: nat, gen: nat, start: Slots, course: Course, w: Walked)
    requires c.Tick? && c.listing.Some?
    requires scanNo == m.scanNo + 1 && gen == m.gen + 1 && start == m.track.slots
    requires WalkOutcome(c.env.cfg, c.listing.value, c.ctx, StepOf(c.env, WalksOf(c.env.cfg, scanNo), gen),
                         start, course, w)
    ensures var ev := EventOf(c);
            && Step(m, ev).track.slots == (if course.done then Survivors(w.slots, gen) else w.slots)
            && (ev.Completed? || ev.Cancelled?)
            && Found(m, c.env, ev.items) == w.tally.procs
  {
    assert w == Walk(c.env, WalksOf(c.env.cfg, scanNo), gen, start, c.listing.value[..course.walked]);
    WalkIsStep(m, c, course, w);
  }

  /** What each command makes of the machine. */
  type Runner = (Machine, Command) -> Machine

  ghost predicate Drives(go: Runner) {
    forall m, c {:trigger Step(m, EventOf(c))} :: go(m, c) == Step(m, EventOf(c))
  }

  lemma TheRunner() returns (go: Runner)
    ensures Drives(go)
  {
    go := (m, c) => Step(m, EventOf(c));
  }

  /** The machine after a sequence of commands. */
  ghost function Played(go: Runner, cs: seq<Command>): Machine {
    if cs == [] then START else go(Played(go, cs[..|cs| - 1]), cs[|cs| - 1])
  }

  lemma {:induction false} PlayedIsRun(go: Runner, cs: seq<Command>)
    requires Drives(go)
    ensures Played(go, cs) == Run(EventsOf(cs))
  {
    if cs != [] {
      var n := |cs| - 1;
      PlayedIsRun(go, cs[..n]);
      var evs := EventsOf(cs);
      assert evs[..n] == EventsOf(cs[..n]) && evs[n] == EventOf(cs[n]);
      assert go(Played(go, cs[..n]), cs[n]) == Step(Played(go, cs[..n]), EventOf(cs[n]));
    }
  }

  lemma FeedSnoc(feed: seq<Feed>, x: Feed, sys: System)
    ensures AccumsAfter(feed + [x], sys) == After(AccumsAfter(feed, sys), x, sys)
  {
    assert (feed + [x])[..|feed|] == feed && (feed + [x])[..|feed| + 1] == feed + [x];
    AfterSnoc(feed + [x], |feed|, sys);
  }

  /** The snapshot is what the machine publishes as the last of its feed: the groups of
      the scan's processes, their gauges, and their counters. */
  ghost predicate Shows(snap: Snapshot, m: Machine, sys: System)
    reads snap, snap.repr
  {
    var n := |m.feed| - 1;
    n >= 0 && m.feed[n].Apply? &&
    var x := m.feed[n];
    && snap.shown == Grouped(x.procs)
    && snap.Settled(Accumulated(AccumsAfter(m.feed[..n], sys), x.procs, x.now, sys))
  }

  lemma PublishedIsShown(snap: Snapshot, res: ScanResult, feed: seq<Feed>, m: Machine, sys: System, now: int,
                         retention: int, names: nat)
    requires snap.Published(Grouped(res.procs), Accumulated(AccumsAfter(feed, sys), res.procs, now, sys), names)
    requires m.feed == feed + [Apply(res.procs, now, retention)]
    ensures Shows(snap, m, sys)
  {
    assert m.feed[..|m.feed| - 1] == feed;
  }

  /** So each counter a snapshot shows is the one published for its group. */
  lemma ShownIsPublished(snap: Snapshot, m: Machine, sys: System, k: Key, f: Field)
    requires Shows(snap, m, sys) && k in snap.groups
    ensures ValueOf(snap.groups[k].accum, f) == Published(m.feed, k, f, sys, |m.feed| - 1)
    ensures LiveIn(m.feed[|m.feed| - 1], k)
  {
    var x := m.feed[|m.feed| - 1];
    var u := Accumulated(AccumsAfter(m.feed[..|m.feed| - 1], sys), x.procs, x.now, sys);
    GroupsHaveTotals(AccumsAfter(m.feed[..|m.feed| - 1], sys), x.procs, x.now, sys);
    assert snap.Filled(k, u);
  }

  /** The result of a scan, folded into the groups: `feed` is what came before it. */
  method Tell(a: Aggregator, res: ScanResult, now: int, retention: int, ghost feed: seq<Feed>, ghost m: Machine)
    returns (snap: Snapshot)
    requires a.Valid() && a.book == AccumsAfter(feed, a.system)
    requires m.feed == feed + [Apply(res.procs, now, retention)]
    modifies a, a.repr
    ensures a.Valid() && a.book == AccumsAfter(m.feed, a.system) && fresh(a.repr - old(a.repr))
    ensures fresh(snap) && fresh(snap.repr) && Shows(snap, m, a.system)
  {
    FeedSnoc(feed, Apply(res.procs, now, retention), a.system);
    snap := a.Apply(res, now, retention);
    PublishedIsShown(snap, res, feed, m, a.system, now, retention, |a.namesSeen|);
  }

  class Exporter {
    const scanner: Scanner
    const aggregator: Aggregator

    /** The run so far, and every object made for it. */
    ghost var m: Machine
    ghost var owned: set<object>

    ghost predicate Valid()
      reads `m, scanner, scanner.state, scanner.state.repr, aggregator, aggregator.repr
    {
      Scans(m) && Sums(m.feed)
    }

    ghost predicate Scans(m: Machine)
      reads scanner, scanner.state, scanner.state.repr
    {
      && scanner.state.Valid()
      && scanner.state.slots == m.track.slots
      && scanner.state.gen == m.gen && scanner.scanNo == m.scanNo
    }

    ghost predicate Sums(feed: seq<Feed>)
      reads aggregator, aggregator.repr
    {
      aggregator.Valid() && aggregator.book == AccumsAfter(feed, aggregator.system)
    }

    constructor (system: System)
      ensures Valid() && m == START
      ensures fresh(scanner) && fresh(scanner.state) && fresh(scanner.state.repr)
      ensures fresh(aggregator) && fresh(aggregator.repr) && aggregator.system == system
      ensures Objects() == owned
    {
      scanner := new Scanner();
      aggregator := new Aggregator(system);
      m := START;
      new;
      owned := Objects();
    }

    /** One scan, not yet passed on. */
    method Look(c: Command, ghost go: Runner) returns (res: ScanResult?)
      requires Scans(m) && c.Tick? && Drives(go)
      modifies `m, scanner`scanNo, scanner.state, scanner.state.repr
      ensures m == go(old(m), c) && Scans(m)
      ensures fresh(scanner.state.repr - old(scanner.state.repr))
      ensures res != null <==> EventOf(c).Completed?
      ensures res != null ==> fresh(res)
      ensures m.feed == if res == null then old(m).feed else old(m).feed + [Apply(res.procs, c.now, c.retention)]
    {
      ghost var start := scanner.state.slots;
      ghost var course, w;
      res, course, w := scanner.Scan(c.env, c.listing, c.ctx);
      if c.listing.Some? {
        ScanIsStep(m, c, scanner.scanNo, scanner.state.gen, start, course, w);
      }
      m := Step(m, EventOf(c));
    }

    /** The result of a scan is passed on, if there is one: `feed` is what came before it. */
    method Pass(res: ScanResult?, now: int, retention: int, ghost feed: seq<Feed>) returns (snap: Snapshot?)
      requires Scans(m) && Sums(feed)
      requires m.feed == if res == null then feed else feed + [Apply(res.procs, now, retention)]
      modifies aggregator, aggregator.repr
      ensures Valid() && fresh(aggregator.repr - old(aggregator.repr))
      ensures snap != null <==> res != null
      ensures snap != null ==> fresh(snap) && fresh(snap.repr) && Shows(snap, m, aggregator.system)
    {
      if res == null {
        return null;
      }
      snap := Tell(aggregator, res, now, retention, feed, m);
    }

    /** A scan, and its result folded into the groups if it was completed. */
    method Tick(c: Command, ghost go: Runner) returns (snap: Snapshot?)
      requires Valid() && c.Tick? && Drives(go)
      modifies `m, scanner`scanNo, scanner.state, scanner.state.repr, aggregator, aggregator.repr
      ensures Valid() && m == go(old(m), c)
      ensures fresh(scanner.state.repr - old(scanner.state.repr)) && fresh(aggregator.repr - old(aggregator.repr))
      ensures snap != null <==> EventOf(c).Completed?
      ensures snap != null ==> fresh(snap) && fresh(snap.repr) && Shows(snap, m, aggregator.system)
    {
      ghost var feed := m.feed;
      var res := Look(c, go);
      snap := Pass(res, c.now, c.retention, feed);
    }

    /** `ResetState` of the scanner. */
    method ForgetProcesses(ghost go: Runner)
      requires Valid() && Drives(go)
      modifies `m, scanner`state
      ensures Valid() && m == go(old(m), Command.ForgetProcesses)
      ensures fresh(scanner.state) && fresh(scanner.state.repr)
    {
      scanner.ResetState();
      m := Step(m, EventOf(Command.ForgetProcesses));
    }

    /** `Reset` of the aggregator. */
    method ForgetGroups(ghost go: Runner)
      requires Valid() && Drives(go)
      modifies `m, aggregator
      ensures Valid() && m == go(old(m), Command.ForgetGroups)
      ensures aggregator.repr == old(aggregator.repr)
    {
      aggregator.Reset();
      FeedSnoc(m.feed, Forget, aggregator.system);
      m := Step(m, EventOf(Command.ForgetGroups));
    }

    /** What the exporter changes. */
    ghost function Objects(): set<object>
      reads scanner, scanner.state, aggregator
    {
      {scanner, scanner.state, aggregator} + scanner.state.repr + aggregator.repr
    }

    method Perform(c: Command, ghost go: Runner) returns (snap: Snapshot?)
      requires Valid() && Drives(go)
      modifies `m, Objects()
      ensures Valid() && m == go(old(m), c)
      ensures fresh(Objects() - old(Objects()))
      ensures snap != null <==> EventOf(c).Completed?
      ensures snap != null ==> Shows(snap, m, aggregator.system)
    {
      snap := null;
      match c {
        case Tick(_, _, _, _, _) => snap := Tick(c, go);
        case ForgetProcesses => ForgetProcesses(go);
        case ForgetGroups => ForgetGroups(go);
      }
    }

    /** One more command, with the objects it makes. */
    method Do(c: Command, ghost go: Runner)
      requires Valid() && Objects() <= owned && Drives(go)
      modifies `m, `owned, owned
      ensures Valid() && Objects() <= owned && fresh(owned - old(owned))
      ensures m == go(old(m), c)
    {
      var _ := Perform(c, go);
      owned := owned + Objects();
    }
  }

  /** Any sequence of commands, whatever it shows on the way. */
  method PlayAll(sys: System, cs: seq<Command>, ghost go: Runner) returns (x: Exporter)
    requires Drives(go)
    ensures fresh(x) && fresh(x.owned) && x.Objects() <= x.owned
    ensures x.Valid() && x.m == Played(go, cs) && x.aggregator.system == sys
  {
    x := new Exporter(sys);
    for i := 0 to |cs|
      invariant fresh(x) && fresh(x.owned) && x.Objects() <= x.owned
      invariant x.Valid() && x.m == Played(go, cs[..i]) && x.aggregator.system == sys
    {
      x.Do(cs[i], go);
      assert cs[..i + 1][..i] == cs[..i];
    }
    assert cs[..|cs|] == cs;
  }

  /** The last command of a sequence. */
  method PlayLast(sys: System, cs: seq<Command>, ghost go: Runner) returns (x: Exporter, snap: Snapshot?)
    requires Drives(go) && cs != []
    ensures fresh(x) && x.Valid() && x.m == Played(go, cs)
    ensures snap != null <==> EventOf(cs[|cs| - 1]).Completed?
    ensures snap != null ==> Shows(snap, x.m, sys)
  {
    x := PlayAll(sys, cs[..|cs| - 1], go);
    snap := x.Perform(cs[|cs| - 1], go);
  }

  /** Any sequence of commands from a fresh start: the objects are where the run is, and
      a completed scan at the end shows what the run publishes last. */
  method Play(sys: System, cs: seq<Command>) returns (x: Exporter, snap: Snapshot?)
    ensures fresh(x) && x.Valid() && x.m == Run(EventsOf(cs))
    ensures snap != null <==> cs != [] && EventOf(cs[|cs| - 1]).Completed?
    ensures snap != null ==> Shows(snap, x.m, sys)
  {
    ghost var go := TheRunner();
    PlayedIsRun(go, cs);
    snap := null;
    if cs == [] {
      x := new Exporter(sys);
    } else {
      x, snap := PlayLast(sys, cs, go);
    }
  }
}
