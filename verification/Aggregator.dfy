/** internal/aggregate/aggregate.go as it runs: accumulators and samples are objects,
    updated in place; a snapshot owns its samples and copies the accumulators. */
module Aggregators {
  import opened Procfs
  import opened StateMaps
  import opened Reading
  import opened Folding
  import opened Groups
  import opened StateNames
  import opened Accumulators
  import KeptProcesses
  import opened Runs
  import opened Scanners

  class Accum {
    ghost const key: Key
    var utimeSeconds: real
    var stimeSeconds: real
    var minorFaults: nat
    var majorFaults: nat
    var volCtxSw: nat
    var involCtxSw: nat
    var readBytes: nat
    var writeBytes: nat
    var lastSeen: int

    function View(): Totals
      reads this
    {
      Totals(utimeSeconds, stimeSeconds, minorFaults, majorFaults, volCtxSw, involCtxSw, readBytes, writeBytes,
             lastSeen)
    }

    constructor (ghost key: Key, now: int)
      ensures this.key == key && View() == Fresh(now)
    {
      this.key := key;
      utimeSeconds, stimeSeconds := 0.0, 0.0;
      minorFaults, majorFaults, volCtxSw, involCtxSw, readBytes, writeBytes := 0, 0, 0, 0, 0, 0;
      lastSeen := now;
    }

    method Add(p: Process, now: int, sys: System)
      modifies this
      ensures View() == Added(old(View()), p, now, sys)
    {
      lastSeen := now;
      if !p.haveDeltas {
        return;
      }
      utimeSeconds := utimeSeconds + sys.TicksToSeconds(p.deltas.utimeTicks);
      stimeSeconds := stimeSeconds + sys.TicksToSeconds(p.deltas.stimeTicks);
      minorFaults := minorFaults + p.deltas.minorFaults;
      majorFaults := majorFaults + p.deltas.majorFaults;
      if p.haveStatus {
        volCtxSw := volCtxSw + p.deltas.volCtxSw;
        involCtxSw := involCtxSw + p.deltas.involCtxSw;
      }
      if p.haveIO {
        readBytes := readBytes + p.deltas.readBytes;
        writeBytes := writeBytes + p.deltas.writeBytes;
      }
    }
  }

  /** The exported state of one group at one instant. */
  class Sample {
    const key: Key
    var numProcs: nat
    var threads: int
    var mem: Memory
    var swapBytes: nat
    var fds: FdGauges
    var pss: PssGauges
    var ioRead: nat
    var oldestStart: real
    var states: multiset<Letter>
    var stateNames: map<string, nat>
    var accum: Totals

    function View(): Gauges
      reads this
    {
      Gauges(numProcs, threads, mem, swapBytes, fds, pss, ioRead, oldestStart, states)
    }

    constructor (key: Key, oldest: real)
      ensures this.key == key && View() == Empty(oldest)
    {
      this.key := key;
      numProcs, threads, swapBytes, ioRead := 0, 0, 0, 0;
      mem, fds, pss := Memory(0, 0, 0, 0), FdGauges(0, 0, 0, 0.0), PssGauges(0, 0, 0);
      oldestStart := oldest;
      states, stateNames := multiset{}, map[];
      accum := Fresh(0);
    }

    method AddMem(v: Memory)
      modifies `mem
      ensures mem == MemPlus(old(mem), v)
    {
      mem := mem.(rssBytes := mem.rssBytes + v.rssBytes, vsizeBytes := mem.vsizeBytes + v.vsizeBytes);
      mem := mem.(sharedBytes := mem.sharedBytes + v.sharedBytes, dataBytes := mem.dataBytes + v.dataBytes);
    }

    method AddPss(v: PssView)
      modifies `pss
      ensures pss == PssPlus(old(pss), v)
    {
      if v.have {
        pss := pss.(bytes := pss.bytes + v.pssBytes);
        pss := pss.(swapBytes := pss.swapBytes + v.swapPssBytes);
        pss := pss.(read := pss.read + 1);
      }
    }

    method AddFds(v: FdView)
      modifies `fds
      ensures fds == FdPlus(old(fds), v)
    {
      if v.have && v.openFDs >= 0 {
        fds := fds.(open := fds.open + v.openFDs);
        fds := fds.(read := fds.read + 1);
        if v.maxFDs > 0 {
          fds := fds.(max := fds.max + v.maxFDs);
        }
        if v.ratio > fds.worst {
          fds := fds.(worst := v.ratio);
        }
      }
    }

    method AddAge(start: real)
      modifies `oldestStart
      ensures oldestStart == Older(start, old(oldestStart))
    {
      if start > 0.0 && (oldestStart == 0.0 || start < oldestStart) {
        oldestStart := start;
      }
    }

    /** The counters of the group, and its states under readable names. */
    method Fill(totals: Totals)
      modifies `accum, `stateNames
      ensures Carries(totals)
    {
      accum := totals;
      stateNames := Materialise(states);
    }

    ghost predicate Carries(totals: Totals)
      reads this
    {
      accum == totals && NamesOf(LettersOf(states), states, stateNames)
    }

    /** What every member adds. */
    method AddAlways(p: Process)
      modifies `numProcs, `threads, `mem, `swapBytes, `states
      ensures numProcs == old(numProcs) + 1 && threads == old(threads) + p.threads
      ensures mem == MemPlus(old(mem), p.mem) && swapBytes == old(swapBytes) + p.swapBytes
      ensures states == old(states) + multiset{Letter(p.state)}
    {
      numProcs := numProcs + 1;
      threads := threads + p.threads;
      AddMem(p.mem);
      swapBytes := swapBytes + p.swapBytes;
      states := states + multiset{Letter(p.state)};
    }

    /** What depends on what could be read of the member. */
    method AddRead(p: Process)
      modifies `fds, `pss, `ioRead, `oldestStart
      ensures fds == FdPlus(old(fds), p.fd) && pss == PssPlus(old(pss), p.pss)
      ensures ioRead == (if p.haveIO then old(ioRead) + 1 else old(ioRead))
      ensures oldestStart == Older(p.startUnix, old(oldestStart))
    {
      AddPss(p.pss);
      AddAge(p.startUnix);
      AddFds(p.fd);
      if p.haveIO {
        ioRead := ioRead + 1;
      }
    }

    /** The body of the loop of `Apply` for the group of one process. */
    method Add(p: Process)
      modifies `numProcs, `threads, `mem, `swapBytes, `fds, `pss, `ioRead, `oldestStart, `states
      ensures View() == Plus(old(View()), p)
    {
      AddAlways(p);
      AddRead(p);
    }
  }

  /** One complete scan result. */
  class Snapshot {
    var groups: map<Key, Sample>
    var list: seq<Sample>
    var namesSeen: nat
    const procsTotal: nat
    const counts: Counts
    const readErrs: multiset<Label>
    const stateEntries: nat
    const scanNumber: nat

    /** The gauges shown, and the samples that show them. */
    ghost var shown: Grouping
    ghost var repr: set<Sample>

    /** Each sample carries its own key, so no sample stands for two groups. */
    ghost predicate Valid()
      reads this, repr
    {
      && groups.Keys == shown.Keys
      && (forall k :: k in groups ==> Shows(k))
    }

    ghost predicate Shows(k: Key)
      requires k in groups && k in shown
      reads this, repr
    {
      groups[k] in repr && groups[k].key == k && groups[k].View() == shown[k]
    }

    /** Each sample carries its group's counters. */
    ghost predicate Settled(totals: Accums)
      reads this, repr
    {
      AllFilled(groups.Keys, totals)
    }

    ghost predicate AllFilled(done: set<Key>, totals: Accums)
      reads this, repr
    {
      && groups.Keys == shown.Keys
      && done <= groups.Keys && done <= totals.Keys
      && (forall k :: k in done ==> Filled(k, totals))
    }

    ghost predicate Filled(k: Key, totals: Accums)
      requires k in groups && k in shown && k in totals
      reads this, repr
    {
      Shows(k) && groups[k].Carries(totals[k])
    }

    /** What the snapshot says of the scan itself. */
    ghost predicate Tells(res: ScanResult)
      reads res
    {
      && procsTotal == res.total && counts == res.Counted()
      && readErrs == res.readErrs && stateEntries == res.stateEntries
    }

    /** The groups with their gauges and their counters. */
    ghost predicate Shown(groups: Grouping, totals: Accums)
      reads this, repr
    {
      shown == groups && Settled(totals)
    }

    ghost predicate Published(groups: Grouping, totals: Accums, names: nat)
      reads this, repr
    {
      Shown(groups, totals) && namesSeen == names && Enumerates(list, this.groups)
    }

    constructor (scanNumber: nat, res: ScanResult)
      ensures Valid() && shown == map[] && repr == {} && list == []
      ensures this.scanNumber == scanNumber
      ensures Tells(res)
    {
      this.scanNumber := scanNumber;
      groups, list := map[], [];
      procsTotal, readErrs, stateEntries := res.total, res.readErrs, res.stateEntries;
      counts := Counts(res.scanned, res.ignored, res.vanished, res.denied);
      namesSeen := 0;
      shown, repr := map[], {};
    }

    /** The sample of a group, made on its first member. */
    method SampleOf(k: Key, oldest: real) returns (s: Sample)
      requires Valid()
      modifies `groups, `shown, `repr
      ensures Valid() && fresh(repr - old(repr))
      ensures k in groups && groups[k] == s && s in repr
      ensures shown == Opened(old(shown), k, oldest)
    {
      if k in groups {
        s := groups[k];
      } else {
        s := new Sample(k, oldest);
        groups, repr := groups[k := s], repr + {s};
        shown := shown[k := Empty(oldest)];
      }
    }

    method Grow(s: Sample, p: Process)
      requires Valid() && s.key in groups && groups[s.key] == s
      modifies `shown, repr
      ensures Valid()
      ensures shown == old(shown)[s.key := Plus(old(shown)[s.key], p)]
    {
      s.Add(p);
      shown := shown[s.key := Plus(shown[s.key], p)];
      forall q | q in groups ensures Shows(q) {
        if q != s.key {
          assert groups[q].key != s.key;
        }
      }
    }

    /** The names ever seen are counted, and the samples listed in the order of the
        iteration over the map. */
    method Finish(namesSeen: nat, ghost gs: Grouping, ghost totals: Accums)
      requires Shown(gs, totals)
      modifies `list, `namesSeen
      ensures Published(gs, totals, namesSeen)
    {
      this.namesSeen := namesSeen;
      list := ListOf(groups);
      forall k | k in groups ensures Filled(k, totals) {
        assert old(Filled(k, totals));
      }
    }

    /** One process joins its group. */
    method Join(p: Process)
      requires Valid()
      modifies `groups, `shown, `repr, repr
      ensures Valid() && fresh(repr - old(repr))
      ensures shown == Groups.Join(old(shown), p)
    {
      JoinOpened(shown, p);
      var s := SampleOf(KeyOf(p), p.startUnix);
      Grow(s, p);
    }
  }

  /** Each sample once, in any order. */
  ghost predicate Enumerates(list: seq<Sample>, groups: map<Key, Sample>) {
    |list| == |groups| && forall k :: k in groups ==> groups[k] in list
  }

  method ListOf(groups: map<Key, Sample>) returns (list: seq<Sample>)
    ensures Enumerates(list, groups)
  {
    list := [];
    var todo := groups.Keys;
    while todo != {}
      invariant todo <= groups.Keys
      invariant |list| + |todo| == |groups.Keys|
      invariant forall k :: k in groups && k !in todo ==> groups[k] in list
      decreases todo
    {
      var k :| k in todo;
      list, todo := list + [groups[k]], todo - {k};
    }
    assert |groups.Keys| == |groups|;
  }

  /** The accumulators, kept across scans. */
  class Aggregator {
    var accums: map<Key, Accum>
    var namesSeen: set<string>
    var scans: nat
    const system: System

    /** The accumulators as values, and the objects that hold them. */
    ghost var book: Accums
    ghost var repr: set<Accum>

    ghost predicate Valid()
      reads this, repr
    {
      && accums.Keys == book.Keys
      && (forall k :: k in accums ==> Holds(k))
    }

    ghost predicate Holds(k: Key)
      requires k in accums && k in book
      reads this, repr
    {
      accums[k] in repr && accums[k].key == k && accums[k].View() == book[k]
    }

    constructor (system: System)
      ensures Valid() && book == map[] && namesSeen == {} && scans == 0 && repr == {}
      ensures this.system == system
    {
      this.system := system;
      accums, book, repr := map[], map[], {};
      namesSeen, scans := {}, 0;
    }

    method Reset()
      requires Valid()
      modifies `accums, `book, `namesSeen
      ensures Valid() && book == map[] && namesSeen == {}
    {
      accums, book, namesSeen := map[], map[], {};
    }

    method AccumOf(k: Key, now: int) returns (a: Accum)
      requires Valid()
      modifies `accums, `book, `repr
      ensures Valid() && fresh(repr - old(repr))
      ensures k in accums && accums[k] == a && a in repr
      ensures book == if k in old(book) then old(book) else old(book)[k := Fresh(now)]
    {
      if k in accums {
        a := accums[k];
      } else {
        a := new Accum(k, now);
        accums, book, repr := accums[k := a], book[k := Fresh(now)], repr + {a};
      }
    }

    method Raise(a: Accum, p: Process, now: int)
      requires Valid() && a.key in accums && accums[a.key] == a
      modifies `book, repr
      ensures Valid()
      ensures book == old(book)[a.key := Added(old(book)[a.key], p, now, system)]
    {
      a.Add(p, now, system);
      book := book[a.key := Added(book[a.key], p, now, system)];
      forall q | q in accums ensures Holds(q) {
        if q != a.key {
          assert accums[q].key != a.key;
        }
      }
    }

    /** `accumulate`: one process's deltas, into its group's own object. */
    method Accumulate(p: Process, now: int)
      requires Valid()
      modifies `accums, `book, `repr, repr
      ensures Valid() && fresh(repr - old(repr))
      ensures book == Raised(old(book), p, now, system)
    {
      var a := AccumOf(KeyOf(p), now);
      Raise(a, p, now);
    }

    method Note(name: string)
      requires Valid()
      modifies `namesSeen
      ensures Valid() && namesSeen == old(namesSeen) + {name}
    {
      namesSeen := namesSeen + {name};
    }

    /** One process joins its group and adds to its accumulator. */
    method Take(snap: Snapshot, p: Process, now: int)
      requires Valid() && snap.Valid()
      modifies `accums, `book, `repr, `namesSeen, repr, snap`groups, snap`shown, snap`repr, snap.repr
      ensures Valid() && fresh(repr - old(repr))
      ensures snap.Valid() && fresh(snap.repr - old(snap.repr))
      ensures snap.shown == Join(old(snap.shown), p)
      ensures book == Raised(old(book), p, now, system)
      ensures namesSeen == old(namesSeen) + {p.name}
    {
      Note(p.name);
      snap.Join(p);
      Accumulate(p, now);
    }

    /** The loop of `Apply`. */
    method TakeAll(snap: Snapshot, procs: seq<Process>, now: int)
      requires Valid() && snap.Valid() && snap.shown == map[]
      modifies `accums, `book, `repr, `namesSeen, repr, snap`groups, snap`shown, snap`repr, snap.repr
      ensures Valid() && fresh(repr - old(repr))
      ensures snap.Valid() && fresh(snap.repr - old(snap.repr))
      ensures snap.shown == Grouped(procs)
      ensures book == Accumulated(old(book), procs, now, system)
      ensures namesSeen == old(namesSeen) + NamesIn(procs)
    {
      ghost var was, seen := book, namesSeen;
      for i := 0 to |procs|
        invariant Valid() && fresh(repr - old(repr))
        invariant snap.Valid() && fresh(snap.repr - old(snap.repr))
        invariant Taken(snap.shown, book, namesSeen, was, seen, procs[..i], now, system)
      {
        TakenSnoc(snap.shown, book, namesSeen, was, seen, procs, i, now, system);
        Take(snap, procs[i], now);
      }
      assert procs[..|procs|] == procs;
    }

    /** Copies one accumulator into the sample of its group. */
    method CopyOne(snap: Snapshot, k: Key, ghost done: set<Key>)
      requires Valid() && snap.Valid() && snap.AllFilled(done, book) && k in snap.groups && k in book
      modifies {snap.groups[k]}`accum, {snap.groups[k]}`stateNames
      ensures Valid() && snap.Valid() && snap.AllFilled(done + {k}, book)
    {
      assert snap.Shows(k);
      if k in accums {
        assert Holds(k);
        snap.groups[k].Fill(accums[k].View());
      }
      forall q | q in snap.groups ensures snap.Shows(q) && (q in done ==> snap.Filled(q, book)) {
        assert old(snap.Shows(q)) && (q in done ==> old(snap.Filled(q, book)));
      }
    }

    /** Copies the accumulators into the samples: later scans change the accumulators only. */
    method Copy(snap: Snapshot)
      requires Valid() && snap.Valid() && snap.groups.Keys <= book.Keys
      modifies snap.repr`accum, snap.repr`stateNames
      ensures Valid() && snap.Settled(book)
    {
      var groups := snap.groups;
      var todo := groups.Keys;
      while todo != {}
        invariant snap.groups == groups && todo <= groups.Keys
        invariant Valid() && snap.Valid() && snap.AllFilled(groups.Keys - todo, book)
        decreases todo
      {
        var k :| k in todo;
        assert snap.Shows(k);
        CopyOne(snap, k, groups.Keys - todo);
        OneFewer(groups.Keys, todo, k);
        todo := todo - {k};
      }
      assert groups.Keys - todo == groups.Keys;
    }

    /** The groups of a scan, and their counters. */
    method Fill(snap: Snapshot, procs: seq<Process>, now: int)
      requires Valid() && snap.Valid() && snap.shown == map[]
      modifies `accums, `book, `repr, `namesSeen, repr, snap`groups, snap`shown, snap`repr, snap.repr
      ensures Valid() && fresh(repr - old(repr)) && fresh(snap.repr - old(snap.repr))
      ensures book == Accumulated(old(book), procs, now, system)
      ensures snap.Shown(Grouped(procs), book)
      ensures namesSeen == old(namesSeen) + NamesIn(procs)
    {
      ghost var was := book;
      TakeAll(snap, procs, now);
      GroupsHaveTotals(was, procs, now, system);
      Copy(snap);
    }

    /** The end of `Apply`: the old accumulators go, and the snapshot is listed. */
    method Close(snap: Snapshot, now: int, retention: int, ghost gs: Grouping, ghost totals: Accums)
      requires Valid() && book == totals && snap.Shown(gs, totals)
      modifies `accums, `book, snap`list, snap`namesSeen
      ensures Valid() && book == Retained(totals, now, retention)
      ensures snap.Published(gs, totals, |namesSeen|)
    {
      Trim(now, retention);
      snap.Finish(|namesSeen|, gs, totals);
    }

    /** All of `Apply` but making the snapshot. */
    method Fold(snap: Snapshot, procs: seq<Process>, now: int, retention: int)
      requires Valid() && snap.Valid() && snap.shown == map[]
      modifies `accums, `book, `repr, `namesSeen, repr
      modifies snap`groups, snap`shown, snap`repr, snap`list, snap`namesSeen, snap.repr
      ensures Valid() && fresh(repr - old(repr)) && fresh(snap.repr - old(snap.repr))
      ensures book == After(old(book), Feed.Apply(procs, now, retention), system)
      ensures namesSeen == old(namesSeen) + NamesIn(procs)
      ensures snap.Published(Grouped(procs), Accumulated(old(book), procs, now, system), |namesSeen|)
    {
      ghost var gs, totals := Grouped(procs), Accumulated(book, procs, now, system);
      Fill(snap, procs, now);
      Close(snap, now, retention, gs, totals);
    }

    /** `Apply`. The snapshot is made of new objects, so that no later call changes it. */
    method Apply(res: ScanResult, now: int, retention: int) returns (snap: Snapshot)
      requires Valid()
      modifies this, repr
      ensures Valid() && fresh(repr - old(repr)) && fresh(snap) && fresh(snap.repr)
      ensures book == After(old(book), Feed.Apply(res.procs, now, retention), system)
      ensures namesSeen == old(namesSeen) + NamesIn(res.procs)
      ensures scans == snap.scanNumber == old(scans) + 1
      ensures snap.Tells(res)
      ensures snap.Published(Grouped(res.procs), Accumulated(old(book), res.procs, now, system), |namesSeen|)
    {
      scans := scans + 1;
      snap := new Snapshot(scans, res);
      Fold(snap, res.procs, now, retention);
    }

    method Drop(k: Key)
      requires Valid() && k in accums
      modifies `accums, `book
      ensures Valid()
      ensures accums.Keys == old(accums.Keys) - {k} && book == old(book) - {k} && |book| + 1 == |old(book)|
    {
      Smaller(book, k);
      accums, book := accums - {k}, book - {k};
      forall q | q in accums ensures Holds(q) {
        assert old(Holds(q));
      }
    }

    /** `prune`: deletes in any order; a retention of zero or less deletes nothing. */
    method Prune(now: int, retention: int) returns (n: nat)
      requires Valid()
      modifies `accums, `book
      ensures Valid()
      ensures book == Retained(old(book), now, retention)
      ensures n + |book| == |old(book)|
    {
      n := 0;
      if retention <= 0 {
        return;
      }
      ghost var was := book;
      var todo := accums.Keys;
      while todo != {}
        invariant Valid() && todo <= book.Keys
        invariant Pruning(was, book, todo, now, retention)
        invariant n + |book| == |was|
        decreases todo
      {
        var k :| k in todo;
        assert Holds(k);
        PruningStep(was, book, todo, k, now, retention);
        if now - accums[k].lastSeen > retention {
          Drop(k);
          n := n + 1;
        }
        todo := todo - {k};
      }
      PruningDone(was, book, now, retention);
    }

    /** `prune` as `Apply` calls it, which does not use the count. */
    method Trim(now: int, retention: int)
      requires Valid()
      modifies `accums, `book
      ensures Valid() && book == Retained(old(book), now, retention)
    {
      var _ := Prune(now, retention);
    }
  }

  /** Every accumulator not still to be looked at is kept exactly when it is recent. */
  ghost predicate Pruning(was: Accums, book: Accums, todo: set<Key>, now: int, retention: int) {
    && (forall k :: k in book ==> k in was && book[k] == was[k])
    && (forall k :: k in was && k !in todo ==> (k in book <==> now - was[k].lastSeen <= retention))
  }

  /** How far the loop of `Apply` has come. */
  ghost predicate Taken(shown: Grouping, book: Accums, names: set<string>, was: Accums, seen: set<string>,
                        procs: seq<Process>, now: int, sys: System) {
    && shown == Grouped(procs)
    && book == Accumulated(was, procs, now, sys)
    && names == seen + NamesIn(procs)
  }

  lemma TakenSnoc(shown: Grouping, book: Accums, names: set<string>, was: Accums, seen: set<string>,
                  procs: seq<Process>, i: nat, now: int, sys: System)
    requires i < |procs| && Taken(shown, book, names, was, seen, procs[..i], now, sys)
    ensures Taken(Join(shown, procs[i]), Raised(book, procs[i], now, sys), names + {procs[i].name}, was, seen,
                  procs[..i + 1], now, sys)
  {
    assert procs[..i + 1] == procs[..i] + [procs[i]];
    FoldSnoc(Joiner(), map[], procs[..i], procs[i]);
    FoldSnoc(Raiser(now, sys), was, procs[..i], procs[i]);
    NamesSnoc(procs[..i], procs[i]);
  }

  function NamesIn(procs: seq<Process>): set<string> {
    set i: nat | i < |procs| :: procs[i].name
  }

  lemma NamesSnoc(procs: seq<Process>, p: Process)
    ensures NamesIn(procs + [p]) == NamesIn(procs) + {p.name}
  {
    var all := procs + [p];
    assert all[|procs|] == p;
    forall n | n in NamesIn(procs) ensures n in NamesIn(all) {
      var i: nat :| i < |procs| && procs[i].name == n;
      assert all[i] == procs[i];
    }
  }

  /** The groups of a scan are those of its processes, and each has an accumulator. */
  lemma GroupsHaveTotals(was: Accums, procs: seq<Process>, now: int, sys: System)
    ensures Grouped(procs).Keys <= Accumulated(was, procs, now, sys).Keys
    ensures forall k :: k in Grouped(procs) <==> Live(procs, k)
  {
    forall k ensures k in Grouped(procs) <==> Live(procs, k) {
      GroupIsLive(procs, k);
    }
    forall k | k in Grouped(procs) ensures k in Accumulated(was, procs, now, sys) {
      ScanAdds(was, procs, now, sys, k, KeptProcesses.UTime);
    }
  }

  lemma {:induction false} GroupIsLive(procs: seq<Process>, k: Key)
    ensures k in Grouped(procs) <==> Live(procs, k)
  {
    if procs != [] {
      var n := |procs| - 1;
      assert procs == procs[..n] + [procs[n]];
      GroupIsLive(procs[..n], k);
      FoldSnoc(Joiner(), map[], procs[..n], procs[n]);
      LiveSnoc(procs[..n], procs[n], k);
    }
  }

  lemma OneFewer(all: set<Key>, todo: set<Key>, k: Key)
    requires k in todo && k in all
    ensures all - (todo - {k}) == all - todo + {k}
  {
  }

  lemma PruningStep(was: Accums, book: Accums, todo: set<Key>, k: Key, now: int, retention: int)
    requires Pruning(was, book, todo, now, retention) && k in todo && k in book
    ensures Pruning(was, if now - book[k].lastSeen > retention then book - {k} else book, todo - {k}, now, retention)
  {
  }

  lemma PruningDone(was: Accums, book: Accums, now: int, retention: int)
    requires Pruning(was, book, {}, now, retention) && retention > 0
    ensures book == Retained(was, now, retention)
  {
  }

  lemma Smaller(m: Accums, k: Key)
    requires k in m
    ensures |m - {k}| + 1 == |m|
  {
    assert (m - {k}).Keys == m.Keys - {k};
    assert |m - {k}| == |(m - {k}).Keys| && |m| == |m.Keys|;
  }
}
