/** internal/aggregate/aggregate.go on values: the gauges of one group, and how a scan's
    processes are divided into groups. */
module Groups {
  import opened Procfs
  import opened StateMaps
  import opened Reading
  import opened Folding

  datatype Key = Key(name: string, user: string)

  function KeyOf(p: Process): Key { Key(p.name, p.user) }

  /** A process state letter of /proc/<pid>/stat. */
  datatype Letter = Letter(c: char)

  /** Descriptors of a group: sums, how many members were counted, and the worst ratio. */
  datatype FdGauges = FdGauges(open: int, max: int, read: nat, worst: real)

  datatype PssGauges = PssGauges(bytes: nat, swapBytes: nat, read: nat)

  /** The gauges of one group. `states` counts each letter. */
  datatype Gauges = Gauges(
    numProcs: nat,
    threads: int,
    mem: Memory,
    swapBytes: nat,
    fds: FdGauges,
    pss: PssGauges,
    ioRead: nat,
    oldestStart: real,
    states: multiset<Letter>)

  /** A group before its first member; it starts as old as that member. */
  function Empty(oldest: real): Gauges {
    Gauges(0, 0, Memory(0, 0, 0, 0), 0, FdGauges(0, 0, 0, 0.0), PssGauges(0, 0, 0), 0, oldest, multiset{})
  }

  function Older(start: real, oldest: real): real {
    if start > 0.0 && (oldest == 0.0 || start < oldest) then start else oldest
  }

  predicate CountsFds(fd: FdView) { fd.have && fd.openFDs >= 0 }

  function Max(a: real, b: real): real { if b > a then b else a }

  /** One more process's descriptor values, if they are counted. */
  function FdPlus(g: FdGauges, fd: FdView): FdGauges {
    if CountsFds(fd) then
      FdGauges(g.open + fd.openFDs, if fd.maxFDs > 0 then g.max + fd.maxFDs else g.max, g.read + 1,
               Max(g.worst, fd.ratio))
    else g
  }

  function PssPlus(g: PssGauges, pss: PssView): PssGauges {
    if pss.have then PssGauges(g.bytes + pss.pssBytes, g.swapBytes + pss.swapPssBytes, g.read + 1) else g
  }

  function MemPlus(a: Memory, b: Memory): Memory {
    Memory(a.rssBytes + b.rssBytes, a.vsizeBytes + b.vsizeBytes, a.sharedBytes + b.sharedBytes,
           a.dataBytes + b.dataBytes)
  }

  /** One more member. */
  function Plus(g: Gauges, p: Process): Gauges {
    Gauges(
      g.numProcs + 1,
      g.threads + p.threads,
      MemPlus(g.mem, p.mem),
      g.swapBytes + p.swapBytes,
      FdPlus(g.fds, p.fd),
      PssPlus(g.pss, p.pss),
      if p.haveIO then g.ioRead + 1 else g.ioRead,
      Older(p.startUnix, g.oldestStart),
      g.states + multiset{Letter(p.state)})
  }

  type Grouping = map<Key, Gauges>

  /** The gauges of a process's group once it has joined. */
  function Upon(gs: Grouping, p: Process): Gauges {
    Plus(if KeyOf(p) in gs then gs[KeyOf(p)] else Empty(p.startUnix), p)
  }

  function Join(gs: Grouping, p: Process): Grouping {
    gs[KeyOf(p) := Upon(gs, p)]
  }

  /** A group is made, if need be, and then joined. */
  function Opened(gs: Grouping, k: Key, oldest: real): Grouping {
    if k in gs then gs else gs[k := Empty(oldest)]
  }

  lemma JoinOpened(gs: Grouping, p: Process)
    ensures var k, open := KeyOf(p), Opened(gs, KeyOf(p), p.startUnix);
            k in open && open[k := Plus(open[k], p)] == Join(gs, p)
  {
  }

  function Joiner(): (Grouping, Process) -> Grouping {
    (gs, p) => Join(gs, p)
  }

  /** The groups of a scan, process by process. */
  function Grouped(procs: seq<Process>): Grouping {
    FoldLeft(Joiner(), map[], procs)
  }

  // ---- Order and pids do not matter ----

  predicate Started(p: Process) { p.startUnix >= 0.0 }

  lemma PlusCommutes(g: Gauges, p: Process, q: Process)
    requires p.startUnix >= 0.0 && q.startUnix >= 0.0 && g.oldestStart >= 0.0
    ensures Plus(Plus(g, p), q) == Plus(Plus(g, q), p)
  {
    assert g.states + multiset{Letter(p.state)} + multiset{Letter(q.state)} ==
           g.states + multiset{Letter(q.state)} + multiset{Letter(p.state)};
  }

  lemma EmptyStartIrrelevant(p: Process)
    requires p.startUnix >= 0.0
    ensures Plus(Empty(p.startUnix), p) == Plus(Empty(0.0), p)
  {
  }

  ghost predicate Aged(gs: Grouping) {
    forall k :: k in gs ==> gs[k].oldestStart >= 0.0
  }

  lemma JoinAged(gs: Grouping, p: Process)
    requires Aged(gs) && p.startUnix >= 0.0
    ensures Aged(Join(gs, p))
  {
  }

  lemma UpdateApart<K, V>(m: map<K, V>, a: K, b: K, x: V, y: V)
    requires a != b
    ensures m[a := x][b := y] == m[b := y][a := x]
  {
  }

  lemma UponApart(gs: Grouping, k: Key, g: Gauges, q: Process)
    requires k != KeyOf(q)
    ensures Upon(gs[k := g], q) == Upon(gs, q)
  {
  }

  lemma JoinApart(gs: Grouping, p: Process, q: Process)
    requires KeyOf(p) != KeyOf(q)
    ensures Join(Join(gs, p), q) == Join(Join(gs, q), p)
  {
    var x, y := Upon(gs, p), Upon(gs, q);
    UponApart(gs, KeyOf(p), x, q);
    UponApart(gs, KeyOf(q), y, p);
    UpdateApart(gs, KeyOf(p), KeyOf(q), x, y);
  }

  lemma JoinTogether(gs: Grouping, p: Process, q: Process)
    requires KeyOf(p) == KeyOf(q) && Aged(gs) && p.startUnix >= 0.0 && q.startUnix >= 0.0
    ensures Join(Join(gs, p), q) == Join(Join(gs, q), p)
  {
    var k := KeyOf(p);
    var g := if k in gs then gs[k] else Empty(0.0);
    EmptyStartIrrelevant(p);
    EmptyStartIrrelevant(q);
    assert Upon(gs, p) == Plus(g, p) && Upon(gs, q) == Plus(g, q);
    PlusCommutes(g, p, q);
    assert Join(Join(gs, p), q) == gs[k := Plus(Plus(g, p), q)];
    assert Join(Join(gs, q), p) == gs[k := Plus(Plus(g, q), p)];
  }

  lemma JoinCommutes(gs: Grouping, p: Process, q: Process)
    requires Aged(gs) && p.startUnix >= 0.0 && q.startUnix >= 0.0
    ensures Join(Join(gs, p), q) == Join(Join(gs, q), p)
  {
    if KeyOf(p) == KeyOf(q) {
      JoinTogether(gs, p, q);
    } else {
      JoinApart(gs, p, q);
    }
  }

  /** The groups of a scan depend only on which processes it saw, not on their order. */
  lemma GroupingIgnoresOrder(a: seq<Process>, b: seq<Process>)
    requires multiset(a) == multiset(b)
    requires forall i :: 0 <= i < |a| ==> Started(a[i])
    ensures Grouped(a) == Grouped(b)
  {
    var ok: Grouping -> bool := (gs: Grouping) => Aged(gs);
    var good: Process -> bool := p => Started(p);
    var f := Joiner();
    forall gs, p ensures Stays(f, ok, good, gs, p) {
      if ok(gs) && good(p) {
        JoinAged(gs, p);
      }
    }
    forall gs, p, q ensures Swaps(f, ok, good, gs, p, q) {
      if ok(gs) && good(p) && good(q) {
        JoinCommutes(gs, p, q);
      }
    }
    FoldIgnoresOrder(f, ok, good, map[], a, b);
  }

  function Renumbered(procs: seq<Process>, pid: Process -> Pid): (r: seq<Process>)
    ensures |r| == |procs|
  {
    seq(|procs|, i requires 0 <= i < |procs| => procs[i].(pid := pid(procs[i])))
  }

  lemma JoinIgnoresPid(gs: Grouping, p: Process, pid: Pid)
    ensures Join(gs, p.(pid := pid)) == Join(gs, p)
  {
  }

  /** No pid reaches a group. */
  lemma {:induction false} GroupingIgnoresPids(procs: seq<Process>, pid: Process -> Pid)
    ensures Grouped(Renumbered(procs, pid)) == Grouped(procs)
  {
    if procs != [] {
      var n := |procs| - 1;
      var init, last := procs[..n], procs[n];
      assert Renumbered(procs, pid) == Renumbered(init, pid) + [last.(pid := pid(last))];
      assert procs == init + [last];
      GroupingIgnoresPids(init, pid);
      FoldSnoc(Joiner(), map[], Renumbered(init, pid), last.(pid := pid(last)));
      FoldSnoc(Joiner(), map[], init, last);
      JoinIgnoresPid(Grouped(init), last, pid(last));
    }
  }
}
