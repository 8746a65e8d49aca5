/** What the gauges of a group mean: each is a sum, a minimum, a maximum or a count over
    exactly the processes of the group. */
module GroupTotals {
  import opened StateMaps
  import opened Reading
  import opened Folding
  import opened Groups

  /** The additive gauges. */
  datatype Measure =
    | Members | Threads | Rss | VSize | Shared | Data | Swap
    | OpenFDs | MaxFDs | FDsRead | IORead | Pss | SwapPss | PSSRead

  /** What one process adds. */
  function Share(p: Process, m: Measure): int {
    match m
    case Members => 1
    case Threads => p.threads
    case Rss => p.mem.rssBytes
    case VSize => p.mem.vsizeBytes
    case Shared => p.mem.sharedBytes
    case Data => p.mem.dataBytes
    case Swap => p.swapBytes
    case OpenFDs => if CountsFds(p.fd) then p.fd.openFDs else 0
    case MaxFDs => if CountsFds(p.fd) && p.fd.maxFDs > 0 then p.fd.maxFDs else 0
    case FDsRead => if CountsFds(p.fd) then 1 else 0
    case IORead => if p.haveIO then 1 else 0
    case Pss => if p.pss.have then p.pss.pssBytes else 0
    case SwapPss => if p.pss.have then p.pss.swapPssBytes else 0
    case PSSRead => if p.pss.have then 1 else 0
  }

  /** What the group shows. */
  function Shown(g: Gauges, m: Measure): int {
    match m
    case Members => g.numProcs
    case Threads => g.threads
    case Rss => g.mem.rssBytes
    case VSize => g.mem.vsizeBytes
    case Shared => g.mem.sharedBytes
    case Data => g.mem.dataBytes
    case Swap => g.swapBytes
    case OpenFDs => g.fds.open
    case MaxFDs => g.fds.max
    case FDsRead => g.fds.read
    case IORead => g.ioRead
    case Pss => g.pss.bytes
    case SwapPss => g.pss.swapBytes
    case PSSRead => g.pss.read
  }

  function SumOf(procs: seq<Process>, k: Key, m: Measure): int {
    if procs == [] then 0
    else
      var p := procs[|procs| - 1];
      SumOf(procs[..|procs| - 1], k, m) + if KeyOf(p) == k then Share(p, m) else 0
  }

  /** How many processes of the group are in one state. */
  function InState(procs: seq<Process>, k: Key, l: Letter): nat {
    if procs == [] then 0
    else
      var p := procs[|procs| - 1];
      InState(procs[..|procs| - 1], k, l) + if KeyOf(p) == k && Letter(p.state) == l then 1 else 0
  }

  ghost predicate InGroup(procs: seq<Process>, k: Key, i: int) {
    0 <= i < |procs| && KeyOf(procs[i]) == k
  }

  /** `o` is the smallest positive start time of the group, or zero if there is none. */
  ghost predicate OldestOf(procs: seq<Process>, k: Key, o: real) {
    && o >= 0.0
    && (forall i :: InGroup(procs, k, i) && procs[i].startUnix > 0.0 ==> 0.0 < o <= procs[i].startUnix)
    && (o > 0.0 ==> exists i :: InGroup(procs, k, i) && procs[i].startUnix == o)
  }

  /** `w` is the largest descriptor ratio counted in the group, or zero. */
  ghost predicate WorstOf(procs: seq<Process>, k: Key, w: real) {
    && w >= 0.0
    && (forall i :: InGroup(procs, k, i) && CountsFds(procs[i].fd) ==> procs[i].fd.ratio <= w)
    && (w > 0.0 ==> exists i :: InGroup(procs, k, i) && CountsFds(procs[i].fd) && procs[i].fd.ratio == w)
  }

  ghost predicate Sums(procs: seq<Process>, k: Key, g: Gauges) {
    && (forall m :: Shown(g, m) == SumOf(procs, k, m))
    && (forall l :: g.states[l] == InState(procs, k, l))
    && |g.states| == g.numProcs
  }

  ghost predicate Totals(procs: seq<Process>, k: Key, g: Gauges) {
    Sums(procs, k, g) && WorstOf(procs, k, g.fds.worst)
  }

  lemma SumsJoin(procs: seq<Process>, p: Process, g: Gauges)
    requires Sums(procs, KeyOf(p), g)
    ensures Sums(procs + [p], KeyOf(p), Plus(g, p))
  {
    var all, k, h := procs + [p], KeyOf(p), Plus(g, p);
    assert all[..|procs|] == procs;
    forall m ensures Shown(h, m) == SumOf(all, k, m) {
      assert Shown(g, m) == SumOf(procs, k, m);
    }
    forall l ensures h.states[l] == InState(all, k, l) {
      assert g.states[l] == InState(procs, k, l);
    }
  }

  lemma OldestJoin(procs: seq<Process>, p: Process, o: real)
    requires OldestOf(procs, KeyOf(p), o) && p.startUnix >= 0.0
    ensures OldestOf(procs + [p], KeyOf(p), Older(p.startUnix, o))
  {
    var all, k, n := procs + [p], KeyOf(p), |procs|;
    var o' := Older(p.startUnix, o);
    forall i | InGroup(all, k, i) && all[i].startUnix > 0.0 ensures 0.0 < o' <= all[i].startUnix {
      if i < n {
        assert InGroup(procs, k, i);
      }
    }
    if o' > 0.0 {
      if o' == p.startUnix {
        assert InGroup(all, k, n);
      } else {
        var i :| InGroup(procs, k, i) && procs[i].startUnix == o;
        assert InGroup(all, k, i);
      }
    }
  }

  lemma WorstJoin(procs: seq<Process>, p: Process, w: real)
    requires WorstOf(procs, KeyOf(p), w)
    ensures WorstOf(procs + [p], KeyOf(p), if CountsFds(p.fd) then Max(w, p.fd.ratio) else w)
  {
    var all, k, n := procs + [p], KeyOf(p), |procs|;
    var w' := if CountsFds(p.fd) then Max(w, p.fd.ratio) else w;
    forall i | InGroup(all, k, i) && CountsFds(all[i].fd) ensures all[i].fd.ratio <= w' {
      if i < n {
        assert InGroup(procs, k, i);
      }
    }
    if w' > 0.0 {
      if w' == w {
        var i :| InGroup(procs, k, i) && CountsFds(procs[i].fd) && procs[i].fd.ratio == w;
        assert InGroup(all, k, i);
      } else {
        assert InGroup(all, k, n);
      }
    }
  }

  lemma InGroupApart(procs: seq<Process>, p: Process, k: Key)
    requires KeyOf(p) != k
    ensures forall i :: InGroup(procs + [p], k, i) <==> InGroup(procs, k, i)
  {
  }

  lemma SumsApart(procs: seq<Process>, p: Process, k: Key, g: Gauges)
    requires Sums(procs, k, g) && KeyOf(p) != k
    ensures Sums(procs + [p], k, g)
  {
    var all := procs + [p];
    assert all[..|procs|] == procs;
    forall m ensures Shown(g, m) == SumOf(all, k, m) {
      assert Shown(g, m) == SumOf(procs, k, m);
    }
    forall l ensures g.states[l] == InState(all, k, l) {
      assert g.states[l] == InState(procs, k, l);
    }
  }

  lemma WorstApart(procs: seq<Process>, p: Process, k: Key, w: real)
    requires WorstOf(procs, k, w) && KeyOf(p) != k
    ensures WorstOf(procs + [p], k, w)
  {
    InGroupApart(procs, p, k);
    if i :| InGroup(procs, k, i) && CountsFds(procs[i].fd) && procs[i].fd.ratio == w {
      assert InGroup(procs + [p], k, i);
    }
  }

  lemma OldestApart(procs: seq<Process>, p: Process, k: Key, o: real)
    requires OldestOf(procs, k, o) && KeyOf(p) != k
    ensures OldestOf(procs + [p], k, o)
  {
    InGroupApart(procs, p, k);
    if i :| InGroup(procs, k, i) && procs[i].startUnix == o {
      assert InGroup(procs + [p], k, i);
    }
  }

  lemma {:induction false} NothingOf(procs: seq<Process>, k: Key, oldest: real)
    requires forall i :: !InGroup(procs, k, i)
    ensures Totals(procs, k, Empty(oldest))
  {
    if procs == [] {
    } else {
      var n := |procs| - 1;
      var init, p := procs[..n], procs[n];
      assert KeyOf(p) != k by { assert !InGroup(procs, k, n); }
      assert procs == init + [p];
      InGroupApart(init, p, k);
      NothingOf(init, k, oldest);
      SumsApart(init, p, k, Empty(oldest));
      WorstApart(init, p, k, 0.0);
    }
  }

  /** The group is there exactly when it has a member, and shows its sums and its worst
      ratio. */
  ghost predicate Right(procs: seq<Process>, gs: Grouping, k: Key) {
    && (k in gs <==> exists i :: InGroup(procs, k, i))
    && (k in gs ==> Totals(procs, k, gs[k]))
  }

  lemma RightJoin(procs: seq<Process>, gs: Grouping, p: Process, k: Key)
    requires Right(procs, gs, k)
    ensures Right(procs + [p], Join(gs, p), k)
  {
    var all := procs + [p];
    if k == KeyOf(p) {
      assert InGroup(all, k, |procs|);
      var g := if k in gs then gs[k] else Empty(p.startUnix);
      if k !in gs {
        NothingOf(procs, k, p.startUnix);
      }
      SumsJoin(procs, p, g);
      WorstJoin(procs, p, g.fds.worst);
    } else {
      InGroupApart(procs, p, k);
      if k in gs {
        SumsApart(procs, p, k, gs[k]);
        WorstApart(procs, p, k, gs[k].fds.worst);
        var i :| InGroup(procs, k, i);
        assert InGroup(all, k, i);
      }
    }
  }

  /** The gauge theorem: a scan's groups are exactly the keys of its processes, and every
      gauge is the sum, count or largest ratio over exactly the processes of its group. */
  lemma {:induction false} GaugesMean(procs: seq<Process>, k: Key)
    ensures Right(procs, Grouped(procs), k)
  {
    if procs != [] {
      var n := |procs| - 1;
      var init, p := procs[..n], procs[n];
      assert procs == init + [p];
      GaugesMean(init, k);
      FoldSnoc(Joiner(), map[], init, p);
      RightJoin(init, Grouped(init), p, k);
    }
  }

  lemma OldestOfOne(procs: seq<Process>, p: Process)
    requires forall i :: !InGroup(procs, KeyOf(p), i)
    requires p.startUnix >= 0.0
    ensures OldestOf(procs + [p], KeyOf(p), p.startUnix)
  {
    var all := procs + [p];
    assert InGroup(all, KeyOf(p), |procs|);
    forall i | InGroup(all, KeyOf(p), i) ensures i == |procs| {
      assert InGroup(procs, KeyOf(p), i) || i == |procs|;
    }
  }

  /** The age of a group is that of its oldest member with a known start, where start
      times are not negative. */
  lemma {:induction false} OldestMeans(procs: seq<Process>, k: Key)
    requires forall i :: 0 <= i < |procs| ==> Started(procs[i])
    requires k in Grouped(procs)
    ensures OldestOf(procs, k, Grouped(procs)[k].oldestStart)
  {
    var n := |procs| - 1;
    var init, p := procs[..n], procs[n];
    assert procs == init + [p] && Started(p);
    FoldSnoc(Joiner(), map[], init, p);
    GaugesMean(init, k);
    if k in Grouped(init) {
      OldestMeans(init, k);
      if KeyOf(p) == k {
        OldestJoin(init, p, Grouped(init)[k].oldestStart);
      } else {
        OldestApart(init, p, k, Grouped(init)[k].oldestStart);
      }
    } else {
      OldestOfOne(init, p);
    }
  }

  // ---- Across groups ----

  /** The sum of a gauge over the groups. */
  ghost function Across(gs: Grouping, m: Measure): int {
    if gs == map[] then 0
    else
      var k :| k in gs;
      Shown(gs[k], m) + Across(gs - {k}, m)
  }

  lemma {:induction false} AcrossWithout(gs: Grouping, k: Key, m: Measure)
    requires k in gs
    ensures Across(gs, m) == Shown(gs[k], m) + Across(gs - {k}, m)
  {
    var x :| x in gs && Across(gs, m) == Shown(gs[x], m) + Across(gs - {x}, m);
    if x != k {
      AcrossWithout(gs - {x}, k, m);
      AcrossWithout(gs - {k}, x, m);
      assert gs - {x} - {k} == gs - {k} - {x};
    }
  }

  lemma AcrossJoin(gs: Grouping, p: Process, m: Measure)
    ensures Across(Join(gs, p), m) == Across(gs, m) + Share(p, m)
  {
    var k := KeyOf(p);
    var hs := Join(gs, p);
    AcrossWithout(hs, k, m);
    assert hs - {k} == gs - {k};
    if k in gs {
      AcrossWithout(gs, k, m);
    } else {
      assert gs - {k} == gs;
    }
  }

  function SumAll(procs: seq<Process>, m: Measure): int {
    if procs == [] then 0 else SumAll(procs[..|procs| - 1], m) + Share(procs[|procs| - 1], m)
  }

  /** Grouping loses nothing: every additive gauge summed over the groups is its sum over
      the processes. */
  lemma {:induction false} GroupsConserve(procs: seq<Process>, m: Measure)
    ensures Across(Grouped(procs), m) == SumAll(procs, m)
  {
    if procs != [] {
      var n := |procs| - 1;
      assert procs == procs[..n] + [procs[n]];
      GroupsConserve(procs[..n], m);
      FoldSnoc(Joiner(), map[], procs[..n], procs[n]);
      AcrossJoin(Grouped(procs[..n]), procs[n], m);
    }
  }

  /** In particular the group sizes add up to the number of processes. */
  lemma {:induction false} SizesAddUp(procs: seq<Process>)
    ensures Across(Grouped(procs), Members) == |procs|
  {
    GroupsConserve(procs, Members);
    MembersCount(procs);
  }

  lemma {:induction false} MembersCount(procs: seq<Process>)
    ensures SumAll(procs, Members) == |procs|
  {
    if procs != [] {
      MembersCount(procs[..|procs| - 1]);
    }
  }

  // ---- The worst ratio ----

  /** The ratio of a process with a positive limit is its own quotient. */
  ghost predicate RatioLaw(fd: FdView) {
    fd.maxFDs > 0 ==> fd.ratio * fd.maxFDs as real == fd.openFDs as real
  }

  /** The open descriptors a process adds to a limit. */
  function LimitedShare(p: Process): int {
    if p.fd.maxFDs > 0 then Share(p, OpenFDs) else 0
  }

  /** The open descriptors of the counted members that have a limit. */
  function LimitedOpen(procs: seq<Process>, k: Key): int {
    if procs == [] then 0
    else
      var p := procs[|procs| - 1];
      LimitedOpen(procs[..|procs| - 1], k) + if KeyOf(p) == k then LimitedShare(p) else 0
  }

  /** `x` times `w`, by addition. */
  function Times(w: real, x: nat): real {
    if x == 0 then 0.0 else Times(w, x - 1) + w
  }

  lemma {:induction false} TimesIsProduct(w: real, x: nat)
    ensures Times(w, x) == w * x as real
  {
    if x > 0 {
      TimesIsProduct(w, x - 1);
      assert w * x as real == w * (x - 1) as real + w;
    }
  }

  lemma {:induction false} TimesAdd(w: real, x: nat, y: nat)
    ensures Times(w, x + y) == Times(w, x) + Times(w, y)
  {
    if y > 0 {
      TimesAdd(w, x, y - 1);
    }
  }

  lemma RatioStep(r: real, w: real, x: real)
    requires r <= w && x >= 0.0
    ensures r * x <= w * x
  {
  }

  lemma ShareBounded(p: Process, w: real)
    requires (CountsFds(p.fd) ==> RatioLaw(p.fd) && p.fd.ratio <= w) && w >= 0.0
    ensures Share(p, MaxFDs) >= 0 && LimitedShare(p) as real <= Times(w, Share(p, MaxFDs))
  {
    if CountsFds(p.fd) && p.fd.maxFDs > 0 {
      TimesIsProduct(w, p.fd.maxFDs);
      RatioStep(p.fd.ratio, w, p.fd.maxFDs as real);
    }
  }

  lemma {:induction false} LimitedOpenBounded(procs: seq<Process>, k: Key, w: real)
    requires ExactRatios(procs, k)
    requires w >= 0.0 && forall i :: InGroup(procs, k, i) && CountsFds(procs[i].fd) ==> procs[i].fd.ratio <= w
    ensures SumOf(procs, k, MaxFDs) >= 0 && LimitedOpen(procs, k) as real <= Times(w, SumOf(procs, k, MaxFDs))
  {
    if procs != [] {
      var n := |procs| - 1;
      var init, p := procs[..n], procs[n];
      assert forall i :: InGroup(init, k, i) ==> InGroup(procs, k, i) && init[i] == procs[i];
      LimitedOpenBounded(init, k, w);
      if KeyOf(p) == k {
        assert InGroup(procs, k, n);
        ShareBounded(p, w);
        TimesAdd(w, SumOf(init, k, MaxFDs), Share(p, MaxFDs));
      }
    }
  }

  lemma TotalsOfFds(procs: seq<Process>, k: Key, g: Gauges)
    requires Totals(procs, k, g)
    ensures g.fds.open == SumOf(procs, k, OpenFDs) && g.fds.max == SumOf(procs, k, MaxFDs)
            && WorstOf(procs, k, g.fds.worst)
  {
    assert Shown(g, OpenFDs) == SumOf(procs, k, OpenFDs) && Shown(g, MaxFDs) == SumOf(procs, k, MaxFDs);
  }

  lemma FdGauges(procs: seq<Process>, k: Key)
    requires k in Grouped(procs)
    ensures var g := Grouped(procs)[k];
            && g.fds.open == SumOf(procs, k, OpenFDs) && g.fds.max == SumOf(procs, k, MaxFDs)
            && WorstOf(procs, k, g.fds.worst)
  {
    GaugesMean(procs, k);
    TotalsOfFds(procs, k, Grouped(procs)[k]);
  }

  /** Each counted member of the group has an exact ratio. */
  ghost predicate ExactRatios(procs: seq<Process>, k: Key) {
    forall i :: InGroup(procs, k, i) && CountsFds(procs[i].fd) ==> RatioLaw(procs[i].fd)
  }

  /** The worst ratio dominates the ratio of the sums: the descriptors of a group's limited
      members never exceed the worst ratio times the sum of the limits, so no dilution in
      the group can hide a member near its limit. */
  lemma WorstRatioDominates(procs: seq<Process>, k: Key)
    requires ExactRatios(procs, k) && k in Grouped(procs)
    ensures var g := Grouped(procs)[k];
            g.fds.max >= 0 && LimitedOpen(procs, k) as real <= Times(g.fds.worst, g.fds.max)
  {
    FdGauges(procs, k);
    LimitedOpenBounded(procs, k, Grouped(procs)[k].fds.worst);
  }

  ghost predicate AllLimited(procs: seq<Process>, k: Key) {
    forall i :: InGroup(procs, k, i) && CountsFds(procs[i].fd) ==> procs[i].fd.maxFDs > 0
  }

  lemma {:induction false} LimitedIsAll(procs: seq<Process>, k: Key)
    requires AllLimited(procs, k)
    ensures LimitedOpen(procs, k) == SumOf(procs, k, OpenFDs)
  {
    if procs != [] {
      var n := |procs| - 1;
      var init := procs[..n];
      forall i | InGroup(init, k, i) && CountsFds(init[i].fd) ensures init[i].fd.maxFDs > 0 {
        assert InGroup(procs, k, i);
      }
      LimitedIsAll(init, k);
      assert KeyOf(procs[n]) == k ==> InGroup(procs, k, n);
    }
  }

  /** The worst ratio times the summed limits covers all descriptors of the group. */
  ghost predicate Covered(procs: seq<Process>, k: Key) {
    k in Grouped(procs) ==>
      var g := Grouped(procs)[k];
      g.fds.max >= 0 && g.fds.open as real <= Times(g.fds.worst, g.fds.max)
  }

  /** Without unlimited members the bound holds for the whole descriptor count. */
  lemma WorstRatioDominatesAll(procs: seq<Process>, k: Key)
    requires ExactRatios(procs, k) && AllLimited(procs, k)
    ensures Covered(procs, k)
  {
    if k in Grouped(procs) {
      WorstRatioDominates(procs, k);
      LimitedIsAll(procs, k);
      FdGauges(procs, k);
    }
  }

  /** Descriptor values as a refresh gives them: no ratio without a limit. */
  ghost predicate Refreshed(fd: FdView) {
    RatioLaw(fd) && (fd.maxFDs <= 0 ==> fd.ratio == 0.0)
  }

  /** The same processes with the same limits, at another time: only how many
      descriptors are open differs, and the ratios with it. */
  ghost predicate Elsewhen(procs: seq<Process>, alt: seq<Process>) {
    && |alt| == |procs|
    && (forall i :: 0 <= i < |procs| ==> ElsewhenAt(procs[i], alt[i]))
  }

  ghost predicate ElsewhenAt(p: Process, q: Process) {
    && q == p.(fd := q.fd)
    && CountsFds(q.fd) == CountsFds(p.fd) && q.fd.maxFDs == p.fd.maxFDs
    && (CountsFds(q.fd) ==> Refreshed(q.fd))
  }

  /** The process with no descriptor open against a limit, and one without a limit. */
  function Idling(p: Process): Process {
    if CountsFds(p.fd) then p.(fd := FdView(if p.fd.maxFDs > 0 then 0 else 1, p.fd.maxFDs, 0.0, true)) else p
  }

  function AllIdling(procs: seq<Process>): (r: seq<Process>)
    ensures |r| == |procs|
  {
    seq(|procs|, i requires 0 <= i < |procs| => Idling(procs[i]))
  }

  lemma {:induction false} IdlingOpen(procs: seq<Process>, k: Key, j: nat)
    requires InGroup(procs, k, j) && CountsFds(procs[j].fd) && procs[j].fd.maxFDs <= 0
    ensures SumOf(AllIdling(procs), k, OpenFDs) >= 1
  {
    var n := |procs| - 1;
    assert AllIdling(procs)[..n] == AllIdling(procs[..n]);
    if j < n {
      assert InGroup(procs[..n], k, j);
      IdlingOpen(procs[..n], k, j);
    } else {
      IdlingNotNegative(procs[..n], k);
    }
  }

  lemma {:induction false} IdlingNotNegative(procs: seq<Process>, k: Key)
    ensures SumOf(AllIdling(procs), k, OpenFDs) >= 0
  {
    if procs != [] {
      assert AllIdling(procs)[..|procs| - 1] == AllIdling(procs[..|procs| - 1]);
      IdlingNotNegative(procs[..|procs| - 1], k);
    }
  }

  /** With an unlimited member the bound can fail, whatever else is in the group: while
      nothing is open against a limit, the worst ratio is zero. */
  lemma UnlimitedMemberEscapes(procs: seq<Process>, k: Key, j: nat)
    requires InGroup(procs, k, j) && CountsFds(procs[j].fd) && procs[j].fd.maxFDs <= 0
    ensures Elsewhen(procs, AllIdling(procs)) && !Covered(AllIdling(procs), k)
  {
    var alt := AllIdling(procs);
    assert InGroup(alt, k, j);
    GaugesMean(alt, k);
    FdGauges(alt, k);
    IdlingOpen(procs, k, j);
    var g := Grouped(alt)[k];
    assert g.fds.worst == 0.0;
    if g.fds.max >= 0 {
      TimesZero(g.fds.max);
    }
  }

  lemma {:induction false} TimesZero(x: nat)
    ensures Times(0.0, x) == 0.0
  {
    if x > 0 {
      TimesZero(x - 1);
    }
  }

  /** The bound holds for the members of a group however many descriptors they have open,
      exactly when every counted member has a limit. */
  lemma CoveredIffAllLimited(procs: seq<Process>, k: Key)
    ensures (forall alt: seq<Process> :: Elsewhen(procs, alt) ==> Covered(alt, k)) <==> AllLimited(procs, k)
  {
    if AllLimited(procs, k) {
      forall alt: seq<Process> | Elsewhen(procs, alt) ensures Covered(alt, k) {
        forall i | InGroup(alt, k, i) && CountsFds(alt[i].fd) ensures RatioLaw(alt[i].fd) && alt[i].fd.maxFDs > 0 {
          assert ElsewhenAt(procs[i], alt[i]) && InGroup(procs, k, i);
        }
        WorstRatioDominatesAll(alt, k);
      }
    } else {
      var j :| InGroup(procs, k, j) && CountsFds(procs[j].fd) && procs[j].fd.maxFDs <= 0;
      UnlimitedMemberEscapes(procs, k, j);
    }
  }
}
