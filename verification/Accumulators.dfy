/** internal/aggregate/aggregate.go on values: the accumulators behind the published
    counters, over any sequence of scans and resets. */
module Accumulators {
  import opened Wrappers
  import opened Procfs
  import opened Reading
  import opened KeptProcesses
  import opened Ledgers
  import opened Runs
  import opened Folding
  import opened Groups

  /** The monotonic totals of one group. */
  datatype Totals = Totals(
    utimeSeconds: real,
    stimeSeconds: real,
    minorFaults: nat,
    majorFaults: nat,
    volCtxSw: nat,
    involCtxSw: nat,
    readBytes: nat,
    writeBytes: nat,
    lastSeen: int)

  /** The totals of a group that has just appeared. */
  function Fresh(now: int): Totals { Totals(0.0, 0.0, 0, 0, 0, 0, 0, 0, now) }

  /** `accumulate` for one process. */
  function Added(a: Totals, p: Process, now: int, sys: System): Totals {
    if !p.haveDeltas then a.(lastSeen := now)
    else Totals(
      a.utimeSeconds + sys.TicksToSeconds(p.deltas.utimeTicks),
      a.stimeSeconds + sys.TicksToSeconds(p.deltas.stimeTicks),
      a.minorFaults + p.deltas.minorFaults,
      a.majorFaults + p.deltas.majorFaults,
      if p.haveStatus then a.volCtxSw + p.deltas.volCtxSw else a.volCtxSw,
      if p.haveStatus then a.involCtxSw + p.deltas.involCtxSw else a.involCtxSw,
      if p.haveIO then a.readBytes + p.deltas.readBytes else a.readBytes,
      if p.haveIO then a.writeBytes + p.deltas.writeBytes else a.writeBytes,
      now)
  }

  type Accums = map<Key, Totals>

  function Raised(accs: Accums, p: Process, now: int, sys: System): Accums {
    accs[KeyOf(p) := Added(if KeyOf(p) in accs then accs[KeyOf(p)] else Fresh(now), p, now, sys)]
  }

  function Raiser(now: int, sys: System): (Accums, Process) -> Accums {
    (accs, p) => Raised(accs, p, now, sys)
  }

  /** All processes of a scan accumulated: what the scan publishes. */
  function Accumulated(accs: Accums, procs: seq<Process>, now: int, sys: System): Accums {
    FoldLeft(Raiser(now, sys), accs, procs)
  }

  /** `prune`: a retention of zero or less forgets nothing. */
  function Retained(accs: Accums, now: int, retention: int): Accums {
    if retention <= 0 then accs else map k | k in accs && now - accs[k].lastSeen <= retention :: accs[k]
  }

  function After(accs: Accums, x: Feed, sys: System): Accums {
    match x
    case Forget => map[]
    case Apply(procs, now, retention) => Retained(Accumulated(accs, procs, now, sys), now, retention)
  }

  /** The accumulators after everything the aggregator was told. */
  function AccumsAfter(feed: seq<Feed>, sys: System): Accums {
    FoldLeft(Teller(sys), map[], feed)
  }

  function Teller(sys: System): (Accums, Feed) -> Accums {
    (accs, x) => After(accs, x, sys)
  }

  // ---- One scan, one group ----

  function ValueOf(a: Totals, f: Field): real {
    match f
    case UTime => a.utimeSeconds
    case STime => a.stimeSeconds
    case MinorFaults => a.minorFaults as real
    case MajorFaults => a.majorFaults as real
    case VolCtxSw => a.volCtxSw as real
    case InvolCtxSw => a.involCtxSw as real
    case ReadBytes => a.readBytes as real
    case WriteBytes => a.writeBytes as real
  }

  /** A counter in the unit it is published in: processor time in seconds. */
  function Amount(sys: System, f: Field, n: nat): real {
    if f.UTime? || f.STime? then sys.TicksToSeconds(n) else n as real
  }

  lemma AmountAdds(sys: System, f: Field, a: nat, b: nat)
    ensures Amount(sys, f, a + b) == Amount(sys, f, a) + Amount(sys, f, b)
    ensures Amount(sys, f, 0) == 0.0
    ensures Amount(sys, f, a) >= 0.0
  {
    if sys.clockTicks > 0 {
      QuotientAdds(a as real, b as real, sys.clockTicks as real);
    }
  }

  lemma QuotientAdds(a: real, b: real, c: real)
    requires c > 0.0
    ensures (a + b) / c == a / c + b / c
    ensures a >= 0.0 ==> a / c >= 0.0
  {
  }

  /** The reports of one group. */
  function JustGroup(k: Key): Selection {
    (t: Tag) => t.name == k.name && t.user == k.user
  }

  ghost predicate Live(procs: seq<Process>, k: Key) {
    exists i :: 0 <= i < |procs| && KeyOf(procs[i]) == k
  }

  function Held(accs: Accums, k: Key, f: Field): real {
    if k in accs then ValueOf(accs[k], f) else 0.0
  }

  lemma AddedValue(a: Totals, p: Process, now: int, sys: System, f: Field)
    ensures ValueOf(Added(a, p, now, sys), f) == ValueOf(a, f) + Amount(sys, f, Contribution(p, f))
    ensures Added(a, p, now, sys).lastSeen == now
  {
    AmountAdds(sys, f, 0, 0);
  }

  /** A scan adds to each group exactly what its own processes contribute, and touches no
      other group. */
  lemma {:induction false} ScanAdds(accs: Accums, procs: seq<Process>, now: int, sys: System, k: Key, f: Field)
    ensures var u := Accumulated(accs, procs, now, sys);
            && Held(u, k, f) == Held(accs, k, f) + Amount(sys, f, Credit(procs, JustGroup(k), f))
            && (Live(procs, k) ==> k in u && u[k].lastSeen == now)
            && (!Live(procs, k) ==> (k in u <==> k in accs) && (k in accs ==> u[k] == accs[k]))
  {
    AmountAdds(sys, f, 0, 0);
    if procs != [] {
      var n := |procs| - 1;
      var init, p := procs[..n], procs[n];
      assert procs == init + [p];
      ScanAdds(accs, init, now, sys, k, f);
      FoldSnoc(Raiser(now, sys), accs, init, p);
      CreditAppend(init, p, JustGroup(k), f);
      AmountAdds(sys, f, Credit(init, JustGroup(k), f), Contribution(p, f));
      var u := Accumulated(accs, init, now, sys);
      AddedValue(if k in u then u[k] else Fresh(now), p, now, sys, f);
      LiveSnoc(init, p, k);
    }
  }

  lemma LiveSnoc(procs: seq<Process>, p: Process, k: Key)
    ensures Live(procs + [p], k) <==> Live(procs, k) || KeyOf(p) == k
  {
    var all := procs + [p];
    if i :| 0 <= i < |procs| && KeyOf(procs[i]) == k {
      assert all[i] == procs[i];
    }
    if KeyOf(p) == k {
      assert all[|procs|] == p;
    }
  }

  // ---- The order of a scan does not matter ----

  /** The accumulator of a process's group once it has been raised. */
  function RaisedOne(accs: Accums, p: Process, now: int, sys: System): Totals {
    Added(if KeyOf(p) in accs then accs[KeyOf(p)] else Fresh(now), p, now, sys)
  }

  lemma AddedCommutes(a: Totals, p: Process, q: Process, now: int, sys: System)
    ensures Added(Added(a, p, now, sys), q, now, sys) == Added(Added(a, q, now, sys), p, now, sys)
  {
  }

  lemma RaisedCommutes(accs: Accums, p: Process, q: Process, now: int, sys: System)
    ensures Raised(Raised(accs, p, now, sys), q, now, sys) == Raised(Raised(accs, q, now, sys), p, now, sys)
  {
    var a, b := RaisedOne(accs, p, now, sys), RaisedOne(accs, q, now, sys);
    if KeyOf(p) == KeyOf(q) {
      var k := KeyOf(p);
      AddedCommutes(if k in accs then accs[k] else Fresh(now), p, q, now, sys);
      assert Raised(Raised(accs, p, now, sys), q, now, sys) == accs[k := Added(a, q, now, sys)];
      assert Raised(Raised(accs, q, now, sys), p, now, sys) == accs[k := Added(b, p, now, sys)];
    } else {
      assert Raised(Raised(accs, p, now, sys), q, now, sys) == accs[KeyOf(p) := a][KeyOf(q) := b];
      assert Raised(Raised(accs, q, now, sys), p, now, sys) == accs[KeyOf(q) := b][KeyOf(p) := a];
      UpdateApart(accs, KeyOf(p), KeyOf(q), a, b);
    }
  }

  /** What a scan leaves in the accumulators depends only on which processes it saw. */
  lemma AccumulationIgnoresOrder(accs: Accums, a: seq<Process>, b: seq<Process>, now: int, sys: System)
    requires multiset(a) == multiset(b)
    ensures Accumulated(accs, a, now, sys) == Accumulated(accs, b, now, sys)
  {
    var ok: Accums -> bool := (x: Accums) => true;
    var good: Process -> bool := (p: Process) => true;
    var f := Raiser(now, sys);
    forall x, p, q ensures Swaps(f, ok, good, x, p, q) {
      RaisedCommutes(x, p, q, now, sys);
    }
    forall x, p ensures Stays(f, ok, good, x, p) {
    }
    FoldIgnoresOrder(f, ok, good, accs, a, b);
  }

  // ---- Over runs ----

  ghost predicate LiveIn(x: Feed, k: Key) { x.Apply? && Live(x.procs, k) }

  /** When the group was last live, among the first `n` things the aggregator was told. */
  ghost function LastLive(feed: seq<Feed>, k: Key, n: nat): Option<int>
    requires n <= |feed|
  {
    if n == 0 then None
    else if LiveIn(feed[n - 1], k) then Some(feed[n - 1].now)
    else LastLive(feed, k, n - 1)
  }

  /** The group is forgotten at step `l`: by a reset, or because it has not been live for
      longer than a positive retention. */
  ghost predicate Forgotten(feed: seq<Feed>, k: Key, l: nat) {
    l < |feed| &&
    match feed[l]
    case Forget => true
    case Apply(_, now, retention) =>
      var seen := LastLive(feed, k, l + 1);
      retention > 0 && seen.Some? && now - seen.value > retention
  }

  function StepAmount(x: Feed, k: Key, f: Field, sys: System): real {
    match x
    case Forget => 0.0
    case Apply(procs, _, _) => Amount(sys, f, Credit(procs, JustGroup(k), f))
  }

  lemma AfterSnoc(feed: seq<Feed>, n: nat, sys: System)
    requires n < |feed|
    ensures AccumsAfter(feed[..n + 1], sys) == After(AccumsAfter(feed[..n], sys), feed[n], sys)
  {
    assert feed[..n + 1] == feed[..n] + [feed[n]];
    FoldSnoc(Teller(sys), map[], feed[..n], feed[n]);
  }

  /** What the group's counter should hold, from the inputs alone: everything contributed
      since it was last forgotten. */
  ghost function Due(feed: seq<Feed>, k: Key, f: Field, sys: System, n: nat): real
    requires n <= |feed|
  {
    if n == 0 || Forgotten(feed, k, n - 1) then 0.0
    else Due(feed, k, f, sys, n - 1) + StepAmount(feed[n - 1], k, f, sys)
  }

  /** The group has been live and has not been forgotten since. */
  ghost predicate Remembered(feed: seq<Feed>, k: Key, n: nat)
    requires n <= |feed|
  {
    n > 0 && !Forgotten(feed, k, n - 1) && (LiveIn(feed[n - 1], k) || Remembered(feed, k, n - 1))
  }

  /** The accumulator of the group is what it should be. */
  ghost predicate Kept(accs: Accums, feed: seq<Feed>, k: Key, f: Field, sys: System, n: nat)
    requires n <= |feed|
  {
    && (k in accs <==> Remembered(feed, k, n))
    && (k in accs ==> LastLive(feed, k, n) == Some(accs[k].lastSeen))
    && Held(accs, k, f) == Due(feed, k, f, sys, n)
  }

  lemma KeptAfterApply(accs: Accums, feed: seq<Feed>, k: Key, f: Field, sys: System, n: nat)
    requires n < |feed| && feed[n].Apply? && Kept(accs, feed, k, f, sys, n)
    ensures Kept(After(accs, feed[n], sys), feed, k, f, sys, n + 1)
  {
    var x := feed[n];
    ScanAdds(accs, x.procs, x.now, sys, k, f);
    assert LastLive(feed, k, n + 1) == if LiveIn(x, k) then Some(x.now) else LastLive(feed, k, n);
  }

  /** Each accumulator holds exactly what its group contributed since it was last
      forgotten, over every sequence of scans and resets. */
  lemma {:induction false} AccumulatorsExact(feed: seq<Feed>, k: Key, f: Field, sys: System, n: nat)
    requires n <= |feed|
    ensures Kept(AccumsAfter(feed[..n], sys), feed, k, f, sys, n)
  {
    if n > 0 {
      AccumulatorsExact(feed, k, f, sys, n - 1);
      AfterSnoc(feed, n - 1, sys);
      if feed[n - 1].Apply? {
        KeptAfterApply(AccumsAfter(feed[..n - 1], sys), feed, k, f, sys, n - 1);
      }
    }
  }

  // ---- Published counters ----

  /** The counter published for the group by scan `j`: accumulated, not yet pruned. */
  function Published(feed: seq<Feed>, k: Key, f: Field, sys: System, j: nat): real
    requires j < |feed| && feed[j].Apply?
  {
    Held(Accumulated(AccumsAfter(feed[..j], sys), feed[j].procs, feed[j].now, sys), k, f)
  }

  /** What the group contributed in steps `i` to `j`. */
  function Contributed(feed: seq<Feed>, k: Key, f: Field, sys: System, i: nat, j: nat): (r: real)
    requires i <= j <= |feed|
    decreases j
  {
    if i == j then 0.0 else Contributed(feed, k, f, sys, i, j - 1) + StepAmount(feed[j - 1], k, f, sys)
  }

  ghost predicate NeverForgotten(feed: seq<Feed>, k: Key, i: nat, j: nat) {
    forall l :: i <= l < j ==> !Forgotten(feed, k, l)
  }

  lemma {:induction false} ContributedNotNegative(feed: seq<Feed>, k: Key, f: Field, sys: System, i: nat, j: nat)
    requires i <= j <= |feed|
    ensures Contributed(feed, k, f, sys, i, j) >= 0.0
    decreases j
  {
    if i < j {
      ContributedNotNegative(feed, k, f, sys, i, j - 1);
      if feed[j - 1].Apply? {
        AmountAdds(sys, f, Credit(feed[j - 1].procs, JustGroup(k), f), 0);
      }
    }
  }

  lemma {:induction false} DueGrows(feed: seq<Feed>, k: Key, f: Field, sys: System, i: nat, j: nat)
    requires i <= j <= |feed| && NeverForgotten(feed, k, i, j)
    ensures Due(feed, k, f, sys, j) == Due(feed, k, f, sys, i) + Contributed(feed, k, f, sys, i, j)
    decreases j
  {
    if i < j {
      DueGrows(feed, k, f, sys, i, j - 1);
      assert !Forgotten(feed, k, j - 1);
    }
  }

  lemma PublishedIsDue(feed: seq<Feed>, k: Key, f: Field, sys: System, j: nat)
    requires j < |feed| && feed[j].Apply?
    ensures Published(feed, k, f, sys, j) == Due(feed, k, f, sys, j) + StepAmount(feed[j], k, f, sys)
  {
    AccumulatorsExact(feed, k, f, sys, j);
    ScanAdds(AccumsAfter(feed[..j], sys), feed[j].procs, feed[j].now, sys, k, f);
  }

  /** The scan in which a group is live never forgets it: accumulation precedes pruning. */
  lemma LiveIsNotForgotten(feed: seq<Feed>, k: Key, i: nat)
    requires i < |feed| && LiveIn(feed[i], k)
    ensures !Forgotten(feed, k, i)
  {
    assert LastLive(feed, k, i + 1) == Some(feed[i].now);
  }

  /** Published counters never decrease: between two scans in which a group is live, its
      counter grows by exactly what the group contributed, unless some scan or reset
      strictly in between forgot it. */
  lemma PublishedMonotone(feed: seq<Feed>, k: Key, f: Field, sys: System, i: nat, j: nat)
    requires i < j < |feed| && LiveIn(feed[i], k) && LiveIn(feed[j], k)
    requires NeverForgotten(feed, k, i + 1, j)
    ensures Published(feed, k, f, sys, j) == Published(feed, k, f, sys, i) + Contributed(feed, k, f, sys, i + 1, j + 1)
    ensures Published(feed, k, f, sys, j) >= Published(feed, k, f, sys, i)
  {
    LiveIsNotForgotten(feed, k, i);
    PublishedIsDue(feed, k, f, sys, i);
    PublishedIsDue(feed, k, f, sys, j);
    DueGrows(feed, k, f, sys, i + 1, j);
    ContributedNotNegative(feed, k, f, sys, i + 1, j + 1);
  }

  /** And if one did, the counter starts again from nothing after the last such step. */
  lemma PublishedAfterForgetting(feed: seq<Feed>, k: Key, f: Field, sys: System, l: nat, j: nat)
    requires l < j < |feed| && LiveIn(feed[j], k)
    requires Forgotten(feed, k, l) && NeverForgotten(feed, k, l + 1, j)
    ensures Published(feed, k, f, sys, j) == Contributed(feed, k, f, sys, l + 1, j + 1)
  {
    PublishedIsDue(feed, k, f, sys, j);
    DueGrows(feed, k, f, sys, l + 1, j);
  }

  lemma {:induction false} RememberedUntil(feed: seq<Feed>, k: Key, i: nat, j: nat)
    requires i < j <= |feed| && LiveIn(feed[i], k)
    requires forall t :: i < t < j ==> !LiveIn(feed[t], k)
    ensures Remembered(feed, k, j) <==> NeverForgotten(feed, k, i + 1, j)
    decreases j
  {
    if j == i + 1 {
      LiveIsNotForgotten(feed, k, i);
    } else {
      RememberedUntil(feed, k, i, j - 1);
      if Remembered(feed, k, j - 1) {
        assert NeverForgotten(feed, k, i + 1, j) <==> !Forgotten(feed, k, j - 1);
      }
    }
  }

  /** A group that was live at `i` and not since still has its accumulator at `j` exactly
      when nothing in between was a reset or a scan later than its retention allows. */
  lemma SurvivesExactly(feed: seq<Feed>, k: Key, sys: System, i: nat, j: nat)
    requires i < j <= |feed| && LiveIn(feed[i], k)
    requires forall t :: i < t < j ==> !LiveIn(feed[t], k)
    ensures k in AccumsAfter(feed[..j], sys) <==>
            forall l :: i < l < j ==> feed[l].Apply? && !(feed[l].now - feed[i].now > feed[l].retention > 0)
  {
    AccumulatorsExact(feed, k, UTime, sys, j);
    RememberedUntil(feed, k, i, j);
    forall l | i < l < j
      ensures Forgotten(feed, k, l) <==> !(feed[l].Apply? && !(feed[l].now - feed[i].now > feed[l].retention > 0))
    {
      LastLiveIs(feed, k, i, l + 1);
    }
  }

  lemma {:induction false} LastLiveIs(feed: seq<Feed>, k: Key, i: nat, n: nat)
    requires i < n <= |feed| && LiveIn(feed[i], k)
    requires forall t :: i < t < n ==> !LiveIn(feed[t], k)
    ensures LastLive(feed, k, n) == Some(feed[i].now)
    decreases n
  {
    if n > i + 1 {
      LastLiveIs(feed, k, i, n - 1);
    }
  }

  /** With a retention of zero or less, and no reset, nothing is ever forgotten. */
  lemma NoRetentionNeverForgets(feed: seq<Feed>, k: Key)
    requires forall l :: 0 <= l < |feed| ==> feed[l].Apply? && feed[l].retention <= 0
    ensures NeverForgotten(feed, k, 0, |feed|)
  {
    forall l | 0 <= l < |feed| ensures !Forgotten(feed, k, l) {
      assert feed[l].retention <= 0;
    }
  }
}
