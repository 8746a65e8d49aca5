/** internal/scan/state.go: the per-PID memory between scans. */
module StateMaps {
  import opened Procfs
  import opened Wrappers

  /** The eight kernel counters of one process. */
  datatype Counters = Counters(
    utimeTicks: nat,
    stimeTicks: nat,
    minorFaults: nat,
    majorFaults: nat,
    volCtxSw: nat,
    involCtxSw: nat,
    readBytes: nat,
    writeBytes: nat)

  const ZERO_COUNTERS := Counters(0, 0, 0, 0, 0, 0, 0, 0)

  /** Descriptor values; `have` is false when they are unknown. */
  datatype FdView = FdView(openFDs: int, maxFDs: int, ratio: real, have: bool)

  datatype PssView = PssView(pssBytes: nat, swapPssBytes: nat, have: bool)

  const NO_FDS := FdView(-1, -1, 0.0, false)
  const NO_PSS := PssView(0, 0, false)

  /** The content of a `PIDState`, without its stamp. */
  datatype Entry = Entry(
    startTicks: nat,
    counters: Counters,
    name: string,
    user: string,
    uid: nat,
    fd: FdView,
    pss: PssView)

  /** An entry with the generation of the scan that last saw it. */
  datatype Slot = Slot(entry: Entry, generation: nat)

  type Slots = map<Pid, Slot>

  /** `Delta`: the clamp is the second line of defence behind the start time. */
  function Delta(now: nat, prev: nat): nat {
    if now < prev then 0 else now - prev
  }

  // ---- The map's operations on values ----

  /** The entry stored for this very process: same pid and same start time. */
  function Matching(slots: Slots, pid: Pid, startTicks: nat): Option<Entry> {
    if pid in slots && slots[pid].entry.startTicks == startTicks then Some(slots[pid].entry) else None
  }

  /** `Lookup` drops an entry left by another process with the same pid. */
  function AfterLookup(slots: Slots, pid: Pid, startTicks: nat): Slots {
    if pid in slots && slots[pid].entry.startTicks != startTicks then slots - {pid} else slots
  }

  function Stamped(slots: Slots, pid: Pid, gen: nat): Slots {
    if pid in slots then slots[pid := slots[pid].(generation := gen)] else slots
  }

  function Survivors(slots: Slots, gen: nat): Slots {
    map pid | pid in slots && slots[pid].generation >= gen :: slots[pid]
  }

  /** One remembered process. Only the stamp changes after the object is built. */
  class PIDState {
    const entry: Entry
    var generation: nat

    constructor (entry: Entry)
      ensures this.entry == entry
    {
      this.entry := entry;
      generation := 0;
    }
  }

  class StateMap {
    var m: map<Pid, PIDState>
    var gen: nat

    /** The map as a value, and the objects it may hold. */
    ghost var slots: Slots
    ghost var repr: set<PIDState>

    /** `slots` is what `m` holds, and no object is stored under two pids, so stamping
        one entry stamps one entry. */
    ghost predicate Valid()
      reads this, repr
    {
      && m.Keys == slots.Keys
      && (forall p :: p in m ==> m[p] in repr && slots[p] == Slot(m[p].entry, m[p].generation))
      && (forall p, q :: p in m && q in m && m[p] == m[q] ==> p == q)
    }

    constructor ()
      ensures Valid() && m == map[] && slots == map[] && gen == 0 && repr == {}
    {
      m, slots := map[], map[];
      gen, repr := 0, {};
    }

    method NextGeneration() returns (g: nat)
      requires Valid()
      modifies this`gen
      ensures Valid() && g == gen == old(gen) + 1
    {
      gen := gen + 1;
      g := gen;
    }

    method Lookup(pid: Pid, startTicks: nat) returns (st: PIDState?, found: bool)
      requires Valid()
      modifies this`m, this`slots
      ensures Valid()
      ensures slots == AfterLookup(old(slots), pid, startTicks)
      ensures found <==> Matching(old(slots), pid, startTicks).Some?
      ensures found <==> st != null
      ensures found ==> pid in m && st == m[pid] && Some(st.entry) == Matching(old(slots), pid, startTicks)
      ensures !found ==> pid !in m
    {
      if pid !in m {
        return null, false;
      }
      if m[pid].entry.startTicks != startTicks {
        m, slots := m - {pid}, slots - {pid};
        return null, false;
      }
      return m[pid], true;
    }

    method Put(pid: Pid, st: PIDState)
      requires Valid() && st !in repr
      modifies this`m, this`slots, this`repr, st
      ensures Valid() && pid in m && m[pid] == st && repr == old(repr) + {st}
      ensures slots == old(slots)[pid := Slot(st.entry, gen)]
    {
      st.generation := gen;
      m := m[pid := st];
      slots, repr := slots[pid := Slot(st.entry, gen)], repr + {st};
    }

    method Touch(pid: Pid)
      requires Valid()
      modifies this`slots, repr
      ensures Valid()
      ensures slots == Stamped(old(slots), pid, gen)
    {
      if pid in m {
        var st := m[pid];
        st.generation := gen;
        slots := Stamped(slots, pid, gen);
      }
    }

    /** The deletions of `Prune`, in any order. */
    method Sweep() returns (n: nat)
      requires Valid()
      modifies this`m
      ensures Swept(old(m), slots, m, {}, gen)
      ensures n + |m| == |old(m)|
    {
      n := 0;
      ghost var was := m;
      var todo := m.Keys;
      while todo != {}
        invariant todo <= m.Keys
        invariant Swept(was, slots, m, todo, gen)
        invariant n + |m| == |was|
        decreases todo
      {
        var pid :| pid in todo;
        SweepStep(was, slots, m, todo, pid, gen);
        if m[pid].generation < gen {
          m := RemovePid(m, pid);
          n := n + 1;
        }
        todo := todo - {pid};
      }
    }

    /** Deletes every entry not seen in the current generation. */
    method Prune() returns (n: nat)
      requires Valid()
      modifies this`m, this`slots
      ensures Valid()
      ensures slots == Survivors(old(slots), gen)
      ensures n + |m| == |old(m)|
    {
      ghost var was := m;
      n := Sweep();
      SweepDone(was, slots, m, gen);
      slots := Survivors(slots, gen);
    }

    function Len(): (n: nat)
      requires Valid()
      reads this, repr
      ensures n == |slots|
    {
      assert |m.Keys| == |slots.Keys|;
      |m|
    }
  }

  /** Every entry not still to be looked at is kept exactly when it is of generation `gen`. */
  ghost predicate Swept(was: map<Pid, PIDState>, all: Slots, m: map<Pid, PIDState>, todo: set<Pid>, gen: nat) {
    && was.Keys == all.Keys
    && (forall p :: p in m ==> p in was && m[p] == was[p])
    && (forall p :: p in was && p !in todo ==> (p in m <==> all[p].generation >= gen))
  }

  lemma SweepStep(was: map<Pid, PIDState>, all: Slots, m: map<Pid, PIDState>, todo: set<Pid>, pid: Pid, gen: nat)
    requires Swept(was, all, m, todo, gen) && pid in todo && pid in m
    ensures Swept(was, all, if all[pid].generation < gen then m - {pid} else m, todo - {pid}, gen)
  {
  }

  lemma SweepDone(was: map<Pid, PIDState>, all: Slots, m: map<Pid, PIDState>, gen: nat)
    requires Swept(was, all, m, {}, gen)
    ensures m.Keys == Survivors(all, gen).Keys
    ensures forall p :: p in m ==> m[p] == was[p]
  {
  }

  function RemovePid(m: map<Pid, PIDState>, pid: Pid): (r: map<Pid, PIDState>)
    requires pid in m
    ensures r == m - {pid} && |r| + 1 == |m|
  {
    var r := m - {pid};
    assert r.Keys == m.Keys - {pid};
    assert |r| == |r.Keys|;
    r
  }
}
