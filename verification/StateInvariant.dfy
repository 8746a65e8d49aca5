/** The state map over runs: what one scan does to it, process by process, and what holds
    of it at every moment. */
module StateInvariant {
  import opened Wrappers
  import opened Procfs
  import opened StateMaps
  import opened Reading
  import opened Schedule
  import opened Ledgers
  import opened Runs

  function At(slots: Slots, pid: Pid): Option<Slot> {
    if pid in slots then Some(slots[pid]) else None
  }

  ghost predicate DistinctPids(items: seq<Listed>) {
    forall i, j :: 0 <= i < j < |items| ==> items[i].pid != items[j].pid
  }

  ghost predicate ListedPid(items: seq<Listed>, pid: Pid) {
    exists i :: 0 <= i < |items| && items[i].pid == pid
  }

  // ---- One step touches one pid ----

  lemma RememberIsLocal(s: Slots, s': Slots, gen: nat, item: Listed, v: Verdict)
    requires At(s, item.pid) == At(s', item.pid)
    ensures Recalled(s, item) == Recalled(s', item)
    ensures At(Remember(s, gen, item, v), item.pid) == At(Remember(s', gen, item, v), item.pid)
    ensures forall q :: q != item.pid ==> At(Remember(s, gen, item, v), q) == At(s, q)
  {
  }

  /** What the scan makes of item `i` on its own. */
  ghost predicate Alone(obs: Observer, gen: nat, start: Slots, item: Listed, o: Observation, after: Slots) {
    && o == obs(Recalled(start, item), item)
    && At(after, item.pid) == At(Remember(start, gen, item, o.verdict), item.pid)
  }

  ghost predicate Pointwise(obs: Observer, gen: nat, start: Slots, items: seq<Listed>, w: Walked) {
    && |w.seen| == |items|
    && (forall i :: 0 <= i < |items| ==> Alone(obs, gen, start, items[i], w.seen[i], w.slots))
    && (forall q :: !ListedPid(items, q) ==> At(w.slots, q) == At(start, q))
  }

  lemma PointwiseStep(obs: Observer, gen: nat, start: Slots, items: seq<Listed>, item: Listed, w: Walked)
    requires Pointwise(obs, gen, start, items, w) && DistinctPids(items + [item])
    ensures Pointwise(obs, gen, start, items + [item], Next(obs, gen, w, item))
  {
    var all, n := items + [item], |items|;
    assert all[n] == item;
    assert !ListedPid(items, item.pid) by {
      forall i | 0 <= i < n ensures items[i].pid != item.pid {
        assert all[i].pid != all[n].pid;
      }
    }
    var o := obs(Recalled(w.slots, item), item);
    RememberIsLocal(w.slots, start, gen, item, o.verdict);
    var w' := Next(obs, gen, w, item);
    forall i | 0 <= i < |all| ensures Alone(obs, gen, start, all[i], w'.seen[i], w'.slots) {
      if i < n {
        assert Alone(obs, gen, start, items[i], w.seen[i], w.slots);
        assert all[i].pid != all[n].pid;
      }
    }
    forall q | !ListedPid(all, q) ensures At(w'.slots, q) == At(start, q) {
      assert q != item.pid by { assert all[n].pid == item.pid; }
      assert !ListedPid(items, q) by {
        forall i | 0 <= i < n ensures items[i].pid != q { assert all[i].pid != q; }
      }
    }
  }

  /** A walk over distinct pids treats every process as if it were listed alone: neither
      the batch it falls in nor the processes around it matter. */
  lemma {:induction false} WalkIsPointwise(obs: Observer, gen: nat, start: Slots, items: seq<Listed>)
    requires DistinctPids(items)
    ensures Pointwise(obs, gen, start, items, Fold(StepWith(obs, gen), Setout(start), items))
  {
    if items != [] {
      var init, item := items[..|items| - 1], items[|items| - 1];
      WalkIsPointwise(obs, gen, start, init);
      assert init + [item] == items;
      PointwiseStep(obs, gen, start, init, item, Fold(StepWith(obs, gen), Setout(start), init));
    }
  }

  // ---- After a completed scan ----

  /** The scan stamps the process: it stores it, or it ignores one it remembers. */
  predicate Marked(start: Slots, item: Listed, o: Observation) {
    o.verdict.Kept? || (o.verdict.Ignored? && Recalled(start, item).Some?)
  }

  ghost predicate StampsAtMost(slots: Slots, gen: nat) {
    forall pid :: pid in slots ==> slots[pid].generation <= gen
  }

  /** What a scan's verdict says about the files it read. */
  ghost predicate VerdictFits(item: Listed, o: Observation) {
    && (o.verdict.Ignored? ==> item.files.stat.Ok?)
    && (o.verdict.Kept? ==> item.files.stat.Ok? && o.verdict.entry.startTicks == item.files.stat.value.startTicks)
  }

  lemma VerdictsFit(e: Env, walks: Walks, prev: Option<Entry>, item: Listed)
    ensures VerdictFits(item, Observe(e, walks, prev, item))
  {
  }

  /** The entry of item `i` after the scan, when `gen` is the scan's generation. */
  ghost predicate StoredNow(at: Option<Slot>, gen: nat, item: Listed) {
    && at.Some? && item.files.stat.Ok?
    && at.value.generation == gen
    && at.value.entry.startTicks == item.files.stat.value.startTicks
  }

  lemma MarkedIsStamped(start: Slots, gen: nat, item: Listed, o: Observation)
    requires gen >= 1 && VerdictFits(item, o) && StampsAtMost(start, gen - 1)
    ensures var at := At(Remember(start, gen, item, o.verdict), item.pid);
            if Marked(start, item, o) then StoredNow(at, gen, item) else at.Some? ==> at.value.generation < gen
  {
  }

  /** The pids of a listing. */
  function PidsOf(items: seq<Listed>): (s: set<Pid>)
    ensures |s| <= |items|
  {
    if items == [] then {} else PidsOf(items[..|items| - 1]) + {items[|items| - 1].pid}
  }

  lemma {:induction false} PidsOfAll(items: seq<Listed>, i: nat)
    requires i < |items|
    ensures items[i].pid in PidsOf(items)
  {
    if i < |items| - 1 {
      PidsOfAll(items[..|items| - 1], i);
    }
  }

  /** Item `i` of the listing is what keeps `pid` in the map. */
  ghost predicate Keeps(start: Slots, items: seq<Listed>, w: Walked, pid: Pid, i: nat) {
    i < |items| && |w.seen| == |items| && items[i].pid == pid && Marked(start, items[i], w.seen[i])
  }

  ghost predicate Fits(obs: Observer) {
    forall prev, item :: VerdictFits(item, obs(prev, item))
  }

  /** The map holds exactly the processes that were stored, or ignored while remembered;
      every entry carries the scan's stamp and the start time read in that very scan; and
      there are no more entries than processes listed. */
  ghost predicate DomainIs(start: Slots, items: seq<Listed>, w: Walked, slots: Slots, gen: nat) {
    && (forall pid :: pid in slots <==> exists i :: Keeps(start, items, w, pid, i))
    && (forall pid, i: nat :: Keeps(start, items, w, pid, i) ==> StoredNow(At(slots, pid), gen, items[i]))
    && |slots| <= |items|
  }

  lemma DomainAfterScan(obs: Observer, gen: nat, start: Slots, items: seq<Listed>, w: Walked)
    requires gen >= 1 && StampsAtMost(start, gen - 1) && Fits(obs)
    requires Pointwise(obs, gen, start, items, w)
    ensures DomainIs(start, items, w, Survivors(w.slots, gen), gen)
  {
    var slots := Survivors(w.slots, gen);
    forall pid, i: nat | Keeps(start, items, w, pid, i) ensures StoredNow(At(slots, pid), gen, items[i]) {
      StampedAlone(obs, gen, start, items, w, i);
    }
    forall pid | pid in slots ensures exists i :: Keeps(start, items, w, pid, i) {
      assert At(w.slots, pid) == Some(w.slots[pid]);
      if !ListedPid(items, pid) {
        assert false;
      }
      var i :| 0 <= i < |items| && items[i].pid == pid;
      StampedAlone(obs, gen, start, items, w, i);
      assert Keeps(start, items, w, pid, i);
    }
    forall pid | pid in slots ensures pid in PidsOf(items) {
      var i :| Keeps(start, items, w, pid, i);
      PidsOfAll(items, i);
    }
    SubsetSize(slots.Keys, PidsOf(items));
    assert |slots| == |slots.Keys|;
  }

  lemma StampedAlone(obs: Observer, gen: nat, start: Slots, items: seq<Listed>, w: Walked, i: nat)
    requires gen >= 1 && StampsAtMost(start, gen - 1) && Fits(obs)
    requires Pointwise(obs, gen, start, items, w) && i < |items|
    ensures var at := At(w.slots, items[i].pid);
            if Marked(start, items[i], w.seen[i]) then StoredNow(at, gen, items[i])
            else at.Some? ==> at.value.generation < gen
  {
    assert Alone(obs, gen, start, items[i], w.seen[i], w.slots);
    assert VerdictFits(items[i], obs(Recalled(start, items[i]), items[i]));
    MarkedIsStamped(start, gen, items[i], w.seen[i]);
  }

  lemma {:induction false} SubsetSize(a: set<Pid>, b: set<Pid>)
    requires a <= b
    ensures |a| <= |b|
  {
    if a != {} {
      var x :| x in a;
      SubsetSize(a - {x}, b - {x});
    }
  }

  // ---- Over runs ----

  lemma {:induction false} WalkStamps(obs: Observer, gen: nat, start: Slots, items: seq<Listed>)
    requires StampsAtMost(start, gen)
    ensures StampsAtMost(Fold(StepWith(obs, gen), Setout(start), items).slots, gen)
  {
    if items != [] {
      WalkStamps(obs, gen, start, items[..|items| - 1]);
    }
  }

  /** At every moment of every run no entry is stamped later than the current generation. */
  lemma {:induction false} StampsNeverAhead(evs: seq<Event>)
    ensures StampsAtMost(Run(evs).track.slots, Run(evs).gen)
  {
    if evs != [] {
      var init, last := evs[..|evs| - 1], evs[|evs| - 1];
      StampsNeverAhead(init);
      var m := Run(init);
      if last.Completed? || last.Cancelled? {
        var tag := TagOfScan(m, last.env.cfg);
        var obs := ObserverOf(last.env, tag.walks);
        TrackSlots(obs, tag, m.track, last.items);
        WalkStamps(obs, tag.gen, m.track.slots, last.items);
      }
    }
  }

  lemma ObserverFits(e: Env, walks: Walks)
    ensures Fits(ObserverOf(e, walks))
  {
    var obs := ObserverOf(e, walks);
    forall prev, item ensures VerdictFits(item, obs(prev, item)) {
      VerdictsFit(e, walks, prev, item);
    }
  }

  lemma ScanDomain(obs: Observer, tag: ScanTag, t: Track, items: seq<Listed>)
    requires tag.gen >= 1 && DistinctPids(items) && StampsAtMost(t.slots, tag.gen - 1) && Fits(obs)
    ensures DomainIs(t.slots, items, Fold(StepWith(obs, tag.gen), Setout(t.slots), items),
                     Pruned(TrackAll(obs, tag, t, items), tag.gen).slots, tag.gen)
  {
    WalkIsPointwise(obs, tag.gen, t.slots, items);
    TrackSlots(obs, tag, t, items);
    DomainAfterScan(obs, tag.gen, t.slots, items, Fold(StepWith(obs, tag.gen), Setout(t.slots), items));
  }

  /** The state-map theorem: in any run, each completed scan of distinct pids leaves
      exactly the processes it stored, or ignored while remembered, all with its own
      stamp and the start time it read, and no more entries than processes listed. */
  lemma StateMapAfterScan(evs: seq<Event>, e: Env, items: seq<Listed>, now: int, retention: int)
    requires DistinctPids(items)
    ensures var m := Run(evs);
            var m' := Step(m, Completed(e, items, now, retention));
            DomainIs(m.track.slots, items, Walk(e, WalksOf(e.cfg, m.scanNo + 1), m.gen + 1, m.track.slots, items),
                     m'.track.slots, m'.gen)
  {
    var m := Run(evs);
    var tag := TagOfScan(m, e.cfg);
    StampsNeverAhead(evs);
    ObserverFits(e, tag.walks);
    ScanDomain(ObserverOf(e, tag.walks), tag, m.track, items);
  }
}
