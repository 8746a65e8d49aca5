/** Whole runs of the exporter: any number of scans, each completed, cancelled or without
    a listing, and resets in between, in any order and under any configuration. */
module Runs {
  import opened Wrappers
  import opened Procfs
  import opened StateMaps
  import opened Reading
  import opened Schedule
  import opened KeptProcesses
  import opened Ledgers

  /** What can happen between two moments. The items of a cancelled scan are those it
      read before it stopped. */
  datatype Event =
    | Completed(env: Env, items: seq<Listed>, now: int, retention: int)
    | Cancelled(env: Env, items: seq<Listed>)
    | ListFailed
    | ResetState
    | ResetAccums

  /** What the aggregator is told, in order. */
  datatype Feed = Apply(procs: seq<Process>, now: int, retention: int) | Forget

  /** The scanner's state with its ledger, what it published, what it read and threw
      away, and every listed process it looked at. */
  datatype Machine = Machine(
    track: Track,
    gen: nat,
    scanNo: nat,
    feed: seq<Feed>,
    lost: seq<Process>,
    history: seq<Listed>)

  const START := Machine(Track(map[], [], map[]), 0, 0, [], [], [])

  /** The ledger over a listing. */
  function TrackAll(obs: Observer, tag: ScanTag, t: Track, items: seq<Listed>): Track {
    if items == [] then t
    else
      var before := TrackAll(obs, tag, t, items[..|items| - 1]);
      var item := items[|items| - 1];
      TrackItem(before, tag, item, obs(Recalled(before.slots, item), item).verdict)
  }

  function TagOfScan(m: Machine, cfg: ScanConfig): ScanTag {
    ScanTag(m.scanNo + 1, m.gen + 1, cfg, WalksOf(cfg, m.scanNo + 1))
  }

  /** The walk of the next scan, with the ledger kept. */
  ghost function Watched(m: Machine, e: Env, items: seq<Listed>): Track {
    var tag := TagOfScan(m, e.cfg);
    TrackAll(ObserverOf(e, tag.walks), tag, m.track, items)
  }

  /** The processes the walk of the next scan reports. */
  ghost function Found(m: Machine, e: Env, items: seq<Listed>): seq<Process> {
    Walk(e, WalksOf(e.cfg, m.scanNo + 1), m.gen + 1, m.track.slots, items).tally.procs
  }

  lemma WalkUnder(e: Env, walks: Walks, gen: nat, slots: Slots, items: seq<Listed>, obs: Observer)
    requires obs == ObserverOf(e, walks)
    ensures Walk(e, walks, gen, slots, items) == Fold(StepWith(obs, gen), Setout(slots), items)
  {
  }

  lemma FoundUnder(m: Machine, e: Env, items: seq<Listed>, tag: ScanTag)
    requires tag == TagOfScan(m, e.cfg)
    ensures Found(m, e, items) == Walk(e, tag.walks, tag.gen, m.track.slots, items).tally.procs
  {
  }

  lemma TrackUnder(m: Machine, e: Env, items: seq<Listed>, tag: ScanTag, obs: Observer)
    requires tag == TagOfScan(m, e.cfg) && obs == ObserverOf(e, tag.walks)
    ensures Watched(m, e, items) == TrackAll(obs, tag, m.track, items)
  {
  }

  /** The next scan, with its observer given a name. */
  lemma WatchedUnder(m: Machine, e: Env, items: seq<Listed>, tag: ScanTag, obs: Observer)
    requires tag == TagOfScan(m, e.cfg) && obs == ObserverOf(e, tag.walks)
    ensures Watched(m, e, items) == TrackAll(obs, tag, m.track, items)
    ensures Found(m, e, items) == Fold(StepWith(obs, tag.gen), Setout(m.track.slots), items).tally.procs
  {
    TrackUnder(m, e, items, tag, obs);
    FoundUnder(m, e, items, tag);
    WalkUnder(e, tag.walks, tag.gen, m.track.slots, items, obs);
  }

  function Pruned(t: Track, gen: nat): Track {
    var slots := Survivors(t.slots, gen);
    Track(slots, t.ledger, StillOpen(t.open, slots))
  }

  ghost function Step(m: Machine, ev: Event): Machine {
    match ev
    case Completed(e, items, now, retention) =>
      Machine(Pruned(Watched(m, e, items), m.gen + 1), m.gen + 1, m.scanNo + 1,
              m.feed + [Apply(Found(m, e, items), now, retention)], m.lost, m.history + items)
    case Cancelled(e, items) =>
      Machine(Watched(m, e, items), m.gen + 1, m.scanNo + 1,
              m.feed, m.lost + Found(m, e, items), m.history + items)
    case ListFailed => m.(gen := m.gen + 1, scanNo := m.scanNo + 1)
    case ResetState => m.(track := Track(map[], m.track.ledger, map[]), gen := 0)
    case ResetAccums => m.(feed := m.feed + [Forget])
  }

  ghost function Run(evs: seq<Event>): Machine {
    if evs == [] then START else Step(Run(evs[..|evs| - 1]), evs[|evs| - 1])
  }

  // ---- One walk ----

  ghost predicate Lawful(obs: Observer, tag: ScanTag) {
    forall prev, item :: LawfulAt(obs, tag, prev, item)
  }

  ghost predicate LawfulAt(obs: Observer, tag: ScanTag, prev: Option<Entry>, item: Listed) {
    var v := obs(prev, item).verdict;
    v.Kept? ==> KeptLaw(prev, Put(tag.scanNo, tag.cfg, tag.walks, item, v.entry, v.report))
  }

  lemma ObserverIsLawful(e: Env, tag: ScanTag)
    requires tag.scanNo >= 1 && tag.cfg == e.cfg && tag.walks == WalksOf(e.cfg, tag.scanNo)
    ensures Lawful(ObserverOf(e, tag.walks), tag)
  {
    forall prev, item ensures LawfulAt(ObserverOf(e, tag.walks), tag, prev, item) {
      if Observe(e, tag.walks, prev, item).verdict.Kept? {
        ObservedKeepsLaw(tag.scanNo, e, tag.walks, prev, item);
      }
    }
  }

  /** The scan's group keys are cached, or the selection does not look at groups. */
  ghost predicate Selectable(sel: Selection, cfg: ScanConfig, ledger: seq<Tenure>) {
    IgnoresGroup(sel) || (cfg.cacheCmdline && OneGroupEach(ledger))
  }

  lemma SelectableIsSteady(sel: Selection, ledger: seq<Tenure>)
    requires IgnoresGroup(sel) || OneGroupEach(ledger)
    ensures AllSteady(ledger, sel)
  {
  }

  lemma CreditAppend(procs: seq<Process>, p: Process, sel: Selection, f: Field)
    ensures Credit(procs + [p], sel, f) == Credit(procs, sel, f) + if sel(TagOf(p)) then Contribution(p, f) else 0
  {
    assert (procs + [p])[..|procs|] == procs;
  }

  /** Since `t`, the ledger `u` has grown by exactly what the walk `w` reports, and its
      books are in order. */
  ghost predicate Agrees(t: Track, u: Track, w: Walked, cfg: ScanConfig, sel: Selection, f: Field) {
    && Books(u) && Chains(u.ledger) && Selectable(sel, cfg, u.ledger)
    && u.slots == w.slots
    && Total(u.ledger, sel, f) == Total(t.ledger, sel, f) + Credit(w.tally.procs, sel, f)
  }

  lemma AgreesAfterItem(obs: Observer, tag: ScanTag, t: Track, u: Track, w: Walked, item: Listed,
                        sel: Selection, f: Field)
    requires Lawful(obs, tag) && Agrees(t, u, w, tag.cfg, sel, f)
    ensures var v := obs(Recalled(u.slots, item), item).verdict;
            Agrees(t, TrackItem(u, tag, item, v), Next(obs, tag.gen, w, item), tag.cfg, sel, f)
  {
    var v := obs(Recalled(u.slots, item), item).verdict;
    assert LawfulAt(obs, tag, Recalled(u.slots, item), item);
    ItemKeepsBooks(u, tag, item, v);
    ItemKeepsChains(u, tag, item, v);
    if !IgnoresGroup(sel) {
      ItemKeepsGroups(u, tag, item, v);
    }
    SelectableIsSteady(sel, TrackItem(u, tag, item, v).ledger);
    ItemCredits(u, tag, item, v, sel, f);
    if v.Kept? {
      CreditAppend(w.tally.procs, v.report, sel, f);
    } else {
      assert w.tally.procs + [] == w.tally.procs;
    }
  }

  /** A walk adds to the ledger exactly what it reports, and keeps its books. */
  lemma {:induction false} WalkAgrees(obs: Observer, tag: ScanTag, t: Track, items: seq<Listed>, sel: Selection,
                                      f: Field)
    requires Lawful(obs, tag) && Books(t) && Chains(t.ledger) && Selectable(sel, tag.cfg, t.ledger)
    ensures Agrees(t, TrackAll(obs, tag, t, items), Fold(StepWith(obs, tag.gen), Setout(t.slots), items),
                   tag.cfg, sel, f)
  {
    if items == [] {
      assert Credit([], sel, f) == 0;
    } else {
      var init, item := items[..|items| - 1], items[|items| - 1];
      var u, w := TrackAll(obs, tag, t, init), Fold(StepWith(obs, tag.gen), Setout(t.slots), init);
      WalkAgrees(obs, tag, t, init, sel, f);
      AgreesAfterItem(obs, tag, t, u, w, item, sel, f);
    }
  }

  /** Keeping the ledger does not disturb the state map. */
  lemma {:induction false} TrackSlots(obs: Observer, tag: ScanTag, t: Track, items: seq<Listed>)
    ensures TrackAll(obs, tag, t, items).slots == Fold(StepWith(obs, tag.gen), Setout(t.slots), items).slots
  {
    if items != [] {
      TrackSlots(obs, tag, t, items[..|items| - 1]);
    }
  }

  // ---- Scans of one process ----

  lemma SingleWalk(obs: Observer, tag: ScanTag, t: Track, item: Listed)
    ensures Fold(StepWith(obs, tag.gen), Setout(t.slots), [item]) == Next(obs, tag.gen, Setout(t.slots), item)
    ensures TrackAll(obs, tag, t, [item]) == TrackItem(t, tag, item, obs(Recalled(t.slots, item), item).verdict)
  {
    assert [item][..0] == [];
    assert TrackAll(obs, tag, t, [item][..0]) == t;
    assert Fold(StepWith(obs, tag.gen), Setout(t.slots), [item][..0]) == Setout(t.slots);
  }

  /** What the next scan makes of a process when no other is listed. */
  ghost function SoleObservation(m: Machine, e: Env, item: Listed): Observation {
    Observe(e, WalksOf(e.cfg, m.scanNo + 1), Recalled(m.track.slots, item), item)
  }

  lemma SingleUnder(m: Machine, e: Env, item: Listed, tag: ScanTag, obs: Observer)
    requires tag == TagOfScan(m, e.cfg) && obs == ObserverOf(e, tag.walks)
    ensures var o := obs(Recalled(m.track.slots, item), item);
            && Found(m, e, [item]) == Reported(o)
            && Watched(m, e, [item]) == TrackItem(m.track, tag, item, o.verdict)
  {
    WatchedUnder(m, e, [item], tag, obs);
    SingleWalk(obs, tag, m.track, item);
    var reported := Reported(obs(Recalled(m.track.slots, item), item));
    assert NOTHING.procs + reported == reported;
  }

  /** What one scan leaves when it lists one process and sees `o` in it. */
  ghost predicate ScannedOne(m: Machine, m': Machine, item: Listed, o: Observation, now: int, retention: int) {
    && m'.feed == m.feed + [Apply(Reported(o), now, retention)]
    && m'.track.slots == Survivors(Remember(m.track.slots, m.gen + 1, item, o.verdict), m.gen + 1)
    && m'.lost == m.lost && m'.history == m.history + [item]
  }

  lemma SingleStep(m: Machine, e: Env, item: Listed, now: int, retention: int, tag: ScanTag, obs: Observer)
    requires tag == TagOfScan(m, e.cfg) && obs == ObserverOf(e, tag.walks)
    ensures ScannedOne(m, Step(m, Completed(e, [item], now, retention)), item, obs(Recalled(m.track.slots, item), item),
                       now, retention)
  {
    SingleUnder(m, e, item, tag, obs);
  }

  lemma SoleUnder(m: Machine, e: Env, item: Listed, tag: ScanTag, obs: Observer)
    requires tag == TagOfScan(m, e.cfg) && obs == ObserverOf(e, tag.walks)
    ensures obs(Recalled(m.track.slots, item), item) == SoleObservation(m, e, item)
  {
  }

  lemma SingleScan(m: Machine, e: Env, item: Listed, now: int, retention: int)
    ensures ScannedOne(m, Step(m, Completed(e, [item], now, retention)), item, SoleObservation(m, e, item),
                       now, retention)
  {
    var tag := TagOfScan(m, e.cfg);
    var obs := ObserverOf(e, tag.walks);
    SoleUnder(m, e, item, tag, obs);
    SingleStep(m, e, item, now, retention, tag, obs);
  }

  /** A process that was kept is found again by the next scan. */
  lemma KeptIsRecalled(m: Machine, e: Env, item: Listed, now: int, retention: int, next: Listed)
    requires SoleObservation(m, e, item).verdict.Kept?
    requires next.pid == item.pid && next.files.stat.Ok?
    requires next.files.stat.value.startTicks == SoleObservation(m, e, item).verdict.entry.startTicks
    ensures Recalled(Step(m, Completed(e, [item], now, retention)).track.slots, next) ==
            Some(SoleObservation(m, e, item).verdict.entry)
  {
    SingleScan(m, e, item, now, retention);
  }

  // ---- Conservation over runs ----

  function FeedCredit(feed: seq<Feed>, sel: Selection, f: Field): nat {
    if feed == [] then 0
    else
      var last := feed[|feed| - 1];
      FeedCredit(feed[..|feed| - 1], sel, f) + if last.Apply? then Credit(last.procs, sel, f) else 0
  }

  ghost predicate AllCached(evs: seq<Event>) {
    forall i :: 0 <= i < |evs| && (evs[i].Completed? || evs[i].Cancelled?) ==> evs[i].env.cfg.cacheCmdline
  }

  /** Every reported delta is on the ledger, and nothing else is. */
  ghost predicate Sound(m: Machine, sel: Selection, f: Field) {
    && Books(m.track) && Chains(m.track.ledger)
    && (IgnoresGroup(sel) || OneGroupEach(m.track.ledger))
    && FeedCredit(m.feed, sel, f) + Credit(m.lost, sel, f) == Total(m.track.ledger, sel, f)
  }

  lemma {:induction false} CreditConcat(a: seq<Process>, b: seq<Process>, sel: Selection, f: Field)
    ensures Credit(a + b, sel, f) == Credit(a, sel, f) + Credit(b, sel, f)
  {
    if b == [] {
      assert a + b == a;
    } else {
      var n := |b| - 1;
      assert (a + b)[..|a + b| - 1] == a + b[..n];
      CreditConcat(a, b[..n], sel, f);
    }
  }

  lemma FeedAppend(feed: seq<Feed>, x: Feed, sel: Selection, f: Field)
    ensures FeedCredit(feed + [x], sel, f) == FeedCredit(feed, sel, f) + if x.Apply? then Credit(x.procs, sel, f) else 0
  {
    assert (feed + [x])[..|feed|] == feed;
  }

  lemma WatchAgrees(m: Machine, e: Env, items: seq<Listed>, sel: Selection, f: Field)
    requires Books(m.track) && Chains(m.track.ledger) && Selectable(sel, e.cfg, m.track.ledger)
    ensures var u := Watched(m, e, items);
            && Books(u) && Chains(u.ledger) && (IgnoresGroup(sel) || OneGroupEach(u.ledger))
            && Total(u.ledger, sel, f) == Total(m.track.ledger, sel, f) + Credit(Found(m, e, items), sel, f)
  {
    var tag := TagOfScan(m, e.cfg);
    var obs := ObserverOf(e, tag.walks);
    ObserverIsLawful(e, tag);
    WalkAgrees(obs, tag, m.track, items, sel, f);
    WatchedUnder(m, e, items, tag, obs);
  }

  lemma PruneKeepsBooks(u: Track, gen: nat)
    requires Books(u)
    ensures Books(Pruned(u, gen)) && Pruned(u, gen).ledger == u.ledger
  {
    BooksAfterDrop(u, Survivors(u.slots, gen));
  }

  lemma SoundAfterScan(m: Machine, m': Machine, u: Track, x: Feed, sel: Selection, f: Field)
    requires Sound(m, sel, f) && x.Apply?
    requires Books(u) && Chains(u.ledger) && (IgnoresGroup(sel) || OneGroupEach(u.ledger))
    requires Total(u.ledger, sel, f) == Total(m.track.ledger, sel, f) + Credit(x.procs, sel, f)
    requires m'.track == Pruned(u, m'.gen) && m'.feed == m.feed + [x] && m'.lost == m.lost
    ensures Sound(m', sel, f)
  {
    PruneKeepsBooks(u, m'.gen);
    FeedAppend(m.feed, x, sel, f);
  }

  lemma CompletedSound(m: Machine, ev: Event, sel: Selection, f: Field)
    requires Sound(m, sel, f) && ev.Completed?
    requires IgnoresGroup(sel) || ev.env.cfg.cacheCmdline
    ensures Sound(Step(m, ev), sel, f)
  {
    WatchAgrees(m, ev.env, ev.items, sel, f);
    SoundAfterScan(m, Step(m, ev), Watched(m, ev.env, ev.items),
                   Apply(Found(m, ev.env, ev.items), ev.now, ev.retention), sel, f);
  }

  lemma CancelledSound(m: Machine, ev: Event, sel: Selection, f: Field)
    requires Sound(m, sel, f) && ev.Cancelled?
    requires IgnoresGroup(sel) || ev.env.cfg.cacheCmdline
    ensures Sound(Step(m, ev), sel, f)
  {
    WatchAgrees(m, ev.env, ev.items, sel, f);
    CreditConcat(m.lost, Found(m, ev.env, ev.items), sel, f);
  }

  lemma OtherSound(m: Machine, ev: Event, sel: Selection, f: Field)
    requires Sound(m, sel, f) && (ev.ListFailed? || ev.ResetState? || ev.ResetAccums?)
    ensures Sound(Step(m, ev), sel, f)
  {
    FeedAppend(m.feed, Forget, sel, f);
  }

  /** Conservation: over every run, under every interleaving of exits, denials, ignored
      scans, pid reuse, failed listings, cancellations and resets, what was published
      plus what cancelled scans threw away is exactly what the ledger credits. Selecting
      one process or all of them needs no hypothesis; selecting a group needs the group
      keys to be cached. */
  lemma {:induction false} Conservation(evs: seq<Event>, sel: Selection, f: Field)
    requires IgnoresGroup(sel) || AllCached(evs)
    ensures Sound(Run(evs), sel, f)
  {
    if evs == [] {
      assert Credit([], sel, f) == 0 && Total([], sel, f) == 0;
    } else {
      var init, last := evs[..|evs| - 1], evs[|evs| - 1];
      Conservation(init, sel, f);
      match last {
        case Completed(_, _, _, _) => CompletedSound(Run(init), last, sel, f);
        case Cancelled(_, _) => CancelledSound(Run(init), last, sel, f);
        case _ => OtherSound(Run(init), last, sel, f);
      }
    }
  }
}
