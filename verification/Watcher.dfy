/** internal/config/watcher.go as it runs: the active configuration, the recorded stamp
    and the subscribers' channels. */
module Watchers {
  import opened Wrappers
  import opened Mailboxes

  /** What a stat shows of one version of the file: times count from the zero time, which
      no file carries. */
  datatype Stamp = Stamp(mtime: int, size: int)

  const NEVER := Stamp(0, 0)

  /** The configuration in force, and the stamp it was accepted under. */
  datatype Active<C> = Active(cur: C, stamp: Stamp)

  /** One reload: nothing changes unless the file could be read and accepted, and then the
      stamp is the one seen before the file was read. */
  function Reloaded<C>(w: Active<C>, force: bool, stat: Option<Stamp>, load: Option<C>): Active<C> {
    if stat.None? || (stat.value == w.stamp && !force) || load.None? then w
    else Active(load.value, stat.value)
  }

  lemma AfterSnoc<C>(m: Mailbox<C>, steps: seq<Step<C>>, s: Step<C>)
    ensures After(m, steps + [s]) == Next(After(m, steps), s)
  {
    assert (steps + [s])[..|steps|] == steps;
  }

  class Watcher<C(==)> {
    const path: string
    var cur: C
    var stamp: Stamp
    var subs: seq<Channel>

    /** History, which the program does not keep: what was published, and how often the
        last `default` was taken. */
    var published: seq<C>
    var dropped: nat

    ghost function View(): Mailbox<C>
      reads this
    {
      Mailbox(published, subs, Idle, dropped)
    }

    function Now(): Active<C>
      reads this
    {
      Active(cur, stamp)
    }

    /** The mailbox is in order, and the last configuration published is in force. */
    ghost predicate Valid()
      reads this
    {
      Ok(View()) && (published != [] ==> published[|published| - 1] == cur)
    }

    constructor (path: string, initial: C, stat: Option<Stamp>)
      ensures Valid() && this.path == path && published == [] && subs == []
      ensures Now() == Active(initial, if stat.Some? then stat.value else NEVER)
    {
      this.path, cur := path, initial;
      stamp := if stat.Some? then stat.value else NEVER;
      subs, published, dropped := [], [], 0;
    }

    method Subscribe() returns (j: nat)
      requires Valid()
      modifies `subs
      ensures Valid() && View() == Next(old(View()), Step.Subscribe)
      ensures j == |old(subs)| && j < |subs| && subs[j] == Channel(|published|, None, [])
    {
      SubscribeOk(View());
      j := |subs|;
      subs := subs + [Channel(|published|, None, [])];
    }

    /** A subscriber receives; on an empty channel it would wait. */
    method Receive(j: nat) returns (got: Option<nat>)
      modifies `subs
      ensures View() == Next(old(View()), Step.Receive(j))
      ensures got == if j < |old(subs)| then old(subs)[j].buf else None
    {
      got := None;
      if j < |subs| && subs[j].buf.Some? {
        got := subs[j].buf;
        subs := subs[j := Taken(subs[j])];
      }
    }

    ghost function At(turn: Turn): Mailbox<C>
      reads this
    {
      Mailbox(published, subs, turn, dropped)
    }

    /** What subscribers do between two actions of the publisher. */
    method Others(who: seq<nat>, ghost start: Mailbox<C>, ghost was: seq<Step<C>>, ghost turn: Turn)
      returns (ghost steps: seq<Step<C>>)
      requires After(start, was) == At(turn)
      modifies `subs
      ensures After(start, steps) == At(turn)
      ensures |subs| == |old(subs)|
    {
      steps := was;
      for k := 0 to |who|
        invariant After(start, steps) == At(turn)
        invariant |subs| == |old(subs)|
      {
        AfterSnoc(start, steps, Step.Receive(who[k]));
        var _ := Receive(who[k]);
        steps := steps + [Step.Receive(who[k])];
      }
    }

    /** One send that does not wait, after `who` have received. */
    method TrySendTo(i: nat, who: seq<nat>, ghost start: Mailbox<C>, ghost was: seq<Step<C>>, ghost stage: Stage)
      returns (sent: bool, ghost steps: seq<Step<C>>)
      requires i < |subs| && published != [] && stage != Stage.Drain
      requires After(start, was) == At(Sending(i, stage))
      modifies `subs
      ensures |subs| == |old(subs)|
      ensures sent ==> After(start, steps) == At(Sending(i + 1, TrySend))
      ensures !sent ==> After(start, steps) == Next(At(Sending(i, stage)), GoOn) && subs[i].buf.Some?
    {
      steps := Others(who, start, was, Sending(i, stage));
      AfterSnoc(start, steps, GoOn);
      steps := steps + [GoOn];
      sent := subs[i].buf.None?;
      if sent {
        subs := subs[i := Sent(subs[i], |published| - 1)];
      }
    }

    /** One receive that does not wait, after `who` have received. */
    method DrainOf(i: nat, who: seq<nat>, ghost start: Mailbox<C>, ghost was: seq<Step<C>>)
      returns (ghost steps: seq<Step<C>>)
      requires i < |subs| && published != []
      requires After(start, was) == At(Sending(i, Stage.Drain))
      modifies `subs
      ensures |subs| == |old(subs)|
      ensures After(start, steps) == At(Sending(i, Resend))
    {
      steps := Others(who, start, was, Sending(i, Stage.Drain));
      AfterSnoc(start, steps, GoOn);
      steps := steps + [GoOn];
      subs := subs[i := Drained(subs[i])];
    }

    /** `publish` to one channel, while subscribers receive at the three points before
        its actions. */
    method Send(i: nat, who: seq<seq<nat>>, ghost start: Mailbox<C>, ghost was: seq<Step<C>>)
      returns (ghost steps: seq<Step<C>>)
      requires i < |subs| && published != [] && |who| == 3
      requires After(start, was) == At(Sending(i, TrySend))
      modifies `subs, `dropped
      ensures |subs| == |old(subs)|
      ensures After(start, steps) == At(Sending(i + 1, TrySend))
    {
      var sent;
      sent, steps := TrySendTo(i, who[0], start, was, TrySend);
      if !sent {
        steps := DrainOf(i, who[1], start, steps);
        sent, steps := TrySendTo(i, who[2], start, steps, Resend);
        if !sent {
          dropped := dropped + 1;
        }
      }
    }

    /** `publish`, under every interference: `who(i)` are the receivers active around the
        three actions on channel `i`. What it does is a run of the mailbox. */
    method Publish(cfg: C, who: nat -> seq<seq<nat>>) returns (ghost steps: seq<Step<C>>)
      requires Ok(View()) && forall i :: |who(i)| == 3
      modifies `subs, `published, `dropped
      ensures View() == After(old(View()), steps)
      ensures Ok(View()) && published == old(published) + [cfg] && |subs| == |old(subs)|
    {
      ghost var start := View();
      steps := [Step.Publish(cfg)];
      AfterSnoc(start, [], Step.Publish(cfg));
      published := published + [cfg];
      for i := 0 to |subs|
        invariant |subs| == |old(subs)| && published == old(published) + [cfg]
        invariant After(start, steps) == At(Sending(i, TrySend))
      {
        steps := Send(i, who(i), start, steps);
      }
      AfterSnoc(start, steps, GoOn);
      steps := steps + [GoOn];
      AfterOk(start, steps);
    }

    /** `reload`: `stat` and `load` are what the file system answers; `load` is asked for
        only when the stamp differs or the reload is forced. */
    method Reload(force: bool, stat: Option<Stamp>, load: Option<C>, who: nat -> seq<seq<nat>>)
      requires Valid() && forall i :: |who(i)| == 3
      modifies `cur, `stamp, `subs, `published, `dropped
      ensures Valid() && |subs| == |old(subs)|
      ensures Now() == if path == "" then old(Now()) else Reloaded(old(Now()), force, stat, load)
      ensures path != "" && stat.Some? && load.Some? && (force || stat.value != old(stamp)) ==>
                cur == load.value && stamp == stat.value
      ensures path == "" || stat.None? || load.None? || (!force && stat.value == old(stamp)) ==> Now() == old(Now())
      ensures published == if cur == old(cur) then old(published) else old(published) + [cur]
      ensures cur == old(cur) ==> subs == old(subs)
    {
      if path == "" || stat.None? {
        return;
      }
      var same := stat.value == stamp;
      if same && !force {
        return;
      }
      if load.None? {
        return;
      }
      var prev := cur;
      stamp := stat.value;
      if prev == load.value {
        return;
      }
      cur := load.value;
      var _ := Publish(cur, who);
    }

    /** In order, a subscriber whose channel is empty has received the configuration in
        force last, if anything was published since it subscribed. */
    lemma DrainedSeesCurrent(j: nat)
      requires Valid() && j < |subs| && subs[j].buf.None? && subs[j].joined < |published|
      ensures SeesLatest(View(), subs[j]) && subs[j].got != []
      ensures Received(View(), subs[j])[|subs[j].got| - 1] == cur
    {
      assert ChannelOk(subs[j], |published|, j, Idle);
      RisingIsSubsequence(View(), subs[j]);
    }
  }

  // ---- The change detector ----

  /** The file at one moment: absent, or a version with its stamp and the configuration
      `Load` makes of it, if it accepts it. */
  datatype File<C> = Absent | Present(stamp: Stamp, config: Option<C>)

  /** Writes happen at any time. A reload stats the file, then reads it, then commits:
      `during` is written between the first two, `late` between the last two. Either may
      fail of itself. */
  datatype Event<C> =
    | Write(file: File<C>)
    | Reload(force: bool, statOk: bool, during: seq<File<C>>, readOk: bool, late: seq<File<C>>)

  /** Every file there has been, and the watcher. */
  datatype World<C> = World(files: seq<File<C>>, w: Active<C>)

  function StatOf<C>(files: seq<File<C>>, ok: bool): Option<Stamp> {
    if ok && files != [] && files[|files| - 1].Present? then Some(files[|files| - 1].stamp) else None
  }

  function LoadOf<C>(files: seq<File<C>>, ok: bool): Option<C> {
    if ok && files != [] && files[|files| - 1].Present? then files[|files| - 1].config else None
  }

  function Happens<C>(x: World<C>, ev: Event<C>): World<C> {
    match ev
    case Write(f) => World(x.files + [f], x.w)
    case Reload(force, statOk, during, readOk, late) =>
      var read := x.files + during;
      World(read + late, Reloaded(x.w, force, StatOf(x.files, statOk), LoadOf(read, readOk)))
  }

  function AfterAll<C>(x: World<C>, evs: seq<Event<C>>): World<C> {
    if evs == [] then x else Happens(AfterAll(x, evs[..|evs| - 1]), evs[|evs| - 1])
  }

  /** `NewWatcher`, given the caller's configuration, when the file has had `files`. */
  function Begin<C>(files: seq<File<C>>, initial: C, statOk: bool): World<C> {
    var stat := StatOf(files, statOk);
    World(files, Active(initial, if stat.Some? then stat.value else NEVER))
  }

  /** Each version has its own stamp. */
  ghost predicate OwnStamps<C>(files: seq<File<C>>) {
    && (forall i :: 0 <= i < |files| && files[i].Present? ==> files[i].stamp != NEVER)
    && (forall i, j :: 0 <= i < j < |files| && files[i].Present? && files[j].Present? ==>
          files[i].stamp != files[j].stamp)
  }

  /** Should the file now show the recorded stamp, the configuration in force is the one
      it holds. */
  ghost predicate NothingMissed<C>(x: World<C>) {
    var f := x.files;
    f != [] && f[|f| - 1].Present? && f[|f| - 1].stamp == x.w.stamp ==> f[|f| - 1].config == Some(x.w.cur)
  }

  /** The recorded stamp is no older than the configuration in force is. */
  ghost predicate StampFirst<C>(x: World<C>, a: int, b: int) {
    && 0 <= a <= b < |x.files|
    && x.files[a].Present? && x.files[a].stamp == x.w.stamp
    && x.files[b].Present? && x.files[b].config == Some(x.w.cur)
  }

  ghost predicate Tracks<C>(x: World<C>) {
    x.w.stamp == NEVER || exists a, b :: StampFirst(x, a, b)
  }

  lemma TracksMissesNothing<C>(x: World<C>)
    requires Tracks(x) && OwnStamps(x.files)
    ensures NothingMissed(x)
  {
    if x.w.stamp != NEVER {
      var a, b :| StampFirst(x, a, b);
    }
  }

  lemma {:induction false} FilesGrow<C>(x: World<C>, evs: seq<Event<C>>)
    ensures x.files <= AfterAll(x, evs).files
  {
    if evs != [] {
      FilesGrow(x, evs[..|evs| - 1]);
    }
  }

  lemma HappensTracks<C>(x: World<C>, ev: Event<C>)
    requires Tracks(x)
    ensures Tracks(Happens(x, ev))
  {
    var y := Happens(x, ev);
    if y.w == x.w {
      if x.w.stamp != NEVER {
        var a, b :| StampFirst(x, a, b);
        assert StampFirst(y, a, b);
      }
    } else {
      assert StampFirst(y, |x.files| - 1, |x.files + ev.during| - 1);
    }
  }

  lemma {:induction false} AllTracks<C>(x: World<C>, evs: seq<Event<C>>)
    requires Tracks(x)
    ensures Tracks(AfterAll(x, evs))
  {
    if evs != [] {
      AllTracks(x, evs[..|evs| - 1]);
      HappensTracks(AfterAll(x, evs[..|evs| - 1]), evs[|evs| - 1]);
    }
  }

  /** What `NewWatcher` needs: the version it stats is one that gives the configuration it
      was handed. */
  ghost predicate HandedTheSame<C>(files: seq<File<C>>, initial: C, statOk: bool) {
    StatOf(files, statOk).Some? ==> files[|files| - 1].config == Some(initial)
  }

  /** The change detector never misses an edit, whatever is written when and whatever
      fails, exactly when no edit was missed at the start. */
  lemma NeverMissesAnEdit<C>(files: seq<File<C>>, initial: C, statOk: bool)
    requires OwnStamps(files)
    ensures HandedTheSame(files, initial, statOk) <==>
            forall evs :: OwnStamps(AfterAll(Begin(files, initial, statOk), evs).files) ==>
                            NothingMissed(AfterAll(Begin(files, initial, statOk), evs))
  {
    var x := Begin(files, initial, statOk);
    if HandedTheSame(files, initial, statOk) {
      if StatOf(files, statOk).Some? {
        assert StampFirst(x, |files| - 1, |files| - 1);
      }
      forall evs | OwnStamps(AfterAll(x, evs).files) ensures NothingMissed(AfterAll(x, evs)) {
        AllTracks(x, evs);
        TracksMissesNothing(AfterAll(x, evs));
      }
    } else {
      assert AfterAll(x, []) == x;
      assert !NothingMissed(AfterAll(x, []));
    }
  }

  /** Nothing written between the caller's load and the stat is enough. */
  lemma NoWriteBetween<C>(files: seq<File<C>>, initial: C, statOk: bool)
    requires LoadOf(files, true) == Some(initial)
    ensures HandedTheSame(files, initial, statOk)
  {
  }

  /** A write there is not: the edit stays unseen through every later reload that is not
      forced, until the next write. */
  lemma {:induction false} WriteBetweenIsMissed<C>(files: seq<File<C>>, initial: C, edit: File<C>, evs: seq<Event<C>>)
    requires edit.Present?
    requires forall i :: 0 <= i < |evs| ==> evs[i].Reload? && !evs[i].force && evs[i].during == [] == evs[i].late
    ensures var x := Begin(files + [edit], initial, true);
            AfterAll(x, evs) == x && x.w.cur == initial
  {
    if evs != [] {
      WriteBetweenIsMissed(files, initial, edit, evs[..|evs| - 1]);
    }
  }

  /** A forced reload never relies on the stamp: in whatever state the watcher is, the
      configuration of the file is in force afterwards, under the file's stamp, unless it is
      refused, and then nothing has changed. */
  lemma ForcedReloadAlwaysLoads<C>(x: World<C>, late: seq<File<C>>)
    ensures var y := Happens(x, Event.Reload(true, true, [], true, late));
            && (LoadOf(x.files, true).Some? ==>
                  y.w.cur == LoadOf(x.files, true).value && Some(y.w.stamp) == StatOf(x.files, true))
            && (LoadOf(x.files, true).None? ==> y.w == x.w)
  {
    assert x.files + [] == x.files;
  }

  /** So one forced reload puts a missed edit in force. */
  lemma ForcedReloadRecovers<C>(files: seq<File<C>>, initial: C, edit: File<C>, evs: seq<Event<C>>)
    requires edit.Present? && edit.config.Some?
    requires forall i :: 0 <= i < |evs| ==> evs[i].Reload? && !evs[i].force && evs[i].during == [] == evs[i].late
    ensures var x := AfterAll(Begin(files + [edit], initial, true), evs);
            x.w.cur == initial && Happens(x, Event.Reload(true, true, [], true, [])).w.cur == edit.config.value
  {
    WriteBetweenIsMissed(files, initial, edit, evs);
    ForcedReloadAlwaysLoads(AfterAll(Begin(files + [edit], initial, true), evs), []);
  }

  /** A reload that is not forced does nothing while the file shows the recorded stamp. */
  lemma UnforcedReloadSkips<C>(x: World<C>, statOk: bool, during: seq<File<C>>, readOk: bool, late: seq<File<C>>)
    requires StatOf(x.files, statOk) == Some(x.w.stamp)
    ensures Happens(x, Event.Reload(false, statOk, during, readOk, late)).w == x.w
  {
  }

  /** A reload during which nothing is written, and nothing fails of itself, always
      catches up: afterwards the configuration in force is that of the file, if it has
      one. */
  lemma QuietReloadCatchesUp<C>(files: seq<File<C>>, initial: C, statOk: bool, evs: seq<Event<C>>, force: bool)
    requires HandedTheSame(files, initial, statOk)
    requires OwnStamps(AfterAll(Begin(files, initial, statOk), evs).files)
    ensures var x := AfterAll(Begin(files, initial, statOk), evs);
            var y := Happens(x, Event.Reload(force, true, [], true, []));
            && (LoadOf(x.files, true).Some? ==>
                  y.w.cur == LoadOf(x.files, true).value && Some(y.w.stamp) == StatOf(x.files, true))
            && (LoadOf(x.files, true).None? ==> y.w == x.w)
  {
    var x := AfterAll(Begin(files, initial, statOk), evs);
    FilesGrow(Begin(files, initial, statOk), evs);
    forall i | 0 <= i < |files| ensures files[i] == x.files[i] {
    }
    assert OwnStamps(files);
    NeverMissesAnEdit(files, initial, statOk);
    assert NothingMissed(x);
    assert x.files + [] == x.files;
  }
}
