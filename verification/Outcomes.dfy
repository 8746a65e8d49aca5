/** What becomes of each listed process, and how it is counted. */
module Outcomes {
  import opened Wrappers
  import opened Procfs
  import opened StateMaps
  import opened Reading

  // ---- One process ----

  /** A file vanished before the filter could decide. */
  predicate VanishedEarly(v: Visit) {
    || (v.ArgvWanted() && v.files.cmdline.Vanished?)
    || (v.StatusWanted() && v.files.status.Vanished?)
  }

  /** A file vanished afterwards. */
  predicate VanishedLate(v: Visit) {
    || v.files.statm.Vanished?
    || (v.env.cfg.readIO && v.files.io.Vanished?)
    || (v.walks.fds && v.files.fds.Vanished?)
    || (v.env.cfg.readSmaps && v.walks.smaps && v.files.smaps.Vanished?)
  }

  /** A file that was wanted could not be read, though the process was there. */
  predicate Missed<T>(wanted: bool, f: Outcome<T>) {
    wanted && (f.Denied? || f.Failed?)
  }

  /** The same for a file that an unprivileged exporter is not meant to read: a denial is
      no error. */
  predicate Broken<T>(wanted: bool, f: Outcome<T>) {
    wanted && f.Failed?
  }

  function Once(b: bool): nat { if b then 1 else 0 }

  /** How often a label is counted for a process that is kept. */
  function ErrorOf(v: Visit, l: Label): nat {
    match l
    case AtStat => 0
    case AtCmdline => Once(Missed(v.ArgvWanted(), v.files.cmdline))
    case AtStatus => Once(Missed(v.StatusWanted(), v.files.status))
    case AtStatm => Once(Missed(true, v.files.statm))
    case AtIO => Once(Broken(v.env.cfg.readIO, v.files.io))
    case AtFD => Once(Broken(v.walks.fds, v.files.fds))
    case AtSmaps => Once(Broken(v.env.cfg.readSmaps && v.walks.smaps, v.files.smaps))
  }

  ghost predicate ErrorsOfKept(v: Visit, errs: multiset<Label>) {
    forall l :: errs[l] == ErrorOf(v, l)
  }

  /** One attempt counts its own label at most, and only when it fails. */
  lemma AttemptCounts(tag: Label, wanted: bool, f: Fault, quiet: bool, l: Label)
    requires !(wanted && f.ItVanished?)
    ensures var t := Attempt(tag, wanted, f, quiet);
            !t.gone && Counted(t, l) == if l == tag then (if quiet then Quiet(wanted, f) else Loud(wanted, f)) else 0
  {
  }

  lemma CountOfBoth(a: seq<Label>, b: seq<Label>, l: Label)
    ensures multiset(a + b)[l] == multiset(a)[l] + multiset(b)[l]
  {
  }

  /** How often a label is counted by a trial. */
  function Counted(t: Trial, l: Label): nat { multiset(t.errs)[l] }

  lemma ThenCounts(a: Trial, b: Trial, l: Label)
    requires !a.gone
    ensures Counted(Then(a, b), l) == Counted(a, l) + Counted(b, l) && Then(a, b).gone == b.gone
  {
    CountOfBoth(a.errs, b.errs, l);
  }

  /** The trial goes on, and counts its own label `n` times and no other. */
  ghost predicate CountsOnly(t: Trial, tag: Label, n: nat) {
    !t.gone && forall l :: Counted(t, l) == if l == tag then n else 0
  }

  lemma FourCounts(a: Trial, b: Trial, c: Trial, d: Trial, i: nat, j: nat, k: nat, n: nat, l: Label)
    requires CountsOnly(a, AtStatm, i) && CountsOnly(b, AtIO, j) && CountsOnly(c, AtFD, k) && CountsOnly(d, AtSmaps, n)
    ensures Counted(Then(Then(a, b), Then(c, d)), l) ==
            match l
            case AtStatm => i
            case AtIO => j
            case AtFD => k
            case AtSmaps => n
            case _ => 0
  {
    ThenCounts(a, b, l);
    ThenCounts(c, d, l);
    ThenCounts(Then(a, b), Then(c, d), l);
  }

  lemma AttemptCountsOnly(tag: Label, wanted: bool, f: Fault, quiet: bool)
    requires !(wanted && f.ItVanished?)
    ensures CountsOnly(Attempt(tag, wanted, f, quiet), tag, if quiet then Quiet(wanted, f) else Loud(wanted, f))
  {
    forall l ensures Counted(Attempt(tag, wanted, f, quiet), l) ==
                     if l == tag then (if quiet then Quiet(wanted, f) else Loud(wanted, f)) else 0 {
      AttemptCounts(tag, wanted, f, quiet, l);
    }
  }

  /** The same count, in terms of the faults that the attempts are given. */
  function FaultOf(v: Visit, l: Label): nat {
    var f, cfg := v.files, v.env.cfg;
    match l
    case AtStat => 0
    case AtCmdline => Loud(v.ArgvWanted(), f.cmdline.Fault())
    case AtStatus => Loud(v.StatusWanted(), f.status.Fault())
    case AtStatm => Loud(true, f.statm.Fault())
    case AtIO => Quiet(cfg.readIO, f.io.Fault())
    case AtFD => Quiet(v.walks.fds, f.fds.Fault())
    case AtSmaps => Quiet(cfg.readSmaps && v.walks.smaps, f.smaps.Fault())
  }

  function Loud(wanted: bool, f: Fault): nat { Once(wanted && (f.Broke? || f.WasDenied?)) }

  function Quiet(wanted: bool, f: Fault): nat { Once(wanted && f.Broke?) }

  lemma FaultIsError(v: Visit, l: Label)
    ensures FaultOf(v, l) == ErrorOf(v, l)
  {
  }

  lemma EarlyErrors(v: Visit, l: Label)
    requires !v.Early().gone
    ensures Counted(v.Early(), l) == if l.AtCmdline? || l.AtStatus? then FaultOf(v, l) else 0
  {
    var f := v.files;
    AttemptCounts(AtCmdline, v.ArgvWanted(), f.cmdline.Fault(), false, l);
    AttemptCounts(AtStatus, v.StatusWanted(), f.status.Fault(), false, l);
    ThenCounts(Attempt(AtCmdline, v.ArgvWanted(), f.cmdline.Fault(), false),
               Attempt(AtStatus, v.StatusWanted(), f.status.Fault(), false), l);
  }

  /** The four later attempts, given their faults. */
  lemma FourAttempts(statm: Fault, wio: bool, io: Fault, wfd: bool, fd: Fault, wsm: bool, sm: Fault, l: Label)
    requires !statm.ItVanished? && !(wio && io.ItVanished?) && !(wfd && fd.ItVanished?) && !(wsm && sm.ItVanished?)
    ensures var a := Then(Attempt(AtStatm, true, statm, false), Attempt(AtIO, wio, io, true));
            var b := Then(Attempt(AtFD, wfd, fd, true), Attempt(AtSmaps, wsm, sm, true));
            Counted(Then(a, b), l) ==
            match l
            case AtStatm => Loud(true, statm)
            case AtIO => Quiet(wio, io)
            case AtFD => Quiet(wfd, fd)
            case AtSmaps => Quiet(wsm, sm)
            case _ => 0
  {
    AttemptCountsOnly(AtStatm, true, statm, false);
    AttemptCountsOnly(AtIO, wio, io, true);
    AttemptCountsOnly(AtFD, wfd, fd, true);
    AttemptCountsOnly(AtSmaps, wsm, sm, true);
    FourCounts(Attempt(AtStatm, true, statm, false), Attempt(AtIO, wio, io, true),
               Attempt(AtFD, wfd, fd, true), Attempt(AtSmaps, wsm, sm, true),
               Loud(true, statm), Quiet(wio, io), Quiet(wfd, fd), Quiet(wsm, sm), l);
  }

  lemma LateErrors(v: Visit, l: Label)
    requires !v.Late().gone
    ensures Counted(v.Late(), l) == if l.AtCmdline? || l.AtStatus? then 0 else FaultOf(v, l)
  {
    FourAttempts(v.files.statm.Fault(), v.env.cfg.readIO, v.files.io.Fault(), v.walks.fds, v.files.fds.Fault(),
                 v.env.cfg.readSmaps && v.walks.smaps, v.files.smaps.Fault(), l);
  }

  lemma ErrorsAdd(v: Visit, l: Label)
    requires !v.Early().gone && !v.Late().gone
    ensures multiset(v.Early().errs + v.Late().errs)[l] == ErrorOf(v, l)
  {
    EarlyErrors(v, l);
    LateErrors(v, l);
    FaultIsError(v, l);
    CountOfBoth(v.Early().errs, v.Late().errs, l);
  }

  lemma VanishedMeans(v: Visit)
    ensures v.Early().gone <==> VanishedEarly(v)
    ensures v.Late().gone <==> VanishedLate(v)
  {
  }

  /** A process is gone when a file it needs vanishes, ignored when the filter drops it
      first, and kept otherwise; what else could not be read is counted once each. */
  lemma VisitOutcome(v: Visit, keep: bool)
    requires keep <==> v.Passes()
    ensures var o := Judge(v, keep);
            && (o.verdict.Gone? <==> VanishedEarly(v) || (keep && VanishedLate(v)))
            && (o.verdict.Ignored? <==> !VanishedEarly(v) && !keep)
            && (o.verdict.Kept? <==> !VanishedEarly(v) && keep && !VanishedLate(v))
            && (o.verdict.Kept? ==> ErrorsOfKept(v, multiset(o.errs)))
  {
    VanishedMeans(v);
    if !VanishedEarly(v) && !VanishedLate(v) {
      forall l ensures multiset(v.Early().errs + v.Late().errs)[l] == ErrorOf(v, l) {
        ErrorsAdd(v, l);
      }
    }
  }

  /** A failed `stat` decides alone. */
  lemma StatOutcome(e: Env, walks: Walks, prev: Option<Entry>, item: Listed)
    ensures var o, stat := Observe(e, walks, prev, item), item.files.stat;
            && (stat.Vanished? ==> o == Observation(Gone, []))
            && (stat.Denied? ==> o == Observation(Refused, []))
            && (stat.Failed? <==> o.verdict.Unreadable?)
            && (stat.Failed? ==> o.errs == [AtStat])
  {
  }

  // ---- A whole walk ----

  datatype End = Scanned | Passed | Vanishing | Refusing | Unread

  function EndOf(v: Verdict): End {
    match v
    case Kept(_, _, _) => Scanned
    case Ignored => Passed
    case Gone => Vanishing
    case Refused => Refusing
    case Unreadable => Unread
  }

  function HowMany(seen: seq<Observation>, end: End): nat {
    if seen == [] then 0
    else HowMany(seen[..|seen| - 1], end) + Once(EndOf(seen[|seen| - 1].verdict) == end)
  }

  function Errors(seen: seq<Observation>): multiset<Label> {
    if seen == [] then multiset{} else Errors(seen[..|seen| - 1]) + multiset(seen[|seen| - 1].errs)
  }

  /** Each count is the number of processes that came to that end. */
  ghost predicate CountsMean(c: Counts, seen: seq<Observation>) {
    && c.scanned == HowMany(seen, Scanned)
    && c.ignored == HowMany(seen, Passed)
    && c.vanished == HowMany(seen, Vanishing)
    && c.denied == HowMany(seen, Refusing)
  }

  lemma CountsMore(c: Counts, seen: seq<Observation>, o: Observation)
    requires CountsMean(c, seen)
    ensures CountsMean(Count(c, o.verdict), seen + [o])
  {
    assert (seen + [o])[..|seen|] == seen;
  }

  lemma {:induction false} WalkCounts(e: Env, walks: Walks, gen: nat, slots: Slots, items: seq<Listed>)
    ensures var w := Walk(e, walks, gen, slots, items);
            CountsMean(w.tally.counts, w.seen) && w.tally.errs == Errors(w.seen)
  {
    if items != [] {
      var init, item := items[..|items| - 1], items[|items| - 1];
      WalkCounts(e, walks, gen, slots, init);
      var w := Walk(e, walks, gen, slots, init);
      var o := ObserverOf(e, walks)(Recalled(w.slots, item), item);
      CountsMore(w.tally.counts, w.seen, o);
      assert (w.seen + [o])[..|w.seen|] == w.seen;
    }
  }
}
