/** The published counters against the tenures: the project's central claim. */
module Publication {
  import opened Procfs
  import opened Reading
  import opened KeptProcesses
  import opened Ledgers
  import opened Runs
  import opened Truth
  import opened Groups
  import opened Accumulators

  /** While a group is not forgotten, its counter is due everything the feed reported. */
  lemma {:induction false} DueIsCredit(feed: seq<Feed>, k: Key, f: Field, sys: System, n: nat)
    requires n <= |feed| && NeverForgotten(feed, k, 0, n)
    ensures Due(feed, k, f, sys, n) == Amount(sys, f, FeedCredit(feed[..n], JustGroup(k), f))
  {
    AmountAdds(sys, f, 0, 0);
    if n > 0 {
      DueIsCredit(feed, k, f, sys, n - 1);
      var init, x, sel := feed[..n - 1], feed[n - 1], JustGroup(k);
      assert feed[..n] == init + [x];
      FeedAppend(init, x, sel, f);
      assert !Forgotten(feed, k, n - 1);
      var added := if x.Apply? then Credit(x.procs, sel, f) else 0;
      SumOfAmounts(sys, f, FeedCredit(init, sel, f), added, FeedCredit(init + [x], sel, f));
    }
  }

  lemma PublishedIsCredit(feed: seq<Feed>, k: Key, f: Field, sys: System, j: nat)
    requires j < |feed| && feed[j].Apply? && NeverForgotten(feed, k, 0, j)
    ensures Published(feed, k, f, sys, j) == Amount(sys, f, FeedCredit(feed[..j + 1], JustGroup(k), f))
  {
    PublishedIsDue(feed, k, f, sys, j);
    DueIsCredit(feed, k, f, sys, j);
    assert feed[..j + 1] == feed[..j] + [feed[j]];
    FeedAppend(feed[..j], feed[j], JustGroup(k), f);
    AmountAdds(sys, f, FeedCredit(feed[..j], JustGroup(k), f), Credit(feed[j].procs, JustGroup(k), f));
  }

  /** The value of a counter that has counted `n`: processor time is in seconds, which times
      the clock rate are ticks, and all else is counted one by one. Without a clock rate
      no time is known. */
  ghost predicate InUnits(sys: System, f: Field, value: real, n: int) {
    if !f.UTime? && !f.STime? then value == n as real
    else if sys.clockTicks > 0 then value * sys.clockTicks as real == n as real
    else value == 0.0
  }

  lemma AmountInUnits(sys: System, f: Field, n: nat)
    ensures InUnits(sys, f, Amount(sys, f, n), n)
  {
  }

  /** The counter published last, and what cancelled scans threw away, is what the tenures
      are worth. */
  ghost predicate PublishedIs(m: Machine, k: Key, f: Field, sys: System) {
    var worth, lost := Settled(m.track.ledger, JustGroup(k), f), Credit(m.lost, JustGroup(k), f);
    && worth >= lost && m.feed != [] && m.feed[|m.feed| - 1].Apply?
    && Published(m.feed, k, f, sys, |m.feed| - 1) + Amount(sys, f, lost) == Amount(sys, f, worth)
    && InUnits(sys, f, Published(m.feed, k, f, sys, |m.feed| - 1), worth - lost)
  }

  lemma SettledMachine(m: Machine, k: Key, f: Field, sys: System)
    requires m.feed != [] && m.feed[|m.feed| - 1].Apply? && NeverForgotten(m.feed, k, 0, |m.feed| - 1)
    requires FeedCredit(m.feed, JustGroup(k), f) + Credit(m.lost, JustGroup(k), f) ==
             Settled(m.track.ledger, JustGroup(k), f)
    ensures PublishedIs(m, k, f, sys)
  {
    var credit, lost := FeedCredit(m.feed, JustGroup(k), f), Credit(m.lost, JustGroup(k), f);
    PublishedIsCredit(m.feed, k, f, sys, |m.feed| - 1);
    assert m.feed[..|m.feed|] == m.feed;
    AmountInUnits(sys, f, credit);
    SumOfAmounts(sys, f, credit, lost, credit + lost);
  }

  /** The central claim: in every run in which the group has not been forgotten, whatever
      exits, denials, ignored scans, reused pids, failed listings, cancellations and state
      resets it contains, the counter published for a group, and what cancelled scans threw
      away of it, is what the tenures of its processes are worth. */
  lemma PublishedIsSettled(evs: seq<Event>, k: Key, f: Field, sys: System)
    requires evs != [] && evs[|evs| - 1].Completed? && AllCached(evs)
    requires Monotone(Run(evs).history)
    requires NeverForgotten(Run(evs).feed, k, 0, |Run(evs).feed| - 1)
    ensures PublishedIs(Run(evs), k, f, sys)
  {
    ExactAccount(evs, JustGroup(k), f);
    SettledMachine(Run(evs), k, f, sys);
  }

  lemma SumOfAmounts(sys: System, f: Field, published: nat, lost: nat, all: int)
    requires published + lost == all
    ensures Amount(sys, f, published) + Amount(sys, f, lost) == Amount(sys, f, all)
  {
    AmountAdds(sys, f, published, lost);
  }

  // ---- Since the last forgetting ----

  lemma StepExtends(m: Machine, ev: Event)
    ensures m.feed <= Step(m, ev).feed && m.lost <= Step(m, ev).lost
    ensures ev.Completed? ==> |m.feed| < |Step(m, ev).feed|
  {
  }

  /** A run only adds to what was passed on and to what was thrown away. */
  lemma {:induction false} RunExtends(evs: seq<Event>, n: nat)
    requires n <= |evs|
    ensures Run(evs[..n]).feed <= Run(evs).feed && Run(evs[..n]).lost <= Run(evs).lost
    ensures n < |evs| && evs[|evs| - 1].Completed? ==> |Run(evs[..n]).feed| < |Run(evs).feed|
  {
    if n == |evs| {
      assert evs[..n] == evs;
    } else {
      var init := evs[..|evs| - 1];
      RunExtends(init, n);
      StepExtends(Run(init), evs[|evs| - 1]);
      assert init[..n] == evs[..n];
    }
  }

  lemma {:induction false} ContributedIsCredit(feed: seq<Feed>, k: Key, f: Field, sys: System, i: nat, j: nat)
    requires i <= j <= |feed|
    ensures Amount(sys, f, FeedCredit(feed[..i], JustGroup(k), f)) + Contributed(feed, k, f, sys, i, j) ==
            Amount(sys, f, FeedCredit(feed[..j], JustGroup(k), f))
    decreases j
  {
    if i < j {
      var init, x, sel := feed[..j - 1], feed[j - 1], JustGroup(k);
      ContributedIsCredit(feed, k, f, sys, i, j - 1);
      assert feed[..j] == init + [x];
      FeedAppend(init, x, sel, f);
      AmountAdds(sys, f, 0, 0);
      var added := if x.Apply? then Credit(x.procs, sel, f) else 0;
      SumOfAmounts(sys, f, FeedCredit(init, sel, f), added, FeedCredit(init + [x], sel, f));
    }
  }

  lemma PublishedSince(feed: seq<Feed>, k: Key, f: Field, sys: System, l: nat)
    requires l < |feed| && feed[|feed| - 1].Apply?
    requires l == 0 || Forgotten(feed, k, l - 1)
    requires NeverForgotten(feed, k, l, |feed| - 1)
    ensures Amount(sys, f, FeedCredit(feed[..l], JustGroup(k), f)) + Published(feed, k, f, sys, |feed| - 1) ==
            Amount(sys, f, FeedCredit(feed, JustGroup(k), f))
  {
    var j := |feed| - 1;
    PublishedIsDue(feed, k, f, sys, j);
    DueGrows(feed, k, f, sys, l, j);
    ContributedIsCredit(feed, k, f, sys, l, |feed|);
    assert feed[..|feed|] == feed;
  }

  lemma CreditGrows(a: seq<Process>, b: seq<Process>, sel: Selection, f: Field)
    requires a <= b
    ensures Credit(a, sel, f) <= Credit(b, sel, f)
  {
    assert b == a + b[|a|..];
    CreditConcat(a, b[|a|..], sel, f);
  }

  /** What a group's tenures are worth at some moment. */
  function WorthNow(m: Machine, k: Key, f: Field): int {
    Settled(m.track.ledger, JustGroup(k), f)
  }

  function LostNow(m: Machine, k: Key, f: Field): nat {
    Credit(m.lost, JustGroup(k), f)
  }

  lemma Account(evs: seq<Event>, k: Key, f: Field)
    requires AllCached(evs) && Monotone(Run(evs).history)
    ensures FeedCredit(Run(evs).feed, JustGroup(k), f) + LostNow(Run(evs), k, f) == WorthNow(Run(evs), k, f)
  {
    ExactAccount(evs, JustGroup(k), f);
  }

  lemma {:induction false} HistoryPrefix(evs: seq<Event>, n: nat)
    requires n <= |evs| && Monotone(Run(evs).history)
    ensures Monotone(Run(evs[..n]).history)
  {
    if n == |evs| {
      assert evs[..n] == evs;
    } else {
      var init, last := evs[..|evs| - 1], evs[|evs| - 1];
      if last.Completed? || last.Cancelled? {
        MonotonePrefix(Run(init).history, last.items);
      }
      HistoryPrefix(init, n);
      assert init[..n] == evs[..n];
    }
  }

  lemma DifferenceOfAmounts(sys: System, f: Field, feed0: nat, feed1: nat, lost0: nat, lost1: nat, published: real)
    requires lost0 <= lost1 && feed0 <= feed1
    requires Amount(sys, f, feed0) + published == Amount(sys, f, feed1)
    ensures published + Amount(sys, f, lost1 - lost0) == Amount(sys, f, (feed1 + lost1) - (feed0 + lost0))
    ensures InUnits(sys, f, published, feed1 - feed0)
  {
    AmountInUnits(sys, f, feed1 - feed0);
    AmountAdds(sys, f, feed0, feed1 - feed0);
    AmountAdds(sys, f, feed1 - feed0, lost1 - lost0);
  }

  lemma FeedCreditGrows(a: seq<Feed>, b: seq<Feed>, sel: Selection, f: Field)
    requires a <= b
    ensures FeedCredit(a, sel, f) <= FeedCredit(b, sel, f)
    decreases |b|
  {
    if |a| < |b| {
      FeedCreditGrows(a, b[..|b| - 1], sel, f);
    }
  }

  /** Of two moments of a run: the counter published at the second, and what cancelled
      scans have thrown away since the first, is what the group's tenures have become worth
      in between. */
  ghost predicate PublishedBetween(m0: Machine, m: Machine, k: Key, f: Field, sys: System) {
    && LostNow(m0, k, f) <= LostNow(m, k, f) && WorthNow(m0, k, f) <= WorthNow(m, k, f)
    && m.feed != [] && m.feed[|m.feed| - 1].Apply?
    && Published(m.feed, k, f, sys, |m.feed| - 1) + Amount(sys, f, LostNow(m, k, f) - LostNow(m0, k, f)) ==
       Amount(sys, f, WorthNow(m, k, f) - WorthNow(m0, k, f))
    && InUnits(sys, f, Published(m.feed, k, f, sys, |m.feed| - 1),
               (WorthNow(m, k, f) - WorthNow(m0, k, f)) - (LostNow(m, k, f) - LostNow(m0, k, f)))
  }

  lemma PublishedAfterPrefix(feed0: seq<Feed>, feed: seq<Feed>, k: Key, f: Field, sys: System)
    requires feed0 <= feed && |feed0| < |feed| && feed[|feed| - 1].Apply?
    requires |feed0| == 0 || Forgotten(feed, k, |feed0| - 1)
    requires NeverForgotten(feed, k, |feed0|, |feed| - 1)
    ensures FeedCredit(feed0, JustGroup(k), f) <= FeedCredit(feed, JustGroup(k), f)
    ensures Amount(sys, f, FeedCredit(feed0, JustGroup(k), f)) + Published(feed, k, f, sys, |feed| - 1) ==
            Amount(sys, f, FeedCredit(feed, JustGroup(k), f))
  {
    assert feed[..|feed0|] == feed0;
    FeedCreditGrows(feed0, feed, JustGroup(k), f);
    PublishedSince(feed, k, f, sys, |feed0|);
  }

  lemma BetweenNumbers(sys: System, f: Field, feed0: nat, feed1: nat, lost0: nat, lost1: nat, worth0: int, worth1: int,
                       published: real)
    requires lost0 <= lost1 && feed0 <= feed1 && feed0 + lost0 == worth0 && feed1 + lost1 == worth1
    requires Amount(sys, f, feed0) + published == Amount(sys, f, feed1)
    ensures worth0 <= worth1 && published + Amount(sys, f, lost1 - lost0) == Amount(sys, f, worth1 - worth0)
    ensures InUnits(sys, f, published, (worth1 - worth0) - (lost1 - lost0))
  {
    DifferenceOfAmounts(sys, f, feed0, feed1, lost0, lost1, published);
    assert (worth1 - worth0) - (lost1 - lost0) == feed1 - feed0;
  }

  lemma BetweenMachines(m0: Machine, m: Machine, k: Key, f: Field, sys: System)
    requires m0.feed <= m.feed && m0.lost <= m.lost && |m0.feed| < |m.feed| && m.feed[|m.feed| - 1].Apply?
    requires FeedCredit(m0.feed, JustGroup(k), f) + LostNow(m0, k, f) == WorthNow(m0, k, f)
    requires FeedCredit(m.feed, JustGroup(k), f) + LostNow(m, k, f) == WorthNow(m, k, f)
    requires |m0.feed| == 0 || Forgotten(m.feed, k, |m0.feed| - 1)
    requires NeverForgotten(m.feed, k, |m0.feed|, |m.feed| - 1)
    ensures PublishedBetween(m0, m, k, f, sys)
  {
    CreditGrows(m0.lost, m.lost, JustGroup(k), f);
    PublishedAfterPrefix(m0.feed, m.feed, k, f, sys);
    BetweenNumbers(sys, f, FeedCredit(m0.feed, JustGroup(k), f), FeedCredit(m.feed, JustGroup(k), f),
                   LostNow(m0, k, f), LostNow(m, k, f), WorthNow(m0, k, f), WorthNow(m, k, f),
                   Published(m.feed, k, f, sys, |m.feed| - 1));
  }

  lemma CachedPrefix(evs: seq<Event>, n: nat)
    requires n <= |evs| && AllCached(evs)
    ensures AllCached(evs[..n])
  {
  }

  /** The central claim after a forgetting too: when the group was last forgotten by what
      came before event `n`, or never with `n` zero, the counter published now, and what
      cancelled scans have thrown away since, is what its tenures have become worth since. */
  lemma PublishedSinceForgotten(evs: seq<Event>, n: nat, k: Key, f: Field, sys: System)
    requires n < |evs| && evs[|evs| - 1].Completed? && AllCached(evs)
    requires Monotone(Run(evs).history)
    requires var l, feed := |Run(evs[..n]).feed|, Run(evs).feed;
             && (l == 0 || Forgotten(feed, k, l - 1))
             && NeverForgotten(feed, k, l, |feed| - 1)
    ensures PublishedBetween(Run(evs[..n]), Run(evs), k, f, sys)
  {
    RunExtends(evs, n);
    HistoryPrefix(evs, n);
    CachedPrefix(evs, n);
    Account(evs[..n], k, f);
    Account(evs, k, f);
    BetweenMachines(Run(evs[..n]), Run(evs), k, f, sys);
  }
}
