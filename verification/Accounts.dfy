/** What a counter credits over a run of readings of one process, some of which may be
    missing. The scanner differences consecutive stored values, and an unread file
    stores zero. */
module Accounts {
  import opened Wrappers
  import opened StateMaps

  type Readings = seq<Option<nat>>

  function OrZero(r: Option<nat>): nat {
    if r.Some? then r.value else 0
  }

  /** What reading `now` adds after `before`. */
  function Gain(before: Option<nat>, now: Option<nat>): nat {
    if now.Some? then Delta(now.value, OrZero(before)) else 0
  }

  /** The total the scanner credits: every reading but the first against its predecessor. */
  function Credited(rs: Readings): nat {
    if |rs| <= 1 then 0 else Gain(rs[0], rs[1]) + Credited(rs[1..])
  }

  ghost predicate Ascending(rs: Readings) {
    forall i, j :: 0 <= i < j < |rs| && rs[i].Some? && rs[j].Some? ==> rs[i].value <= rs[j].value
  }

  /** Position `i` ends a run of readable scans. */
  predicate RunEnd(rs: Readings, i: nat) {
    i < |rs| && rs[i].Some? && (i + 1 == |rs| || rs[i + 1].None?)
  }

  /** The sum of the final readings of the maximal readable runs. */
  function Finals(rs: Readings): nat {
    if rs == [] then 0 else (if RunEnd(rs, 0) then rs[0].value else 0) + Finals(rs[1..])
  }

  lemma {:induction false} CreditedAppend(rs: Readings, r: Option<nat>)
    requires rs != []
    ensures Credited(rs + [r]) == Credited(rs) + Gain(rs[|rs| - 1], r)
  {
    if |rs| == 1 {
      assert Credited((rs + [r])[1..]) == 0;
    } else {
      assert (rs + [r])[1..] == rs[1..] + [r];
      CreditedAppend(rs[1..], r);
    }
  }

  /** The exact account of one process: for a counter that never decreases, the credit
      is the sum of the final readings of the readable runs, less the first reading if
      the first scan was readable. */
  lemma {:induction false} CreditIsFinals(rs: Readings)
    requires rs != [] && Ascending(rs)
    ensures Credited(rs) + OrZero(rs[0]) == Finals(rs)
  {
    if |rs| > 1 {
      CreditIsFinals(rs[1..]);
    } else {
      assert Finals(rs[1..]) == 0;
    }
  }

  ghost predicate AllReadable(rs: Readings) {
    forall i :: 0 <= i < |rs| ==> rs[i].Some?
  }

  lemma {:induction false} FinalsOfAllReadable(rs: Readings)
    requires rs != [] && AllReadable(rs)
    ensures Finals(rs) == rs[|rs| - 1].value
  {
    if |rs| > 1 {
      FinalsOfAllReadable(rs[1..]);
    } else {
      assert Finals(rs[1..]) == 0;
    }
  }

  /** Readable on every scan: the credit is the last reading minus the first. */
  lemma {:induction false} CreditOfAllReadable(rs: Readings)
    requires rs != [] && Ascending(rs) && AllReadable(rs)
    ensures Credited(rs) == rs[|rs| - 1].value - rs[0].value
  {
    CreditIsFinals(rs);
    FinalsOfAllReadable(rs);
  }

  // ---- Against the true growth ----

  function FirstReadable(rs: Readings): Option<nat> {
    if rs == [] then None else if rs[0].Some? then rs[0] else FirstReadable(rs[1..])
  }

  function LastReadable(rs: Readings): Option<nat> {
    if rs == [] then None
    else
      var later := LastReadable(rs[1..]);
      if later.Some? then later else rs[0]
  }

  /** How much the process's counter is known to have grown. */
  function Growth(rs: Readings): int {
    OrZero(LastReadable(rs)) - OrZero(FirstReadable(rs))
  }

  /** The sum of the final readings of all readable runs but the last. */
  function EarlierFinals(rs: Readings): nat {
    if rs == [] then 0
    else (if RunEnd(rs, 0) && LastReadable(rs[1..]).Some? then rs[0].value else 0) + EarlierFinals(rs[1..])
  }

  lemma {:induction false} FinalsSplit(rs: Readings)
    ensures Finals(rs) == EarlierFinals(rs) + OrZero(LastReadable(rs))
  {
    if rs != [] {
      FinalsSplit(rs[1..]);
      if RunEnd(rs, 0) && LastReadable(rs[1..]).None? {
        NothingLater(rs[1..]);
      } else if |rs| > 1 && rs[1].Some? {
        assert LastReadable(rs[1..]).Some?;
      }
    }
  }

  lemma {:induction false} NothingLater(rs: Readings)
    requires LastReadable(rs).None?
    ensures Finals(rs) == 0 && EarlierFinals(rs) == 0
  {
    if rs != [] {
      NothingLater(rs[1..]);
    }
  }

  /** Gaps only ever inflate a counter, and by exactly this much: each readable run that
      is followed by another is credited again from zero, and a process first seen while
      unreadable is credited its whole first reading. */
  lemma {:induction false} GapsInflate(rs: Readings)
    requires rs != [] && Ascending(rs)
    ensures Credited(rs) == Growth(rs) + EarlierFinals(rs) + (if rs[0].None? then OrZero(FirstReadable(rs)) else 0)
  {
    CreditIsFinals(rs);
    FinalsSplit(rs);
  }

  /** Some run ends at `i` with a non-zero reading and a later scan is readable again. */
  ghost predicate CountedTwice(rs: Readings, i: nat) {
    RunEnd(rs, i) && rs[i].value > 0 && LastReadable(rs[i + 1..]).Some?
  }

  lemma {:induction false} EarlierFinalsZero(rs: Readings)
    ensures EarlierFinals(rs) == 0 <==> forall i: nat :: !CountedTwice(rs, i)
  {
    if rs == [] {
    } else {
      var tail := rs[1..];
      EarlierFinalsZero(tail);
      if i: nat :| CountedTwice(tail, i) {
        assert tail[i + 1..] == rs[i + 2..];
        assert CountedTwice(rs, i + 1);
      }
      if i: nat :| CountedTwice(rs, i) {
        if i > 0 {
          assert tail[i - 1 + 1..] == rs[i + 1..];
          assert CountedTwice(tail, i - 1);
        }
      }
      assert RunEnd(rs, 0) && LastReadable(tail).Some? && rs[0].value > 0 <==> CountedTwice(rs, 0);
    }
  }

  /** The credit is the true growth exactly when no non-zero run is followed by another,
      and the process was readable on its first scan or had counted nothing by its first
      readable one. */
  lemma CreditExact(rs: Readings)
    requires rs != [] && Ascending(rs)
    ensures Credited(rs) == Growth(rs) <==>
              && (forall i: nat :: !CountedTwice(rs, i))
              && (rs[0].Some? || OrZero(FirstReadable(rs)) == 0)
  {
    GapsInflate(rs);
    EarlierFinalsZero(rs);
  }

  // ---- Counters that go backwards ----

  /** By how much a readable counter fell from one reading to the next, in all. */
  function Falls(rs: Readings): nat {
    if |rs| <= 1 then 0
    else (if OrZero(rs[1]) < OrZero(rs[0]) then OrZero(rs[0]) - OrZero(rs[1]) else 0) + Falls(rs[1..])
  }

  /** Whatever the counter does, it is credited its rises and nothing for its falls: the
      difference between its ends, and every fall besides. */
  lemma {:induction false} CreditIsRises(rs: Readings)
    requires rs != [] && AllReadable(rs)
    ensures Credited(rs) == rs[|rs| - 1].value - rs[0].value + Falls(rs)
  {
    if |rs| > 1 {
      CreditIsRises(rs[1..]);
    }
  }
}
