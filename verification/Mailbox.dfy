/** The latest-value mailbox of internal/config/watcher.go: one publisher, any number of
    subscribers, and a channel of capacity one to each. */
module Mailboxes {
  import opened Wrappers

  /** One subscriber's channel, and what it has received. Configurations are named by
      their place among the published ones; the protocol never looks inside. `joined`
      counts what had been published when it subscribed. */
  datatype Channel = Channel(joined: nat, buf: Option<nat>, got: seq<nat>)

  /** Where `publish` stands with one channel: about to try a send, to drain, or to send
      again. */
  datatype Stage = TrySend | Drain | Resend

  datatype Turn = Idle | Sending(i: nat, stage: Stage)

  /** `dropped` counts how often the last `default` was taken. */
  datatype Mailbox<C> = Mailbox(published: seq<C>, subs: seq<Channel>, turn: Turn, dropped: nat)

  /** One atomic step of somebody: `publish` is called, `publish` goes on, a subscriber
      receives, or a new one subscribes. */
  datatype Step<C> = Publish(cfg: C) | GoOn | Receive(j: nat) | Subscribe

  function Sent(c: Channel, n: nat): Channel { c.(buf := Some(n)) }

  function Drained(c: Channel): Channel { c.(buf := None) }

  function Taken(c: Channel): Channel
    requires c.buf.Some?
  {
    c.(buf := None, got := c.got + [c.buf.value])
  }

  /** The publisher's next atomic action on channel `i`. */
  function Advanced<C>(m: Mailbox<C>, i: nat, stage: Stage): Mailbox<C>
    requires i < |m.subs| && m.published != []
  {
    var c, n := m.subs[i], |m.published| - 1;
    match stage
    case TrySend =>
      if c.buf.None? then m.(subs := m.subs[i := Sent(c, n)], turn := Sending(i + 1, TrySend))
      else m.(turn := Sending(i, Drain))
    case Drain => m.(subs := m.subs[i := Drained(c)], turn := Sending(i, Resend))
    case Resend =>
      if c.buf.None? then m.(subs := m.subs[i := Sent(c, n)], turn := Sending(i + 1, TrySend))
      else m.(dropped := m.dropped + 1, turn := Sending(i + 1, TrySend))
  }

  /** `publish` and `Subscribe` exclude each other; a receive can come at any time, and
      blocks on an empty channel. */
  function Next<C>(m: Mailbox<C>, s: Step<C>): Mailbox<C> {
    match s
    case Publish(cfg) => if m.turn.Idle? then m.(published := m.published + [cfg], turn := Sending(0, TrySend)) else m
    case Subscribe => if m.turn.Idle? then m.(subs := m.subs + [Channel(|m.published|, None, [])]) else m
    case Receive(j) => if j < |m.subs| && m.subs[j].buf.Some? then m.(subs := m.subs[j := Taken(m.subs[j])]) else m
    case GoOn =>
      match m.turn
      case Idle => m
      case Sending(i, stage) =>
        if i < |m.subs| && m.published != [] then Advanced(m, i, stage) else m.(turn := Idle)
  }

  function After<C>(m: Mailbox<C>, steps: seq<Step<C>>): Mailbox<C> {
    if steps == [] then m else Next(After(m, steps[..|steps| - 1]), steps[|steps| - 1])
  }

  function Empty<C>(): Mailbox<C> { Mailbox([], [], Idle, 0) }

  // ---- The invariant ----

  /** Everything received and buffered is from below `n`, new to old, none of it from
      before the subscription. */
  ghost predicate Rising(c: Channel, n: nat) {
    && (forall a, b :: 0 <= a < b < |c.got| ==> c.got[a] < c.got[b])
    && (forall a :: 0 <= a < |c.got| ==> c.joined <= c.got[a] < n)
    && (c.buf.Some? ==> c.joined <= c.buf.value < n && forall a :: 0 <= a < |c.got| ==> c.got[a] < c.buf.value)
  }

  /** The latest of the first `n` is in the buffer or was the last one received. */
  ghost predicate UpToDate(c: Channel, n: nat) {
    c.joined < n ==> c.buf == Some(n - 1) || (c.buf.None? && c.got != [] && c.got[|c.got| - 1] == n - 1)
  }

  /** What holds of the channel at place `j` while `publish` stands at place `i`: those
      before it have the new configuration, those after it are as they were before. */
  ghost predicate ChannelOk(c: Channel, n: nat, j: nat, turn: Turn) {
    match turn
    case Idle => Rising(c, n) && UpToDate(c, n) && c.joined <= n
    case Sending(i, stage) =>
      n > 0 && c.joined < n &&
      if j < i then Rising(c, n) && UpToDate(c, n)
      else
        && Rising(c, n - 1)
        && (j > i || stage.TrySend? ==> UpToDate(c, n - 1))
        && (j == i && stage.Resend? ==> c.buf.None?)
  }

  ghost predicate Ok<C>(m: Mailbox<C>) {
    && (forall j :: 0 <= j < |m.subs| ==> ChannelOk(m.subs[j], |m.published|, j, m.turn))
    && (m.turn.Sending? ==> m.published != [] && m.turn.i <= |m.subs|)
    && (m.turn.Sending? && m.turn.i == |m.subs| ==> m.turn.stage.TrySend?)
    && m.dropped == 0
  }

  lemma TakenOk(c: Channel, n: nat, j: nat, turn: Turn)
    requires ChannelOk(c, n, j, turn) && c.buf.Some?
    ensures ChannelOk(Taken(c), n, j, turn)
  {
  }

  lemma ReceiveOk<C>(m: Mailbox<C>, j: nat)
    requires Ok(m)
    ensures Ok(Next(m, Receive(j)))
  {
    var m' := Next(m, Receive(j));
    forall k | 0 <= k < |m'.subs| ensures ChannelOk(m'.subs[k], |m'.published|, k, m'.turn) {
      assert ChannelOk(m.subs[k], |m.published|, k, m.turn);
      if k == j && m.subs[j].buf.Some? {
        TakenOk(m.subs[j], |m.published|, j, m.turn);
      }
    }
  }

  lemma PublishOk<C>(m: Mailbox<C>, cfg: C)
    requires Ok(m)
    ensures Ok(Next(m, Step.Publish(cfg)))
  {
    var m' := Next(m, Step.Publish(cfg));
    forall k | 0 <= k < |m'.subs| ensures ChannelOk(m'.subs[k], |m'.published|, k, m'.turn) {
      assert ChannelOk(m.subs[k], |m.published|, k, m.turn);
    }
  }

  lemma SubscribeOk<C>(m: Mailbox<C>)
    requires Ok(m)
    ensures Ok(Next(m, Subscribe))
  {
    var m' := Next(m, Subscribe);
    forall k | 0 <= k < |m'.subs| ensures ChannelOk(m'.subs[k], |m'.published|, k, m'.turn) {
      if k < |m.subs| {
        assert ChannelOk(m.subs[k], |m.published|, k, m.turn);
      }
    }
  }

  lemma GoOnOk<C>(m: Mailbox<C>)
    requires Ok(m)
    ensures Ok(Next(m, GoOn))
  {
    var m' := Next(m, GoOn);
    if m.turn.Sending? && m.turn.i < |m.subs| {
      assert ChannelOk(m.subs[m.turn.i], |m.published|, m.turn.i, m.turn);
    }
    forall k | 0 <= k < |m'.subs| ensures ChannelOk(m'.subs[k], |m'.published|, k, m'.turn) {
      assert ChannelOk(m.subs[k], |m.published|, k, m.turn);
    }
  }

  /** Every step of anybody keeps the invariant. */
  lemma NextOk<C>(m: Mailbox<C>, s: Step<C>)
    requires Ok(m)
    ensures Ok(Next(m, s))
  {
    match s
    case Publish(cfg) => PublishOk(m, cfg);
    case Subscribe => SubscribeOk(m);
    case Receive(j) => ReceiveOk(m, j);
    case GoOn => GoOnOk(m);
  }

  lemma {:induction false} AfterOk<C>(m: Mailbox<C>, steps: seq<Step<C>>)
    requires Ok(m)
    ensures Ok(After(m, steps))
  {
    if steps != [] {
      AfterOk(m, steps[..|steps| - 1]);
      NextOk(After(m, steps[..|steps| - 1]), steps[|steps| - 1]);
    }
  }

  // ---- `publish` always returns ----

  /** How many of its own actions `publish` still takes, at most. */
  function Left<C>(m: Mailbox<C>): int {
    match m.turn
    case Idle => 0
    case Sending(i, stage) => 3 * (|m.subs| - i) + 1 - (match stage case TrySend => 0 case Drain => 1 case Resend => 2)
  }

  /** Each of its actions brings `publish` nearer its end, and no receive delays it, so it
      never waits for a subscriber. */
  lemma PublishReturns<C>(m: Mailbox<C>, j: nat)
    requires Ok(m) && m.turn.Sending?
    ensures 0 <= Left(Next(m, GoOn)) < Left(m) <= 3 * |m.subs| + 1
    ensures Left(Next(m, GoOn)) == 0 <==> Next(m, GoOn).turn.Idle?
    ensures Left(Next(m, Receive(j))) == Left(m)
  {
    GoOnOk(m);
  }

  // ---- What subscribers see ----

  /** `a` is `b` with elements left out. */
  ghost predicate Subsequence<C>(a: seq<C>, b: seq<C>) {
    if a == [] then true
    else if b == [] then false
    else
      var i, n := |a| - 1, |b| - 1;
      Subsequence(a, b[..n]) || (a[i] == b[n] && Subsequence(a[..i], b[..n]))
  }

  /** The configurations a subscriber has received, in order. */
  function Received<C>(m: Mailbox<C>, c: Channel): (r: seq<C>)
    requires forall a :: 0 <= a < |c.got| ==> c.got[a] < |m.published|
  {
    seq(|c.got|, a requires 0 <= a < |c.got| => m.published[c.got[a]])
  }

  ghost predicate Picks<C>(a: seq<C>, b: seq<C>, at: seq<nat>) {
    && |a| == |at|
    && (forall k :: 0 <= k < |at| ==> at[k] < |b| && a[k] == b[at[k]])
    && (forall k, l :: 0 <= k < l < |at| ==> at[k] < at[l])
  }

  lemma {:induction false} PicksSubsequence<C>(a: seq<C>, b: seq<C>, at: seq<nat>)
    requires Picks(a, b, at)
    ensures Subsequence(a, b)
    decreases |b|
  {
    if a != [] {
      var i, n := |a| - 1, |b| - 1;
      assert at[i] < |b|;
      if at[i] == n {
        assert forall k :: 0 <= k < i ==> at[k] < at[i];
        PicksSubsequence(a[..i], b[..n], at[..i]);
      } else {
        forall k | 0 <= k < |at| ensures at[k] < n {
          assert k < i ==> at[k] < at[i];
        }
        PicksSubsequence(a, b[..n], at);
      }
    }
  }

  ghost predicate SeesLatest<C>(m: Mailbox<C>, c: Channel) {
    && (forall a :: 0 <= a < |c.got| ==> c.got[a] < |m.published|)
    && c.joined <= |m.published|
    && Subsequence(Received(m, c), m.published[c.joined..])
  }

  lemma RisingIsSubsequence<C>(m: Mailbox<C>, c: Channel)
    requires Rising(c, |m.published|) && c.joined <= |m.published|
    ensures SeesLatest(m, c)
  {
    var at: seq<nat> := seq(|c.got|, a requires 0 <= a < |c.got| => c.got[a] - c.joined);
    PicksSubsequence(Received(m, c), m.published[c.joined..], at);
  }

  /** The mailbox theorem, over every interleaving of publications, receives and
      subscriptions: the last `default` is never taken, and each subscriber has received,
      in order and without repetition, some of what was published since it subscribed. */
  lemma LatestValue<C>(steps: seq<Step<C>>, j: nat)
    ensures var m := After(Empty<C>(), steps);
            m.dropped == 0 && (j < |m.subs| ==> SeesLatest(m, m.subs[j]))
  {
    var m := After(Empty<C>(), steps);
    AfterOk(Empty<C>(), steps);
    if j < |m.subs| {
      assert ChannelOk(m.subs[j], |m.published|, j, m.turn);
      RisingIsSubsequence(m, m.subs[j]);
    }
  }

  /** Whenever no publication is under way, a subscriber that was there for the last one
      has it in its buffer or has received it last; so once drained it has seen the
      latest. */
  lemma EndsWithLatest<C>(steps: seq<Step<C>>, j: nat)
    requires var m := After(Empty<C>(), steps); j < |m.subs| && m.turn.Idle? && m.subs[j].joined < |m.published|
    ensures var m := After(Empty<C>(), steps);
            var c, last := m.subs[j], |m.published| - 1;
            && UpToDate(c, last + 1)
            && (c.buf.None? ==> SeesLatest(m, c) && Received(m, c) != []
                                && Received(m, c)[|c.got| - 1] == m.published[last])
            && (c.buf.Some? ==> c.buf == Some(last))
  {
    var m := After(Empty<C>(), steps);
    AfterOk(Empty<C>(), steps);
    LatestValue(steps, j);
    assert ChannelOk(m.subs[j], |m.published|, j, m.turn);
  }
}
