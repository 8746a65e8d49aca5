/** The batched walk of `Scan` in internal/scan/scan.go, apart from what it reads, and
    the estimate of its sleep in internal/config/load.go. */
module Batching {
  import opened Reading

  /** When the context reports cancellation: before batch `k`, or asleep after it. */
  datatype Context = Context(done: nat -> bool, doneAsleep: nat -> bool)

  function BatchOf(cfg: ScanConfig): (b: nat)
    ensures b >= 1
    ensures cfg.batchSize >= 1 ==> b == cfg.batchSize
    ensures cfg.batchSize < 1 ==> b == 1
  {
    if cfg.batchSize < 1 then 1 else cfg.batchSize
  }

  /** How a walk ends: how many processes were read, how often it slept, and whether it
      reached the end of the listing. */
  datatype Course = Course(walked: nat, sleeps: nat, done: bool)

  /** The course from before batch `k`, at position `i`, after `sleeps` sleeps. */
  function CourseFrom(ctx: Context, cfg: ScanConfig, n: nat, i: nat, k: nat, sleeps: nat): (c: Course)
    requires i <= n
    ensures i <= c.walked <= n
    ensures c.done ==> c.walked == n
    decreases n - i
  {
    var end := if i + BatchOf(cfg) < n then i + BatchOf(cfg) else n;
    if i == n then Course(n, sleeps, true)
    else if ctx.done(k) then Course(i, sleeps, false)
    else if end == n || cfg.batchSleep <= 0 then CourseFrom(ctx, cfg, n, end, k + 1, sleeps)
    else if ctx.doneAsleep(k) then Course(end, sleeps, false)
    else CourseFrom(ctx, cfg, n, end, k + 1, sleeps + 1)
  }

  function CourseOf(ctx: Context, cfg: ScanConfig, n: nat): Course {
    CourseFrom(ctx, cfg, n, 0, 0, 0)
  }

  // ---- Cancellation ----

  /** The context is cancelled when batch `k` is about to start. */
  predicate StopsBefore(ctx: Context, cfg: ScanConfig, n: nat, k: nat) {
    k * BatchOf(cfg) < n && ctx.done(k)
  }

  /** It is cancelled during the sleep after batch `k`, which is made only between two. */
  predicate StopsAsleep(ctx: Context, cfg: ScanConfig, n: nat, k: nat) {
    cfg.batchSleep > 0 && (k + 1) * BatchOf(cfg) < n && ctx.doneAsleep(k)
  }

  predicate StopsAt(ctx: Context, cfg: ScanConfig, n: nat, k: nat) {
    StopsBefore(ctx, cfg, n, k) || StopsAsleep(ctx, cfg, n, k)
  }

  /** Cancellation reaches the scan of `n` processes. */
  ghost predicate Interrupted(ctx: Context, cfg: ScanConfig, n: nat) {
    exists k: nat :: StopsAt(ctx, cfg, n, k)
  }

  /** The first batch at which it does. */
  ghost predicate FirstStop(ctx: Context, cfg: ScanConfig, n: nat, k: nat) {
    StopsAt(ctx, cfg, n, k) && forall j: nat :: j < k ==> !StopsAt(ctx, cfg, n, j)
  }

  /** How many processes were read when it stops there. */
  function ReadBy(ctx: Context, cfg: ScanConfig, n: nat, k: nat): nat {
    if StopsBefore(ctx, cfg, n, k) then k * BatchOf(cfg) else (k + 1) * BatchOf(cfg)
  }

  /** From batch `k` on, `c` is the course of the scan: it goes to the end unless it is
      stopped, and then it goes to the first stop. */
  ghost predicate Courses(ctx: Context, cfg: ScanConfig, n: nat, k: nat, c: Course) {
    && (c.done <==> forall j: nat :: j >= k ==> !StopsAt(ctx, cfg, n, j))
    && (c.done ==> c.walked == n)
    && (!c.done ==> exists j: nat :: StopsFrom(ctx, cfg, n, k, j) && c.walked == ReadBy(ctx, cfg, n, j))
  }

  ghost predicate StopsFrom(ctx: Context, cfg: ScanConfig, n: nat, k: nat, j: nat) {
    j >= k && StopsAt(ctx, cfg, n, j) && forall h: nat :: k <= h < j ==> !StopsAt(ctx, cfg, n, h)
  }

  lemma NoStopBeyond(ctx: Context, cfg: ScanConfig, n: nat, k: nat)
    requires n <= k * BatchOf(cfg)
    ensures forall j: nat :: j >= k ==> !StopsAt(ctx, cfg, n, j)
  {
    forall j: nat | j >= k ensures !StopsAt(ctx, cfg, n, j) {
      MulMonotone(k, j, BatchOf(cfg));
      MulMonotone(k, j + 1, BatchOf(cfg));
    }
  }

  lemma CoursesLater(ctx: Context, cfg: ScanConfig, n: nat, k: nat, c: Course)
    requires !StopsAt(ctx, cfg, n, k) && Courses(ctx, cfg, n, k + 1, c)
    ensures Courses(ctx, cfg, n, k, c)
  {
    if !c.done {
      var j: nat :| StopsFrom(ctx, cfg, n, k + 1, j) && c.walked == ReadBy(ctx, cfg, n, j);
      assert StopsFrom(ctx, cfg, n, k, j);
    }
  }

  lemma CoursesHere(ctx: Context, cfg: ScanConfig, n: nat, k: nat, c: Course)
    requires StopsAt(ctx, cfg, n, k) && !c.done && c.walked == ReadBy(ctx, cfg, n, k)
    ensures Courses(ctx, cfg, n, k, c)
  {
    assert StopsFrom(ctx, cfg, n, k, k);
  }

  lemma {:induction false} CourseFromIs(ctx: Context, cfg: ScanConfig, n: nat, i: nat, k: nat, sleeps: nat)
    requires i <= n && (i == n || i == k * BatchOf(cfg)) && (i == n ==> n <= k * BatchOf(cfg))
    ensures Courses(ctx, cfg, n, k, CourseFrom(ctx, cfg, n, i, k, sleeps))
    decreases n - i
  {
    var b := BatchOf(cfg);
    var c := CourseFrom(ctx, cfg, n, i, k, sleeps);
    assert (k + 1) * b == k * b + b;
    if i == n {
      NoStopBeyond(ctx, cfg, n, k);
    } else if ctx.done(k) {
      CoursesHere(ctx, cfg, n, k, c);
    } else if i + b >= n || cfg.batchSleep <= 0 {
      CourseFromIs(ctx, cfg, n, if i + b < n then i + b else n, k + 1, sleeps);
      CoursesLater(ctx, cfg, n, k, c);
    } else if ctx.doneAsleep(k) {
      CoursesHere(ctx, cfg, n, k, c);
    } else {
      CourseFromIs(ctx, cfg, n, i + b, k + 1, sleeps + 1);
      CoursesLater(ctx, cfg, n, k, c);
    }
  }

  /** A scan is completed exactly when cancellation never reaches it; otherwise it has read
      up to the first batch that was not started, or to the end of the batch before the
      sleep in which it was cancelled. */
  lemma CancellationStops(ctx: Context, cfg: ScanConfig, n: nat)
    ensures var c := CourseOf(ctx, cfg, n);
            && (c.done <==> !Interrupted(ctx, cfg, n))
            && (c.done ==> c.walked == n)
            && (!c.done ==> exists k: nat :: FirstStop(ctx, cfg, n, k) && c.walked == ReadBy(ctx, cfg, n, k))
  {
    CourseFromIs(ctx, cfg, n, 0, 0, 0);
    var c := CourseOf(ctx, cfg, n);
    if !c.done {
      var k: nat :| StopsFrom(ctx, cfg, n, 0, k) && c.walked == ReadBy(ctx, cfg, n, k);
      assert FirstStop(ctx, cfg, n, k);
    }
  }

  // ---- Sleeps ----

  lemma QuotientUnique(n: nat, b: nat, q: nat)
    requires b > 0 && q * b <= n < q * b + b
    ensures n / b == q
  {
    var r := n / b;
    assert n == r * b + n % b;
    assert (r - q) * b < b && (q - r) * b < b;
    if r < q {
      MulGrows(q - r, b);
    } else if r > q {
      MulGrows(r - q, b);
    }
  }

  lemma MulGrows(k: int, b: nat)
    requires k >= 1
    ensures k * b >= b
  {
  }

  lemma {:induction false} SleepsFrom(ctx: Context, cfg: ScanConfig, n: nat, i: nat, k: nat, sleeps: nat)
    requires i < n && cfg.batchSleep > 0 && sleeps * BatchOf(cfg) == i
    ensures var c := CourseFrom(ctx, cfg, n, i, k, sleeps);
            if c.done then c.sleeps == (n - 1) / BatchOf(cfg) else c.sleeps <= (n - 1) / BatchOf(cfg)
    decreases n - i
  {
    var b := BatchOf(cfg);
    QuotientAtLeast(n - 1, b, sleeps);
    if i + b >= n {
      QuotientUnique(n - 1, b, sleeps);
    } else {
      assert (sleeps + 1) * b == i + b;
      SleepsFrom(ctx, cfg, n, i + b, k + 1, sleeps + 1);
    }
  }

  lemma QuotientAtLeast(n: nat, b: nat, q: nat)
    requires b > 0 && q * b <= n
    ensures q <= n / b
  {
    var r := n / b;
    assert n == r * b + n % b;
    assert (q - r) * b < b;
    if r < q {
      MulGrows(q - r, b);
    }
  }

  lemma {:induction false} NoSleepsFrom(ctx: Context, cfg: ScanConfig, n: nat, i: nat, k: nat, sleeps: nat)
    requires i <= n && cfg.batchSleep <= 0
    ensures CourseFrom(ctx, cfg, n, i, k, sleeps).sleeps == sleeps
    decreases n - i
  {
    if i < n && !ctx.done(k) {
      NoSleepsFrom(ctx, cfg, n, if i + BatchOf(cfg) < n then i + BatchOf(cfg) else n, k + 1, sleeps);
    }
  }

  /** A scan of n >= 1 processes sleeps between batches only: a completed one sleeps
      ceil(n / batch) - 1 times, and a cancelled one no more often. */
  lemma SleepCount(ctx: Context, cfg: ScanConfig, n: nat)
    requires n >= 1
    ensures var c, b := CourseOf(ctx, cfg, n), BatchOf(cfg);
            && (cfg.batchSleep > 0 && c.done ==> c.sleeps == (n + b - 1) / b - 1)
            && c.sleeps <= (n + b - 1) / b - 1
            && (cfg.batchSleep <= 0 ==> c.sleeps == 0)
  {
    Ceiling(n, BatchOf(cfg));
    if cfg.batchSleep > 0 {
      SleepsFrom(ctx, cfg, n, 0, 0, 0);
    } else {
      NoSleepsFrom(ctx, cfg, n, 0, 0, 0);
    }
  }

  // ---- The estimate of `Validate` ----

  /** The checks of `Validate` that bear on the length of a scan. Durations are in
      nanoseconds. */
  predicate Accepted(cfg: ScanConfig, interval: int) {
    && interval >= 1_000_000_000
    && 1 <= cfg.batchSize <= 10000
    && 0 <= cfg.batchSleep <= 1_000_000_000
    && Estimate(cfg) <= interval
  }

  function Estimate(cfg: ScanConfig): int
    requires cfg.batchSize >= 1
  {
    2000 / cfg.batchSize * cfg.batchSleep
  }

  /** On a machine of up to 2000 processes an accepted configuration never schedules
      more sleep in one scan than the scan interval. */
  lemma AcceptedScansSleepWithinInterval(ctx: Context, cfg: ScanConfig, interval: int, n: nat)
    requires Accepted(cfg, interval) && n <= 2000
    ensures CourseOf(ctx, cfg, n).sleeps * cfg.batchSleep <= interval
  {
    var s := CourseOf(ctx, cfg, n).sleeps;
    if n >= 1 {
      EstimateCovers(ctx, cfg, n);
    } else {
      assert s == 0;
    }
  }

  /** With batches of `b`, the last batch of `n` processes is no later than batch number
      `limit` exactly when `n` is at most `(limit + 1) * b`. */
  lemma LastBatchWithin(n: nat, b: nat, limit: nat)
    requires n >= 1 && b >= 1
    ensures (n - 1) / b <= limit <==> n <= (limit + 1) * b
  {
    var q := (n - 1) / b;
    assert n - 1 == q * b + (n - 1) % b;
    assert (q + 1) * b == q * b + b;
    if q <= limit {
      MulMonotone(q + 1, limit + 1, b);
    } else {
      MulMonotone(limit + 1, q, b);
    }
  }

  lemma Ceiling(n: nat, b: nat)
    requires n >= 1 && b >= 1
    ensures (n + b - 1) / b - 1 == (n - 1) / b
  {
    var q := (n - 1) / b;
    assert n - 1 == q * b + (n - 1) % b;
    assert (q + 1) * b == q * b + b;
    QuotientUnique(n + b - 1, b, q + 1);
  }

  /** The estimate bounds the sleep of a completed scan exactly up to the end of the
      batch in which the 2001st process falls. */
  lemma EstimateCovers(ctx: Context, cfg: ScanConfig, n: nat)
    requires n >= 1 && cfg.batchSize >= 1 && cfg.batchSleep >= 0
    ensures n <= (2000 / cfg.batchSize + 1) * cfg.batchSize ==>
              CourseOf(ctx, cfg, n).sleeps * cfg.batchSleep <= Estimate(cfg)
    ensures n <= 2000 ==> n <= (2000 / cfg.batchSize + 1) * cfg.batchSize
    ensures CourseOf(ctx, cfg, n).done && cfg.batchSleep > 0 ==>
              (CourseOf(ctx, cfg, n).sleeps * cfg.batchSleep <= Estimate(cfg) <==>
               n <= (2000 / cfg.batchSize + 1) * cfg.batchSize)
  {
    var b, s := cfg.batchSize, CourseOf(ctx, cfg, n).sleeps;
    var limit := 2000 / b;
    SleepCount(ctx, cfg, n);
    Ceiling(n, b);
    LastBatchWithin(n, b, limit);
    LastBatchWithin(2001, b, limit);
    if s <= limit {
      MulMonotone(s, limit, cfg.batchSleep);
    } else {
      MulMonotone(limit + 1, s, cfg.batchSleep);
      Distribute(limit, cfg.batchSleep);
    }
  }

  lemma Distribute(a: int, k: int)
    ensures (a + 1) * k == a * k + k
  {
  }

  lemma MulMonotone(a: int, c: int, k: nat)
    requires a <= c
    ensures a * k <= c * k
  {
  }
}
