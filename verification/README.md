# Verification of the process exporter's counter pipeline

The exporter scans `/proc`, differences each process's counters against what it remembers of
that process, adds the differences to one accumulator per group, and publishes the
accumulators. Its promise is that the published counters are right under pid reuse, churn,
partial reads, filtering, caching and retention. This project models that pipeline in Dafny
and proves the promise over all runs.

## What is modelled

- **Environment.** Each listed process answers each of its reads with a value, "vanished",
  "denied" or another failure, chosen freely on every scan (`Procfs.dfy`). Configuration,
  clock and cancellation are chosen freely too.
- **Scanner.** `StateMap.dfy` and `Scanner.dfy` hold the classes of `internal/scan`, with
  entries that are replaced, stamped in place and deleted. `Reading.dfy` says on values what
  one process, one walk and one scan amount to; the methods are proved to do that.
- **Aggregator.** `Aggregator.dfy` holds the classes of `internal/aggregate`; `Groups.dfy`,
  `GroupTotals.dfy`, `StateNames.dfy` and `Accumulators.dfy` say what gauges, readable states
  and accumulators mean, over any sequence of scans and resets.
- **Runs.** `Runs.dfy` is the state machine of completed scans, cancelled scans, failed
  listings and both resets. `Ledger.dfy` keeps the reference beside it: the tenures of
  processes in the state map with every stored reading. `Kept.dfy`, `Accounts.dfy` and
  `Truth.dfy` compare the two with each other and with the kernel's own counters.
  `Completeness.dfy`, `StateInvariant.dfy`, `Freshness.dfy`, `Reports.dfy`, `Caching.dfy`,
  `CacheExact.dfy`, `LazyReads.dfy`, `Fidelity.dfy`, `Outcomes.dfy` and `Gaps.dfy` hold the
  other results about scans and runs, `Schedule.dfy` and `Batching.dfy` those about the two
  refresh schedules and the batches.
- **Composition.** `Exporter.dfy` drives the objects by any sequence of commands and shows
  that they follow the run on values; `Publication.dfy` carries the result about the ledger
  through to the published numbers.
- **Watcher.** `Mailbox.dfy` is the protocol between the publisher and its subscribers as
  interleaved steps, `Watcher.dfy` the class and the change detector.
- **Leaves.** `StatLine.dfy` (the `stat` line against what the kernel prints), `Decimal.dfy`,
  `Filter.dfy`, `Namer.dfy`.

The one assumption about the kernel is `Truth.Monotone`: a counter of one process, known by
pid and start time, does not decrease while it is listed. The change detector assumes one
stamp per version of the file. One scan runs at a time.

## Where the code and its documentation differ

The model follows the code.

- An unread `io` or `status` stores zero as the next baseline (internal/scan/scan.go:440-447),
  so a file that comes back is credited from zero. `Truth.TenureExact` says exactly when a
  counter is still right.
- A `group_retention` of zero or less never forgets (internal/aggregate/aggregate.go:298-300);
  docs/user_manual.md:485 says that it forgets at once. See
  `Accumulators.NoRetentionNeverForgets`.
- `StateNames` is overwritten when two letters share a name
  (internal/aggregate/aggregate.go:244-247). See `StateNames.NamesCoverGroup`.
- A command line that could not be read looks like a kernel thread to the filter
  (internal/scan/scan.go:243-247, internal/filter/filter.go:149-151). See
  `LazyReads.FailedReadIsRight` and `LazyReads.DeniedLooksLikeKernel`.
- docs/user_manual.md:726 and the comment at internal/scan/scan.go:283-284 promise that an
  ignored process costs exactly one small read when no rule needs the command line. `status`
  and, for a process not remembered, the command line are read before the filter, and an
  ignored process is remembered only if it was kept before. See
  `LazyReads.IgnoredCostsOneRead` and `LazyReads.IgnoredCommCostsThreeReads`.
- An account with an empty name is unknown to `ignore_users` on the first scan and known by
  its number once cached (internal/scan/scan.go:258-313). See `CacheExact.RefinementExact`.
- Equal schedules need not keep the two expensive walks apart (internal/scan/scan.go:489-495).
  See `Schedule.EqualPeriods`.

## Model

| member | source | states |
|---|---|---|
| `Publication.PublishedIsSettled` | internal/scan/scan.go:129-460 | The central claim, over every run of scans, cancellations, failed listings and state resets in which the group was not forgotten: the counter published for a group, plus what cancelled scans threw away of it, is what the tenures of its processes are worth; and in units, the published processor time times the clock rate is those ticks, and every other counter is that number |
| `Publication.PublishedSinceForgotten` | internal/aggregate/aggregate.go:289-309 | The central claim for the stretch since the group was last forgotten, by a reset or a lapse: the counter published now, and what cancelled scans threw away since, is what its tenures have become worth since, in the same units |
| `Publication.AmountInUnits` | internal/procfs/system.go:53-59 | Processor time is published in seconds: times the clock rate it is the ticks counted |
| `Publication.PublishedIsCredit` | internal/aggregate/aggregate.go:264-287 | Until it is forgotten, a published counter is the amount of everything ever reported for its group, in the unit it is published in |
| `Runs.Conservation` | internal/scan/scan.go:208-473 | Over every run, reported deltas plus those of cancelled scans equal the ledger of tenures, for one process, for all, and for one group when group keys are cached; the ledger is kept from stored readings and knows no deltas |
| `Truth.ExactAccount` | internal/scan/scan.go:440-473 | With counters that never decrease, the total reported is, over the selected tenures, the final readings of the readable runs less the first reading, including tenures with ignored scans inside |
| `Truth.StatWorth` | internal/scan/scan.go:464-468 | For the counters of stat a tenure is worth exactly its last reading minus its first |
| `Truth.ReadableWorth` | internal/scan/scan.go:469-472 | The same for context switches and io bytes when the file was readable on every scan |
| `Truth.TenureExact` | internal/scan/scan.go:440-447 | When a file is unreadable in between, a tenure is worth at least its true growth, and exactly that iff no non-zero readable run is followed by another and the first reading was readable or zero |
| `Truth.TenuresDisjoint` | internal/scan/state.go:85-97 | Tenures of one (pid, start time) cover disjoint stretches of each counter, in order, where the ends of the stretches were readable, as those of stat always are |
| `Truth.NoDoubleCounting` | internal/scan/state.go:77-149 | No double and no foreign counting, for any counter whose file was readable whenever the process was stored: whatever happens, all its deltas ever reported for the process add up to no more than the growth the kernel showed for that process |
| `Truth.NoDoubleCountingOfStat` | internal/scan/state.go:77-149 | The same for utime, stime and both fault counters without any condition on what was readable |
| `Completeness.NothingLost` | internal/scan/state.go:101-133 | The other half: a process that stays listed in every completed scan with no file vanishing, under a pid listed for no other and without a ResetState, has one tenure however often it is ignored, and everything it is credited is what that tenure is worth |
| `Completeness.NothingOfStatLost` | internal/scan/state.go:101-133 | For a stat counter that is exactly its last stored reading less its first |
| `Truth.RunKeepsOrder` | internal/scan/state.go:85-133 | Readings of one process ascend within each tenure and from each tenure to the next, and each was really listed |
| `Accounts.CreditIsFinals` | internal/scan/scan.go:464-473 | Summed clamped differences telescope: the credit plus the first reading is the sum of the final readings of the maximal readable runs |
| `Accounts.CreditIsRises` | internal/scan/state.go:139-149 | Whatever a readable counter does, it is credited its rises and nothing for its falls |
| `Accounts.GapsInflate` | internal/scan/scan.go:440-447 | The exact amount by which unreadable scans inflate a counter |
| `Accounts.CreditExact` | internal/scan/scan.go:440-447 | The credit is the true growth iff no non-zero readable run is followed by another and the process was readable, or had counted nothing, at first |
| `Gaps.GapExample` | internal/scan/scan.go:440-447 | A run of three scans of one process, whose io shows 100 bytes, is refused, and shows 110: 110 bytes are credited for ten bytes of growth, with any settings that read io and drop nothing |
| `KeptProcesses.ObservedKeepsLaw` | internal/scan/scan.go:227-459 | Of every kept process, whatever its reads answer: a stored counter is the kernel value or zero if unread, the delta is the clamped difference to the remembered one, the group key is not empty and stays while cached, gauges are fresh on schedule and remembered off it |
| `Ledgers.ItemKeepsBooks` | internal/scan/state.go:85-114 | A tenure is open for exactly the remembered processes, is the latest of its pid, and ends in what is remembered |
| `Ledgers.ItemKeepsGroups` | internal/scan/scan.go:258-313 | With caching on, a tenure never changes its group key |
| `Ledgers.ItemCredits` | internal/scan/scan.go:449-459 | What one listed process adds to the ledger is what its report contributes |
| `Runs.WalkAgrees` | internal/scan/scan.go:161-182 | A whole walk adds to the ledger exactly what it reports |
| `Scanners.Scanner.Scan` | internal/scan/scan.go:129-204 | One scan is one generation, the walk of its course over the listing in order, and a prune; there is a result exactly when the listing succeeded and cancellation never reached the scan, a cancelled one prunes nothing, and a failed listing changes nothing but the generation and the scan number |
| `Scanners.Scanner.ResetState` | internal/scan/scan.go:118 | Nothing is remembered and generations start again; the scan number goes on |
| `Scanners.WalkAll` | internal/scan/scan.go:155-182 | The nested batch loops, for every batch size and every cancellation, equal the flat fold over the prefix they reach |
| `Batching.CancellationStops` | internal/scan/scan.go:161-182 | A scan is completed iff the context is not done before any batch and not during any sleep between two; otherwise it has read up to the first batch not started, or to the end of the batch before the first such sleep |
| `Exporters.TickCompletes` | internal/scan/scan.go:140-181 | A scan is passed on iff the listing succeeded and cancellation never reached it |
| `Scanners.ReadProcess` | internal/scan/scan.go:208-460 | One process: lookup by start time, reads in their order, filter, then stored, stamped or left alone according to how it ended |
| `Scanners.ReadOwner` | internal/scan/scan.go:229-281 | Command line and status are read exactly when needed, and counted; a vanished file ends the scan of the process, a failed one is counted as an error |
| `Scanners.ReadGauges` | internal/scan/scan.go:337-420 | statm, io, and the scheduled walks, with their failures |
| `Scanners.Assemble` | internal/scan/scan.go:304-456 | The report and the new entry, and the deltas when the process was known |
| `Fidelity.ObservedIsReported` | internal/scan/scan.go:315-420 | Every report against its files: the stat fields as they are, the start time times the clock rate, the four sizes in pages times the page size from statm or else from stat, uid and swap from status, descriptors, limit and proportional memory from the walks that were made |
| `Fidelity.FreshKey` | internal/scan/scan.go:253-313 | The group key of a process not remembered: the name from comm, executable and arguments, the owner by name, or by number if there is no name |
| `Fidelity.EveryReportIsFaithful` | internal/scan/scan.go:161-182 | In every run, each process passed on is reported as the files of a process listed in that very scan showed it |
| `Fidelity.GroupsShowFiles` | internal/aggregate/aggregate.go:196-201 | In every scan of every run, sizes, memory and threads of a group are the sums of what the files of its members showed in that scan |
| `Reading.EveryProcessAccounted` | internal/scan/scan.go:206-224 | Every listed process is observed once and is scanned, ignored, vanished, denied or one failed stat: the counts add up to the listing |
| `Outcomes.VisitOutcome` | internal/scan/scan.go:229-420 | A process is gone iff a file it needs vanishes, ignored iff the filter drops it first, and kept otherwise; then each file that was wanted and refused or broken is counted once, a denial of io, fd or smaps not at all |
| `Outcomes.StatOutcome` | internal/scan/scan.go:215-225 | A failed stat decides alone |
| `Outcomes.WalkCounts` | internal/scan/scan.go:217-302 | Each count of a scan is the number of processes that came to that end, and the errors are those of all of them |
| `StateInvariant.WalkIsPointwise` | internal/scan/scan.go:169-174 | With distinct pids each process is treated as if it were alone: it meets the entry the scan started with |
| `StateInvariant.StampsNeverAhead` | internal/scan/state.go:69-114 | At every moment of every run no stamp is later than the generation |
| `StateInvariant.StateMapAfterScan` | internal/scan/state.go:124-137 | After a completed scan the map holds exactly the processes stored, or ignored while remembered, each with this generation and the start time just read, and no more than were listed |
| `StateMaps.StateMap.Lookup` | internal/scan/state.go:85-97 | Finds an entry only under its own start time, and drops a stale one |
| `StateMaps.StateMap.Put` | internal/scan/state.go:101-104 | Replaces the object of one pid, stamped, and leaves the others |
| `StateMaps.StateMap.Touch` | internal/scan/state.go:110-114 | Stamps one entry in place and nothing else |
| `StateMaps.StateMap.Prune` | internal/scan/state.go:124-133 | Keeps exactly the entries of this generation, whatever the order of iteration, and counts the others |
| `StateMaps.StateMap.NextGeneration` | internal/scan/state.go:69-72 | The generation goes up by one |
| `Caching.CachedRefinesUncached` | internal/scan/scan.go:229-313 | The run with cache_cmdline on refines the run with it off, where the namer and the users change only with a ResetState: same decisions, groups and values scan by scan, where for each process listed the account has a name, or its number is not ignored, or another rule drops the process; and equal in everything where moreover status is always read or no rule keeps the process |
| `CacheExact.RefinementExact` | internal/scan/scan.go:229-313 | With given settings and users, the cache never changes what is published in any run, apart from what only status shows, iff every process has a named account, or a number that is not ignored, or another rule that drops it; and it changes nothing at all iff moreover status is read on every scan or the rules keep no process |
| `Caching.StatusAgreesExactly` | internal/scan/scan.go:262-281 | On one scan the two runs agree on whether status was read iff it is always read or the process is new |
| `LazyReads.NoSwitchesCounted` | internal/scan/scan.go:262-281 | In every run with cache_cmdline on and read_status off, no report with deltas carries status or swap, and every context switch counter stays at zero |
| `LazyReads.IgnoredCostsOneRead` | internal/scan/scan.go:215-302 | In the next scan of any run a process costs one read up to the filter iff it was kept earlier in a tenure that still runs, cache_cmdline is on, no rule needs the command line, and read_status is off; without a tenure it costs three |
| `LazyReads.DroppedCostsThreeReads` | internal/scan/scan.go:283-302 | A process dropped by the filter since it was first listed costs three reads on every scan, whatever the settings, because Touch stamps only what is stored |
| `LazyReads.IgnoredCommCostsThreeReads` | internal/scan/scan.go:283-302 | In particular a process whose comm is ignored |
| `LazyReads.VisitIsSeen` | internal/scan/scan.go:169-174 | The visit whose reads are counted is the one on which the walk decides |
| `CacheExact.EmptyAccountName` | internal/scan/scan.go:258-313 | Otherwise it does not: of two scans the second drops, under the number it has cached, a process that the run without the cache keeps |
| `CacheExact.StatusOnceShows` | internal/scan/scan.go:262-281 | With cache_cmdline on and read_status off, any process the rules keep shows it: in the second of two scans nothing of status is reported, and without the cache it is |
| `Freshness.FdsComeFromLatestRefresh` | internal/scan/scan.go:368-398 | Reported descriptor values are those of the latest refresh in the own tenure; a failed refresh clears them |
| `Freshness.PssComesFromLatestRefresh` | internal/scan/scan.go:400-420 | The same for proportional memory |
| `Freshness.FdStaleness` | internal/scan/scan.go:481-487 | A process kept on every scan reports descriptor values at most n-1 scans old |
| `Freshness.PssStaleness` | internal/scan/scan.go:496-508 | The same for proportional memory |
| `Reports.EveryReportLedgered` | internal/scan/scan.go:422-459 | Everything passed to the aggregator in any run is a reading of a tenure of its own process |
| `Reports.EveryReportHasRatio` | internal/scan/scan.go:384-397 | In every run, ratio times limit is the count and there is no ratio without a limit, also for cached values |
| `Reports.NoGroupHidesItsWorst` | internal/aggregate/aggregate.go:217-228 | In every scan of every run the worst ratio times the summed limits covers the descriptors of all limited members, and all descriptors if every counted member has a limit |
| `Schedule.CollisionTheorem` | internal/scan/scan.go:481-508 | For periods n, m of at least two, some scan after the first does both walks iff gcd(n, m) divides m/2 - 1, and then beyond any bound |
| `Schedule.EqualPeriods` | internal/scan/scan.go:489-508 | Equal periods keep the walks apart after the first scan iff they are at least four |
| `Schedule.CoprimePeriods` | internal/scan/scan.go:489-508 | Coprime periods stack the two walks again and again |
| `Schedule.FdRefreshWithin` | internal/scan/scan.go:481-487 | Every n consecutive scans contain a descriptor refresh |
| `Schedule.SmapsRefreshWithin` | internal/scan/scan.go:496-508 | The same for proportional memory |
| `Batching.SleepCount` | internal/scan/scan.go:161-182 | A completed scan of n >= 1 processes sleeps ceil(n/batch) - 1 times, a cancelled one no more, and none without batch_sleep |
| `Batching.EstimateCovers` | internal/config/load.go:126-137 | The estimate bounds the sleep of a completed scan exactly up to (2000/batch + 1)*batch processes |
| `Batching.AcceptedScansSleepWithinInterval` | internal/config/load.go:93-137 | An accepted configuration never sleeps longer than the interval in a scan of up to 2000 processes |
| `Aggregators.Aggregator.Apply` | internal/aggregate/aggregate.go:154-256 | A new snapshot shows exactly the groups of the scan with their gauges, their counters before pruning and their readable states, and every group once in the list; the accumulators are the old ones, raised and pruned; earlier snapshots are outside what it may change |
| `Aggregators.Aggregator.Accumulate` | internal/aggregate/aggregate.go:264-287 | One process raises its own group's object and no other |
| `Aggregators.Aggregator.Prune` | internal/aggregate/aggregate.go:297-309 | Deletes exactly the accumulators older than a positive retention, and counts them |
| `Aggregators.Aggregator.Reset` | internal/aggregate/aggregate.go:325-330 | No accumulator and no name is left |
| `Aggregators.Snapshot.Join` | internal/aggregate/aggregate.go:179-233 | One process makes or joins its group; all other groups keep their gauges |
| `Aggregators.GroupsHaveTotals` | internal/aggregate/aggregate.go:238-242 | A scan's groups are those of its processes, and each has an accumulator |
| `Accumulators.ScanAdds` | internal/aggregate/aggregate.go:264-287 | A scan adds to each group exactly what its own processes contribute and refreshes exactly the live groups |
| `Accumulators.AccumulationIgnoresOrder` | internal/aggregate/aggregate.go:264-287 | What a scan leaves in the accumulators does not depend on the order of its processes |
| `Accumulators.AccumulatorsExact` | internal/aggregate/aggregate.go:154-309 | Over every sequence of scans and resets each accumulator holds what its group contributed since it was last forgotten |
| `Accumulators.PublishedMonotone` | internal/aggregate/aggregate.go:238-253 | Between two scans in which a group is live and not forgotten in between, its counter grows by exactly what it contributed |
| `Accumulators.PublishedAfterForgetting` | internal/aggregate/aggregate.go:289-309 | After a reset or a lapse it starts again from nothing |
| `Accumulators.SurvivesExactly` | internal/aggregate/aggregate.go:297-309 | An absent group keeps its accumulator iff there was no reset and no scan later than a positive retention |
| `Accumulators.LiveIsNotForgotten` | internal/aggregate/aggregate.go:232-250 | The scan in which a group is live never forgets it |
| `Accumulators.NoRetentionNeverForgets` | internal/aggregate/aggregate.go:298-300 | A retention of zero or less never forgets anything |
| `GroupTotals.GaugesMean` | internal/aggregate/aggregate.go:179-234 | Each gauge is the sum, count or largest ratio over exactly the processes of its group, and the groups are exactly those |
| `GroupTotals.OldestMeans` | internal/aggregate/aggregate.go:211-215 | The age of a group is the least positive start time of its members, for start times that are not negative |
| `GroupTotals.GroupsConserve` | internal/aggregate/aggregate.go:179-234 | Every additive gauge summed over the groups is its sum over the processes |
| `GroupTotals.SizesAddUp` | internal/aggregate/aggregate.go:196 | Group sizes add up to the number of processes |
| `GroupTotals.WorstRatioDominates` | internal/aggregate/aggregate.go:217-228 | Descriptors of limited members are at most the worst ratio times the summed limits |
| `GroupTotals.WorstRatioDominatesAll` | internal/aggregate/aggregate.go:217-228 | Without unlimited members that bounds all descriptors of the group |
| `GroupTotals.UnlimitedMemberEscapes` | internal/aggregate/aggregate.go:220-228 | With an unlimited counted member, whatever the rest of the group, there are open counts under which the bound fails |
| `GroupTotals.CoveredIffAllLimited` | internal/aggregate/aggregate.go:217-228 | For every group, the worst ratio times the summed limits covers its descriptors for all open counts with those limits iff every counted member has a limit |
| `Groups.GroupingIgnoresOrder` | internal/aggregate/aggregate.go:179-234 | The groups do not depend on the order of the processes, for start times that are not negative |
| `Reports.NoScanMindsOrder` | internal/aggregate/aggregate.go:179-234 | In every scan of every run, where the boot time is not negative, the groups do not depend on the order of the processes |
| `Reports.EveryStartNotNegative` | internal/scan/scan.go:325 | In every run the start times passed on are not negative, where the boot time is not |
| `Groups.GroupingIgnoresPids` | internal/aggregate/aggregate.go:179-182 | The groups do not depend on pids |
| `StateNames.NamesCoverGroup` | internal/aggregate/aggregate.go:244-247 | Readable states never exceed the group and add up to it iff no two letters present share a name |
| `StateNames.DeadLettersCollide` | internal/aggregate/aggregate.go:347-348 | One member in X and one in x are shown as one |
| `StateNames.NamedLetters` | internal/aggregate/aggregate.go:333-360 | Each readable name stands for its own letter, "dead" for two, "unknown" for all others |
| `StateNames.Materialise` | internal/aggregate/aggregate.go:244-247 | Every name of a letter present, with the count of one of its letters |
| `Exporters.Play` | internal/scan/scan.go:129-204 | Scanner and aggregator as objects, driven by any sequence of scans and resets, are at every moment where the run on values is, and a final completed scan shows what the run publishes last |
| `Exporters.ShownIsPublished` | internal/aggregate/aggregate.go:238-242 | Each counter in a snapshot is the one published for its group |
| `Exporters.ScanIsStep` | internal/scan/scan.go:129-204 | The walk of a listing, cancelled or not, is one step of the run |
| `Mailboxes.LatestValue` | internal/config/watcher.go:122-139 | In every interleaving of publications, receives and subscriptions the last default is never taken, and each subscriber has received a subsequence of what was published since it subscribed |
| `Mailboxes.EndsWithLatest` | internal/config/watcher.go:43-52 | With no publication under way, a subscriber that was there for the last one has it buffered or received it last |
| `Mailboxes.PublishReturns` | internal/config/watcher.go:122-139 | Each action brings publish nearer its end and no receiver delays it |
| `Mailboxes.NextOk` | internal/config/watcher.go:122-139 | Every step of anybody keeps the invariant of the mailbox |
| `Watchers.Watcher.Publish` | internal/config/watcher.go:122-139 | The loop over the channels, with subscribers receiving between any two actions, is a run of the mailbox |
| `Watchers.Watcher.Reload` | internal/config/watcher.go:79-120 | Stamp and configuration change together, exactly when the file is accepted and its stamp is new or the reload forced; subscribers are told iff the configuration changed |
| `Watchers.Watcher.Subscribe` | internal/config/watcher.go:46-52 | A new empty channel at the end |
| `Watchers.Watcher.DrainedSeesCurrent` | internal/config/watcher.go:43-52 | A drained subscriber has received the configuration in force last |
| `Watchers.NeverMissesAnEdit` | internal/config/watcher.go:27-33 | With writes anywhere and a stamp per version, whenever the file shows the recorded stamp its configuration is in force, iff the version stat'ed at the start gave the configuration handed in |
| `Watchers.HappensTracks` | internal/config/watcher.go:79-112 | The recorded stamp is never newer than the configuration in force |
| `Watchers.NoWriteBetween` | internal/config/watcher.go:27-33 | No write between the first load and the first stat is enough |
| `Watchers.WriteBetweenIsMissed` | internal/config/watcher.go:27-33 | A write between them stays unseen through all later reloads that are not forced |
| `Watchers.QuietReloadCatchesUp` | internal/config/watcher.go:79-112 | A reload without writes in it puts the file's configuration in force, or changes nothing if the file is refused |
| `Watchers.ForcedReloadAlwaysLoads` | internal/config/watcher.go:79-112 | In whatever state the watcher is, a forced reload puts the configuration of the file in force under its stamp, or changes nothing if the file is refused |
| `Watchers.ForcedReloadRecovers` | internal/config/watcher.go:91-112 | One forced reload puts a missed edit in force |
| `Watchers.UnforcedReloadSkips` | internal/config/watcher.go:90-95 | A reload that is not forced does nothing while the file shows the recorded stamp |
| `StatLine.ParsePrintedLine` | internal/procfs/stat.go:51-71 | A line as the kernel prints it is accepted iff 20 fields follow comm, and cut correctly whatever comm holds |
| `StatLine.StatRoundTrip` | internal/procfs/stat.go:51-104 | Parsing recovers pid, comm and every wanted field from its proc(5) position |
| `StatLine.StatValuesRoundTrip` | internal/procfs/stat.go:73-101 | Printed numbers come back as the same numbers |
| `StatLine.RefusedForComm` | internal/procfs/stat.go:54-58 | A line is refused for its comm iff no opening parenthesis comes before a closing one |
| `StatLine.NumeralSaturates` | internal/procfs/stat.go:81-84 | A numeral beyond 64 bits reads as the largest value |
| `Decimal.ParsePrinted` | internal/procfs/stat.go:81-89 | Parsing a printed numeral gives the number |
| `Decimal.Itoa` | internal/scan/scan.go:531-543 | The digit loop prints the numeral, within its 20-byte buffer |
| `Decimal.UidStringShows` | internal/scan/scan.go:526-529 | A user without a name is shown as "uid:" and its number |
| `Decimal.UidStringInjective` | internal/scan/scan.go:526-529 | Different uids never share a name |
| `LazyReads.LazyFilterSound` | internal/scan/scan.go:234-292 | Of the scanner: with a readable command line, its decision on every process is the one with everything known, for it has read the command line whenever a rule needs it |
| `Filters.CompilationIsCompiled` | internal/filter/filter.go:64 | A filter that New makes says it needs the command line exactly when one of its rules does |
| `Filters.EachClauseOfNeedsCmdlineIsNeeded` | internal/config/config.go:116-118 | Each of its three clauses is needed |
| `LazyReads.FailedCmdlineRead` | internal/scan/scan.go:243-247 | What the scanner decides, exactly, when the command line it wants is denied or fails |
| `LazyReads.FailedReadIsRight` | internal/scan/scan.go:243-247 | That decision is the one with the real arguments iff the arguments do not matter: the comm or the user drops the process, or a rule drops it with its arguments as the failed read does, or neither drops it |
| `LazyReads.DeniedLooksLikeKernel` | internal/scan/scan.go:243-247 | A process with arguments whose command line is denied is ignored as a kernel thread, though its arguments would keep it |
| `Filters.Keep` | internal/filter/filter.go:91-140 | A process is kept iff no rule drops it, and the first rule that does gives the reason |
| `Filters.KeepsExactly` | internal/filter/filter.go:91-140 | A process is kept iff the positive list is empty or finds its comm or arguments, and no rule of any other list applies, each rule spelled out |
| `Filters.New` | internal/filter/filter.go:29-66 | A filter exists iff all patterns compile; the error names the first that does not |
| `Namers.Name` | internal/namer/namer.go:113-123 | The name is that of the first rule that both matches and extracts, or else of the fallback: the preferred path if there is one, then comm, then whatever there is; and always a label |
| `Namers.FirstRuleWins` | internal/namer/namer.go:105-147 | A rule that matches but does not extract falls through |
| `Namers.RuleLaw` | internal/namer/namer.go:32-48 | A rule names a process iff all the conditions it sets hold and, if it extracts, the text that its source names is there, matched and expanded to something |
| `Namers.FallbackIs` | internal/namer/namer.go:149-177 | Without a rule the preferred path gives the name when present and the other when it is absent; otherwise comm does |
| `Namers.BaseIs` | internal/namer/namer.go:154-174 | The base name of a path is its last element between slashes, a dot for none, a slash for slashes only |
| `Namers.BaseIsUnique` | internal/namer/namer.go:154-174 | A path has one base name |
| `Namers.JoinSnoc` | internal/namer/namer.go:190 | Arguments are joined by single spaces |
| `Namers.SanitizedIsLabel` | internal/namer/namer.go:194-227 | Every sanitised name is a label, labels are left alone, and sanitising twice changes nothing |
| `Namers.SanitizedIs` | internal/namer/namer.go:201-227 | What is left of a name: its first 128 characters from the first that is kept to the last, an underscore for each that is not allowed, and "unknown" if nothing is left |
| `Namers.Sanitize` | internal/namer/namer.go:201-227 | Cut, replaced byte by byte, trimmed and never empty |

## Left out

- Width of integers: counters are natural numbers, so 64-bit wrap-around of a counter or an accumulator is not modelled; `ParseUint` and `Atoi` do check their ranges.
- Floating point: seconds and ratios are exact reals.
- Clocks: scan time, durations, the self-measured processor time and the fallback to the current time for a zero scan time; `now` is a parameter.
- The readers of `cmdline`, `status`, `statm`, `io`, `smaps`, `fd` and the limits, the listing of pids, `getconf` and `getrusage`: their outcomes are inputs.
- The user table and its cache: one function from uids to names per scan.
- Regular expressions and template expansion: opaque functions.
- Text: bytes are characters; white space beyond ASCII is not modelled.
- `ReadErrs`: a multiset of labels instead of a map of counts.
- `Caching.CachedRefinesUncached`: needs the command line and `status` to be readable on every scan, because the run without the cache depends on each of those reads.
- `Exporters.Play`: takes commands one at a time, as the scan loop of the main program is not part of this model; that both resets follow a naming change is not either.
- `Watchers.Watcher.Publish`: subscribers that receive between two actions are a parameter, and what each has received is kept beside its channel; `Run` with its signals and its ticker is left out.
- `Snapshot.List`: any order, like the iteration over the map.
- Coverage ratios, `NamesSeen` as a separate call, logging, the HTTP and metrics packages, configuration decoding, defaults and the other checks of `Validate`: each is settled by reading one branch.
