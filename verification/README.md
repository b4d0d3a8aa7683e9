# Yagra alert engine: a verified model

This project models the part of Yagra that decides who is paged, and proves properties of it over
every input, every reachable state and every run. It is written in Dafny 4.11;
`dafny verify dfyconfig.toml` checks all of it.

## What is modelled

The core is the in-memory alert engine. It turns raw poll observations into `Fire`, `Resolve` and
`Suppress` actions and keeps coupled maps: check states, open alerts, committed liveness, the down
set, the index of table rows, pending side changes, pending releases and held notifications.

* `Hysteresis`, `Flapping`, `CheckStates`: the dwell tracker and the flap detector, updated in place,
  against window specifications.
* `Grouping`, `GroupingProofs`, `GroupingMeaning`, `GroupingWalk`: outage regions as connected
  components, who speaks for one, what that says about the network, and the walk and the memo that
  compute it.
* `Lanes`, `LaneProofs`: what each operation does to one check. A *lane* is what the maps hold for a
  check; every operation is a function of lanes plus at most one action per check.
* `Engine`, `EngineProofs`: the state machine. A step relates two states lane by lane, and says what
  it emits. The configuration may differ at every step.
* `Restore`, `Runs`: how an engine starts, and safety over whole runs, with any interleaving of
  observations, regroups, releases, sweeps, deletions and event raises.
* `Alerts`, `Restarts`, `Deletions`: what an alert says about the samples behind it, what a restart
  brings back, and what deleting a node leaves behind.
* `Attribution`, `Episodes`, `Waits`, `Releases`, `Passes`: what runs promise about roll-ups and held
  notifications, with releases one by one or in passes.
* `Lifelines`, `Outages`, `Sides`: one threshold check over time, alerts released after an outage,
  published sides, and rules back in force.
* `Heard`, `Events`: that grouping loses no page, said of the engine and its alerts, what deleting a node
  does to that, and exactly which event alerts are paged.
* `Silences`, `SilentRuns`, `HeardRuns`: where the engine stays silent although something is wrong, and
  concrete runs that end there.
* `Manager`, `Trails`: the class `AlertManager` with the source's fields and loops. Each method is proved
  against its step, or the steps it takes in order, so what holds of runs holds of the class.
* `Rows`, `RowsExact`, `Retirement`: table rows, why skipping the healthy ones is exact, and the
  node-wide alerts a table replaces.
* `Results`, `ResultProofs`, `Thresholds`, `Closers`: a whole poll result, what it shows the engine,
  bounds and the fold to the worst sample, and the sweeps that close an alert whose rule is gone.
* `Reported`, `Display`: the report ledger and the three display readers.
* `Dispatch`, `NoReading`, `Subjects`, `Prefs`: the notification dispatcher, the no-reading filter, the
  NATS wildcard inclusion test, and the WebUI's preference sync.

## How the source is read

* A check id is a constructor of `Check` rather than a hash; two checks are the same only if they are.
* Times are integers in milliseconds and measured values are reals; NaN is not modelled. 32-bit counts
  and saturating 64-bit arithmetic are modelled where they could matter.
* Locks, clocks and the network become parameters or steps. Each engine operation is one atomic step,
  except that releasing a held notification is a step of its own per check, at any time.
* A run starts from a restore on an empty engine, with a configuration loaded, and a deleted node id
  does not come back. Restored alerts that stand on their own count as paged.
* A `Fire` that carries a root cause is recorded and not delivered, so it pages nobody.

## Where the code differs from what is said about it

* A delivery report with no attempts is documented to mean that no request left
  (`crates/yagra-alert/src/notify.rs:271-277`). That holds exactly when the first answer is that there
  is nothing to send (`Dispatch.FailureIsLostExactlyWhen`). The channel trait permits one that fails
  first and says so later, and such a resolve loses its failures (`Dispatch.AFailureIsLostBeforeASkip`).
  No channel of the repository does: `Dispatch.NoChannelLosesAFailure`.
* Skipping healthy rows is exact, except that the index is read once per result: a row reported twice
  in one result, breaching and then healthy, misses its recovery
  (`Rows.ADuplicateRowHidesItsRecovery`, exact condition in `Rows.OneQuestionIsEnough`).
* A liveness alert closed because its rule was deleted does not come back when the rule does, while
  the outage lasts: `Silences.LivenessOpenExactlyWhileRuled` gives the exact condition,
  `SilentRuns.ARecreatedRuleSaysNothing` a run. Threshold checks drop their window with the alert and
  have no such silence.
* A replaced-device or stale-backup alert that an outage rolled up is not released by the node's
  return: `SilentRuns.AReplacedDeviceStaysSilent` is a run, and `Silences.MarkerIsSilentUntilSpokenFor`
  says exactly how long it lasts.
* With mixed grouping levels a node can be rolled up into a node that is itself rolled up
  (`GroupingProofs.MixedLevelsChainTwice`, exact condition in `GroupingProofs.ChainsExactlyWhen`);
  following the chain always ends at a node that pages (`GroupingProofs.EveryRollUpEndsAtAPager`).
* A flap window that grows can miss transitions an earlier, narrower one dropped; the exact condition
  is in `Flapping.QueueCountsAllExactlyWhen`.
* Grouping is meant to delay a page and never to lose one. That holds of the engine while roll-ups are
  current (`Heard.NoOutageGoesUnheard`), but deleting a node does not judge them again: a node rolled up
  into a deleted one stays silent until the next re-sweep or regroup
  (`HeardRuns.ADeletedSpeakerSilencesItsRegion`, exact condition in `Heard.DeletionKeepsChainsExactlyWhen`).
  A regroup under a grouping that has already dropped the deleted nodes avoids it
  (`Heard.RegroupedDeletionLosesNothing`).
* An event alert that an outage rolled up loses its marker when the node returns without paging again
  (`HeardRuns.AReturnedEventStaysUnpaged`, exact condition in `Events.EventPagedExactlyWhen`).

## Model

| member | source | states |
|---|---|---|
| `Hysteresis.DwellTracker.New` | crates/yagra-alert/src/hysteresis.rs:38-45 | a seeded tracker: the seed is held but not observed, and a dwell of zero means one |
| `Hysteresis.DwellTracker.FromHistory` | crates/yagra-alert/src/hysteresis.rs:54-61 | a tracker read back from history is observed from the outset |
| `Hysteresis.DwellTracker.SetDwell` | crates/yagra-alert/src/hysteresis.rs:122-124 | only the dwell changes; a pending run is kept |
| `Hysteresis.DwellTracker.Observe` | crates/yagra-alert/src/hysteresis.rs:130-154 | one sample moves the tracker as its value function says, a transition is answered exactly when it commits, and no 32-bit count overflows |
| `Hysteresis.TrailingIsTheLongestSuffix` | crates/yagra-alert/src/hysteresis.rs:130-154 | the specification's trailing run is the longest suffix of equal samples |
| `Hysteresis.CandidateIsTheTrailingRun` | crates/yagra-alert/src/hysteresis.rs:102-154 | after any history the pending run is the trailing run when it disagrees, and is always shorter than the dwell |
| `Hysteresis.CommitsExactlyOnAFullWindow` | crates/yagra-alert/src/hysteresis.rs:122-154 | with the dwell set again before every sample, a state commits exactly when it differs from the committed one and the trailing run reaches the dwell in force |
| `Hysteresis.CommittedIsTheLastFullWindow` | crates/yagra-alert/src/hysteresis.rs:130-154 | with a fixed dwell d the committed state is the value of the latest d equal consecutive samples, else the seed |
| `Hysteresis.ObservedSinceTheFirstAgreementOrCommit` | crates/yagra-alert/src/hysteresis.rs:73-88 | `observed` is empty exactly until the first agreeing sample or commit, and never for a restored tracker |
| `Hysteresis.RunCommitsWhenItsDwellIsComplete` | crates/yagra-alert/src/hysteresis.rs:130-154 | a run under way commits on exactly the sample that completes its dwell |
| `Flapping.FlapDetector.constructor` | crates/yagra-alert/src/flapping.rs:22-28 | an empty queue and a window clamped at zero |
| `Flapping.FlapDetector.SetWindow` | crates/yagra-alert/src/flapping.rs:36-38 | the window changes and the recorded transitions stay |
| `Flapping.FlapDetector.Record` | crates/yagra-alert/src/flapping.rs:41-63 | pushing and popping in place leaves the queue with everything before the cutoff dropped from its front |
| `Flapping.FlapDetector.IsFlapping` | crates/yagra-alert/src/flapping.rs:48-52 | the counting loop answers whether the entries inside the window reach the threshold |
| `Flapping.QueueIsASuffix` | crates/yagra-alert/src/flapping.rs:41-63 | for nondecreasing times the queue is a suffix of the whole history, and what it lost are exactly the transitions a later record found too old |
| `Flapping.QueueCountsAllExactlyWhen` | crates/yagra-alert/src/flapping.rs:36-63 | whatever the windows, the queue counts what the full history counts exactly when no transition inside the present window was older than the cutoff of some later record; it never counts more |
| `Flapping.PrunedQueueAnswersAsTheFullHistory` | crates/yagra-alert/src/flapping.rs:36-63 | so with a window that never grows the pruned queue answers at every later instant as the full history would |
| `Flapping.AGrownWindowMissesWhatWasPruned` | crates/yagra-alert/src/flapping.rs:30-38 | a concrete history on which a grown window misses a pruned transition |
| `Flapping.RecentNeedsRoom` | crates/yagra-alert/src/flapping.rs:48-52 | entries a gap apart need room inside the window |
| `CheckStates.CheckMonitor.New` | crates/yagra-alert/src/lib.rs:102-107 | a new check state seeds its tracker and starts with no flap history |
| `CheckStates.CheckMonitor.FromHistory` | crates/yagra-alert/src/lib.rs:113-123 | a restored check state is observed and has no flap history either |
| `CheckStates.CheckMonitor.Repoint` | crates/yagra-alert/src/lib.rs:163-173 | the dwell and the flap window follow the rule and the interval; nothing else moves |
| `CheckStates.CheckMonitor.Observe` | crates/yagra-alert/src/lib.rs:177-184 | a transition is reported exactly when the tracker commits, flagged by the detector after recording it |
| `CheckStates.TransitionsAreADwellApart` | crates/yagra-alert/src/lib.rs:177-184 | with samples tau apart and dwell at least d, recorded transitions are d * tau apart, and a pending run counts towards the next |
| `CheckStates.FlappingNeedsAWideWindow` | crates/yagra-alert/src/lib.rs:177-184 | such a transition can be flagged as flapping only if the window is at least (threshold - 1) * d * tau |
| `CheckStates.FlaggedExactlyWhenFiveAreRecent` | crates/yagra-alert/src/lib.rs:177-184 | for a check fed from new, times that do not run backwards and a window that does not grow, a transition is flagged exactly when at least five of all the transitions ever committed, itself included, lie in the window ending with it |
| `CheckStates.EngineWindowHasRoom` | crates/yagra-common/src/poll_interval.rs:69-87 | the window is ten minutes, or twenty polls where that is more; it has the room flapping needs for every dwell up to five polls and, from half a minute on, for no longer one |
| `Grouping.LinkGraph.AddLink` | crates/yagra-topology/src/grouping.rs:147-158 | links stay undirected, and a node is never linked to itself |
| `Grouping.LinkGraph.SetSite` | crates/yagra-topology/src/grouping.rs:166-173 | a node is filed under one site, and the two indexes stay inverse |
| `GroupingWalk.GrowRegion` | crates/yagra-topology/src/grouping.rs:268-298 | the queue walk that lists each site once computes exactly the connected component of down nodes |
| `GroupingWalk.FindSpeaker` | crates/yagra-topology/src/grouping.rs:302-316 | the speaker is the specification's: of the nodes touching something alive, or of all where none does, the lowest-id edge router, else layer 3 switch, else layer 2 switch, else access point, else the lowest id |
| `GroupingWalk.FindRootCause` | crates/yagra-topology/src/grouping.rs:323-334 | one node's answer is the specification's |
| `GroupingWalk.Attribute` | crates/yagra-topology/src/grouping.rs:339-363 | the memoized answer for all down nodes is, node by node, what asking alone answers |
| `GroupingProofs.RegionIsSharedByItsNodes` | crates/yagra-topology/src/grouping.rs:268-298 | regions partition the down nodes: every member of a region has that region |
| `GroupingMeaning.OnlyTheSurroundedAreSpokenFor` | crates/yagra-topology/src/grouping.rs:233-262 | a node may be spoken for exactly when it is down and nothing it is linked to is alive: its physical links where it has any, which the surest level asks for and must not doubt; its logical ones from the next level on; and its site at the strongest |
| `GroupingMeaning.TheNeighboursItIsJudgedBy` | crates/yagra-topology/src/grouping.rs:226-243 | the neighbours a node is judged by are its physical ones where it has any, else its logical ones from the links level on |
| `GroupingMeaning.ARegionIsWhatChainsReach` | crates/yagra-topology/src/grouping.rs:268-298 | a region is exactly what chains of down nodes reach, joined physically, logically from the links level on, or by site at the site level |
| `GroupingMeaning.TheBestSpeaksFirst` | crates/yagra-topology/src/grouping.rs:73-91 | rank and id order decide as the kinds of device say: edge, layer 3, layer 2, access point, anything else, and the lowest id among equals |
| `GroupingMeaning.WhoSpeaksForWhom` | crates/yagra-topology/src/grouping.rs:302-334 | the root cause of a node is another node exactly when the node is surrounded and that other one speaks first among the competing nodes of its region |
| `GroupingMeaning.TheRouterSpeaksForTheServer` | crates/yagra-topology/src/grouping.rs:302-334 | a concrete graph: the edge router speaks for the server it is linked to, although the server has the lower id |
| `GroupingProofs.EveryRollUpEndsAtAPager` | crates/yagra-topology/src/grouping.rs:323-334 | whatever the graph and mix of levels, following roll-ups from a down node ends at a down node that pages on its own |
| `GroupingProofs.AnOutageIsNeverSilent` | crates/yagra-topology/src/grouping.rs:367-376 | of the nodes down, at least one pages |
| `Heard.NoOutageGoesUnheard` | crates/yagra-alert/src/engine.rs:1981-2108 | said of the engine: after every run with current roll-ups, and no down node whose rule was taken away since its outage committed, the open alerts lead from every down node, each naming the next, to one that has been paged or is held |
| `Heard.DeletingASpeakerSaysNothing` | crates/yagra-alert/src/engine.rs:3087-3113 | a kept node rolled up into a deleted one stays open, rolled up, unpaged and unsaid, and the node it names has no alert and is not down |
| `Heard.DeletionKeepsChainsExactlyWhen` | crates/yagra-alert/src/engine.rs:3087-3113 | after a deletion every roll-up still names an open alert exactly when no kept node was rolled up into a deleted one |
| `Heard.RegroupedDeletionLosesNothing` | crates/yagra-core/src/alerts/config.rs:742-751 | with a regroup under a grouping that no longer knows the deleted nodes before it, a deletion keeps roll-ups current and takes no kept node its speaker |
| `HeardRuns.ADeletedSpeakerSilencesItsRegion` | crates/yagra-alert/src/engine.rs:3087-3113 | a concrete run: two linked nodes fail, the one that speaks for both is deleted, and nobody is paged about the other |
| `GroupingProofs.OneHopIsEnough` | crates/yagra-topology/src/grouping.rs:323-334 | a node rolled up out of a region with a border, or into a speaker that groups no more strongly, is rolled up into one that pages |
| `GroupingProofs.ChainsExactlyWhen` | crates/yagra-topology/src/grouping.rs:323-334 | exactly when the named node is itself rolled up: no border, a strictly stronger speaker that may sit inside and touches nobody alive, and in its own wider region a border or somebody who speaks before it |
| `GroupingProofs.MixedLevelsChainTwice` | crates/yagra-topology/src/grouping.rs:323-334 | a concrete graph where that happens |
| `LaneProofs.ObservedThreshold` | crates/yagra-alert/src/engine.rs:1514-1623 | one observation keeps a threshold check's maps consistent, whatever it commits |
| `LaneProofs.ObservedLiveness` | crates/yagra-alert/src/engine.rs:1478-1623 | the same for a liveness check, with or without a rule and with or without a hold |
| `LaneProofs.SweptIsOk` | crates/yagra-alert/src/engine.rs:2026-2106 | a re-sweep keeps every check's maps consistent with the new down set |
| `EngineProofs.FlipNeedsATransition` | crates/yagra-alert/src/engine.rs:1432-1465 | the down set flips only together with a committed transition |
| `EngineProofs.ObserveKeepsInv` | crates/yagra-alert/src/engine.rs:1373-1633 | an observation keeps the whole invariant: lanes, down set and liveness map |
| `EngineProofs.ObserveKeepsLedger` | crates/yagra-alert/src/engine.rs:1373-1633 | an observation moves the paging ledger as its actions say |
| `EngineProofs.RegroupKeepsInv` | crates/yagra-alert/src/engine.rs:1774-1776 | a regroup keeps the invariant and the ledger |
| `EngineProofs.ForgetKeepsInv` | crates/yagra-alert/src/engine.rs:3051-3122 | forgetting deleted nodes keeps the invariant and the ledger |
| `Restore.RestoreEstablishesInv` | crates/yagra-alert/src/engine.rs:414-452 | restoring on an empty engine establishes the invariant, duplicate rows included |
| `Restore.RestoreDeletedKeepsInv` | crates/yagra-alert/src/engine.rs:486-492 | seeding the alerts of deleted nodes reaches neither liveness nor the down set, and keeps the invariant |
| `Restarts.TheFirstRowComesBack` | crates/yagra-alert/src/engine.rs:497-574 | on an empty engine the first row about a check comes back as an open alert, unchanged but for a roll-up worked out again from who is down, with its state observed, no run pending and no flap recorded |
| `Restarts.NothingElseComesBack` | crates/yagra-alert/src/engine.rs:414-452 | alerts, trackers, the row index, the leftovers and the down set come back for exactly what some row is about |
| `Restarts.WhatWasObservedWins` | crates/yagra-alert/src/engine.rs:405-407 | on an engine that has started, no row changes a tracker, an open alert or a liveness already there |
| `Restarts.StillBrokenSaysNothing` | crates/yagra-alert/src/engine.rs:397-413 | over runs: as long as the samples of a restored threshold check show what its alert says, nothing is delivered and the alert stays as it was |
| `Restarts.RecoveredResolvesOnce` | crates/yagra-alert/src/engine.rs:397-413 | over runs: the first full dwell of healthy samples after the restart resolves a restored threshold alert, exactly once, and nothing is said before |
| `Restarts.StillDownSaysNothing` | crates/yagra-alert/src/engine.rs:397-413 | over runs in which nobody comes to speak for it: a node that was down and still is under a rule is not said anything about, and its alert stays as it was |
| `Restarts.AnsweringResolvesOnce` | crates/yagra-alert/src/engine.rs:397-413 | over such runs: the answer that completes its dwell resolves the alert of a node that came back, exactly once, and nothing is said before |
| `Deletions.ADeletedNodeLeavesNothing` | crates/yagra-alert/src/engine.rs:3051-3122 | a deleted node is neither live nor down, none of its checks is open or held, and each alert that had been sent is resolved |
| `Deletions.OthersAreLeftAlone` | crates/yagra-alert/src/engine.rs:3051-3122 | every check of a kept node, and every check about no node, is left exactly as it was |
| `Runs.EveryReachableStateIsSound` | crates/yagra-alert/src/engine.rs:1373-2108 | in every state any run reaches, the coupled maps agree and the ledger holds |
| `Runs.PagedExactlyWhenOpenUnrolledUnheld` | crates/yagra-alert/src/engine.rs:1478-1633 | after every run a liveness, threshold, marker or fleet check is paged exactly when its alert is open, carries no root cause and is not held |
| `Runs.PagedEventIsOpenAndUnrolled` | crates/yagra-alert/src/engine.rs:2038-2057 | for event alerts, paged implies open and unrolled |
| `Events.EventPagedExactlyWhen` | crates/yagra-alert/src/engine.rs:2038-2057 | after every run an event check is paged exactly when its alert is open, unrolled, and has not been rolled up since it was last raised as news |
| `Events.ARaiseSpeaksExactlyWhenNews` | crates/yagra-alert/src/engine.rs:2245-2258 | a raise fires and replaces the alert exactly when none is open or one of another severity is, and touches nothing else |
| `HeardRuns.AReturnedEventStaysUnpaged` | crates/yagra-alert/src/engine.rs:2038-2057 | a concrete run: raised, suppressed when the node fails, and open, unrolled and unpaged with the node back |
| `Runs.OpenExactlyWhenCommitted` | crates/yagra-alert/src/engine.rs:1565-1623 | after every run a threshold check has an open alert in a state exactly when its tracker committed it and it carries a severity |
| `Alerts.SeverityTellsTheState` | crates/yagra-common/src/state.rs:88-94 | after every run each open liveness or threshold alert in `Warning` is a warning and each in `Critical` or `Unreachable` is critical, and so is everything delivered about such a check |
| `Alerts.AnAlertSaysWhatWasSeen` | crates/yagra-alert/src/engine.rs:1565-1600 | after every run the alert of a check that had none describes one of its own observations: time, state, value, side and the bound of its severity on that side; so does everything delivered about it |
| `Alerts.AnOpenedAlertIsFlagged` | crates/yagra-alert/src/lib.rs:61-84 | an alert opened with a transition is flagged as flapping exactly when the transition is |
| `Runs.DownIsCommittedUnreachable` | crates/yagra-alert/src/engine.rs:1432-1465 | after every run the incremental down set is exactly the nodes whose liveness tracker committed `Unreachable` |
| `Attribution.RegroupIsFullRecomputation` | crates/yagra-alert/src/engine.rs:1981-2108 | after a regroup every open liveness alert carries the grouping's answer, although only candidates were visited |
| `Attribution.RegroupIsIdempotent` | crates/yagra-alert/src/engine.rs:1774-1776 | a regroup on current roll-ups emits nothing and changes nothing |
| `Attribution.ObserveKeepsRollUpsCurrent` | crates/yagra-alert/src/engine.rs:1549-1563 | after every re-sweep the same holds, and without one it stays while the down set does |
| `Attribution.OnlyMaintenanceGoesUnswept` | crates/yagra-alert/src/engine.rs:1446-1465 | the only flip of the down set not followed by a re-sweep is a down node entering maintenance |
| `Attribution.RollUpsStayCurrent` | crates/yagra-alert/src/engine.rs:1981-2108 | from any sound state whose roll-ups are current, along every run they stay current until the grouping changes or the down set moves unswept |
| `Attribution.RollUpsCurrentAfterAnySweep` | crates/yagra-alert/src/engine.rs:1549-1563 | so after any regroup, or any observation followed by a re-sweep, anywhere in a run, roll-ups are current until the next such disturbance |
| `Attribution.StartIsAttributed` | crates/yagra-alert/src/engine.rs:548-574 | an engine starts with current roll-ups, the rows of deleted nodes included: those stand on their own |
| `Episodes.HeldMeans` | crates/yagra-alert/src/engine.rs:1583-1601 | a hold mark means an unrolled `Unreachable` liveness alert with a held entry for the same instant, and the other way round |
| `Episodes.HoldEndsWithOneFireAtMost` | crates/yagra-alert/src/engine.rs:1851-1914 | every step leaves a held notification as it is, closes it in silence, or ends the hold with exactly one fire |
| `Episodes.HeldInSilence` | crates/yagra-alert/src/engine.rs:1583-1601 | over runs: as long as a page is held nothing is delivered about the check and its alert does not change |
| `Episodes.AnEpisodeFiresAtMostOnce` | crates/yagra-alert/src/engine.rs:1851-1914 | over runs: from anywhere in a hold to the entry that ends it, what is delivered is one fire of the alert then open, or nothing if it was closed |
| `Episodes.LivenessNeverPagesTwice` | crates/yagra-alert/src/engine.rs:1583-1623 | in the log of every run, no liveness incident is paged while the ledger already holds it |
| `Waits.HeldUntilTheWaitEnds` | crates/yagra-alert/src/engine.rs:1828-1846 | the instant recorded for a new hold is the wait computed from the state the observation leaves |
| `Waits.HeldExactlyWhenANeighbourFails` | crates/yagra-alert/src/engine.rs:1583-1600 | a node that goes down has its page held exactly when nobody speaks for it, waiting is on, its level groups and a judging neighbour outside the down set has a pending `Unreachable` run; otherwise it fires at once |
| `Waits.TheHoldEndsExactly` | crates/yagra-alert/src/engine.rs:1781-1846 | the recorded end is 30 seconds after the latest instant at which such a neighbour, polled once per configured interval or five minutes, can have completed its dwell |
| `Waits.TheWaitIsLongEnough` | crates/yagra-alert/src/engine.rs:1781-1846 | once a page is held for a failing neighbour, in every run in which that neighbour answers unreachable once per that many milliseconds the answer that completes its dwell puts it into the down set, none before does, and it comes at least 30 seconds before the recorded end of the hold |
| `Releases.ReleasePassIsARun` | crates/yagra-alert/src/engine.rs:1851-1914 | a release pass is a run of single releases in the order it delivers them, so results over runs cover polls that overtake it |
| `Passes.APassKeepsExactlyTheWaiting` | crates/yagra-alert/src/engine.rs:1880-1909 | one pass leaves a held page held and unsaid exactly when its results are paused, or waiting is on, its level groups, its instant has not come and a neighbour is on its way down; otherwise it fires once |
| `Passes.HeldWhileTheNeighbourFails` | crates/yagra-alert/src/engine.rs:1851-1914 | over runs with any number of passes: a page held for a neighbour stays held in silence while that neighbour keeps failing short of its dwell, the instant has not come and nothing else ends the hold |
| `Passes.TheFirstPassInTimeDelivers` | crates/yagra-alert/src/engine.rs:1851-1914 | over runs: the first unpaused pass at or after the instant, or at which there is nothing left to wait for, delivers the held alert, and it is the only thing said about the check |
| `Lifelines.LaneFollowsItsObservations` | crates/yagra-alert/src/engine.rs:1373-1633 | along every quiet stretch of every run a threshold check's maps and deliveries are what its own observations alone make of them |
| `Lifelines.OnlyItsNodeAndItsSweepsTouchIt` | crates/yagra-alert/src/engine.rs:1446-1465 | such a stretch ends only with an observation that moves the committed liveness of the check's own node, a sweep that closes the check, or the deletion of its node |
| `Outages.ReturnStartsTheCount` | crates/yagra-alert/src/engine.rs:2078-2087 | a sweep that finds the node up starts the release count in silence, whether it was down or in maintenance |
| `Outages.NodeReturns` | crates/yagra-alert/src/engine.rs:1446-1465 | the observation that brings a node back holds back every threshold alert its outage rolled up, and says nothing about any |
| `Outages.ANodeThatComesBack` | crates/yagra-alert/src/engine.rs:1446-1465 | that is whenever its liveness moves from `Unreachable` or `Maintenance` to `Ok` or `Unknown` |
| `Outages.DownAgainCancelsTheCount` | crates/yagra-alert/src/engine.rs:2078-2083 | the observation that takes the node down again cancels the count in silence, and the outage owns the alert once more |
| `Outages.NoPageBeforeTheDwell` | crates/yagra-alert/src/engine.rs:1707-1740 | over runs: nothing delivered about the check is a page, and it is still rolled up, until a dwell of problem observations since the return |
| `Outages.PagesOnceTheDwellCompletes` | crates/yagra-alert/src/engine.rs:1707-1740 | over runs: everything delivered about the check is no page, then the one fire with the marker off at the observation that completes the dwell, then nothing while nothing commits and the side does not flip |
| `Outages.RecoveryResolvesStillRolledUp` | crates/yagra-alert/src/engine.rs:1602-1623 | over runs: recovering first closes the alert with one resolve still carrying the marker, and nothing delivered is a page |
| `Outages.SeverityChangeEndsTheHold` | crates/yagra-alert/src/engine.rs:1524 | over runs: a committed severity change ends the hold with one page of its own, the first about the check |
| `Sides.SideFlipsExactlyOnAFullRun` | crates/yagra-alert/src/engine.rs:1660-1698 | over runs: an observation flips the published side exactly when the last dwell observations of the check were at the alert's state on the other side; exactly one fire is delivered, which also carries a release |
| `Sides.ACommittedChangeStartsOver` | crates/yagra-alert/src/engine.rs:1524-1529 | every committed change of a threshold check leaves no side change and no release pending, and an alert it opens on the side of its own sample |
| `Sides.RuleBackInForceFiresOnTheDwellthSample` | crates/yagra-alert/src/engine.rs:3146-3158 | over runs, for any samples and dwells: after a sweep closed a check, nothing is delivered about it until its samples end in a run of one problem state as long as the dwell in force, and the sample completing the first such run is exactly one page |
| `Sides.RecoveredCheckKeepsItsWindow` | crates/yagra-alert/src/engine.rs:3139-3158 | a check that recovered before the sweep acted keeps its dwell window |
| `Silences.LivenessOpenExactlyWhileRuled` | crates/yagra-alert/src/engine.rs:1478-1512 | after every run a liveness alert is open exactly when its outage is committed and a rule was in force at every observation since |
| `Silences.DeletedRuleStrands` | crates/yagra-alert/src/engine.rs:1478-1512 | the failing sample that finds the rule gone closes the alert and leaves the outage committed without one |
| `Silences.RecreatedRuleStaysSilent` | crates/yagra-alert/src/engine.rs:1478-1529 | from there, over every run in which the node stays down, nothing is delivered about it and no alert opens, whatever rules come and go |
| `SilentRuns.ARecreatedRuleSaysNothing` | crates/yagra-alert/src/engine.rs:1478-1529 | a concrete run from an empty engine that ends there: fail, delete the rule, create it again |
| `Silences.MarkerStaysRolledUp` | crates/yagra-alert/src/engine.rs:2038-2087 | a step leaves a rolled-up replaced-device or stale-backup alert rolled up and unsaid unless, and only unless, it raises it at another severity, closes it or deletes its node |
| `Silences.MarkerIsSilentUntilSpokenFor` | crates/yagra-alert/src/engine.rs:2038-2087 | over runs: nothing is delivered about it exactly as long as no such step is taken, the node's return included |
| `SilentRuns.AReplacedDeviceStaysSilent` | crates/yagra-alert/src/engine.rs:2038-2087 | a concrete run from an empty engine: raised, suppressed when the node fails, and still rolled up and silent with the node back |
| `Manager.AlertManager.constructor` | crates/yagra-alert/src/engine.rs:318-345 | an empty engine |
| `Manager.AlertManager.SetConfig` | crates/yagra-alert/src/engine.rs:349-353 | a new configuration changes no map |
| `Manager.AlertManager.CloseActive` | crates/yagra-alert/src/engine.rs:2270-2282 | an open alert is removed and resolved; a held one is removed with its hold and tells nobody |
| `Manager.AlertManager.RefreshBreachedSide` | crates/yagra-alert/src/engine.rs:1660-1698 | in-place update of the side count and the alert equals the lane function |
| `Manager.AlertManager.CountRelease` | crates/yagra-alert/src/engine.rs:1707-1740 | in-place update of the release count and the marker equals the lane function |
| `Manager.AlertManager.SettleCheck` | crates/yagra-alert/src/engine.rs:1514-1523 | side first, and a release replaces its fire |
| `Manager.AlertManager.Weigh` | crates/yagra-alert/src/engine.rs:1401-1470 | the tracker, the liveness map and the down set move together |
| `Manager.AlertManager.LongestFailingWait` | crates/yagra-alert/src/engine.rs:1781-1814 | the loop over judging neighbours finds the longest wait of those failing, or none |
| `Manager.AlertManager.HoldUntil` | crates/yagra-alert/src/engine.rs:1828-1846 | a hold is given exactly to an unrolled `Unreachable` liveness alert with waiting on, level not off, and a failing neighbour |
| `Manager.AlertManager.PutAlert` | crates/yagra-alert/src/engine.rs:1587-1600 | an alert is opened and fired, or shown with its hold recorded and nothing sent |
| `Manager.AlertManager.ApplyTransition` | crates/yagra-alert/src/engine.rs:1524-1623 | a committed transition clears the pending counts and opens, replaces or closes the alert |
| `Manager.AlertManager.ProcessCheck` | crates/yagra-alert/src/engine.rs:1373-1633 | the whole observation refines its step: own lane, every other lane swept or untouched, each action listed once |
| `Manager.AlertManager.SweepOne` | crates/yagra-alert/src/engine.rs:2026-2106 | one alert judged again, branch by branch, equals the lane function |
| `Manager.AlertManager.Candidates` | crates/yagra-alert/src/engine.rs:1988-2023 | the candidate filter selects exactly the alerts whose answer can change, each with its current root cause |
| `Manager.AlertManager.Reattribute` | crates/yagra-alert/src/engine.rs:1981-2108 | the loop over candidates is, check by check, a re-sweep of everything |
| `Manager.AlertManager.Regroup` | crates/yagra-alert/src/engine.rs:1774-1776 | refines the regroup step |
| `Manager.AlertManager.ReleaseHeld` | crates/yagra-alert/src/engine.rs:1851-1914 | exactly the held notifications that need not wait any longer are let go, each with at most one fire |
| `Manager.AlertManager.ResolveOrphans` | crates/yagra-alert/src/engine.rs:3146-3158 | each named check is closed once, its window dropped with an alert still open and kept otherwise |
| `Manager.AlertManager.ResolveOrphanedInterfaceAlerts` | crates/yagra-alert/src/engine.rs:2751-2772 | closes exactly the computed per-port alerts whose rule is gone |
| `Manager.AlertManager.ResolveOrphanedNodeDerivedAlerts` | crates/yagra-alert/src/engine.rs:2783-2808 | closes exactly the computed node-wide alerts whose rule is gone |
| `Manager.AlertManager.ResolveOrphanedCollectedAlerts` | crates/yagra-alert/src/engine.rs:2856-2878 | closes exactly the collected alerts whose rule is gone, and nothing before an inventory is known |
| `Closers.ExactlyOneCloser` | crates/yagra-alert/src/engine.rs:2817-2838 | no alert has two of these closers, and it has one exactly when its rule is gone and its metric alerts where it is swept |
| `Closers.EveryOrphanIsClosedOnce` | crates/yagra-alert/src/engine.rs:2751-2878 | the three sweeps in a row close every owned alert with exactly one resolve and leave every other lane untouched |
| `Manager.AlertManager.RaiseEventAlert` | crates/yagra-alert/src/engine.rs:2245-2258 | fires only when no alert of the same severity is open |
| `Manager.AlertManager.ResolveEventAlert` | crates/yagra-alert/src/engine.rs:2263-2265 | closes and resolves, or does nothing |
| `Manager.AlertManager.ForgetDeletedNodes` | crates/yagra-alert/src/engine.rs:3051-3122 | refines the forget step, trims the report ledger to the inventory, and does nothing on an empty one |
| `Manager.AlertManager.SeedStates` | crates/yagra-alert/src/engine.rs:497-542 | the first row about a check seeds it, observed state wins, rows and node-wide leftovers are indexed |
| `Manager.AlertManager.SeedLive` | crates/yagra-alert/src/engine.rs:424-441 | the first liveness row about an unobserved node decides its liveness, and the newly down are reported |
| `Manager.AlertManager.SeedActive` | crates/yagra-alert/src/engine.rs:548-574 | each row is opened with its attribution derived again; answers the size of the open set |
| `Manager.AlertManager.Restore` | crates/yagra-alert/src/engine.rs:414-452 | refines the restore step, and answers how many alerts are open, or zero when there was nothing to seed |
| `Manager.AlertManager.RestoreDeleted` | crates/yagra-alert/src/engine.rs:486-492 | refines the deleted-node restore step, with the same answer |
| `Manager.AlertManager.RetireLegacy` | crates/yagra-alert/src/engine.rs:1344-1360 | a leftover node-wide alert is closed and forgotten once |
| `Manager.AlertManager.ObserveRows` | crates/yagra-alert/src/engine.rs:1276-1336 | the steps taken are, in order, the retirements of leftovers, the observations of the rows that breach or were held before the result, and one growth of the index by those rows |
| `Manager.AlertManager.ObserveSamples` | crates/yagra-alert/src/engine.rs:1074-1121 | ports are observed in order, rows gathered, node-wide samples folded |
| `Manager.AlertManager.ObserveFolded` | crates/yagra-alert/src/engine.rs:1122-1132 | each chosen node-wide sample is observed once and its check is no leftover |
| `Manager.AlertManager.Observe` | crates/yagra-alert/src/engine.rs:903-1135 | one result is a run that observes liveness, ports, one worst sample per node-wide metric and the kept rows, in that order, and nothing else; about a node in maintenance it delivers nothing but resolves |
| `Results.FoldIn` | crates/yagra-alert/src/engine.rs:1112-1119 | one more sample keeps the fold: one slot per metric, none of whose samples is worse |
| `ResultProofs.AResultShowsOnlyItsSamples` | crates/yagra-alert/src/engine.rs:1018-1135 | every observation a result leads to is its liveness, with exactly its outcome and its rule's dwell or three, or one of its samples, resolved as port, row or node-wide metric and shown with the verdict of its bounds; `Maintenance` instead of either in a window, `Ok` for counters and placeholders |
| `ResultProofs.EverySampleIsShown` | crates/yagra-alert/src/engine.rs:1074-1135 | every port value with a rule, and every row that breaches or is indexed, is observed so |
| `ResultProofs.AHealthyRowIsPassedOver` | crates/yagra-alert/src/engine.rs:1293-1320 | a row that is not indexed and that no sample of the result breaches, counters and placeholders aside, is not observed |
| `ResultProofs.TheWorstSampleIsShown` | crates/yagra-alert/src/engine.rs:1055-1070 | of a node-wide metric one sample is observed: none is judged worse, and among those judged alike none lies further along the rule's side |
| `ResultProofs.MaintenanceOnlyResolves` | crates/yagra-alert/src/engine.rs:1020-1021 | from any sound state, everything a result delivers about a node in maintenance is a resolve |
| `Thresholds.NotWorseMeans` | crates/yagra-common/src/thresholds.rs:568-578 | a value is unbeaten by another exactly when it is judged no milder and, judged alike, lies no less far along the rule's side |
| `Thresholds.VerdictIsTheWorstCrossing` | crates/yagra-common/src/thresholds.rs:210-231 | critical exactly past a critical bound on either side, healthy exactly past none |
| `Thresholds.PublishedBoundIsCrossed` | crates/yagra-alert/src/engine.rs:1208-1226 | the bound an alert names is one the sample crossed, on the named side |
| `Thresholds.TheSideOfAValue` | crates/yagra-alert/src/engine.rs:1208-1226 | a value is filed with the bounds of a side on which it crossed one of its verdict, or with the side the rule is about when it is healthy |
| `Thresholds.WorseIsAStrictWeakOrder` | crates/yagra-common/src/thresholds.rs:568-578 | the worse-than comparison is irreflexive, asymmetric, transitive and negatively transitive |
| `Thresholds.WorseBeatsTheBeaten` | crates/yagra-common/src/thresholds.rs:568-578 | so what is worse than an incumbent is worse than everything the incumbent beat |
| `RowsExact.SkippingHealthyRowsIsExact` | crates/yagra-alert/src/engine.rs:1276-1336 | over every sequence of results outside maintenance in which no unheld row breaches and then recovers inside one result, with any other steps between: the engine that asks its index once per result and grows it at the end says the same at every turn, and holds the same alerts, as one observing every row |
| `RowsExact.ObserveRowsIsTheSkippingEngine` | crates/yagra-alert/src/engine.rs:1276-1336 | the steps the method takes from any state are that engine's turn |
| `RowsExact.ResultMirrors` | crates/yagra-alert/src/engine.rs:1293-1335 | one result: both engines stay alike, and the index is what it has to be |
| `RowsExact.RestoredRowsAreIndexed` | crates/yagra-alert/src/engine.rs:512-528 | a restored row's check is in the index |
| `Rows.OneQuestionIsEnough` | crates/yagra-alert/src/engine.rs:1294-1320 | asking the index once per result observes the same rows as asking per row exactly when no unheld row breaches and then recovers inside one result |
| `Rows.IndexGrowsByTheKept` | crates/yagra-alert/src/engine.rs:1328-1335 | growing the index by the kept rows at the result's end gives the index that growing it row by row would |
| `Rows.ADuplicateRowHidesItsRecovery` | crates/yagra-alert/src/engine.rs:1294-1320 | the concrete exception: a row reported twice, breaching then healthy, keeps its alert |
| `Retirement.RowsCloseTheirLeftovers` | crates/yagra-alert/src/engine.rs:1344-1360 | the rows of a result close exactly the leftovers that are the node-wide form of one of them |
| `Retirement.TheTableClosesItsLeftover` | crates/yagra-alert/src/engine.rs:1276-1360 | over the run they lead to, such a leftover's alert is closed with one resolve, and any other node-wide alert is left alone |
| `Reported.CurrentUpToTheWindow` | crates/yagra-alert/src/reported.rs:55-67 | for every 32-bit interval no saturation decides: current exactly up to ten minutes or three polls, boundary included |
| `Reported.StaleStaysStale` | crates/yagra-alert/src/reported.rs:65-67 | a stale report stays stale until a newer one or a longer interval |
| `Reported.ReportLedger.Note` | crates/yagra-alert/src/reported.rs:91-101 | a report not older than the one held replaces it |
| `Reported.ReportLedger.Seed` | crates/yagra-alert/src/reported.rs:105-111 | a seed never overrides a live report |
| `Reported.ReportLedger.Retain` | crates/yagra-alert/src/reported.rs:133-135 | only the nodes kept remain |
| `Reported.ReportLedger.Flips` | crates/yagra-alert/src/reported.rs:139-154 | names, once each, exactly the nodes whose staleness differs from what was announced, and announces it |
| `Reported.NamedOncePerChange` | crates/yagra-alert/src/reported.rs:137-154 | once announced, a node is named again exactly when its staleness has changed |
| `Reported.TheNewestReportIsHeld` | crates/yagra-alert/src/reported.rs:89-101 | in whatever order reports arrive, the newest is held |
| `Display.UnconfirmedOkIsUnknown` | crates/yagra-alert/src/engine.rs:743-770 | walking either side greys exactly the committed `ok` that nobody confirms |
| `Display.TheWorstIsShown` | crates/yagra-alert/src/rules.rs:1084-1094 | a node shows `Critical` if an open alert or its liveness says so, else `Unreachable`, `Warning`, `Unknown` (an `ok` nobody confirms included), `Maintenance`, `Ok`, in that order |
| `Display.NodeStates` | crates/yagra-alert/src/engine.rs:626-641 | the fleet-wide roll-up shows every node its worst contribution, and no other node |
| `Display.NodeStatesFor` | crates/yagra-alert/src/engine.rs:659-685 | the paged roll-up shows the same for the nodes asked |
| `Display.NodeStateAt` | crates/yagra-alert/src/engine.rs:698-717 | the single-node roll-up shows the same |
| `Display.ReadersAgree` | crates/yagra-alert/src/engine.rs:620-717 | so the three agree about every node, whatever the iteration order |
| `Display.NodeStateCounts` | crates/yagra-alert/src/engine.rs:724-730 | each count is the number of nodes showing that state, and the counts sum to the nodes reported |
| `Dispatch.OverflowFreeExactlyWhenTheLongestFits` | crates/yagra-alert/src/notify.rs:395-398 | no backoff shifts or multiplies past 64 bits exactly when the longest one fits; the default policy's does |
| `Dispatch.DeliverWithRetry` | crates/yagra-alert/src/notify.rs:356-406 | for every policy and channel behaviour the report and the time slept are those of the first attempt that does not fail; a backoff past 64 bits wraps |
| `Dispatch.DeliveredAfterFailures` | crates/yagra-alert/src/notify.rs:356-406 | delivery at attempt n records n - 1 failures then one success and, where no wait overflows, sleeps base * (2^(n-1) - 1); a failure records every attempt |
| `Dispatch.ADeadChannelIsTriedThrice` | crates/yagra-alert/src/notify.rs:239-246 | under the default policy a channel that always fails is tried three times, sleeping 1500 ms in all |
| `Dispatch.NoAttemptsExactlyWhenSkipped` | crates/yagra-alert/src/notify.rs:365-375 | no attempt is recorded exactly when a resolve ends in nothing to send, however late |
| `Dispatch.FailureIsLostExactlyWhen` | crates/yagra-alert/src/notify.rs:271-277 | an empty list means that no failed request was lost exactly when the first answer is nothing to send |
| `Dispatch.NoChannelLosesAFailure` | crates/yagra-core/src/alerts/notify.rs:902-932 | over every channel there is, fan-outs included, the documentation holds: a resolve lists no attempt exactly when nothing has an incident to close, and no failure is lost |
| `Dispatch.AFailureIsLostBeforeASkip` | crates/yagra-alert/src/notify.rs:83-100 | a channel the trait permits, and nothing implements, that loses one |
| `Dispatch.Dispatcher.Dispatch` | crates/yagra-alert/src/notify.rs:320-333 | a duplicate of an active key is suppressed without a call, and only a delivery makes a key active |
| `Dispatch.Dispatcher.DispatchResolve` | crates/yagra-alert/src/notify.rs:339-343 | the key is cleared and the resolve delivered whether or not the key was active |
| `Dispatch.Dispatcher.MarkResolved` | crates/yagra-alert/src/notify.rs:349-351 | the key is cleared |
| `Dispatch.ActiveExactlyWhenDeliveredAndNotCleared` | crates/yagra-alert/src/notify.rs:320-351 | over every call sequence a key is active exactly when a delivered fire of it has had no later resolve or mark |
| `Dispatch.NoTwoDeliveriesWithoutAClear` | crates/yagra-alert/src/notify.rs:320-351 | no two fires of a key are delivered without a resolve or a mark between them |
| `Prefs.PrefSync.constructor` | web/src/serverPrefs.ts:64-85 | the module's initial variables |
| `Prefs.PrefSync.LoadServerPrefs` | web/src/serverPrefs.ts:184-192 | a load takes the next number and the session it is asked in; without a token nothing happens |
| `Prefs.PrefSync.Adopt` | web/src/serverPrefs.ts:92-133 | field by field, what the account does not say is kept; a layout, even empty, is held |
| `Prefs.PrefSync.LoadAnswered` | web/src/serverPrefs.ts:193-212 | a reply counts only in the asking session and for the newest load; every load settles |
| `Prefs.PrefSync.ResetServerPrefs` | web/src/serverPrefs.ts:215-222 | sign-out clears the timer, the flags and the load, and starts a session |
| `Prefs.PrefSync.ScheduleSave` | web/src/serverPrefs.ts:226-230 | the timer is set, or set again, only with a supported endpoint and a token |
| `Prefs.PrefSync.SetPreference` | web/src/serverPrefs.ts:252-255 | a preference is stored here and its save queued |
| `Prefs.PrefSync.SetNodeTreeCollapsed` | web/src/serverPrefs.ts:320-325 | a pressed folder is stored, held and queued; the layout already stored does nothing |
| `Prefs.PrefSync.Send` | web/src/serverPrefs.ts:136-173 | the document left out or sent: an empty layout only when held |
| `Prefs.PrefSync.TimerFires` | web/src/serverPrefs.ts:230-243 | the save waits for the load in flight at its timer, or leaves at once |
| `Prefs.PrefSync.Resume` | web/src/serverPrefs.ts:233-241 | asked again after the wait: session, support and token |
| `Prefs.NextFollowsTheModule` | web/src/serverPrefs.ts:184-243 | the history's variables move as the module's methods move them |
| `Prefs.NextSendsWhatTheModuleSends` | web/src/serverPrefs.ts:230-243 | a step adds a send to the history exactly when the timer or the resumed save answers a document, and of that document |
| `Prefs.AnEditIsSent` | web/src/serverPrefs.ts:226-243 | with a token, support and no load in flight an edit is sent when its timer fires, with the layout this browser has |
| `Prefs.APressIsSent` | web/src/serverPrefs.ts:320-325 | so is a pressed folder, an empty layout included |
| `Prefs.AnEditStaysHere` | web/src/serverPrefs.ts:226-228 | without a token or support it changes this browser and nothing else |
| `Prefs.AnEditWaitsForTheLoad` | web/src/serverPrefs.ts:226-243 | with a load in flight it is sent once the reply has been heard, saying what the account said where it said something |
| `Prefs.OnlyTheNewestReplyIsTaken` | web/src/serverPrefs.ts:193-209 | a reply to the newest load of this session is taken field by field, any other changes nothing |
| `Prefs.ANewSessionSavesAgain` | web/src/serverPrefs.ts:215-222 | whatever failed for one account, the next sign-in saves |
| `Prefs.EveryHistoryKeepsThePromises` | web/src/serverPrefs.ts:62-85 | in every interleaving: adoption only in the asking session and from the newest load; a save only in its own session, from the last edit of its burst, after the load in flight at its timer settled; an empty layout only if the account supplied one or a folder was pressed in that session |
| `Subjects.JoinUndoesSplit` | crates/yagra-authz/src/static_account.rs:23-24 | splitting at the dots loses nothing |
| `Subjects.Covers` | crates/yagra-authz/src/static_account.rs:19-41 | the index loop with its early returns computes the recursive relation on tokens |
| `Subjects.CoveredIsMatched` | crates/yagra-authz/src/static_account.rs:19-41 | soundness: what a covered pattern matches, the covering one matches |
| `Subjects.WitnessTellsThemApart` | crates/yagra-authz/src/static_account.rs:19-41 | completeness: a constructed concrete subject when the answer is no |
| `Subjects.CoversDecidesInclusion` | crates/yagra-authz/src/static_account.rs:17-41 | for all well-formed patterns, covers holds exactly when every concrete subject of the one is matched by the other |
| `Subjects.PatternsMeanDifferentThings` | crates/yagra-authz/src/static_account.rs:17-41 | two well-formed patterns match the same concrete subjects only if they are the same string |
| `NoReading.FromItems` | crates/yagra-alert/src/no_reading.rs:48-85 | a name gets a marker exactly when every item publishing it declares that marker; the distinct values are exactly those in use |
| `NoReading.OrderDoesNotMatter` | crates/yagra-alert/src/no_reading.rs:42-85 | the table depends on which items there are, not on their order or repetition |
| `NoReading.TheFastPathNeverDecides` | crates/yagra-alert/src/no_reading.rs:87-90 | looking at the distinct values first never changes the answer |
| `NoReading.Admit` | crates/yagra-alert/src/no_reading.rs:115-140 | the two outputs are the readings and the placeholders, in order, with and without the early exit |
| `NoReading.SplitLosesNothing` | crates/yagra-alert/src/no_reading.rs:115-140 | merged back by position the two outputs are the result: nothing lost, duplicated or reordered |
| `NoReading.HalvesArePure` | crates/yagra-alert/src/no_reading.rs:115-140 | one output holds no placeholder and the other nothing else |

## Left out

- Rule resolution and precedence, maintenance windows and upgrade pauses: they arrive as parameters of an observation, a result or a release pass.
- `observe_interface_metric` and `observe_derived_metric`: they reach the engine through the same observation step; how they compute their values, their tick-based dwell and the side they publish are not modelled.
- Event rules, pool coverage, Meraki, config-push, device-replaced and config-stale callers: their alerts enter as raises and closes of an arbitrary alert.
- The freshness sweep's store queries: it closes a list of checks through `Manager.AlertManager.ResolveOrphans`, whatever the list.
- Grouping replay, the settings preview and the conversion of levels to and from numbers.
- SSE frames, titles, JSON bodies, row names, logging and metrics counters.
- Lock-level interleavings inside one observation or one re-sweep: each is atomic.
- Runs before a configuration is loaded, a restore after results have started, and node ids that come back after deletion.
- Manager.AlertManager.Observe: the memo of resolved rules is a function, and each sample carries the row name it resolves under.
- Manager.AlertManager.ObserveRows: a metric's leftover is asked for once per row rather than once per metric, which closes it at the first row either way.
- Grouping.LinkGraph.AddLink: the builders of the link graph work on values rather than in place.
- RowsExact.SkippingHealthyRowsIsExact: excludes maintenance windows, in which a row that is observed commits `Maintenance` and one that is skipped does not.
- Dispatch.DeliverWithRetry: does not model how long a channel takes to answer, because nothing decides on it; a backoff past 64 bits wraps as in a release build, where a debug build would stop.
- Prefs.PrefSync.SetPreference: the preferences other than the folder layout are one value, since the protocol treats them alike.
- Prefs.PrefSync.Adopt: dropping values of the wrong type, unknown time zones and malformed places is not modelled; a field is there or it is not.
- Subjects.CoversDecidesInclusion: does not speak of malformed patterns (an empty token, or `>` before the end), which NATS does not accept.
- Reading the allow lists out of the NATS configuration file and minting tokens.
- The rest of the WebUI, the API, storage and the pollers.
