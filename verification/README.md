# The SSNP portal and its agent: a verified model

The portal of the Symbol supernode program keeps nodes, heartbeats, probe events and evidence in an
in-memory store, derives from them each day who is qualified, how the qualified nodes rank and who is
rewarded how much, and saves the store as a snapshot.  An agent on each node enrolls with one-time
challenges and sends numbered heartbeats over a channel that loses replies.  This project models that
system in Dafny and proves what its parts keep true over whole runs.

## How the project is laid out

| files | content |
|---|---|
| `Orders`, `Texts`, `Records`, `Counting` | column orders and the one sorted arrangement of a table; texts and composite keys; the stored records; counting |
| `ProbeSummary`, `Qualification`, `Ranking`, `AntiConcentration`, `Rewards` | the daily pipeline, stage by stage: the loops as methods, proved against independent definitions |
| `Tables`, `PortalState`, `Snapshots`, `SnapshotOrder` | tables keyed by node and date, scans for the latest evidence, the store as a value, saving and loading |
| `Pipeline`, `Agreement`, `Views`, `Gradings` | the rebuild steps, what it means that stored tables agree with recomputation, and that decisions rest on stored readings |
| `Portal` | the state machine: every request, the alert scan and the restart as one step each; runs |
| `Stepping`, `Reachable`, `PortalRuns`, `Guarantees`, `ReachableRows` | what every step and every run keeps, and what follows for every reachable store: agreement with recomputation, and what stored rows say in numbers and in terms of the evidence |
| `EvidenceAgreement`, `BeatGates`, `UtcRuns`, `StaleRuns` | exactly when an accepted piece of evidence, a check or a heartbeat keeps what is stored in agreement; runs in UTC and the first other text after them |
| `Progress`, `RankedRun`, `Counterexamples` | every request can be handled; a run up to a ranked node; inputs after it at which promises fail |
| `Accounts`, `Provenance`, `HeartbeatRuns`, `EnrollmentRuns`, `AlertRuns`, `AlertCauses` | where everything in the store comes from; heartbeats, enrollments and alerts over whole runs; what alerts tell and when |
| `Store`, `Server` | the store and the handlers as objects that change in place, each proved to do what its step says |
| `ReadViews` | the status views |
| `AgentMachine`, `Agent`, `HeartbeatLink`, `JointRuns`, `AgentRuns` | the agent's state file and warnings, its methods, agent and portal over the channel, and runs of the real portal with the agent |
| `CanonicalJson` | the canonical form of signed payloads |

`dafny verify dfyconfig.toml` checks everything.

## How to read the model

- A step takes the clock reading, the outcome of each notification and each save, and the results of
  the scans as inputs, so runs range over all of them.  Where two pieces of evidence carry the same
  time, the scans may return either; `Possible` only demands that what they return is really there
  and that nothing is later.
- Times are wall-clock seconds with a zone suffix.  The store filters by the date the text starts
  with, the handlers rebuild the date in UTC; the two can differ for other zones.  What needs them to
  coincide on a date says so (`AlignedOn`, `AlignedFor`); `Guarantees.ProbeKeepsSummariesIff`,
  `EvidenceAgreement.PlacementKeepsRankingsIff` and `EvidenceAgreement.RewardEvidenceKeepsRewardsIff`
  say exactly when a write breaks the agreement.  Texts in UTC never do (`UtcRuns.UtcRunsAgree`), and
  `Counterexamples` has a reachable store and a write for each case.
- Scores, ratios and pools are exact reals.
- Dates are day numbers, and a row's key is the pair of node and date; `Texts` proves that the joined
  texts the store really uses are injective.
- Signatures, fingerprints and key formats enter as facts about a request.

## Where code and documents disagree

The model follows the code.

- `docs/specs/06_reward_model.md:20-40` lists other participation steps and other rank bands than
  `portal/internal/server/qualification.go:458-463` and `:515-528`: `Rewards.RateAsDocumentedIff` and
  `Rewards.BandAsDocumentedIff` say where the two coincide.
- `docs/specs/07_anti_concentration.md:24-27` promises backfill.  The code also lets an excluded node
  block lower ones; `AntiConcentration.BackfillHonouredIff` gives the exact condition under which the
  two agree and `BackfillGap` a ranking on which they do not.
- `docs/specs/05_scoring_and_ranking.md:28-31` names three tie-breakers.  The code compares the base
  score before them and the node id after them; among qualified nodes the base score never decides
  (`RankingRules.OrderAsDocumented`).
- `docs/specs/05_scoring_and_ranking.md:8` weighs base performance 70 to 30.  Among qualified nodes
  base scores differ by at most 1.8, so decentralization decides first
  (`RankingRules.DecentralizationDominates`).
- The heartbeat protocol has a dead end: one lost acknowledgement makes the portal refuse everything
  the agent sends until the next enrollment (`HeartbeatLink.StuckUntilEnrollment`).
- The Python client counts a failed recovery report as a portal failure, the Go client only logs it
  (`AgentMachine.RoundsDifferIff`), and it escapes texts differently from the portal
  (`CanonicalJson.PythonSignsTheSameBytesIff`).

## Model

| member | source | states |
|---|---|---|
| `Reachable.SettledOk` | portal/internal/server/qualification.go:131-149 | Any accepted request, noted and followed by the rebuild its handler triggers, leaves a well-formed store whose summaries, base records, rankings, eligibility and allocations agree again and whose decisions rest on the stored checks, voting keys, heartbeats and registration times; no other rebuild is needed |
| `Reachable.NotedLeaves` | portal/internal/server/evidence_write_handlers.go:157-157 | Each accepted event leaves to be rebuilt at most what its own handler rebuilds: one node's grades, one date's ranking, or one date's rewards |
| `Reachable.RebuildSettles` | portal/internal/server/qualification.go:250-305 | Each kind of rebuild settles exactly what was left to it, on every date |
| `PortalRuns.RunOk` | portal/internal/server/qualification.go:131-148 | Every run of requests, alert scans, lost saves and restarts keeps the store well formed and its tables in agreement, in memory and in the last snapshot |
| `PortalRuns.StepOk` | portal/internal/server/agent_handlers.go:214-217 | One step of any kind keeps this, whatever is saved or lost on the way |
| `Guarantees.ReachableViewsAgree` | portal/internal/server/qualification.go:131-148 | In every reachable store: decisions rest on stored checks, voting keys, heartbeats and registration times, base records exist exactly for qualified decisions and follow from them, and for every date whose time texts denote moments of it, summaries equal a recount of the stored probes and ranking, eligibility and allocations are those a rebuild would give |
| `Guarantees.ReachableRebuildChangesNothing` | portal/internal/server/qualification.go:250-305 | When also no two pieces of evidence about a node share a time, rebuilding such a date changes nothing but the copied group |
| `Guarantees.ProbeKeepsSummariesIff` | portal/internal/server/qualification.go:97-103 | An accepted probe keeps every stored summary equal to the recount if and only if its time text names its UTC date or no summary is stored for the date the text names (the store filters by text prefix, the rebuild by UTC date) |
| `Gradings.EventKeepsSources` | portal/internal/server/agent_handlers.go:316-320 | Each accepted event disturbs only the readings of the node and date that its handler re-grades |
| `Gradings.GroundedIsShown` | portal/internal/server/qualification.go:151-221 | For a decision that rests on stored readings, the hardware and voting-key gates are those of the latest stored check and key, a passed heartbeat gate rests on two stored heartbeats at most 900 seconds before one anchor within the date, and a qualified node passed all gates and was registered 259200 seconds before that anchor |
| `Guarantees.ReachableBaseRecords` | portal/internal/server/qualification.go:164-206 | In every reachable store a base record rests on a registration at least 259200 seconds, and on two stored heartbeats at most 900 seconds, before one anchor not after the end of its date |
| `ReachableRows.BaseRecordsInNumbers` | portal/internal/server/qualification.go:223-248 | The same with the anchor in nanoseconds, and the points of the record in terms of the counts of its summary: 30 for the probes that found the node up, 20 and 10 for the lags within their limits, 10 for the voting key |
| `ReachableRows.DecisionsInSeconds` | portal/internal/server/qualification.go:151-221 | Each decision of a reachable store: its gates and, if qualified, everything they rest on, for one moment not after the last second of the date, with every duration in seconds |
| `ReachableRows.RegradedInNumbers` | portal/internal/server/qualification.go:131-149 | After any accepted heartbeat, check, probe or voting key the decision of the node and date lists exactly what the store holds against the node at that moment, in order, and the node has a base record exactly if that is nothing |
| `ReachableRows.SummariesAddUp` | portal/internal/server/qualification.go:42-62 | Every summary of a reachable store has the ratios of its counts, each gate at its own threshold in whole numbers, and names what is missing in order |
| `EvidenceAgreement.CurrentIffPoints` | portal/internal/server/qualification.go:250-305 | A ranking that was current stays current under other evidence if and only if the stored points are those of that evidence |
| `EvidenceAgreement.PlacementKeepsRankingsIff` | portal/internal/server/evidence_write_handlers.go:218-220 | An accepted placement keeps the rankings of all dates current if and only if its time text names its UTC date, or its node has no base record on the date it names, or a stored placement there is at least as late, or it is inert there: its country and infrastructure earn its node what the old ones did, and neither takes points from another node nor gives it any |
| `EvidenceAgreement.RewardEvidenceKeepsRewardsIff` | portal/internal/server/evidence_write_handlers.go:270-272 | Accepted group, domain or control-plane evidence keeps the rewards of all dates current if and only if its time text names its UTC date or the node's new claim on the date it names is inert: it gives the node the same group and exclusion, and every lower-ranked node whose group, domain or control plane nobody else above it takes is overlapped as before |
| `EvidenceAgreement.UnmovedIffInert` | portal/internal/server/qualification.go:308-340 | Replacing one node's placement leaves all points as they are if and only if the new one is inert: pairwise conditions on its own country and infrastructure |
| `EvidenceAgreement.AlikeIffInert` | portal/internal/server/qualification.go:371-432 | Replacing one node's claim leaves all groups and exclusions as they are if and only if the new claim is inert |
| `EvidenceAgreement.CheckKeepsHardwareIff` | portal/internal/server/agent_handlers.go:316-320 | An accepted check keeps the hardware gates of all stored decisions those of the latest checks if and only if its time text names its UTC date, or no decision is stored for the date it names, or a stored check there is at least as late, or it says what that decision says |
| `EvidenceAgreement.VotingKeyKeepsGatesIff` | portal/internal/server/evidence_write_handlers.go:64-66 | The same for voting keys |
| `UtcRuns.UtcGatesCurrent` | portal/internal/server/qualification.go:178-198 | In every run in UTC with determined checks and voting keys, the hardware and voting-key gates of every stored decision are those of the latest stored ones |
| `UtcRuns.UtcRunsAgree` | portal/internal/server/qualification.go:97-103 | In every run whose probe, check and evidence times are in UTC (with Z or a zero offset), every summary equals the recount and every date's ranking and rewards are what a rebuild gives, without any condition |
| `UtcRuns.ReachablePlacementKeepsRankingsIff` | portal/internal/server/evidence_write_handlers.go:218-220 | After any such run, the next accepted placement keeps all rankings current if and only if it is harmless in the four ways above |
| `UtcRuns.ReachableEvidenceKeepsRewardsIff` | portal/internal/server/evidence_write_handlers.go:270-272 | After any such run, the next accepted group, domain or control-plane evidence keeps all rewards current if and only if it is harmless |
| `StaleRuns.ReachableProbeKeepsSummariesIff` | portal/internal/server/probe_handlers.go:105-110 | After any such run, the next accepted probe keeps all summaries equal to the recount if and only if its time text names its UTC date or no summary is stored for the date it names |
| `StaleRuns.ReachableCheckKeepsHardwareIff` | portal/internal/server/agent_handlers.go:316-320 | After any such run, with distinct times, the next accepted check keeps all hardware gates current if and only if it is harmless |
| `StaleRuns.ReachableKeyKeepsGatesIff` | portal/internal/server/evidence_write_handlers.go:64-66 | The same for voting keys |
| `StaleRuns.UnalignedPlacementStales` | portal/internal/server/evidence_write_handlers.go:218-220 | After any such run, an accepted placement whose time text names another date than its UTC date, on which its node is ranked without placement and no ranked node is in its country, leaves that date's ranking other than the stored evidence gives |
| `StaleRuns.UnalignedGroupStales` | portal/internal/server/evidence_write_handlers.go:157-157 | After any such run, an accepted group whose time text names another date, on which its node is ranked without group evidence and counts as another group, leaves that date's rewards other than the stored evidence gives |
| `Progress.EveryRequestPossible` | portal/internal/server/qualification.go:250-305 | In every store and whatever the clock and the outcome of notifications and saves, every request can be handled: its scans have something to find |
| `Progress.StepLeavesSettled` | portal/internal/server/agent_handlers.go:152-220 | After any accepted request the store is the noted and rebuilt one but for alerts and telemetry |
| `RankedRun.NodeGetsRanked` | portal/internal/server/qualification.go:151-221 | A run from the first start - a challenge, an enrollment, and 72 hours later two probes from two regions, a passed check, a voting key and two heartbeats - after which the store holds exactly these events, the node is qualified and has its base record, and every ranking row of the date is of its node's own group |
| `Counterexamples.ProbeLeavesSummaryStale` | portal/internal/server/qualification.go:97-103 | After that run, a probe at 23:00 two hours behind UTC, sent an hour into the next UTC date, leaves the summary of the date it names other than the recount |
| `Counterexamples.CheckLeavesHardwareStale` | portal/internal/server/agent_handlers.go:316-320 | After that run, a failed check with such a time text leaves the hardware gate of that date passed |
| `Counterexamples.KeyLeavesGateStale` | portal/internal/server/evidence_write_handlers.go:64-66 | After that run, evidence of a missing voting key with such a time text leaves the voting-key gate of that date passed |
| `Counterexamples.PlacementLeavesRankingStale` | portal/internal/store/node_and_events.go:102-104 | After that run, a placement with such a time text leaves that date's ranking other than the stored evidence gives |
| `Counterexamples.GroupLeavesRewardsStale` | portal/internal/store/qualification_views.go:231-233 | After that run, an operator group with such a time text leaves that date's rewards other than the stored evidence gives |
| `BeatGates.BeatKeepsGatesIff` | portal/internal/server/agent_handlers.go:209-215 | If all stored heartbeat gates are as they would be graded now, they still are after an accepted heartbeat if and only if it is not the node's second one of the last fifteen minutes for a decided date later than its own |
| `BeatGates.BeatKeepsGateIff` | portal/internal/server/agent_handlers.go:209-215 | Each stored heartbeat gate after an accepted heartbeat: that of its own node and UTC date is as graded now, any other exactly if either it was before or the heartbeat opens it, not both |
| `Counterexamples.BeatLeavesGateStale` | portal/internal/server/qualification.go:164-168 | A run and a second heartbeat stamped one second before midnight that the handler counts for the date before, while the later date's gate stays closed with two heartbeats in its window |
| `Guarantees.ReachableRowsExist` | portal/internal/server/qualification.go:131-141 | In every reachable store a base record, ranking row and eligibility row exist exactly for qualified decisions, and an allocation exactly for ranks up to 2^30 |
| `Guarantees.ReachableRewardsConserved` | portal/internal/server/qualification.go:439-513 | In every reachable store and for every date, stored rewards plus pools of bands without a rewarded node plus the reserve are the nominal pool; the distributed part is 0.3, 0.5, 0.75 or all of it for up to 24, 49, 99 or more ranked nodes; and at least a quarter of it is paid when anyone is ranked |
| `ReachableRows.AllocationsAddUp` | portal/internal/server/qualification.go:464-512 | Each stored allocation adds up by its own columns: the part of the pool for so many ranked nodes, the reserve, the label and share of its rank's band, the number of rewarded rows of the band, and the equal share it gets exactly if the eligibility row rewards it |
| `ReachableRows.PoolOfDateAddsUp` | portal/internal/server/qualification.go:464-512 | What the stored rows of a date pay, the shares of the bands none of whose rows is rewarded, and the reserve that the rows show are the nominal pool |
| `Guarantees.ReachableEligibility` | portal/internal/server/qualification.go:372-437 | In every reachable store a ranked node is excluded for a group that a higher-ranked node goes by (named by accepted evidence, else copied, else its own), else for a domain, else for a control plane that both are accepted for, and else rewarded; and its row names what it was excluded for |
| `ReachableRows.UnacceptedChangesNothing` | portal/internal/server/qualification.go:380-408 | Dropping any pending or rejected group or control plane from that evidence would change no stored row |
| `Guarantees.ReachableRanking` | portal/internal/server/qualification.go:250-305 | In every reachable store ranks are 1..n over the base records of the date, totals are 0.7 of the base score and 0.3 of the points and lie in [47.74, 58], and of two rows the higher one has more points, or at a tie the larger base, finalization, availability score, or where all tie the earlier registration, none being last, and at last the smaller node id as a text |
| `ReachableRows.RerankedGroups` | portal/internal/server/qualification.go:278-303 | Each row of a re-ranked date copies the group that the latest evidence shows, accepted or not, or the node's own id |
| `Guarantees.ReachablePoints` | portal/internal/server/qualification.go:307-340 | In every reachable store, for a date with aligned and determined placements, a ranked node's stored decentralization points equal the pairwise definition if and only if no bar in a provider id makes it lose points |
| `Guarantees.ReachablePaidNoLessIff` | portal/internal/server/qualification.go:464-512 | In every reachable store, of any two stored allocations of a date the first pays no less if and only if the second node is not rewarded, or the first is and its band's share per rewarded node is no smaller |
| `Guarantees.ReachableStoreReloads` | portal/internal/store/snapshot.go:140-320 | Every reachable store is accepted by the loader over the same configured nodes, comes back equal up to the order of the heartbeat log, and saves to the identical snapshot |
| `Guarantees.ReachableRestartSucceeds` | portal/internal/store/snapshot.go:77-97 | A restart at any moment succeeds and comes back to exactly the last saved store |
| `ReadViews.ReachableStatus` | portal/internal/server/read_views.go:21-78 | Every status of a reachable store shows a rank exactly for a qualified node, eligibility exactly for a ranked node without exclusion, the right reason and never the fallback reasons; the operator's view shows each gate passed exactly if nothing is listed against it, and the reward row's group and exclusion |
| `ProbeSummary.ComputeDailySummary` | portal/internal/server/qualification.go:13-88 | One pass over the probes of the day, in any order, gives the summary of a recount by sets of stored probes |
| `ProbeSummary.CountEvents` | portal/internal/server/qualification.go:15-45 | The counting loop: six counters and the set of regions |
| `ProbeSummary.SummaryCountsOrdered` | portal/internal/server/probe_handlers.go:80-83 | Over accepted probes: within <= measurable = up <= valid for both lags, and missing chain-lag evidence is never the reason |
| `ProbeSummary.EvidencePassedInNumbers` | portal/internal/server/qualification.go:47-84 | Probe evidence passes exactly with two regions, 99 % of all probes up and 95 % of the measured lags within their limits |
| `ProbeSummary.ColumnsCountProbes` | portal/internal/server/qualification.go:14-45 | Each column of a summary counts stored probes of the node whose time text names the date: all, those up, those with each lag measured, and their regions |
| `ProbeSummary.LagColumnsCountProbes` | portal/internal/server/qualification.go:28-39 | The columns within the limits count those whose own lag is at most its own limit |
| `ProbeSummary.GoodProbeKeepsEvidence` | portal/internal/server/qualification.go:23-84 | One more probe that is up and within both limits never turns passed evidence into failed |
| `ProbeSummary.OtherSummariesUnchanged` | portal/internal/store/node_and_events.go:175-195 | A stored probe changes no recount but that of its node and text date |
| `ProbeSummary.StoredProbeChangesSummary` | portal/internal/store/node_and_events.go:175-195 | A stored probe always changes the recount of its node and text date, so a summary kept from before is stale |
| `Qualification.ComputeQualifiedDecision` | portal/internal/server/qualification.go:151-221 | The five gates in turn build the decision and its failure list; it qualifies exactly with passed probe evidence, two healthy heartbeats, a passed check, a valid key and 259200 seconds of registration, and exactly with an empty list |
| `Qualification.CountHeartbeatsWithinWindow` | portal/internal/server/qualification.go:117-129 | Counts the node's heartbeats not after the anchor and within the window |
| `Qualification.QualifiedIffAllGates` | portal/internal/server/qualification.go:151-221 | A node is qualified exactly when probe evidence passed, two different heartbeats are at most 900 seconds old, the latest check passed, the latest voting key is present and valid, and 259200 seconds have passed since registration; exactly then nothing is listed against it |
| `Qualification.DecisionInNumbers` | portal/internal/server/qualification.go:151-221 | The failure list is exactly what is held against the node, in order, with every duration in seconds: two heartbeats within 900, stale rather than missing with one within 1800, registered for 259200 |
| `Qualification.ObservationBoundary` | portal/internal/server/qualification.go:200-206 | A node that passes the other gates qualifies 259200 seconds after its registration, and one second earlier only the observation window is held against it |
| `Qualification.AnchorInNumbers` | portal/internal/server/qualification.go:105-115 | A date is judged at the earlier of now and its last second |
| `Qualification.ScoreInNumbers` | portal/internal/server/qualification.go:223-248 | The columns of a qualified node's base score in terms of the counts of its summary |
| `Qualification.QualifiedScoreWindow` | portal/internal/server/qualification.go:223-248 | A qualified node's base score lies in [68.2, 70] and no clamp acts on its columns |
| `RankingRules.ComputeDecentralizationScores` | portal/internal/server/qualification.go:307-340 | The two passes give each node the points of the counts over the first pass's evidence |
| `RankingRules.CountPlacements` | portal/internal/server/qualification.go:309-321 | The first pass counts countries and infrastructures |
| `RankingRules.ScoresArePairwiseIff` | portal/internal/server/qualification.go:307-340 | A node's points are pairwise - 20 exactly when no other ranked node with evidence is in the country, 10 exactly when none has the same ASN, provider and infrastructure - if and only if, whenever another node is counted on its infrastructure, some other node really is on it |
| `RankingRules.ScoresArePairwise` | portal/internal/server/qualification.go:307-340 | In particular they are whenever no provider id holds a bar |
| `RankingRules.OrderAsDocumented` | docs/specs/05_scoring_and_ranking.md:25-31 | Ranked nodes come in the documented order - larger total, then larger finalization, larger availability, earlier registration - since where totals tie so do base scores, so the additional comparison of base scores never decides |
| `RankingRules.RankBeforeIsLexicographic` | portal/internal/server/qualification.go:253-277 | The nested comparison is the lexicographic order of its columns: the larger total, base, finalization and availability score first, then the earlier registration time and none last, then the node id that comes first as a text |
| `RankingRules.TiesInNumbers` | portal/internal/server/qualification.go:262-276 | Between nodes that tie in every score the one with the smaller registration time precedes, one without comes last, and with equal times the smaller id as a text |
| `Orders.TextLessIff` | portal/internal/server/qualification.go:268-268 | One text precedes another exactly if it is a proper beginning of it or has the smaller character where they first differ |
| `RankingRules.RankBeforeStrictTotal` | portal/internal/server/qualification.go:253-277 | The comparison is irreflexive, transitive and never ties two nodes |
| `RankingRules.DecentralizationDominates` | portal/internal/server/qualification.go:253-277 | Between ranked nodes, comparing totals is comparing decentralization first, then the base score; totals lie in [47.74, 58] and the clamp never acts |
| `RankingRules.RankedOrderUnique` | portal/internal/server/qualification.go:253-277 | Sorting gives the same ranking whatever order the records were listed in |
| `RankingRules.RankedOrderObeysComparison` | portal/internal/server/qualification.go:253-277 | Every ranked node precedes every lower one in the portal's comparison |
| `RankingRules.RankedOrderDependsOnRanked` | portal/internal/server/qualification.go:260-267 | The ranking depends only on the points and registration times of the ranked nodes |
| `RankingRules.RankRowsAreRanked` | portal/internal/server/qualification.go:278-303 | Ranks are exactly 1..n, one row per node, all of the date |
| `Texts.InfraKeyEqualIff` | portal/internal/server/qualification.go:319-320 | Two infrastructures are counted as one if and only if the ASN is the same and provider and infrastructure glued with a bar are |
| `Counterexamples.BarCostsPoints` | portal/internal/server/qualification.go:319-337 | Two accepted placements on different infrastructures whose bars make them count as one: both nodes get 20 points instead of 30 |
| `AntiConcentration.FilterClaims` | portal/internal/server/qualification.go:372-437 | The greedy pass with its three seen-sets computes the closed form: the exclusion reason is the first of group, domain and control plane that a higher-ranked node also has |
| `AntiConcentration.EligibleIffNoHigherOverlap` | portal/internal/server/qualification.go:378-434 | Rewarded exactly when no higher-ranked node, rewarded or not, overlaps |
| `AntiConcentration.FilterGuarantees` | docs/specs/07_anti_concentration.md:17-18 | At most one rewarded node per group, domain and control plane; the first ranked node is always rewarded; lower ranks influence nothing above them |
| `AntiConcentration.ExclusionInEvidence` | portal/internal/server/qualification.go:378-434 | Each row in terms of the evidence of its node and of those above: groups named by accepted evidence, domains without case and blanks, control planes that both are accepted for |
| `AntiConcentration.ExclusionNamed` | portal/internal/server/qualification.go:386-417 | An excluded row names the group, domain, or control plane with its classification, and nothing else |
| `AntiConcentration.UnacceptedCountsForNothing` | portal/internal/server/qualification.go:380-408 | Without any of the pending or rejected groups and control planes every row is the same |
| `AntiConcentration.EligibleIsKept` | portal/internal/server/qualification.go:391-417 | Whoever the portal rewards, the documented backfill rule would reward too |
| `AntiConcentration.BackfillHonouredIff` | docs/specs/07_anti_concentration.md:24-27 | The portal follows the documented backfill rule if and only if every node that a higher one overlaps is overlapped by a higher one that none overlaps |
| `AntiConcentration.BackfillGap` | portal/internal/server/qualification.go:398-407 | A ranking of three on which an independent node is not backfilled |
| `Rewards.AllocateRewards` | portal/internal/server/qualification.go:439-513 | The band loops produce the allocation rows of all bands in turn, and on a ranked list every row adds up by its own columns |
| `Rewards.RewardsConserved` | portal/internal/server/qualification.go:464-512 | Rewards, pools of bands without a rewarded node and reserve add up to the nominal pool, for every ranking and every outcome of the filter |
| `Rewards.AllocationClosedForm` | portal/internal/server/qualification.go:464-512 | On a ranked list, row i belongs to the i-th node and is computed from the band of its rank |
| `Rewards.RowInNumbers` | portal/internal/server/qualification.go:458-512 | On a ranked list each row shows the part of the pool for so many ranked nodes, the reserve, the label, share and pool of its rank's band, how many of the band are rewarded, and the equal share of a rewarded node |
| `Rewards.PoolAddsUp` | portal/internal/server/qualification.go:464-512 | What the rows pay, the shares of the bands without a rewarded row, and the reserve that the rows show are the nominal pool |
| `Rewards.EveryRankedNodeAllocatedIff` | portal/internal/server/qualification.go:462-462 | Every ranked node gets its one allocation exactly when there are at most 2^30 of them |
| `Rewards.RewardFloor` | portal/internal/server/qualification.go:458-490 | A rewarded node of ranks 1-5, 6-20, 21-50 gets at least 1/20, 7/300, 1/120 of the distributed pool |
| `Rewards.QuarterAlwaysPaid` | portal/internal/server/qualification.go:464-512 | With the first node rewarded, at least a quarter of the distributed pool is paid |
| `Rewards.PaidNoLessIff` | portal/internal/server/qualification.go:464-512 | For any two ranks: the first is paid no less if and only if the second is not rewarded, or the first is and its band's share per rewarded node is no smaller (cross-multiplied) |
| `Rewards.PaysByRankIff` | portal/internal/server/qualification.go:464-512 | Rewards are monotone in rank over the whole list if and only if no band with a rewarded node has a smaller share per rewarded node than a later one |
| `Rewards.LastOutearnsFirst` | portal/internal/server/qualification.go:458-484 | A family where they are not: with 51 rewarded nodes the last outearns the first |
| `Rewards.RateAsDocumentedIff` | docs/specs/06_reward_model.md:20-29 | The distributed part of the pool is the documented one if and only if at most 9 or at least 100 nodes are ranked; it is smaller by 0.20 for 10-19 and 25-29, 0.40 for 20-24, 0.35 for 30-39, 0.45 for 40-49 and 0.25 for 50-99 |
| `Rewards.BandAsDocumentedIff` | docs/specs/06_reward_model.md:35-40 | A rank's band is the documented one if and only if the rank is at most 5 |
| `Rewards.IndexByNode` | portal/internal/server/read_views.go:13-19 | The index loop keeps the last row of each node |
| `Tables.ReplaceForDate` | portal/internal/store/qualification_views.go:93-104 | Deleting the rows of a date and storing the new ones gives the other dates' rows plus the new ones |
| `Tables.ListByDate` | portal/internal/store/qualification_views.go:106-123 | The listing of a date is its one sorted enumeration, whatever the iteration order |
| `Tables.ReplaceThenList` | portal/internal/store/qualification_views.go:93-123 | Listing a date after replacing it returns exactly the rows that were stored |
| `Tables.ReplacedDates` | portal/internal/store/qualification_views.go:93-104 | Replacing a date stores exactly the new rows under it and leaves every other date unchanged |
| `Pipeline.RankedListKeeps` | portal/internal/server/evidence_write_handlers.go:157-157 | A 1..n ranked list is stored and listed back unchanged, so evidence handlers rebuild from the list the ranking step passed on |
| `Tables.LatestFor` | portal/internal/store/qualification_views.go:302-320 | The scan returns a candidate that no other candidate is later than, or none if there is none |
| `Tables.LatestShowsLast` | portal/internal/store/qualification_views.go:302-320 | The one found shows the latest time of the date, and of those the suffix that comes last as a text |
| `Tables.LatestUnique` | portal/internal/store/qualification_views.go:302-320 | When no two observations of a node share a time, every scan order finds the same one |
| `Tables.LatestUnaffected` | portal/internal/store/qualification_views.go:302-320 | An observation about another node or text date does not change what is latest |
| `Records.StampsCompareAsTexts` | portal/internal/store/node_and_events.go:106-106 | Time texts of one length compare by the time they show and then by their zone suffixes as texts |
| `Records.StampsInSeconds` | portal/internal/server/qualification.go:97-103 | The shown time is the moment plus the offset, and dates are days of 86400 seconds |
| `Texts.TableKeyInjective` | portal/internal/store/qualification_views.go:8-30 | NUL-joined node and date keys never collide, even for node ids that contain NUL |
| `Texts.AlertKeyInjective` | portal/internal/store/node_and_events.go:313-315 | Alert keys never collide for codes and severities without NUL |
| `Texts.ChallengeIdInjective` | portal/internal/server/agent_handlers.go:57-57 | Two challenge ids are equal only for the same node and nanosecond |
| `Texts.NumeralDenotes` | portal/internal/server/agent_handlers.go:57-57 | The decimal text of a number denotes it and has no leading zero |
| `Texts.TrimTakesBlanks` | portal/internal/server/evidence_write_handlers.go:184-186 | Trimming takes blanks off both ends and nothing else |
| `Texts.CasesAgree` | portal/internal/server/evidence_write_handlers.go:184-184 | Lower and upper case agree on which texts are the same, and change letters only |
| `Agreement.RankingStepEstablishes` | portal/internal/server/qualification.go:250-305 | After a re-ranking the whole date agrees with the evidence and every other date is as before |
| `Agreement.EligibilityStepEstablishes` | portal/internal/server/qualification.go:372-437 | After a reward rebuild from the stored ranking the date's rewards agree and every other date is as before |
| `Agreement.RankingKept` | portal/internal/server/agent_handlers.go:133-135 | A ranking stays right as long as the date's placements, base records and its nodes' registration times stay |
| `Views.ArtifactsRebuilt` | portal/internal/server/qualification.go:131-141 | Re-grading a node and re-ranking its date settles everything a noted event left open |
| `Views.ProbeNoted` | portal/internal/server/probe_handlers.go:85-110 | A stored probe leaves only the summary of its node and UTC date to be rebuilt |
| `Views.PlacementNoted` | portal/internal/server/evidence_write_handlers.go:218-220 | Stored placement evidence leaves only the ranking of its UTC date to be rebuilt |
| `Views.RewardEvidenceNoted` | portal/internal/server/evidence_write_handlers.go:270-272 | Stored domain, group or control-plane evidence leaves only the rewards of its UTC date to be rebuilt |
| `Snapshots.SnapshotRoundTrip` | portal/internal/store/snapshot.go:140-539 | Every well-formed store loads back over its seed to itself, up to the order of the heartbeat log, and saves to the identical snapshot |
| `Snapshots.MergingRestores` | portal/internal/store/snapshot.go:149-165 | Merging the saved runtime fields over the configured nodes gives every node back whole, since configured fields never change |
| `Snapshots.MergingKeepsConfiguration` | portal/internal/store/snapshot.go:149-165 | Whatever a snapshot says, the configured fields of every node stay the configured ones |
| `SnapshotOrder.SnapshotAscends` | portal/internal/store/snapshot.go:325-539 | In a saved snapshot nodes and referenced rows ascend by id, daily rows by date and node or rank, warnings and alert states by node and code, heartbeats by time text, node and number; the other logs are as they are |
| `StoreMemory.Store.TakeSnapshot` | portal/internal/store/snapshot.go:322-539 | The snapshot is each table in its one sorted order, the heartbeat log sorted, the other logs copied |
| `StoreMemory.Store.ApplySnapshot` | portal/internal/store/snapshot.go:140-320 | Succeeds exactly when every row belongs to a configured node, and then the store is the loaded one |
| `StoreMemory.Load` | portal/internal/store/snapshot.go:77-97 | Loading fails exactly on a snapshot with a row of an unknown node |
| `StoreMemory.Store.ListProbeEventsByNodeAndDate` | portal/internal/store/node_and_events.go:175-195 | Lists exactly the probes of the node whose time text starts with the date, each once, the latest first and then by id |
| `StoreMemory.Store.ConsumeEnrollmentChallenge` | portal/internal/store/node_and_events.go:47-57 | Marks a known challenge used and leaves everything else alone |
| `StoreMemory.Store.ReplaceRankingRecordsForDate` | portal/internal/store/qualification_views.go:93-104 | Replaces the date's ranking rows and nothing else |
| `PortalServer.Server.HandleEnrollmentChallenge` | portal/internal/server/agent_handlers.go:35-73 | The handler's effect and reply are those of the state machine's step |
| `PortalServer.Server.HandleEnroll` | portal/internal/server/agent_handlers.go:75-150 | The same for enrollment: checks in order, node fields, challenge consumed |
| `PortalServer.Server.HandleHeartbeat` | portal/internal/server/agent_handlers.go:152-220 | The same for heartbeats: checks in order, node fields, event, re-grading, save |
| `PortalServer.Server.HandleChecks` | portal/internal/server/agent_handlers.go:222-332 | The same for hardware checks, including the duplicate refusal |
| `PortalServer.Server.HandleTelemetry` | portal/internal/server/agent_handlers.go:334-398 | The same for telemetry: flags in turn, and what was stored before a refusal stays stored |
| `PortalServer.Server.HandleProbeEvents` | portal/internal/server/probe_handlers.go:11-121 | The same for probes |
| `PortalServer.Server.HandleEvidence` | portal/internal/server/evidence_write_handlers.go:11-353 | The same for the five kinds of evidence, each with the rebuild it triggers |
| `PortalServer.Server.EvaluateHeartbeatAlerts` | portal/internal/server/alerts.go:29-50 | The scan over all nodes in order is the state machine's scan |
| `PortalServer.Server.MaybeNotifyAlert` | portal/internal/server/alerts.go:52-124 | Cooldown, missing recipient, failed and successful delivery, each with what it records and saves |
| `PortalServer.Server.UpdateQualificationArtifacts` | portal/internal/server/qualification.go:131-149 | Grades the node, re-ranks the date and raises the two alerts, with the latest evidence it finds |
| `PortalServer.Server.RebuildRankings` | portal/internal/server/qualification.go:250-305 | Two lookups per node for the points, one for the group; the stored ranking is the unique sorted one and the rewards are rebuilt from it |
| `PortalServer.Server.RebuildRewardEligibility` | portal/internal/server/qualification.go:372-437 | Looks the evidence up per ranked node and stores the filter's rows and the allocations |
| `HeartbeatRuns.AcknowledgedAtMostOnce` | portal/internal/server/agent_handlers.go:199-217 | In every run, with lost saves and restarts anywhere, acknowledged heartbeats of a node strictly increase in generation and sequence number |
| `HeartbeatRuns.AcceptedAtMostOnce` | portal/internal/server/agent_handlers.go:199-206 | In every run that restarts only from a current save, no heartbeat is accepted twice, and the last sequence number is the greatest accepted in the current generation, or zero |
| `HeartbeatRuns.ReplayAcceptedIff` | portal/internal/store/snapshot.go:149-165 | After an accepted heartbeat and a restart the same request is accepted again if and only if neither the handler's save nor that of an alert it raised outside the cooldown succeeded |
| `EnrollmentRuns.EnrollmentAccounting` | portal/internal/server/agent_handlers.go:98-139 | In every run in which no used challenge id is issued again: no challenge has two acknowledged enrollments, a node's generation is the number of its used challenges, and it is registered exactly when it has enrolled |
| `EnrollmentRuns.ChallengesEnrollOnce` | portal/internal/server/agent_handlers.go:111-114 | In every such run that restarts only from a current save, no challenge is good for two accepted enrollments, acknowledged or not |
| `EnrollmentRuns.SavedRegistrationNeverChanges` | portal/internal/server/agent_handlers.go:133-135 | A registration time in the last save never changes in any continuation, in memory or on disk, with lost saves and restarts anywhere |
| `EnrollmentRuns.RegistrationSurvivesIff` | portal/internal/server/agent_handlers.go:133-141 | A first registration accepted from a saved store survives a restart if and only if it was saved |
| `EnrollmentRuns.IssueKeepsAccountsIff` | portal/internal/server/agent_handlers.go:55-62 | Issuing a challenge keeps the accounts if and only if its id is not that of a used challenge |
| `EnrollmentRuns.RegistrationNeverChanges` | portal/internal/server/agent_handlers.go:133-135 | Once set, saved or not, a registration time never changes in any continuation that restarts only from a current save |
| `Accounts.HandlesAccounts` | portal/internal/server/agent_handlers.go:75-150 | What any handler can do to nodes and challenges, in memory and on disk |
| `Provenance.AcceptedIffGenuine` | portal/internal/server/agent_handlers.go:152-203 | A request is accepted if and only if it is complete and well-formed, from a known node, signed under the enrolled key if an agent sends it, within the clock skew, and no repetition: one condition for each kind of request |
| `Provenance.EverythingWasSent` | portal/internal/server/agent_handlers.go:204-211 | In every run everything that the store or its last save holds - challenges, heartbeats, checks, probes, evidence, field by field - was brought by an event of the run that was genuine when it came |
| `Provenance.StoreHoldsExactly` | portal/internal/server/agent_handlers.go:204-211 | After one more event the store holds what it held and what a genuine event brought: nothing is lost and nothing else appears, unless the portal restarts from its last save |
| `Provenance.NodesAfter` | portal/internal/server/agent_handlers.go:130-139 | What each step does to nodes and challenges: an enrollment starts the next generation under the new key from number zero, registers only the first time and uses up its challenge; a heartbeat moves its node's number and time; nothing else changes a node |
| `Provenance.CountedBeatsGenuine` | portal/internal/server/agent_handlers.go:171-203 | In every run each counted heartbeat was signed under the enrolled key, within the skew, of the node's generation and beyond its last number |
| `Provenance.EnrollmentsAnswerChallenges` | portal/internal/server/agent_handlers.go:98-115 | In every run each counted enrollment answers, signed, a challenge that an earlier event issued to the node, and comes before the challenge's time is over |
| `Provenance.HeartbeatRefusals` | portal/internal/server/agent_handlers.go:171-203 | Which refusal a heartbeat gets, and exactly when |
| `Provenance.EnrollmentRefusals` | portal/internal/server/agent_handlers.go:89-129 | Which refusal an enrollment gets, and exactly when |
| `Provenance.RepetitionsRefused` | portal/internal/server/agent_handlers.go:307-315 | A check or probe is refused as a repetition exactly if it is genuine but for its id being taken |
| `Provenance.EvidenceRepetitionRefused` | portal/internal/server/evidence_write_handlers.go:52-63 | The same for evidence of each kind |
| `AlertRuns.ReachableAlertsSpaced` | portal/internal/server/alerts.go:52-100 | In every run the stored alert states are the last sent deliveries of the log, and recorded times of sent deliveries of one alert are at least its cooldown apart |
| `AlertRuns.SendsApart` | portal/internal/server/alerts.go:54-59 | In every run that restarts only from a current save, real sends of one alert are more than the cooldown minus one second apart, with no assumption on the clock |
| `AlertRuns.SendRememberedIff` | portal/internal/server/alerts.go:82-100 | After a send and a restart the cooldown is in force if and only if the send was saved |
| `AlertCauses.DeliveriesApart` | portal/internal/server/alerts.go:126-142 | In every run the recorded times of sent deliveries of one alert are at least 900 seconds apart for heartbeat_failed, node_outage and finalized_lag, and 86400 for any other code |
| `AlertCauses.SendsApartInSeconds` | portal/internal/server/alerts.go:52-59 | In runs that restart only from a current save, real sends are more than 899 or 86399 seconds apart |
| `AlertCauses.EverythingToldWasSo` | portal/internal/server/alerts.go:29-50 | In every run each notification ever sent told what was the case when it was sent: heartbeat_failed and heartbeat_stale an enrolled node's silence of at least the one or the other limit, node_outage and finalized_lag the counts of the summary, a warning a flag of signed telemetry |
| `AlertCauses.SilentNodesAlerted` | portal/internal/server/alerts.go:29-50 | After a scan every enrolled node silent for too long has been alerted about within the cooldown, with the code for how long, unless sending failed just now |
| `AlertCauses.QuietScan` | portal/internal/server/alerts.go:29-50 | A scan that finds no such node changes nothing, not even the disk |
| `AlertCauses.PoorSummariesAlerted` | portal/internal/server/qualification.go:131-149 | After an accepted event that re-grades a node, an outage or a finalization lag in its summary has been alerted about likewise |
| `AlertCauses.AttemptRecorded` | portal/internal/server/alerts.go:60-124 | Outside the cooldown an attempt records one delivery with its time, recipient and outcome, and for one not sent an operational event, for one sent the start of the cooldown, saved at once if saving succeeds |
| `AlertCauses.CooldownHolds` | portal/internal/server/alerts.go:53-59 | Within the cooldown an attempt does nothing |
| `AlertCauses.DeliveriesAddressed` | portal/internal/server/alerts.go:60-67 | In every run each recorded delivery is addressed to the operator configured for its node, or the fallback where none is, with the severity of its code |
| `AlertCauses.FlagsRecorded` | portal/internal/server/agent_handlers.go:376-392 | The flags of a telemetry request are recorded in turn up to the first that is unsupported or whose notification could not be saved, which is what the error says; without error all of them are |
| `HeartbeatLink.PortalAcceptsAsLinked` | portal/internal/server/agent_handlers.go:181-206 | For an authentic heartbeat in time, the portal's checks come down to generation and sequence number |
| `HeartbeatLink.AgentBeatsAsLinked` | agent/internal/runtime/heartbeat_loop.go:22-43 | The agent's file follows the link: one more than the saved number is sent, and only a received acknowledgement that is saved advances it |
| `HeartbeatLink.PortalAtMostOneAhead` | agent/internal/runtime/heartbeat_loop.go:22-43 | Under delay, repetition, loss, re-enrollment and restarts, the portal is at most one ahead of the agent |
| `HeartbeatLink.CoupledWithinGeneration` | agent/internal/runtime/heartbeat_loop.go:13-44 | Until the next enrollment, in all interleavings, agent <= portal <= agent + 1 |
| `HeartbeatLink.EnrollmentKeepsCouplingIff` | portal/internal/server/agent_handlers.go:132-137 | An enrollment keeps the lower bound if and only if it is saved, the agent never advanced and no acknowledgement is on its way |
| `HeartbeatLink.AcceptedHeartbeatRecouples` | portal/internal/server/agent_handlers.go:199-206 | The first current heartbeat accepted and saved in a new generation restores it |
| `HeartbeatLink.NewHeartbeatAcceptedIff` | portal/internal/server/agent_handlers.go:199-203 | The request the agent waits on is accepted if and only if the portal is not ahead of the agent |
| `HeartbeatLink.LostReplyGetsStuck` | agent/internal/runtime/heartbeat_loop.go:37-43 | One lost acknowledgement leads to the stuck state |
| `HeartbeatLink.StuckUntilEnrollment` | agent/internal/runtime/heartbeat_loop.go:22-43 | From the stuck state, whatever agent, channel and portal do, nothing is accepted and the agent never advances until the next enrollment |
| `HeartbeatLink.EnrollmentUnsticks` | portal/internal/server/agent_handlers.go:132-137 | An enrollment ends it |
| `HeartbeatLink.LiveStuckOrUnsaved` | agent/internal/runtime/heartbeat_loop.go:37-43 | A link in step is live, stuck, or holds an acceptance that a restart would lose |
| `JointRuns.StepIsLinkStep` | portal/internal/server/agent_handlers.go:152-220 | For the generation and sequence number of any node, in memory and in the last save, every step of the portal - any request, alert, save or restart - is one enabled step of the link, or changes nothing |
| `JointRuns.JointRunIsLinkRun` | portal/internal/server/agent_handlers.go:152-220 | Every run of the portal with one of its agents is, for that node, a legal run of the link |
| `JointRuns.StoreAtMostOneAhead` | agent/internal/runtime/heartbeat_loop.go:22-43 | In every such run the store and its last save are at most one ahead of the agent |
| `JointRuns.StoreCoupled` | agent/internal/runtime/heartbeat_loop.go:13-44 | From agent and store in step, until the node enrolls again: agent <= save <= store <= agent + 1, in every such run |
| `JointRuns.FirstEnrollmentCouples` | portal/internal/server/agent_handlers.go:132-137 | A saved first enrollment of a node whose agent has sent nothing starts in step |
| `JointRuns.StuckStore` | portal/internal/server/agent_handlers.go:199-203 | Once the portal has saved a heartbeat whose acknowledgement the agent missed, no heartbeat of the node is accepted and its mark never moves until it enrolls again, in every such run |
| `JointRuns.LostReplyReachesStuck` | agent/internal/runtime/heartbeat_loop.go:37-43 | From any state in step in which the portal is not ahead, the agent's next heartbeat, accepted and saved, with its reply lost, is a possible run of portal and agent, and ends in that state |
| `JointRuns.StoreNeverFarAhead` | portal/internal/server/agent_handlers.go:199-206 | In every run of the portal from its first start, with an agent that starts fresh, the store is at most one ahead of the agent |
| `AgentRuns.RigRunProjects` | agent/internal/runtime/heartbeat_loop.go:13-44 | Every run of the agent's operations, attempt by attempt, beside the portal's events is a run of the state file on one side and a run of portal and link on the other, and the file's number is the link's throughout |
| `AgentRuns.FileCoupled` | agent/internal/runtime/heartbeat_loop.go:13-44 | From file and store in step, until the node enrolls again: the number in the file <= last save <= store <= that number plus one, in every such run |
| `AgentRuns.FileStuck` | agent/internal/runtime/heartbeat_loop.go:22-43 | After a lost acknowledgement of a saved heartbeat the number in the file never changes until the node enrolls again |
| `AgentRuns.FileNeverFarBehind` | agent/internal/runtime/heartbeat_loop.go:13-44 | From the portal's first start and a fresh file the store is at most one ahead of the file, whatever happens |
| `AgentRuns.RoundIsRun` | agent/internal/runtime/runtime.go:106-115 | A round of the loop is a run of at most three heartbeat operations and then a recovery or a recorded failure |
| `AgentRuntime.Agent.SendHeartbeat` | agent/internal/runtime/heartbeat_loop.go:13-44 | The number sent is one more than the saved one, and only an acknowledged and saved heartbeat advances it |
| `AgentRuntime.Agent.SendHeartbeatWithRetry` | agent/internal/runtime/heartbeat_loop.go:46-68 | At most three requests, all with the same number, and three if none succeeds and nothing stops the agent; waits of one and two seconds; the file changes only on success |
| `AgentRuntime.Agent.RecordPortalFailure` | agent/internal/runtime/warning_checks.go:61-72 | Counts the failure and sets the unreachable flag from the third on unless it was reported |
| `AgentRuntime.Agent.HandlePortalRecovery` | agent/internal/runtime/warning_checks.go:74-89 | Resets the count and reports a waiting flag; a failed report leaves the file alone |
| `AgentRuntime.Agent.MarkWarning` | agent/internal/runtime/warning_checks.go:91-107 | Reports a flag that is neither active nor waiting; a failed report makes it wait |
| `AgentRuntime.Agent.Round` | agent/internal/runtime/runtime.go:106-115 | One round of the Go client's loop |
| `AgentRuntime.Agent.PythonStyleRound` | agent_py/ssnp_agent/agent.py:165-169 | One round of the Python client's loop, which counts a failed recovery as a failure |
| `AgentMachine.WarningsAlwaysOk` | agent/internal/runtime/warning_checks.go:61-107 | In every saved state the unreachable flag waits exactly while the failures have reached three and it is not active, and no flag both waits and is active |
| `AgentMachine.ThirdFailureWaits` | agent/internal/runtime/warning_checks.go:61-89 | From a fresh file portal_unreachable waits after the third recorded failure in a row and not before; an acknowledged and saved recovery reports it and starts the count again |
| `AgentMachine.MarkedFlag` | agent/internal/runtime/warning_checks.go:91-107 | A newly marked flag is active exactly if its report was acknowledged, and waits otherwise |
| `AgentMachine.ActiveWasTold` | agent/internal/runtime/warning_checks.go:91-107 | In every run a flag is active only if the portal acknowledged it |
| `AgentMachine.RoundSucceedsIff` | agent/internal/runtime/heartbeat_loop.go:46-68 | A round has three attempts and succeeds exactly if one of them does and the agent was not stopped before it |
| `AgentMachine.ActiveNeverClears` | agent/internal/runtime/warning_checks.go:91-107 | Active flags never clear |
| `AgentMachine.ReportedAtMostOnce` | agent/internal/runtime/warning_checks.go:74-107 | Over any run without failed saves, each flag is reported at most once |
| `AgentMachine.ReportedAgainIff` | agent/internal/runtime/warning_checks.go:91-107 | A reported flag is reported again on the next occasion if and only if the save after the report failed |
| `AgentMachine.RecoveryReportsAgainIff` | agent/internal/runtime/warning_checks.go:74-89 | The same for the unreachable flag and the recovery |
| `AgentMachine.WaitingFlagNeverReported` | agent/internal/runtime/warning_checks.go:97-104 | A waiting flag other than the unreachable one waits forever and is never reported |
| `AgentMachine.RoundsDifferIff` | agent_py/ssnp_agent/agent.py:240-261 | The two clients differ on a round exactly when the heartbeat got through, the recovery did not, and the failure can be recorded |
| `ReadViews.ReadPublicStatus` | portal/internal/server/read_handlers.go:102-127 | The indexes over the date's listings find each node's own rows: one status per node with a decision, by ascending node ids |
| `ReadViews.ReadOperatorStatus` | portal/internal/server/read_handlers.go:129-157 | Unknown node, missing decision, or the node's status |
| `CanonicalJson.Normalize` | portal/internal/verify/verify.go:58-80 | Whatever order maps are iterated in, the result is the one the value determines: keys ascend in every object inside it, and reading it back gives the value |
| `CanonicalJson.CanonicalWithoutSignature` | portal/internal/verify/verify.go:42-56 | The bytes are those of a value with ascending keys that reads back as the mapping without the signature |
| `CanonicalJson.KeysAscend` | portal/internal/verify/verify.go:60-72 | Of two keys of an object the earlier is a proper beginning of the later or has the smaller character where they first differ |
| `CanonicalJson.SignedBytesExample` | portal/internal/verify/verify.go:42-109 | What is signed for one payload with every kind of value, byte by byte |
| `CanonicalJson.MarshalPairs` | portal/internal/verify/verify.go:89-109 | The marshalling loop with its commas and colons writes the pairs joined |
| `CanonicalJson.Readable` | portal/internal/verify/verify.go:53-109 | Encodings can be read back uniquely: equal texts begin with equal values |
| `CanonicalJson.SignedBytesDeterminePayload` | portal/internal/verify/verify.go:42-109 | Two decoded payloads have the same signed bytes if and only if they are equal apart from their signatures |
| `CanonicalJson.NormalizedKeepsMeaning` | portal/internal/verify/verify.go:58-80 | Normalizing loses nothing |
| `CanonicalJson.EscapeReadable` | portal/internal/verify/verify.go:95-98 | No two characters are written alike, nor one as the beginning of another |
| `CanonicalJson.EscapeStandsFor` | portal/internal/verify/verify.go:95-98 | Every character is written as section 7 of RFC 8259 lets it be written, and exactly those that matter to HTML, the line separators and some controls by their codes |
| `CanonicalJson.PythonSignsTheSameBytesIff` | agent_py/ssnp_agent/agent.py:320-325 | The portal checks the bytes the Python client signed if and only if no text holds a character the two write differently |

## Left out

- HTTP routing, decoding and status codes, SMTP, tickers, signals and file writing: a notification and a save succeed or fail as an input says.
- Signature schemes, hashes and key formats: facts about a request.
- Rounding of floating-point numbers, and fractions of a second inside time texts.
- Interleaving of handlers between store calls: each handler is one step with one clock reading, although the code reads the clock several times.
- Changes of policy, pool, configured nodes or client configuration between runs, except for the generation the agent is configured with.
- Clock stamps that nothing reads (generated, decided and computed times of derived rows), the ranking row's constant reward flag, references to summary and decision rows, alert messages, channels and error details.
- Probe fields that no computation reads: endpoint, window, status, error code, resolver and notes are checked on arrival and not stored.
- Reads that only list and filter logs or evidence (telemetry, deliveries, operational events, anti-concentration evidence, probe summaries, the policy).
- The text form of a snapshot and its atomic replacement on disk: a snapshot is the list of its rows.
- Hardware, CPU, disk, certificate and voting-key checks of the agent, and the probe worker: they only feed flags and events.
- The heartbeat's own signed form, which is a fixed field order.
- Unicode trimming and case: trimming and case conversion act on ASCII.
- HeartbeatRuns.AcceptedAtMostOnce: restarts from an older snapshot are excluded, because the property is then false; `HeartbeatRuns.ReplayAcceptedIff` says exactly when, and acknowledged heartbeats need no such condition.
- AlertRuns.SendsApart: restarts from an older snapshot are excluded for the same reason; see `AlertRuns.SendRememberedIff`.
- Guarantees.ReachableViewsAgree: a date named by a time text that denotes a moment of another date is excluded, because a write with such a text rebuilds the other date; the exact conditions are `Guarantees.ProbeKeepsSummariesIff`, `EvidenceAgreement.PlacementKeepsRankingsIff`, `EvidenceAgreement.RewardEvidenceKeepsRewardsIff`, `EvidenceAgreement.CheckKeepsHardwareIff` and `EvidenceAgreement.VotingKeyKeepsGatesIff`. Heartbeats that arrive later can only add to those that a stored decision counted; `BeatGates.BeatKeepsGatesIff` says exactly when one opens the gate of a later date.
