# ACM, modelled

ACM watches industrial assets through their sensor channels and raises alarms whose false-alarm rate is
promised in advance. This project models the parts that promise rests on and proves what they keep:

- the decision kernel: scores become block means, block means smoothed conformal p-values, p-values betting
  wealth, wealth a latched alarm; banks of such processes share one alpha, and seven banks share an asset's
  (`Calibration`, `Conformal`, `EProcesses`, `Banks`, `Bets`, `Ville`, `Monitors`, `AssetMonitors`);
- the episode and tick state machine: watermark, wealth snapshot, absorption of changes, crashes and restarts
  between any two durable writes (`Episodes`, `Runtimes`, `RuntimeSafety`, `RuntimeRestart`, `RuntimeTick`);
- first contact with an asset's history: detect, mask, re-detect, repair; on the shared ledger or in workers
  (`Contamination`, `Ledgers`, `BootstrapSpec`, `Bootstrap`, `Fleet`);
- the anatomy of an asset by union-find with path halving (`UnionFind`, `Graphs`, `Anatomies`);
- mergeable summaries, the recency cap and the calibration sample (`Summaries`, `Baselines`);
- the partitioned raw store under crashes and replays (`RawStores`);
- fast forms against simple ones: batched against per-net inference, compacted against plain training, the
  masked shared trunk, MASS against direct distances (`Features`, `WorldModels`, `MaskedModels`, `Training`,
  `Mass`, `Novelty`).

Numbers are exact reals and integers, timestamps are integer seconds. Scorers, trunks, activations, training
steps and generators are arbitrary functions; calibration is a function of the asset's own episodes in the
bootstrap and arbitrary in the tick machine. Wealth is multiplicative; a log in the code is a product here.
"Each p-value uniform given the past" is a hypothesis of `Ville.VilleInequality`, as it is in the code's own
docstring: `Conformal.PValueIsUniform` proves it for one exchangeable draw, and reusing one calibration sample
does not by itself give it for a whole run.

Where the code and its documentation disagree, the code is modelled:

- The repair is said to drop windows the bootstrap created; it drops any fault window of the asset. It keeps to its
  own exactly for an asset without fault windows before (`BootstrapSpec.KnownIsKept`). First contact passes only
  assets without episodes (src/runtime.py:461 and 527-535); a bootstrap asked for through the API is not so guarded
  (src/service.py:222-228), and can drop an alarm an earlier re-anchor ledgered (`BootstrapSpec.KnownAlarmIsDropped`).
- Summaries are said to merge exactly; a period with exactly one finite value of a channel has no summary and
  that value is lost, and with it the channel if no period holds more (`Summaries.PeriodsMergeExactly` gives the
  exact condition).
- The recency cap is said to bound the recent share of normal; it bounds the share of rows, not of each
  channel (`Baselines.RecentPeriodsHoldAtMostCap`, `Baselines.LifetimeChannelCap`, `Baselines.NewChannelIsAllRecent`).
- A bank's snapshot is keyed by block size, so bit-exact restart holds only for distinct sizes, which derived
  sizes always are (`Banks.RestartContinuity`).
- A calibration sample may exceed max_rows when max_rows is below one chunk (`Baselines.CalibrationSample`).
- The definition of normal is said not to move while evidence of degradation accumulates; a due self-check that
  finds the model sick rebuilds it with an episode open, and no other step of a tick does (`RuntimeTick.DriftTurn`).
- A bootstrap that raises is logged and the process goes on (src/service.py:145-157 and 222-228), but what it has
  replayed stays in the live banks while the watermark has not moved (src/runtime.py:1226-1238): rows then count
  twice, against the evidence contract (`RuntimeSafety.NoRowCountsTwice` with `RuntimeRaises.CuredExactly` says when,
  `RuntimeRaises.RowCountsTwice` shows it), and an old episode left open can be absorbed right after another
  (`RuntimeSafety.AbsorptionBudget`, `RuntimeRaises.AbsorptionsTooClose`).
- The contamination scan and the onset of an episode read score indices as row indices; the world model's first
  score is that of row LAG (src/scoring/worldmodel.py:159-180), so windows lie that many rows early and the last
  rows of a hot region stay outside (`Contamination.HotRowsAreCovered`, `Contamination.LateScoresMissed`).
- Wealth is said to resume exactly; an operator's re-anchor is not saved until the next scored tick
  (`RuntimeRestart.RestartUndoesReanchor`).
- Applying a worker's difference is said to reproduce its ledger; an episode ledgered twice is the exception
  (`Fleet.DuplicateSurvives`). The one caller passes assets without episodes, where it cannot occur
  (`Fleet.BootstrapVirgin`).

`dafny verify dfyconfig.toml` checks the whole project.

## Model

| member | source | states |
|---|---|---|
| `Calibration.SearchCounts` | src/decision/eprocess.py:197-205 | On a sorted calibration the two binary searches give the number of values strictly greater than, and equal to, the block statistic |
| `Calibration.CountsByMultiset` | src/decision/eprocess.py:149-202 | The counts depend on the calibration values only, not on the order they arrived in |
| `Calibration.CountsArePositions` | src/decision/eprocess.py:199-202 | The counts are the sizes of the sets of positions that hold a greater, and an equal, value |
| `Conformal.TestCounts` | src/decision/eprocess.py:197-205 | Leaving one of n+1 exchangeable values out as the test point and sorting the rest, the p-value is the smoothed rank among all n+1, ties included |
| `Conformal.AcceptedDraws` | src/decision/eprocess.py:197-205 | For each test point the smoothing draws u with p <= t form an interval of the stated length |
| `Conformal.PValueIsUniform` | src/decision/eprocess.py:10-12 | For any n+1 values and any t, averaged over which value is tested, the length of {u : p <= t} is exactly t; below the floor 1e-12 it is 0 |
| `EProcesses.BlockAt` | src/decision/eprocess.py:162-171 | Block i is the mean of scores i*b to (i+1)*b - 1 of the stream |
| `EProcesses.RestIsTail` | src/decision/eprocess.py:162-171 | Batch reshape: length / b blocks, and the incomplete tail, shorter than b, left in the buffer |
| `EProcesses.FeedConcat` | src/decision/eprocess.py:162-171 | Any chunking of a score stream leaves the same wealth, peak, count, buffer and generator state |
| `EProcesses.RawFeedConcat` | src/decision/eprocess.py:162-171 | So does any chunking of the raw scores, values that are not finite included |
| `EProcesses.FeedIsBatch` | src/decision/eprocess.py:139-171 | Streaming equals ingesting the batch-reshaped blocks of the whole finite stream, the buffer being its tail |
| `EProcesses.FeedLatches` | src/decision/eprocess.py:156-160 | Feeding never lowers the peak, so an alarm once latched stays latched |
| `EProcesses.PeakIsAttained` | src/decision/eprocess.py:207-211 | The peak is the starting peak or the wealth after some block; wealth never exceeds the cap; every block is counted |
| `EProcesses.WealthIsProduct` | src/decision/eprocess.py:197-210 | While the products stay within the cap, wealth after n blocks is the starting wealth times the bets on their p-values, each the smoothed rank (greater + u * (equal + 1)) / (n + 1) held between 1e-12 and 1, the draws taken in order |
| `EProcesses.PeakReaches` | src/decision/eprocess.py:207-211 | The peak reaches a level above the starting one and within the cap if and only if the product of the bets on some first blocks does |
| `EProcesses.LatchedExactly` | src/decision/eprocess.py:139-171 | The same of a score stream: the blocks are the means of consecutive scores, those buffered first |
| `EProcesses.WealthStaysBelowPeak` | src/decision/eprocess.py:207-210 | No wealth on the way exceeds the peak |
| `EProcesses.PreparedExactly` | src/decision/eprocess.py:127-149 | A calibration is accepted exactly for an alpha in (0,1) and at least 30 whole blocks of finite values, at any block size; it is kept as its block means, sorted; a refusal names its cause |
| `EProcesses.EProcess.constructor` | src/decision/eprocess.py:114-150 | A new process holds its sorted calibration, wealth 1, an empty buffer and the seeded generator |
| `EProcesses.EProcess.IngestBlock` | src/decision/eprocess.py:197-211 | One block: the next smoothing draw, wealth times the bet on the clipped smoothed rank and at most the cap, the peak and the block count; everything else unchanged |
| `EProcesses.EProcess.Update` | src/decision/eprocess.py:162-171 | Consuming scores moves the object to the fed state of its finite scores; a latch is kept, and a process not latched is latched exactly when, at some block of buffer and stream together, its wealth times the bets so far reaches 1 / alpha (cap at least that) |
| `EProcesses.EProcess.LoadRuntimeState` | src/decision/eprocess.py:189-195 | The object takes exactly the saved state |
| `Banks.DecorrelationLength` | src/decision/eprocess.py:87-111 | The first lag below the correlation threshold, or the cap; 1 for short series |
| `Banks.AcfIsRatio` | src/decision/eprocess.py:71-84 | The correlation at a lag is the sum of the products of deviations that far apart over the sum of their squares; 0 on short or constant series |
| `Banks.FirstQuietLag` | src/decision/eprocess.py:105-111 | Under the default cap of n / 60 lags: every lag before the one found correlates by 0.1 or more, and it does not or is the cap |
| `Banks.RefusedByRoot` | src/decision/eprocess.py:266-283 | The audit refuses a base exactly at the lag cap with a correlation of at least 0.2 + 2 / sqrt(n), for any square root of n |
| `Banks.DeriveSizes` | src/decision/eprocess.py:286-289 | Distinct geometric sizes, each leaving at least 30 blocks whenever the base does |
| `Banks.SupportedSizes` | src/decision/eprocess.py:286-289 | Exactly those of base, 4 base and 16 base that leave 30 blocks, smallest first; the base alone where none does |
| `Banks.DerivedBaseIsSupported` | src/decision/eprocess.py:95-111 | The lag cap always leaves at least 30 calibration blocks |
| `Banks.SaveLoadExact` | src/decision/eprocess.py:332-351 | Load after save restores every member exactly when members sharing a block size had equal states, because the snapshot is keyed by block size |
| `Banks.ResumedIsUninterrupted` | src/decision/eprocess.py:309-351 | Save, rebuild and load at any split point of any stream equals never stopping, for distinct block sizes |
| `Banks.RestartContinuity` | src/decision/eprocess.py:315-351 | Restart continuity at every split of every stream holds if and only if the block sizes are distinct |
| `Banks.DerivedSizes` | src/decision/eprocess.py:247-289 | Refused exactly when the audit is asked for and refuses the lag the calibration decorrelates at; else the sizes of that lag |
| `Banks.DerivedSizesArm` | src/decision/eprocess.py:286-306 | Derived sizes never make a member constructor refuse |
| `Banks.CreateMembers` | src/decision/eprocess.py:297-306 | Every member is armed with its own prepared calibration, its share of alpha and its own seed, exactly when none refuses |
| `Banks.CreateBank` | src/decision/eprocess.py:224-307 | A bank is armed with alpha / members each; with derived sizes it is refused if and only if there are fewer than 30 finite values or the audit refuses the lag they decorrelate at, with given sizes exactly when a member refuses |
| `Banks.EProcessBank.constructor` | src/decision/eprocess.py:296-307 | Holds the raw calibration, the members and their block sizes |
| `Banks.EProcessBank.Update` | src/decision/eprocess.py:309-312 | Every member consumes the same scores |
| `Banks.EvidenceAtThreshold` | src/decision/eprocess.py:358-368 | On any increasing log scale that is 0 at 1, a member's evidence is never negative and reaches 1 exactly when its peak reaches 1 / alpha |
| `Banks.EProcessBank.EvidenceIsBestShare` | src/decision/eprocess.py:355-372 | A bank's evidence is at least t, for any t above 0, exactly when some member's peak has covered the share t of the way to its threshold on the log scale |
| `Banks.EProcessBank.EvidenceIsConsistent` | src/decision/eprocess.py:355-372 | A bank's evidence, the greatest of its members', reaches 1 exactly when a member is latched |
| `Banks.EProcessBank.LoadRuntimeState` | src/decision/eprocess.py:340-351 | Applied exactly when the signatures agree, else no member changes |
| `Bets.MeanOnGrid` | src/decision/eprocess.py:13-18 | The expectation of a decreasing bet under any law of p-values that gives [0,p] at most mass p is dominated by a lower sum of the bet |
| `Bets.FairBetEarnsAtMostOne` | src/decision/eprocess.py:13-18 | A nonnegative decreasing bet whose lower sums are at most 1 earns at most 1 in expectation under every such law |
| `Bets.MixtureIsFair` | src/decision/eprocess.py:13-18 | The mean of power bets over any grid of exponents is such a bet |
| `Ville.PotentialStep` | src/decision/eprocess.py:197-211 | One block multiplies min(1, wealth * alpha) by at most the e-value; the p-floor and the wealth cap only lower it; a latch is kept |
| `Ville.FanPotentialBound` | src/decision/eprocess.py:16-23 | Over one draw, p uniform given the past, the expected potential does not rise |
| `Ville.VilleInequality` | src/decision/eprocess.py:19-23 | For every run length and every branching run, if each p-value of a process is uniform given the past, the chance that it ever latches is at most its alpha |
| `Ville.UnionBound` | src/decision/eprocess.py:39-42 | The chance that any member latches is at most the sum of the members' own chances, on one outcome space with any dependence |
| `Ville.AnyCoversEach` | src/decision/eprocess.py:39-42 | And it is at least the chance that each one does |
| `Monitors.SharesAreOne` | src/monitor.py:23-30 | The seven domain shares add up to 1 |
| `Monitors.AlphasAddUp` | src/monitor.py:65-83 | The member alphas of the banks built add up to exactly the anchor budget times the shares of those banks |
| `Monitors.AssetBudget` | src/monitor.py:197-258 | Given each member's own bound, the chance that any bank latches between two anchors is at most ALPHA_PER_ASSET_YEAR / 52 |
| `Monitors.AssetWithinBudget` | src/monitor.py:22-30 | The same from uniform p-values and a fair bet alone |
| `Monitors.YearWithinBudget` | src/constants.py:40-49 | Over any n anchor periods, each depending in any way on those before, the expected number with a false alarm is at most n * ALPHA_PER_ASSET_YEAR / 52, and over the 52 of a year at most ALPHA_PER_ASSET_YEAR |
| `AssetMonitors.TryBank` | src/monitor.py:173-194 | A bank if and only if there is a stream, it holds 30 finite values, and the audit, where asked for, does not refuse it; built on the finite scores, each member with its prepared calibration, an equal part of the share, wealth 1 and its own seed |
| `AssetMonitors.SevenFund` | src/monitor.py:22-30 | Seven such banks, any of them missing, with shares 0.4, 0.1, 0.15, 0.1, 0.05, 0.1, 0.1 fund an asset within its budget |
| `AssetMonitors.AssetMonitor.Calibrate` | src/monitor.py:124-172 | Succeeds if and only if the magnitude stream passes; then each other bank is built if and only if its stream passes, the two on horizons only together, each with its share and its own seed offset, and the banks fund the asset; on failure the other banks stay as they were |
| `Monitors.Decide` | src/monitor.py:331-398 | The frame's verdict is an alarm exactly when some answering bank is latched, and a watch exactly when none is and the magnitude evidence is at least 0.5; magnitude outranks availability, which outranks the auxiliary alarm of greatest evidence |
| `AssetMonitors.Answer` | src/decision/eprocess.py:355-372 | A bank's answer is latched exactly when a member is, consistent with its evidence, and at least 0.5 exactly when some member is halfway to its threshold |
| `AssetMonitors.AssetMonitor.Judge` | src/monitor.py:275-398 | On the banks themselves: an alarm exactly when some member of an answering bank is latched; a watch exactly when none is and a magnitude member is halfway to its threshold |
| `UnionFind.Find` | src/anatomy.py:81-85 | Terminates at the root, with path halving, keeping the same forest of the same trees |
| `UnionFind.HalvingKeepsForest` | src/anatomy.py:81-84 | Pointing an element at its grandparent changes no root and shortens the path |
| `UnionFind.LinkKeepsForest` | src/anatomy.py:88-90 | Linking two roots gives a forest of the joined trees |
| `UnionFind.JoinAddsEdge` | src/anatomy.py:88-90 | Joining the ends' roots turns the components of a graph into those of the graph with that edge |
| `UnionFind.Union` | src/anatomy.py:88-90 | After each union the trees are the components of the edges so far |
| `Anatomies.CountVotes` | src/anatomy.py:56-76 | Every pair's tally is the number of usable fits whose symmetric weight exceeds the threshold |
| `Anatomies.VotesAreFits` | src/anatomy.py:56-76 | The vote count of a pair is the number of fits with the first fit's channels and a weight beyond 0.15 either way, counted as a set |
| `Anatomies.StableIsAgreed` | src/anatomy.py:86-90 | The stable edges are the pairs that at least 4 of the fits link |
| `Anatomies.JoinStable` | src/anatomy.py:78-90 | Whatever the order of the votes, the trees end as the components of the edges with enough votes |
| `Anatomies.Group` | src/anatomy.py:91-93 | Channels are grouped by root, groups in order of first appearance |
| `Anatomies.NumberOrgans` | src/anatomy.py:95-99 | organ_of maps exactly the organs' channels, each to its organ's index |
| `Anatomies.Organs` | src/anatomy.py:94-99 | The organs partition the channels, largest first, and organ_of agrees with them |
| `Anatomies.Learn` | src/anatomy.py:53-100 | Two channels land in the same organ exactly when a path joins them whose every edge at least 4 of the fits with the first fit's channels support by a weight beyond 0.15 |
| `Anatomies.Onset` | src/anatomy.py:128-136 | The first row of the first run of 8 elevated rows, or none if there is no such run |
| `Summaries.WeightedMergeIsExact` | src/memory/summaries.py:84-120 | One flat weighted merge has the mean and M2 of the data with part i's samples weighted w_i, and the rounded weighted count |
| `Summaries.MergeIsExact` | src/memory/summaries.py:84-120 | With unit weights, count, mean, M2, min and max of the merge are those of the concatenated data |
| `Summaries.AnyGroupingIsExact` | src/memory/summaries.py:3-9 | Merging in any grouping, to any depth, gives the summary of the flattened data |
| `Summaries.AnyOrderIsExact` | src/memory/summaries.py:3-9 | The summary does not depend on the order of the samples |
| `Summaries.PeriodsMergeExactly` | src/memory/summaries.py:55-68 | Merging what periods have a summary gives the summary of all the data, or none just when the data give none, if and only if no period holds exactly one finite value or the data are fewer than two |
| `Summaries.BuildPeriodSummary` | src/memory/summaries.py:71-81 | A channel is summarised exactly when it has at least two finite values, as their summary |
| `Summaries.MergeSummaries` | src/memory/summaries.py:123-143 | For parts that summarise periods of columns: a channel is in the merge exactly when some period has two finite values of it, with the mean, M2, extremes and rounded count of those values, period i's weighing ws[i] |
| `Summaries.FilledMerge` | src/memory/summaries.py:84-120 | Merging the summaries of the periods that have values gives the weighted summary of the values themselves |
| `Summaries.RoundIsNearest` | src/memory/summaries.py:114 | The rounded count is a nearest whole number, the even one of two |
| `Baselines.RecentPeriodsHoldAtMostCap` | src/memory/baseline.py:114-127 | Under the weights built for a life the last two periods hold at most 0.20 of the weighted rows if and only if the older life has a row or they have none, and exactly 0.20 once they have a quarter of the older rows |
| `Baselines.MergedMeanShift` | src/memory/baseline.py:114-131 | The merged mean lies from the old mean toward the recent one by exactly the recent share of the weight |
| `Baselines.ChannelCapExactly` | src/memory/baseline.py:4-7 | A channel's merged mean is within 0.20 of the old-recent gap of the old mean if and only if four times its weighted recent count is at most its old count, or the means agree |
| `Baselines.ProportionateChannelIsCapped` | src/memory/baseline.py:114-127 | A channel whose recent-to-old count ratio is at most that of the rows meets that condition |
| `Baselines.LifetimeChannelCap` | src/memory/baseline.py:114-131 | The same condition, and its proportionate case, for a channel merged from the periods that have it under the weights built for the life |
| `Baselines.MergeLifetime` | src/memory/baseline.py:114-131 | The merged life has each channel's mean, M2 and count over the values of all its periods under the weights built for it, and every channel meets the cap condition |
| `Baselines.MergedLifeIsCapped` | src/memory/baseline.py:114-131 | A channel with old and recent values is within 0.20 of the gap of its old mean if and only if four times its weighted recent count is at most its old count or the means agree |
| `Baselines.NewChannelIsAllRecent` | src/memory/baseline.py:114-131 | A channel carried by recent periods alone takes its recent mean, uncapped |
| `Baselines.ChunksAreDisjoint` | src/memory/baseline.py:182-189 | The calibration chunks are whole, disjoint, in order and inside the history |
| `Baselines.MaskOlderParts` | src/memory/baseline.py:165-176 | Masking each older partition leaves the rows of the older life outside the asset's fault windows |
| `Baselines.HealthyExactly` | src/memory/baseline.py:165-181 | A row is among them if and only if a partition that is not one of the excluded recent ones has it and no alarm or intervention of the asset spans it |
| `Baselines.ChunkStartIsEven` | src/memory/baseline.py:184-188 | Chunk i of n starts at the last row no further than i parts in n of the history |
| `Baselines.CalibrationSample` | src/memory/baseline.py:152-190 | The rows of the older life outside the fault windows, all when they fit, otherwise consecutive evenly spaced chunks; in time order without the sort; at most max_rows rows exactly when they fit or max_rows is at least one chunk |
| `RawStores.MergeIdempotent` | src/store/raw.py:85-105 | Merging the same rows into a partition twice is merging them once |
| `RawStores.ReplayAfterCrash` | src/store/raw.py:66-113 | Killed after any prefix of its partition replacements and replayed, an append reaches the same store as when uninterrupted |
| `RawStores.AppendKeepsEverything` | src/store/raw.py:66-106 | At every moment of an append, partitions hold sorted unique timestamps of their own month and every stored row unchanged |
| `RawStores.CrashThenReplay` | src/store/raw.py:7-14 | Replaying after any crash completes the append and loses or changes nothing |
| `RawStores.RawStore.Append` | src/store/raw.py:66-106 | The store holds exactly the rows it held and, as they came, the rows of the frame that are the first there with a timestamp not stored; the result is the number of new timestamps |
| `RawStores.AppendStores` | src/store/raw.py:81-105 | A row is stored after an append if and only if it was before, or is the first row of the frame with its timestamp and none with it was stored |
| `RawStores.ReadBack` | src/store/raw.py:157-177 | A table read back whole after an append is exactly those rows in time order |
| `RawStores.RawStore.WriteMonths` | src/store/raw.py:85-106 | Replaces the touched partitions month by month, each replacement leaving one of the stated durable contents |
| `RawStores.RawStore.AppendMonth` | src/store/raw.py:85-105 | One partition: first-wins, sorted, skipped when nothing is new, counting its new rows |
| `RawStores.RawStore.AtomicWrite` | src/store/raw.py:108-113 | Written to a temporary file and renamed: after each file operation the partitions are those before the write or those after it |
| `RawStores.RawStore.Read` | src/store/raw.py:157-177 | Exactly the stored rows with start <= timestamp < end, in time order |
| `RawStores.RawStore.ReadTail` | src/store/raw.py:179-199 | The last n rows of the whole history, from the newest partitions, no more of them than hold n rows |
| `RawStores.TailIsEnough` | src/store/raw.py:179-199 | The newest partitions, once they hold n rows or are all there are, end with the last n rows |
| `Ledgers.MaskedIsUncovered` | src/memory/ledger.py:108-124 | A row survives masking exactly when no window of the asset covers it |
| `Ledgers.MaskedShrinks` | src/memory/ledger.py:108-124 | Masking never adds rows |
| `Ledgers.EpisodeLedger.Add` | src/memory/ledger.py:71-76 | Appends to the list and to its stored mirror |
| `Ledgers.EpisodeLedger.Remove` | src/memory/ledger.py:78-85 | Drops the first value-identical episode from list and mirror; an absent one is reported and changes nothing |
| `Ledgers.EpisodeLedger.Mask` | src/memory/ledger.py:96-124 | The rows outside the asset's windows, fault windows only when asked, whatever other assets have ledgered |
| `Ledgers.OwnAdd` | src/memory/ledger.py:71-106 | Adding an episode is seen by its own asset and by no other |
| `Ledgers.OwnRemove` | src/memory/ledger.py:78-106 | So is removing one |
| `Contamination.HotRuns` | src/fleet_workers.py:109-117 | The regions are the maximal runs of hot windows, in order, and cover every hot window |
| `Robust.MedianIsMiddle` | src/fleet_workers.py:104-106 | The median is the value at the middle rank, or the mean of the values at the two middle ranks |
| `Robust.HotExactly` | src/fleet_workers.py:102-107 | A block is hot if and only if its mean exceeds the median mean by more than 4 times the larger of 1.4826 median distances and 1e-9 |
| `Contamination.ScanContamination` | src/fleet_workers.py:81-125 | Traces of fewer than 1024 scores give no window; else one for each maximal run of hot blocks of 256 scores, in order, from its first row to the first row after it, or the last scored row |
| `Contamination.WindowsStartAtRows` | src/fleet_workers.py:118-125 | Every window starts at a row's instant and does not end before it |
| `Contamination.HotRowsAreCovered` | src/fleet_workers.py:81-125 | Score i is that of row i + late, late being the rows without a score; its region's window starts no later than that row, and covers it if and only if i + late is at most the index of the region's end; always where every row is scored |
| `Contamination.WindowCovers` | src/fleet_workers.py:118-125 | A window covers exactly the rows from the index at which its region starts to the one at which it ends |
| `Contamination.LateScoresMissed` | src/fleet_workers.py:81-125 | For any scores that start two rows late or more, a hot row in no window |
| `Episodes.OnsetRowIsScored` | src/episodes.py:325-346 | The onset row is always a row of the frame, and past row 0 it is that of the first hot window |
| `Episodes.OnsetIsFirstHot` | src/episodes.py:325-346 | The onset row is the first row of the first hot block of 64 scores; row 0 where none is hot or there are fewer than 128 scores |
| `Episodes.AlarmOpensAtOnset` | src/episodes.py:63-88 | An alarm level gives an alarm verdict and no other does; it opens an episode at the onset row of the frame unless one is open, and only then do scores join the segment |
| `RuntimeTick.DriftTurn` | src/runtime.py:1134-1168 | A tick of a drift ledgers and absorbs nothing and keeps its episode open; its bank counts the rows on the reference it had exactly unless a self-check is due and finds the model sick |
| `RuntimeTick.DriftIsNeverAbsorbed` | src/constants.py:68-71 | So over any number of ticks: however long a drift lasts, nothing absorbs it or closes its episode, and without a sick self-check the reference stays |
| `Episodes.OnlyFaultsAreMasked` | src/episodes.py:267-301 | Closing an episode adds it to the fault windows unless it is a change |
| `Episodes.EpisodicMonitor.Process` | src/episodes.py:63-88 | An alarm opens an episode unless one is open, its scores join the segment, and the verdict is named by shape and concentration |
| `Episodes.EpisodicMonitor.Reanchor` | src/episodes.py:267-323 | Ledgers the open episode, from its onset to the last timestamp, as a change or as an alarm, for this asset only; clears it and recalibrates audited, recent periods included exactly for a change |
| `BootstrapSpec.ReplayIsGrounded` | src/fleet_workers.py:284-299 | Every episode a replay adds covers a replayed row |
| `BootstrapSpec.ReplayCloses` | src/fleet_workers.py:284-299 | A replay leaves no episode open |
| `BootstrapSpec.AlarmIsLedgered` | src/fleet_workers.py:284-299 | A chunk of at most 4000 rows that gives an alarm is ledgered before the replay ends, from the start of the episode that was open or that it opened |
| `BootstrapSpec.ScanLedgers` | src/fleet_workers.py:273-282 | The scan ledgers exactly an alarm episode, a fault window, for each scanned window that overlaps no episode of the asset |
| `BootstrapSpec.PassLedgers` | src/fleet_workers.py:255-306 | A pass that calibrates ledgers every such window of the rows still unexplained, and the alarm its replay starts with; one that does not says so and leaves the ledger alone |
| `BootstrapSpec.PassShrinksUnexplained` | src/fleet_workers.py:255-306 | A pass only appends, reports how many it appended, and if any leaves strictly fewer unexplained history rows |
| `BootstrapSpec.PassesConverge` | src/fleet_workers.py:234-306 | At most as many fruitful passes as unexplained rows; with more passes than that allowed the loop ends on a conclusive pass, and a larger limit changes nothing |
| `BootstrapSpec.BootstrapOutcome` | src/fleet_workers.py:208-359 | A whole bootstrap: passes each taking the episodes on from the last until one finds nothing or the limit is reached; then calibrated, or no fault window left; what is left and dropped is what the passes left, and nothing is dropped where that calibrates |
| `BootstrapSpec.RepairOutcome` | src/fleet_workers.py:310-342 | The repair ends with a successful calibration or with no fault window of the asset left |
| `BootstrapSpec.RepairDropsOnlyOnFailure` | src/fleet_workers.py:312-342 | Before every drop the calibration had failed |
| `BootstrapSpec.RepairConserves` | src/fleet_workers.py:330-342 | What is left and what was dropped are together exactly the asset's episodes |
| `BootstrapSpec.RepairDropsFaults` | src/fleet_workers.py:331-334 | Only fault windows of the asset are dropped |
| `BootstrapSpec.RepairDropsWidestFirst` | src/fleet_workers.py:337-339 | They are dropped in order of width, widest first |
| `BootstrapSpec.KnownIsKept` | src/fleet_workers.py:313-317 | No episode known before the bootstrap is dropped, whatever the rest of the system does, if and only if none of them was a fault window |
| `BootstrapSpec.KnownAlarmIsDropped` | src/fleet_workers.py:313-342 | An alarm ledgered by an earlier re-anchor is dropped where the asset calibrates only unmasked |
| `Bootstrap.LedgerScan` | src/fleet_workers.py:273-282 | Ledgers exactly the scanned windows that overlap nothing ledgered before the pass, for this asset only |
| `Bootstrap.Replay` | src/fleet_workers.py:284-299 | The chunked replay changes monitor and ledger as the replay of the rows as a whole states |
| `Bootstrap.Pass` | src/fleet_workers.py:234-306 | One pass changes the asset's episodes and reports as stated, whatever the ledger holds for others |
| `Bootstrap.RunPasses` | src/fleet_workers.py:234-306 | The loop of passes, with its early exits, changes the asset's episodes and reports as stated and opens no episode |
| `Bootstrap.FindWidest` | src/fleet_workers.py:337 | The first candidate of maximal span |
| `Bootstrap.RepairMask` | src/fleet_workers.py:310-342 | The repair loop terminates with the stated episodes, drops and outcome |
| `Bootstrap.RunBootstrap` | src/fleet_workers.py:208-359 | The asset's episodes, passes, drops and outcome are a function of its own earlier episodes; other assets' are untouched; the monitor is left freshly calibrated and opens no episode |
| `Fleet.BootstrapWorker` | src/fleet_workers.py:403-440 | A worker on a private snapshot reports the set differences between its ledger and the snapshot |
| `Fleet.ApplyDifference` | src/runtime.py:608-614 | Applying a difference in any listing order changes one asset's episodes as stated, finds every episode it removes, and touches no other asset |
| `Fleet.DifferenceRebuilds` | src/fleet_workers.py:432-433 | The parent ends with the worker's set of episodes if and only if every removed episode was ledgered once |
| `Fleet.DuplicateSurvives` | src/fleet_workers.py:432-433 | A window ledgered twice and dropped twice by the worker stays once in the parent |
| `Fleet.SettleOne` | src/runtime.py:589-614 | Settling one asset changes no other asset's episodes |
| `Fleet.SettledLikeDirect` | src/runtime.py:568-632 | An asset bootstrapped in a worker ends like one bootstrapped directly, as a set, exactly when its removed episodes were ledgered once |
| `Fleet.BootstrapParallel` | src/runtime.py:539-659 | For any worker count, any order of completion, failing workers, a pool that breaks and a direct bootstrap that raises at any point, every asset ends as its own bootstrap or its failure states; those after one that raised are untouched |
| `Fleet.BootstrapVirgin` | src/runtime.py:517-537 | Every asset never bootstrapped and without episodes ends with the episodes of a direct bootstrap unless its worker raised or a direct bootstrap did, its own or one before it; all others keep theirs |
| `RuntimeSafety.SinceIsAfter` | src/runtime.py:1109-1112 | A tick's frame is exactly the stored rows after the watermark |
| `RuntimeSafety.JournalKept` | src/runtime.py:674-692 | Every step keeps the watermark a stored row and the memory copy of the journal equal to the stored one |
| `RuntimeSafety.NoRowCountsTwice` | src/runtime.py:670-725 | In every state of a run with crashes, failures and restarts anywhere, wealth in memory and on disk counts each row at most once and none after the stored watermark, and rows still to be scored lie after both, if and only if no bootstrap that raised left a row after the watermark counted |
| `RuntimeSafety.PassedOverForGood` | src/runtime.py:1109-1118 | A row the watermark has passed uncounted is counted in no later state if and only if no bootstrap that raises leaves it counted |
| `RuntimeSafety.UnattendedClosingsWaited` | src/runtime.py:1134-1151 | In every run, an episode new in the ledger that no operator closed and no bootstrap listed is an absorption: a change that had been open for 365.25 days / 52 |
| `RuntimeSafety.AbsorptionsAreLedgered` | src/runtime.py:1134-1151 | In every run without a bootstrap the ledger only grows, and every absorption is in it |
| `RuntimeSafety.DueOncePerCycle` | src/runtime.py:1152-1167 | Whatever the stagger, exactly one of any 168 ticks in a row is due |
| `RuntimeSafety.AbsorptionBudget` | src/runtime.py:1178-1194 | Throughout a run no episode is open from before the last absorption if and only if no bootstrap that raised left one; then two automatic absorptions lie more than an anchor period apart, and no 365.25 days see more than 52 |
| `RuntimeRestart.RestartKeepsWealth` | src/runtime.py:709-725 | A restart keeps an idle asset's wealth if and only if the saved wealth stands on the calibration that came out and counts the same rows, or neither counts any |
| `RuntimeRestart.ScoredTickIsDurable` | src/runtime.py:1169-1172 | After any tick that scored rows a crash and restart lose the open episode, the wealth if calibration comes out different, and nothing else; the state is unchanged if and only if no episode was open and calibration came out the same |
| `RuntimeRestart.RestartUndoesReanchor` | src/runtime.py:767-779 | A restart after an operator's re-anchor brings the old evidence back exactly when the signature is unchanged and rows had been counted |
| `RuntimeRestart.ReanchorLeaves` | src/runtime.py:767-779 | An operator's re-anchor ledgers the open episode from its onset, as a change or as an alarm, starts the bank on a fresh calibration, and leaves the journal as it was |
| `RuntimeRestart.BootstrapReadsAll` | src/runtime.py:1226-1238 | After a completed bootstrap no stored row is left to score, in memory and journal alike |
| `RuntimeRestart.CrashLosesFrame` | src/runtime.py:1113-1118 | A crash after the watermark moved and before wealth is saved passes the tick's rows over, for good unless a bootstrap that raises replays them |
| `RuntimeRestart.FailedTickLosesFrame` | src/service.py:152-157 | So does a tick that fails before scoring in a process that goes on |
| `RuntimeRaises.RaiseCountsUnread` | src/fleet_workers.py:230-308 | A bootstrap that raises spoils the evidence exactly by stored rows counted after the watermark, each once |
| `RuntimeRaises.CuredExactly` | src/runtime.py:1226-1238 | What sets that right before the next tick: a crash and restart, a re-anchor, a bootstrap that completes or is killed, or one that raises and leaves no row counted ahead; and nothing else |
| `RuntimeRaises.UncuredTick` | src/runtime.py:1108-1119 | Otherwise the next tick counts a row twice as soon as it scores, and passes the rows over if it fails before |
| `RuntimeRaises.RowCountsTwice` | src/service.py:145-157 | A run from an asset never seen before whose one row is counted twice |
| `RuntimeRaises.OldOnsetIsAbsorbed` | src/runtime.py:1134-1151 | An episode left open is absorbed by the first tick that names it a change once it is ripe, however soon after the last absorption |
| `RuntimeRaises.AbsorptionsTooClose` | src/service.py:145-157 | A run from an asset never seen before with two absorptions a second apart |
| `RuntimeTick.ProcessIsAllowed` | src/episodes.py:63-88 | What a monitor does with a frame is what a run allows of it |
| `RuntimeTick.AssetRuntime.constructor` | src/runtime.py:228-266 | A started process resumes the stored journal and takes the saved wealth when the signatures agree |
| `RuntimeTick.AssetRuntime.SetLastSeen` | src/runtime.py:683-687 | Memory and store take the new watermark |
| `RuntimeTick.AssetRuntime.ReadNewRows` | src/runtime.py:1108-1118 | The watermark moves past the new rows before any is scored |
| `RuntimeTick.AssetRuntime.Process` | src/runtime.py:1119 | The banks count the frame and the episode opens as the monitor says |
| `RuntimeTick.AssetRuntime.AbsorbIfRipe` | src/runtime.py:1134-1151 | A change whose episode has been open for an anchor period is closed as change-not-fault and recalibrated; nothing else is |
| `RuntimeTick.AssetRuntime.BumpTickCount` | src/runtime.py:689-692 | The tick count rises by one in memory and store |
| `RuntimeTick.AssetRuntime.RebuildIfScheduled` | src/runtime.py:1153-1165 | Rebuilt exactly when due and no episode is open |
| `RuntimeTick.AssetRuntime.ImmunePassIfScheduled` | src/runtime.py:1166-1168 | Rebuilt exactly when due and found sick |
| `RuntimeTick.AssetRuntime.SaveWealthIfScored` | src/runtime.py:1169-1172 | Wealth is saved exactly when the tick scored rows and a bank exists |
| `RuntimeTick.AssetRuntime.Tick` | src/runtime.py:1099-1176 | A tick is a run of the steps between its durable writes, so it keeps every run invariant; and it comes to what the next row states |
| `RuntimeTick.TickComesTo` | src/runtime.py:1099-1176 | Any tick counts itself and moves the watermark to its last row; a change open for a 52nd of a year is closed as such; the bank ends fresh from the self-check where the 168th tick finds it sick, else fresh from the rebuild where the 168th tick finds no open episode, else fresh from an absorption, else on its reference with the rows counted; it is saved where there were rows |
| `Features.DotScatter` | src/scoring/worldmodel.py:542-556 | The full dot product with weights scattered to the kept columns is the dot product on those columns |
| `Features.OtherRowIsKept` | src/scoring/worldmodel.py:493-502 | A channel's features are the kept columns of the shared lag features |
| `Features.LagFeatures` | src/scoring/worldmodel.py:159-166 | Row i holds the rows LAG + i, LAG + i - 1, ..., i side by side |
| `Features.FeaturesFor` | src/scoring/worldmodel.py:493-502 | The same from the other channels only |
| `Features.MaskIsKeep` | src/scoring/worldmodel.py:335-337 | The columns the training mask leaves open are exactly the kept ones |
| `Features.UnpackedScattersBack` | src/scoring/worldmodel.py:460-482 | Unpacking a channel's masked weights and scattering them back is the identity on them |
| `WorldModels.StackPredicts` | src/scoring/worldmodel.py:540-567 | A stacked net on the shared features predicts what the net predicts on its own, for any activation |
| `WorldModels.StackUndoesUnpack` | src/scoring/worldmodel.py:455-484 | Stacking the unpacked nets gives back the masked group weights |
| `WorldModels.ScoringMatchesTraining` | src/scoring/worldmodel.py:444-484 | The net kept for scoring predicts exactly what the group weights predicted on the held-out fold |
| `WorldModels.ResidualsByNet` | src/scoring/worldmodel.py:505-526 | The per-net loop fills every entry with the residual of its channel and row |
| `WorldModels.ResidualsBatched` | src/scoring/worldmodel.py:528-569 | The batched, chunked pass fills every entry with the same residual |
| `WorldModels.ResidualZ` | src/scoring/worldmodel.py:505-569 | Every residual is the observed value less the net's output over the scale, whichever form is chosen: the output written out as the sum over hidden units and over the inputs of 9 rows and the other channels; histories of at most 8 rows give none |
| `WorldModels.PredictionIsSum` | src/scoring/worldmodel.py:505-526 | A channel's prediction is the sum over hidden units of the median head's weight times the activation of the weighted inputs and bias, plus the head's bias |
| `Features.InputAt` | src/scoring/worldmodel.py:493-502 | Input t of a channel's net is the value t / (d - 1) rows back of the other channel at place t mod (d - 1) |
| `MaskedModels.GroupsPartition` | src/scoring/worldmodel.py:603-609 | For every permutation, every channel lies in exactly one group, every group is listed in ascending order and none is empty |
| `MaskedModels.StrideIn` | src/scoring/worldmodel.py:603-609 | Group i takes exactly the positions i, i + k, i + 2k, ... |
| `MaskedModels.ColsAreOwnHistory` | src/scoring/worldmodel.py:611-618 | The masked columns are exactly j, j+d, ..., j+LAG*d for the group's channels j |
| `MaskedModels.IndicatorAt` | src/scoring/worldmodel.py:750-752 | The indicator input is 1 at exactly the masked channels |
| `MaskedModels.Predict` | src/scoring/worldmodel.py:731-758 | Every channel of every row is read from the pass in which its group was masked |
| `MaskedModels.PredictionIgnoresOwnGroup` | src/scoring/worldmodel.py:574-588 | For an arbitrary trunk a row's masked pass is unchanged by any change of the group's channels at any lag |
| `MaskedModels.PredictionsIgnoreOwnGroup` | src/scoring/worldmodel.py:731-758 | So are the predictions made for the group's channels over a whole history |
| `Training.StoppedIsFinal` | src/scoring/worldmodel.py:397-412 | Nothing about a channel's result changes once it has stopped |
| `Training.PatienceBounds` | src/scoring/worldmodel.py:405-411 | A channel is active exactly while it has patience left, never more than 20 |
| `Training.BestWeightsAreKept` | src/scoring/worldmodel.py:397-405 | The kept weights are those that had the best loss, or the initial ones while no loss was finite |
| `Training.NoEpochMuchBetter` | src/scoring/worldmodel.py:397-405 | The best loss kept is within 1e-5 of every finite loss of an epoch the channel was trained in; the first such loss is kept at once |
| `Training.BestWasHad` | src/scoring/worldmodel.py:397-405 | A finite best loss is the loss of, and the kept weights the weights of, one epoch in which the channel was trained; else the weights are the initial ones |
| `Training.StopsExactly` | src/scoring/worldmodel.py:405-411 | A channel is active if and only if no 20 epochs in a row were without a first finite loss or one better than the best before by more than 1e-5 |
| `Training.TrainPlain` | src/scoring/worldmodel.py:371-413 | Training without compaction: every channel ends as if trained alone, its loss and weights those of one of its epochs, within 1e-5 of all of them, stopped exactly after 20 epochs without improvement; the loop stops at the first epoch with none active |
| `Training.TrainCompacting` | src/scoring/worldmodel.py:371-441 | Training that compacts stopped channels out gives every channel the same, and the same number of epochs |
| `Training.Compact` | src/scoring/worldmodel.py:412-441 | Exactly the stopped channels' rows are dropped when at least 8 and a quarter of the rows are dead, else none, and the rest keep their weights |
| `Training.CompactionIsInvisible` | src/scoring/worldmodel.py:367-441 | Best weights, best loss, patience, active flags and epochs are equal with and without compaction |
| `Novelty.ConvolutionIsDot` | src/novelty.py:47-51 | With padding to at least the series' length the circular convolution yields every sliding dot product |
| `Novelty.WindowSums` | src/novelty.py:40-44 | Differences of cumulative sums are the window sums |
| `Novelty.VarianceFromSums` | src/novelty.py:40-45 | Mean of squares less squared mean is the mean squared deviation |
| `Mass.DistanceFromDot` | src/novelty.py:53-57 | 2m(1 - corr) is the squared distance of the z-normalised windows and lies between 0 and 4m |
| `Mass.AffineCopyIsNear` | src/novelty.py:91-92 | Raising and stretching a window leaves its normalised distance to the original zero |
| `Novelty.DistanceInRange` | src/novelty.py:13-15 | Every distance lies between 0 and 2*sqrt(m) |
| `Novelty.SeenShapeIsZero` | src/novelty.py:89-92 | A past window that is the query raised and stretched has distance 0 |
| `Novelty.MassDistanceProfile` | src/novelty.py:29-57 | Every entry is the z-normalised distance of its window; flat queries and flat windows get the stated values; short series give none |
| `Novelty.NoveltyEngine.Extend` | src/novelty.py:71-78 | Finite scores are remembered as one chunk and whole chunks are forgotten from the front |
| `Novelty.KeptIsLongestSuffix` | src/novelty.py:68-78 | What is remembered is the longest suffix of whole chunks within 200000 scores, or the last chunk alone |

## Left out

- Real powers and logarithms: the bet is any nonnegative decreasing function with lower sums at most 1, and `Bets.MixtureIsFair` takes the calculus of p^eps as the hypotheses on one grid member.
- Floating-point rounding, float32 casts and the rounding of stored statistics.
- The generator's internals: seeded states and draws are arbitrary functions; distinct seeds are assumed to give distinct states only in `Banks.RestartContinuity`.
- Discrete Fourier transforms: `Novelty.MassDistanceProfile` starts from the circular convolution they compute; square roots enter through their defining equation.
- Quantile grids and everything read from them (medians, scales): their floor of 9 samples a part breaks proportional weighting.
- Signatures as hashes: a bank's signature stands for its calibration scores and block sizes; alpha is in neither.
- RuntimeSafety.NoRowCountsTwice: an asset's banks are one bank with one signature; the code restores each bank on its own signature, which only splits the statement per bank.
- RuntimeSafety.AbsorptionBudget: counts automatic absorptions only; scheduled rebuilds are counted in ticks and operators may re-anchor at will.
- AssetMonitors.AssetMonitor.Calibrate: the streams, and whether the channel-local one applies, are inputs.
- RawStores.RawStore.AtomicWrite: a rename is one step, as the operating system promises, and how far a file was written when a crash came does not matter to readers of partitions.
- Service calls during a tick: re-anchors and bootstraps happen between ticks; a bootstrap is one step, whether it completes, is killed or raises, and one that raises may leave any episodes and any stored rows replayed, more than it could.
- Retiring and purging assets; purging deletes stored episodes without updating the ledger in memory.
- Monitor caches and their fingerprints: a restart may come out with any calibration.
- Verdict latching of the dynamics and transient banks, which answer only on frames that give them a stream.
- Fleet.BootstrapVirgin: what a direct bootstrap that raises had written of its own asset is arbitrary.
- Processes, pools and pickling: a worker is a call on private copies, and the order of completion, failures and a breaking pool are inputs.
- Fleet.BootstrapParallel: workers and parent read the same stored history; rows that arrive meanwhile are not part of this model.
- Health index, prognosis, signature matching and notes: an episode's note is an arbitrary function of verdict and scores.
- Shape classification, concentration, ridge and DMD regression, inverse-Gaussian bounds, immune rehearsal: inputs, statistical rather than decided by this code.
- The level component of novelty, an exponential of an excess.
- Training itself: steps and losses per channel are arbitrary functions of epoch, channel and state; group sizing by device memory is left out.
- Cached period summaries after late rows reach a closed month: the cache key holds only the period and the fault windows.
- Temporary-file sweeping, file formats, key encoding, SQLite and HTTP; partitions are a map from month to rows.
- The optional max_lag argument beyond its use as a cap, evidence ratios of bank states, and block sizes of zero, which the code would divide by.
