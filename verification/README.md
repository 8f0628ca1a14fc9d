# better-nm: a verified model of the daemon's state machines

The daemon of better-nm rests on a handful of state machines and small concurrent
protocols. This project models them in Dafny and proves what they are for. Each
machine is written twice where the source updates state in place: as a class whose
methods follow the source's own control flow, and as functions on values; the
methods' contracts tie the two together, and the theorems about whole runs are
lemmas about the functions.

- **Baseline engine** (`Median`, `Engine`, `Loading`, `EngineObject`, `Hysteresis`,
  `EngineRuns`, `KeyRuns`, `Streaks`, `Changes`, `Slowness`, `Verdicts`, `Figures`): the
  sliding window, median and loss of every (network key, anchor), the
  learning/ok/degraded machine with its streaks, when exactly it moves, and the key state
  derived from the anchors.
- **Warm restart** (`WarmStart`, `WarmRuns`, `WarmStreaks`, `WarmSince`, `WarmNames`,
  `LoadExact`, `MonitorObject`): what the monitor's rounds persist rebuilds the engine, and
  exactly where it does not.
- **Event deriver** (`Deriver`, `DeriverRuns`, `DeriverExact`): views of the world become
  events; the events reconstruct the deriver.
- **Secret agent** (`Agent`, `AgentObject`, `AgentRuns`, `AgentAnswers`), **notification
  filter** (`Filter`, `FilterObject`, `FilterRuns`, `FilterTimers`, `FilterExact`),
  **fan-out bus** (`Bus`, `BusObject`, `BusExact`),
  **single-daemon lock and socket** (`Socket`, `SocketObject`, `SocketRuns`),
  **activation waiter** (`Waiter`, `WaiterObject`, `WakeUps`): goroutines, timers,
  processes and crashes are nondeterministic atomic steps, one per locked section or
  system call, and the theorems hold of every interleaving.
- **Output filter** (`SafeWriter`, `SafeRuns`): the chunked filter against the
  whole-buffer one, for SGR sequences as in section 8.3.117 of ECMA-48.
- **Server-sent events** (`Sse`, `SseRuns`, `SseBlocks`): the printer and the parser, for the format
  of section 9.2 of the WHATWG HTML Living Standard.

Conventions. Times are integers; RTT, loss, thresholds and scores are reals, so there is
no rounding, and the engine's -1 for "nothing measured" is kept. Where Go iterates a map
the functions take the visited order as a parameter and the theorems hold for every
order that visits each key once. Fields that only record history (logs, counters, the
calls made so far) are ghost in classes. Every lemma is marked `{:induction false}`, so
that no proof rests on automatic induction. `dafny verify dfyconfig.toml` checks everything.

## Results that are not what one might expect

- A single dead anchor can degrade a network under the default rules, although line 217
  of the repository's README says that it does not. One sample that lost one of its three
  echoes is enough: the three samples of an outage that follows are then all judged bad
  (`Verdicts.DeadAnchorDegrades`). `Verdicts.OutageExactly` states when an outage degrades
  an anchor, for every history whose answers lie in a narrow band: from ok, with bad
  streak b, exactly when the outage lasts at least 3 - b samples, one of the last nine
  samples before it lost an echo and the losses in the window leave room for 3 - b more
  under the 2 % of the loss rule. Without such a loss an outage of any length leaves it ok, because from the fourth lost sample on the usual loss is no
  longer under that 2 %; so a whole network may fall silent without being degraded
  (`Verdicts.NetworkSilenceExactly`, `Verdicts.DeadNetworkIsNotDegraded`).
- The comment on `NetworkKey` says `wired:<uuid>`; the code yields `<type>:<uuid>` for
  every profile that is not a Wi-Fi one with an SSID. The model follows the code.
- vpn-up and vpn-down alternate per id over a run exactly when no view of it lists a newly
  connected id twice (`DeriverRuns.AlternationExactly`).
- A second `Close` of the same socket unlinks the path without holding the lock. Everything
  the protocol keeps survives it exactly when nobody has a socket file at the path
  (`SocketRuns.CloseAgainKeeps`), and a run in which it takes a successor's path is given
  (`SocketRuns.CloseAgainUnlinksASuccessor`).
- The dial in `Listen` is answered, among processes that follow the protocol, only while a
  crashed daemon's descriptors are being closed, between its lock file and its listener
  (`SocketRuns.AnsweredByTheDying`, with a run in `SocketRuns.DyingDaemonAnswers`). Otherwise
  whatever is left at the path is dead.
- A warm start is not quite the identity. The source does not store streaks, last reasons
  and the key's own since stamp. The streaks restart at zero, so that a verdict carried over
  a restart needs a full streak of new samples to change (`WarmStreaks.RecoversAfresh`,
  `WarmStreaks.DegradesAfresh`); the stamp becomes the instant of the newest stored sample
  and stays the same exactly when the key's state last moved then
  (`WarmSince.WarmSinceExactly`).
- A name configured twice, also the gateway's own name, and an empty name, for which the
  store returns every anchor's samples, disturb the rebuilt windows.
  `WarmNames.WindowSurvivesExactly` states when a window survives, for any list of names;
  with samples at distinct instants that is when the anchor is read once, has nothing
  stored, or the window is one sample long (`WarmNames.DistinctInstants`). Even a full
  window is lost: its older half goes and the newer is doubled
  (`WarmNames.TwiceReadIsDoubled`).
- Streaming output equals batch output exactly when no write boundary separates the two
  bytes of an encoded C1 control; each such boundary lets two bytes through
  (`SafeRuns.StreamIsBatch`, with a witness in `SafeRuns.CutControlPasses`).
- The output filter drops an encoded C1 control only where its two bytes are adjacent. If
  only dropped bytes, and at least one, stand between a lead byte and a C1 byte, the output
  holds the control (`SafeRuns.BatchJoins`, with a witness in `SafeRuns.BellJoins`); streamed output
  holds one exactly then, or when a write boundary cuts one (`SafeRuns.StreamJoins`).
- An activation that settled after a waiter's registration, or after a successful live
  read, is missed exactly when every settling event that was handled met a full channel
  and none is still to come (`WakeUps.LostExactly`). That happens
  (`WakeUps.FullChannelLoses`), and so does missing an earlier one when the live read
  fails (`WakeUps.WithoutReadMisses`).

## Model

| member | source | states |
|---|---|---|
| `Median.MedianRobust` | internal/monitor/engine.go:442-453 | if more than half of the values lie in [lo, hi], so does the median, whatever the others are |
| `Median.MedianOrderFree` | internal/monitor/engine.go:442-453 | the median depends on the multiset of values alone |
| `Median.MedianIsMiddle` | internal/monitor/engine.go:442-453 | of an odd number of values the middle one by rank, of an even number the mean of the two middle ones |
| `Median.CountSort` | internal/monitor/engine.go:446-447 | sorting keeps how many values lie in any interval |
| `Engine.ComputeMedianRtt` | internal/monitor/engine.go:420-428 | the accumulating loop gives the median of the answered round-trip times, -1 when none was answered |
| `Engine.ComputeMeanLoss` | internal/monitor/engine.go:430-439 | the accumulating loop gives the mean loss of the samples |
| `Engine.ComputeCurrentStats` | internal/monitor/engine.go:405-418 | the current figures are those of the last CurrentWindow samples, and the DNS time is the latest one measured |
| `EngineObject.BaselineEngine.Add` | internal/monitor/engine.go:145-162 | one sample changes its own key as the specification step says and returns that step's transitions; a sample without key or anchor changes nothing |
| `EngineObject.BaselineEngine.Evaluate` | internal/monitor/engine.go:165-219 | the branching on state, verdict and streaks is the hysteresis step |
| `EngineObject.BaselineEngine.JudgeWindow` | internal/monitor/engine.go:174-179 | the verdict is the rules applied to the window's and the current figures |
| `EngineObject.BaselineEngine.Settle` | internal/monitor/engine.go:222-241 | a transition is reported exactly when the derived key state moves, with the anchor that moved it when degraded is involved |
| `EngineObject.BaselineEngine.DeriveKeyState` | internal/monitor/engine.go:244-261 | the key state, whatever order the map is visited in: degraded exactly when a public anchor is, learning when all are, idle when there are none |
| `EngineObject.BaselineEngine.TakeSnapshot` | internal/monitor/engine.go:378-396 | the baseline record holds the window's and the current figures, state and since stamp |
| `EngineObject.BaselineEngine.Load` | internal/monitor/engine.go:308-375 | exactly the touched keys are rebuilt: samples in time order, trimmed windows, settled states, replaced stamps, derived key state |
| `EngineObject.BaselineEngine.FinishEach` | internal/monitor/engine.go:341-369 | every anchor of a touched key is finished and the latest instant any was heard of is found, in any visiting order |
| `Loading.SortKeepsMembers` | internal/monitor/engine.go:309-310 | the stable sort by time keeps exactly the samples it was given |
| `EngineRuns.AnchorIsItsOwnReplay` | internal/monitor/engine.go:145-219 | after any interleaving of samples, an anchor's window, machine and baseline equal a replay of its own samples alone; it exists exactly when it has samples |
| `EngineRuns.WindowIsSuffix` | internal/monitor/engine.go:155-158 | the window is exactly the last Window samples of the anchor's history |
| `EngineRuns.KeyIsItsOwnRun` | internal/monitor/engine.go:145-162 | other keys change neither a key's state nor its transitions |
| `EngineRuns.ReplayDrives` | internal/monitor/engine.go:165-219 | an anchor's machine is the hysteresis machine driven by the verdicts on its successive windows |
| `EngineRuns.LearningLasts` | internal/monitor/engine.go:166-190 | an anchor is learning exactly until it has MinSamples samples |
| `EngineRuns.EntryNeedsBadWindows` | internal/monitor/engine.go:192-206 | degraded is entered only when the last DegradeStreak windows were all bad, never before MinSamples-1+DegradeStreak samples |
| `EngineRuns.RecoveryNeedsGoodWindows` | internal/monitor/engine.go:207-218 | degraded is left only to ok and only after RecoverStreak good windows |
| `EngineRuns.DegradingIsSlow` | internal/monitor/engine.go:165-219 | m entries of one anchor into degraded need at least MinSamples-1 + D + (m-1)(D+R) of its samples |
| `Hysteresis.DriveMeaning` | internal/monitor/engine.go:165-219 | what state and streaks say about the verdict history, after every history |
| `Hysteresis.EntryStreak` | internal/monitor/engine.go:192-206 | entering degraded takes D consecutive bad verdicts after learning |
| `Hysteresis.RecoveryStreak` | internal/monitor/engine.go:207-218 | leaving degraded takes R consecutive good verdicts |
| `Hysteresis.EntriesAreSlow` | internal/monitor/engine.go:165-219 | the bound on the number of entries for any verdict history |
| `Hysteresis.FirstVerdictsDecide` | internal/monitor/engine.go:192-218 | from ok, when only the next DegradeStreak verdicts may be bad and none is good: degraded exactly when the verdicts that complete the streak are bad from the first on |
| `Hysteresis.DegradedStays` | internal/monitor/engine.go:207-218 | without a good verdict nothing recovers |
| `Streaks.StreaksAreExact` | internal/monitor/engine.go:165-219 | from any start without streaks, after any verdicts: goodStreak is the longest run of good verdicts at the end of those given since the entry into degraded, badStreak that of bad ones since ok, both 0 elsewhere, and since is the instant of the last move |
| `Streaks.RecoversExactly` | internal/monitor/engine.go:207-218 | a degraded machine is ok after a verdict if and only if the last RecoverStreak verdicts are good and all were given since it was degraded; otherwise it is degraded still |
| `Streaks.DegradesExactly` | internal/monitor/engine.go:192-206 | a machine that is ok is degraded after a verdict if and only if the last DegradeStreak verdicts are bad and all were given since it was ok; the reason is that of the last verdict |
| `Streaks.LearningEndsExactly` | internal/monitor/engine.go:186-206 | the first judged verdict ends learning: ok, unless it is bad and a streak is one verdict long |
| `Streaks.GoodRunRecovers` | internal/monitor/engine.go:207-218 | RecoverStreak good verdicts in a row bring any degraded machine to ok, at the latest with the last of them |
| `Changes.AnchorRecoversExactly` | internal/monitor/engine.go:145-219 | the same in an anchor's own samples: a degraded anchor is ok after a sample if and only if its last RecoverStreak windows are good and it has been degraded for as many |
| `Changes.AnchorDegradesExactly` | internal/monitor/engine.go:145-219 | an ok anchor is degraded after a sample if and only if its last DegradeStreak windows are bad and it has been ok for as many |
| `Changes.GoodWindowsRecover` | internal/monitor/engine.go:207-218 | an anchor degraded for whatever reason is ok within RecoverStreak good windows |
| `Changes.BadWindowsDegrade` | internal/monitor/engine.go:192-206 | an ok anchor is degraded within DegradeStreak bad windows |
| `Changes.LearningEnds` | internal/monitor/engine.go:186-206 | with exactly MinSamples samples an anchor is ok, unless a streak is one window long and the window is bad |
| `KeyRuns.KeyKeeps` | internal/monitor/engine.go:222-261 | every sample keeps the key state derived from its anchors; at most one transition, from the old state to the new; degraded is entered through a public anchor and left to ok only |
| `KeyRuns.KeyHistory` | internal/monitor/engine.go:222-241 | over any run a key's transitions form a chain from idle and its degraded and recovered events strictly alternate, degraded first |
| `KeyRuns.GatewayAloneNeverDegrades` | internal/monitor/engine.go:244-261 | a key is degraded exactly when a public anchor is, and the sample that degraded it was that anchor's |
| `Figures.AnsweredExactly` | internal/monitor/engine.go:420-428 | the median is over the round-trip times of the answered samples and no others |
| `Figures.LastDnsExactly` | internal/monitor/engine.go:410-416 | the DNS figure is the latest one measured, -1 when none was |
| `Figures.BaselineSays` | internal/monitor/engine.go:378-396 | after any run a baseline holds its own anchor's state and since, the number of samples in its window, the median and mean loss of the window and of the current one, and the latest DNS time |
| `Figures.DerivedExactly` | internal/monitor/engine.go:244-261 | idle without anchors, degraded exactly when a public anchor is, learning exactly when every anchor is, ok otherwise |
| `Figures.KeyLearnsExactly` | internal/monitor/engine.go:244-261 | over any run a key is learning exactly while it has samples and none of its anchors has MinSamples of them |
| `Figures.TransitionSays` | internal/monitor/engine.go:222-241 | a transition is reported exactly when the state moves, with old and new state, instant, and anchor, reason and figures when degraded is involved |
| `Figures.EventSays` | internal/monitor/monitor.go:399-418 | degraded exactly for transitions to degraded, recovered exactly for those from degraded to ok |
| `Verdicts.OutliersNeverTripRtt` | internal/monitor/engine.go:174-179 | if most answers of both windows lie in a band narrow by factor or delta, the latency rule cannot fire whatever the rest are |
| `Verdicts.OutliersNeverTripDefaultRtt` | internal/monitor/engine.go:32-46 | the same with the defaults: hi <= 2 lo or hi <= lo + 20 |
| `Slowness.RulesExactly` | internal/monitor/engine.go:174-183 | each verdict as an if-and-only-if over the samples: latency is bad exactly when the current window has answers and their median is over both thresholds of the whole window's, loss exactly by the two sums, good exactly when answered, under RecoverFactor times the usual and with a low sum of losses |
| `Slowness.SlowIsBad` | internal/monitor/engine.go:174-179 | if most answers of the window lie in one band and most current ones in a band above both thresholds, the verdict is bad latency |
| `Slowness.FastIsGood` | internal/monitor/engine.go:180-183 | if most current answers lie under RecoverFactor times the usual band and the sum of losses is low, the verdict is good |
| `Slowness.SlownessDegrades` | internal/monitor/engine.go:192-206 | DegradeStreak windows with bad latency bring an ok anchor to degraded, with reason rtt |
| `Slowness.SlowWindowsDegrade` | internal/monitor/engine.go:174-206 | the same by the samples: windows most of whose answers lie in one band and most of whose current ones lie in a band above both thresholds |
| `Slowness.LossDegrades` | internal/monitor/engine.go:192-206 | DegradeStreak windows with bad loss and no bad latency bring it there with reason loss |
| `Slowness.StepIsBad` | internal/monitor/engine.go:174-179 | the window after clean answers in one band and then enough in a higher band is judged bad |
| `Slowness.RiseDegrades` | internal/monitor/engine.go:165-206 | a rise in latency degrades: an anchor that is ok after clean samples in one band is degraded, with reason rtt, within half a current window and DegradeStreak clean samples in a band above both thresholds |
| `Slowness.CleanRunRecovers` | internal/monitor/engine.go:207-218 | clean answers under RecoverFactor times the usual band bring a degraded anchor back to ok |
| `Verdicts.LossDecides` | internal/monitor/engine.go:174-183 | with answers in a narrow band a window is judged bad exactly by its sums of losses |
| `Verdicts.OutageVerdict` | internal/monitor/engine.go:174-183 | the k-th lost sample is judged bad exactly when k is at most DegradeStreak, the current loss is high and the usual loss still low, both as sums over the history before; none is good |
| `Verdicts.OutageExactly` | internal/monitor/engine.go:165-219 | for any steady history and any outage after it: degraded at its end if and only if it was before, or a recent loss and the room left in the window let the first lost samples complete the bad streak |
| `Verdicts.DefaultOutageExactly` | internal/monitor/engine.go:32-46 | the same with the default numbers: nine samples, a window of 200, three bad verdicts, 2 % |
| `Verdicts.DeadAnchorDegrades` | README.md:217 | 199 clean samples, one with one of three echoes lost and three lost ones degrade an ok anchor |
| `Verdicts.HiccupThenDead` | README.md:217 | so does any partly lost sample after 199 clean ones |
| `Verdicts.DeadAnchorStaysOk` | internal/monitor/engine.go:165-219 | without a recent loss an outage of any length leaves an ok anchor ok |
| `Verdicts.CleanAnchorIsOk` | internal/monitor/engine.go:186-206 | a clean narrow run is ok, with no bad streak, as soon as learning is over |
| `Verdicts.NetworkSilenceExactly` | internal/monitor/engine.go:244-261 | a network whose public anchors fall silent, in any interleaving, is degraded exactly when the outage degrades one of them |
| `Verdicts.SilenceStaysQuiet` | internal/monitor/engine.go:222-261 | if it degrades none, no transition during the silence goes to degraded |
| `Verdicts.DeadNetworkIsNotDegraded` | internal/monitor/engine.go:222-261 | under the defaults that is so when no public anchor was degraded or lost an echo in its last nine samples |
| `WarmRuns.RunKeeps` | internal/monitor/monitor.go:117-157 | at every point of every run of rounds, network changes and restarts the store explains the engine |
| `WarmRuns.WarmIsIdentity` | internal/monitor/monitor.go:133-157 | warming a key the engine knows rebuilds the same windows, anchor states, anchor since stamps, baselines and key state, and leaves other keys alone |
| `WarmStreaks.WarmRestarts` | internal/monitor/engine.go:305-307 | every anchor of a warmed key has both streaks at zero, whatever was stored and whatever the names are |
| `WarmStreaks.AnchorResumes` | internal/monitor/engine.go:145-162 | an anchor the engine knows goes on from its state through its own samples alone |
| `WarmStreaks.RecoversAfresh` | internal/monitor/engine.go:305-307 | a warmed degraded anchor is ok after a further sample if and only if its last RecoverStreak windows are good and all came after the restart and since it was degraded; otherwise it is degraded still |
| `WarmStreaks.DegradesAfresh` | internal/monitor/engine.go:305-307 | a warmed ok anchor is degraded after a further sample if and only if its last DegradeStreak windows are bad and all came after the restart and since it was ok; otherwise it is ok still |
| `WarmStreaks.LearnsAfresh` | internal/monitor/engine.go:186-206 | a warmed learning anchor is learning until its window holds MinSamples, then ok, unless a streak is one window long and the window is bad |
| `WarmStreaks.RecoversAfterRestart` | internal/monitor/engine.go:305-307 | RecoverStreak good windows after the restart bring a warmed degraded anchor to ok |
| `WarmStreaks.WarmedStaysDegraded` | internal/monitor/engine.go:305-307 | in the engine, a degraded anchor of a warmed key is degraded still after fewer than RecoverStreak of its own samples, whatever else is added |
| `WarmSince.WarmSinceExactly` | internal/monitor/engine.go:341-374 | the key's since, which was the instant of its last move, becomes that of its newest stored sample: the same if and only if the last move was then, later otherwise |
| `WarmSince.SinceMovesOn` | internal/monitor/engine.go:371-373 | two samples at two instants are enough for the stamps to differ |
| `WarmRuns.WarmMirrors` | internal/monitor/engine.go:308-375 | loading a store that explains itself gives an engine that mirrors it |
| `LoadExact.LoadExactly` | internal/monitor/engine.go:305-375 | for any engine, baselines and samples in any order: which anchors are known afterwards, and what each becomes: the newest Window of what it had and what is given, by time; learning with too few samples, else degraded if that is the last state given or had, else ok; since the instant given last, or had, or its first sample's, or (if that is missing) its last sample's; a key that nothing is given of stays |
| `WarmRuns.RoundKeeps` | internal/monitor/monitor.go:335-352 | a round keeps the store explaining the engine |
| `WarmNames.WindowSurvivesExactly` | internal/monitor/monitor.go:141-150 | for any list of names, repeated and empty ones included: the window of a configured anchor is rebuilt exactly when it is read once, nothing is stored, or the stored window is full, of one instant, and undisturbed by a later empty name |
| `WarmNames.DistinctInstants` | internal/monitor/monitor.go:141-150 | with samples at distinct instants: exactly when it is read once, nothing is stored, or the window is one sample long |
| `WarmNames.WarmedWindow` | internal/monitor/engine.go:308-347 | what a warm start gives the anchor is the newest part of what was read of it |
| `WarmNames.TwiceReadIsDoubled` | internal/monitor/monitor.go:143-150 | a full window of two is rebuilt as its newer sample twice, for a name repeated and for an empty name |
| `WarmStart.RecallPerAnchor` | internal/monitor/monitor.go:143-150 | with distinct names, what is read contains each anchor's last Window samples and nothing else of it |
| `WarmStart.SubOfSort` | internal/monitor/engine.go:309-310 | a stable sort by time commutes with picking out one anchor |
| `MonitorObject.Monitor.SetNetwork` | internal/monitor/monitor.go:117-130 | a new non-empty key is warmed from the store; the same key, or none, changes the network only |
| `MonitorObject.Monitor.Warm` | internal/monitor/monitor.go:133-157 | forget the key, then load its baselines and the recalled history |
| `MonitorObject.Monitor.Round` | internal/monitor/monitor.go:275-374 | the round is stored and learnt exactly when the monitor is on the network it began on, running and with targets; the events of its transitions go to the events channel as far as they fit |
| `MonitorObject.FirstFit` | internal/monitor/monitor.go:362-372 | of the events of a round the channel of 32 takes the first that fit, in order, and loses the others |
| `MonitorObject.Monitor.Learn` | internal/monitor/monitor.go:340-346 | samples are appended to the store in order and added to the engine one by one |
| `MonitorObject.Monitor.PutBaselines` | internal/monitor/monitor.go:348-352 | exactly the current key's baselines are overwritten in the store |
| `MonitorObject.EventsOf` | internal/monitor/monitor.go:384-419 | only the degraded and recovered transitions become events, in order |
| `MonitorObject.RoundFits` | internal/monitor/monitor.go:283-334 | the samples of a round are of the current network, of configured anchors, and in time order behind the store |
| `MonitorObject.RoundExactly` | internal/monitor/monitor.go:285-334 | sample by sample: the gateway first if it has an address, then the anchors in order; a failed probe is -1 and all lost; the DNS time goes with the first sample alone |
| `MonitorObject.DeadRound` | internal/monitor/monitor.go:313-327 | a round of failed probes answers nothing and loses everything |
| `Deriver.NetworkKey` | internal/core/types.go:223-236 | the key is empty exactly when nothing is primary |
| `Deriver.KeyIsFirstMatch` | internal/core/types.go:223-236 | the key is that of the first profile with the primary's uuid, conn:uuid when there is none |
| `Deriver.FindNetworkKey` | internal/core/types.go:223-236 | the search loop gives that key |
| `Deriver.EventDeriver.ApplyView` | internal/daemon/derive.go:95-183 | a view takes the deriver to the specified state with the specified events, in some visiting order of the vpns that went down |
| `Deriver.EventDeriver.TakeFirstView` | internal/daemon/derive.go:98-112 | the first view is taken without events |
| `Deriver.EventDeriver.FollowPrimary` | internal/daemon/derive.go:115-145 | the primary connection's part of a view |
| `Deriver.EventDeriver.FollowConnectivity` | internal/daemon/derive.go:147-163 | the connectivity part |
| `Deriver.EventDeriver.FollowVpns` | internal/daemon/derive.go:165-180 | the vpn part: one up per newly connected entry, one down per id gone |
| `Deriver.EventDeriver.FlushTimers` | internal/daemon/derive.go:186-200 | the expired timers fire |
| `DeriverRuns.EventsReconstruct` | internal/daemon/derive.go:95-200 | replaying the events of any run reconstructs what is announced, an outstanding no-internet, the vpns up and the monitored key; every event is one its listener expects exactly when no view repeats a newly connected id |
| `DeriverRuns.LifeReconstructs` | internal/daemon/derive.go:95-200 | the same from the first view on |
| `DeriverRuns.DisconnectsAreSeparated` | internal/daemon/derive.go:115-145 | between two disconnected events there is a connected one |
| `DeriverRuns.RestoredAnswersNoInternet` | internal/daemon/derive.go:156-162 | every restored answers a no-internet that nothing has ended since |
| `DeriverRuns.VpnEventsAlternate` | internal/daemon/derive.go:165-179 | vpn-up and vpn-down alternate per id |
| `DeriverRuns.AlternationExactly` | internal/daemon/derive.go:165-180 | over any run vpn-ups and vpn-downs alternate per id if and only if no view repeats a newly connected id |
| `DeriverRuns.RepeatedIdIsAnnouncedTwice` | internal/daemon/derive.go:165-174 | a view that lists a new id twice announces it twice, and the second is not expected |
| `DeriverRuns.FlushIsExact` | internal/daemon/derive.go:186-214 | flush emits at most one event, exactly when nextDeadline has come, and leaves no deadline that has |
| `DeriverRuns.RunTimed` | internal/daemon/derive.go:203-214 | positive instants keep every deadline apart from the zero that means none |
| `DeriverRuns.DerivingTwiceIsHarmless` | internal/daemon/daemon.go:661-664 | the same view again, then or at any later instant, emits exactly what the timers emit by then without it; nothing at the same instant |
| `DeriverRuns.AbsorbedAgain` | internal/daemon/derive.go:95-183 | and leaves the state the timers leave, with at most the monitored gateway refreshed |
| `DeriverRuns.RoamIsSilent` | internal/daemon/derive.go:115-145 | a drop and a reconnect with the same key before the deadline say neither connected nor disconnected through any views between, keep the monitored network, and keep an outstanding no-internet until full connectivity says restored |
| `DeriverRuns.GapIsSilent` | internal/daemon/derive.go:186-200 | in the gap nothing but the vpns changes |
| `DeriverRuns.RoamStep` | internal/daemon/derive.go:116-127 | the reconnecting view |
| `DeriverRuns.FullConnectivityRestores` | internal/daemon/derive.go:156-162 | full connectivity on the same connection answers an outstanding no-internet |
| `DeriverExact.ViewsAreRead` | internal/daemon/derive.go:72-91 | connected is activated or no state given; bad is no connectivity, limited or a portal |
| `DeriverExact.KeyExactly` | internal/core/types.go:223-236 | wifi:ssid, type:uuid or conn:uuid, by the first profile with the uuid |
| `DeriverExact.NoInternetExactly` | internal/daemon/derive.go:147-200 | from the first bad view of a connection on, with only bad views of it and timers: nothing is said before that instant plus grace, and the first view or timer from then on says no-internet once, with the connection's key |
| `DeriverExact.FullTakesBack` | internal/daemon/derive.go:156-158 | full connectivity before that takes it back |
| `DeriverExact.GoodIsSilent` | internal/daemon/derive.go:147-163 | without a bad view nothing is said |
| `DeriverExact.OfflineStep` | internal/daemon/derive.go:156-162 | once it was said, full connectivity, and nothing else, is answered with restored |
| `DeriverExact.DropExactly` | internal/daemon/derive.go:128-133 | from the first view without a connected primary on: nothing is said before that instant plus debounce, and the first view or timer from then on says disconnected once, with the lost network's key, and takes the monitor off |
| `DeriverExact.ConnectExactly` | internal/daemon/derive.go:116-139 | a network that is new is announced at once with its key, the monitor is put on its key and gateway, and nothing pending of the last one is left |
| `DeriverExact.RefreshExactly` | internal/daemon/derive.go:140-145 | a view of the same connection says nothing of connects, and its gateway is followed when it has one |
| `DeriverExact.FirstViewExactly` | internal/daemon/derive.go:98-112 | the first view is taken without a word, and what it shows is where the deriver starts |
| `DeriverExact.SeenExactly` | internal/daemon/derive.go:165-170 | a vpn is up when an entry with its id is connected |
| `DeriverExact.VpnsExactly` | internal/daemon/derive.go:165-180 | up is said exactly of the ids newly connected, down exactly of those no longer connected |
| `AgentObject.SecretAgent.ResolveLocked` | internal/nm/agent.go:376-390 | an open request is resolved and its callback returned when a handler is set; a resolved one is left alone |
| `AgentObject.SecretAgent.ResolveById` | internal/nm/agent.go:392-405 | resolving by id: unknown ids change nothing |
| `AgentObject.SecretAgent.AnswerRequest` | internal/nm/agent.go:465-499 | not found, already resolved, missing field or accepted, with the state of each |
| `AgentObject.SecretAgent.CancelRequest` | internal/nm/agent.go:501-521 | not found, already resolved or cancelled |
| `AgentObject.SecretAgent.ResolveMatching` | internal/nm/agent.go:326-330 | the loop resolves exactly the open requests of one profile and setting, each once |
| `AgentObject.SecretAgent.CancelByNetworkManager` | internal/nm/agent.go:414-429 | CancelGetSecrets |
| `AgentObject.SecretAgent.CancelEverything` | internal/nm/agent.go:431-444 | the client's shutdown |
| `AgentObject.SecretAgent.BeginRequest` | internal/nm/agent.go:323-332 | a new request supersedes open ones of its profile and setting, whose callbacks are thrown away |
| `AgentObject.SecretAgent.PendingFor` | internal/nm/agent.go:523-535 | true exactly when the profile has an open request |
| `AgentRuns.RunKeeps` | internal/nm/agent.go:281-535 | every step of every interleaving keeps the invariant |
| `AgentRuns.FirstResolverWins` | internal/nm/agent.go:376-390 | once resolved, outcome, answer and origin never change, done was closed once, and GetSecrets returns that ending |
| `AgentRuns.AtMostOnce` | internal/nm/agent.go:376-405 | done is closed at most once, the callback runs at most once and with the outcome, one open request per profile and setting |
| `AgentRuns.WhoIsTold` | internal/nm/agent.go:326-330 | a resolution's callback is due exactly when a handler is set and the request was not superseded |
| `AgentRuns.TimeoutUnblocks` | internal/nm/agent.go:337-350 | a fired timeout or shutdown always lets GetSecrets return, with the first ending |
| `AgentRuns.ForgetDropsResolvedOnly` | internal/nm/agent.go:407-412 | forget never drops an open request |
| `AgentRuns.CancelsReachEverything` | internal/nm/agent.go:414-444 | a cancel resolves every open request it is meant for and no other |
| `AgentAnswers.AnswerExactly` | internal/nm/agent.go:465-499 | an answer for an open request is accepted if and only if it carries a requested field; the request then ends as answered, with this answer, and a set handler is due to be told so; otherwise nothing changes, and the reply is not found, conflict with the outcome, or none requested |
| `AgentAnswers.CancelExactly` | internal/nm/agent.go:501-521 | an open request ends as cancelled without an answer; otherwise nothing changes |
| `AgentAnswers.AnswerIsReturned` | internal/nm/agent.go:346-358 | over any run after an accepted answer GetSecrets can give back that answer only, and a callback can report answered only |
| `AgentAnswers.CancelIsReturned` | internal/nm/agent.go:346-369 | the same for a cancel |
| `AgentAnswers.EndsAs` | internal/nm/agent.go:376-390 | whatever ended a request, later states, its GetSecrets and its callbacks agree on it |
| `AgentAnswers.ForgottenStays` | internal/nm/agent.go:407-412 | a forgotten request is never pending again, and answering or cancelling it is not found |
| `Filter.RateKeyInjective` | internal/notify/filter.go:166 | two events share a rate key exactly when type and network key agree |
| `FilterObject.NotificationFilter.Allow` | internal/notify/filter.go:76-120 | the switches, mutes, rate limit, hold, coalescing and flap, as the specification step |
| `FilterObject.NotificationFilter.Release` | internal/notify/filter.go:151-164 | a timer delivers its own hold; a stale one delivers nothing |
| `FilterObject.NotificationFilter.Flush` | internal/notify/filter.go:123-141 | every hold is delivered once, in some order, and none is left |
| `FilterRuns.RecordSpaces` | internal/notify/filter.go:168-178 | recording a delivery that the rate limit let pass keeps all deliveries RateLimit apart |
| `FilterRuns.RunKeeps` | internal/notify/filter.go:76-178 | every step of every interleaving, stale timers included, keeps the invariant |
| `FilterRuns.SettledExactlyOnce` | internal/notify/filter.go:95-164 | each hold is pending, or was delivered once, or cancelled once; the counts add up at all times |
| `FilterRuns.DeliveriesKeepTheirDistance` | internal/notify/filter.go:168-178 | two deliveries of the same type and key are at least RateLimit apart, secret-needed alone excepted |
| `FilterTimers.HeldSince` | internal/notify/filter.go:95-117 | every hold goes back to the connect that made it, and no disconnect of its network has passed since |
| `FilterTimers.ReleasedHasLasted` | internal/notify/filter.go:30-34 | a connect delivered by its timer was made at least a debounce earlier, and no disconnect of its network passed in between |
| `FilterRuns.AllowDelivers` | internal/notify/filter.go:76-120 | Allow is true exactly when it delivers on the spot; an enabled prompt always passes |
| `FilterRuns.FlapIsSilent` | internal/notify/filter.go:110-117 | a disconnect that passes takes the held connect with it; one that does not leaves it alone |
| `FilterExact.AllowExactly` | internal/notify/filter.go:76-120 | after any run, read off policy, deliveries and holds: when exactly Allow is true, holds a connect or takes one back, and that nothing else changes |
| `FilterExact.LimitedExactly` | internal/notify/filter.go:168-178 | the limit is on exactly when the same event was delivered less than RateLimit ago |
| `FilterExact.FireExactly` | internal/notify/filter.go:151-164 | a timer after any run delivers the connect it was armed for if that is still held, and nothing otherwise |
| `FilterExact.FlushExactly` | internal/notify/filter.go:123-141 | a flush after any run delivers every held connect, once each, and leaves none |
| `BusObject.EventBus.Subscribe` | internal/daemon/bus.go:34-38 | a new, empty, listed subscriber |
| `BusObject.EventBus.Publish` | internal/daemon/bus.go:50-60 | every listed subscriber, and no other, is offered the item; none of their channels is closed |
| `BusObject.EventBus.Unlist` | internal/daemon/bus.go:41-44 | the locked half of cancel, once |
| `BusObject.EventBus.CloseChannel` | internal/daemon/bus.go:45 | the channel is closed after the unlisting, once |
| `Bus.OfferConserves` | internal/daemon/bus.go:54-58 | an offer, taken or dropped, keeps the books: an in-order selection of what was due, the rest counted as dropped |
| `BusObject.Subscriber.Receive` | internal/daemon/bus.go:20 | items leave the channel in order |
| `Bus.NeverSendsOnClosed` | internal/daemon/bus.go:34-60 | in no run does a publish send on a closed channel or overfill one |
| `Bus.Conservation` | internal/daemon/bus.go:24-60 | what a subscriber was given is an in-order selection of the items published while it was subscribed; the rest is its drop count |
| `Bus.FastReaderGetsAll` | internal/daemon/bus.go:16-17 | a subscriber is given every item in publish order exactly when it never has 128 unread at a publish |
| `Bus.NoDropIffKeepsUp` | internal/daemon/bus.go:54-58 | nothing is dropped exactly under the same condition |
| `Bus.OthersDoNotMatter` | internal/daemon/bus.go:24-26 | a subscriber's state depends on the publishes and its own actions alone |
| `BusExact.ItemsExactly` | internal/daemon/bus.go:50-60 | after any run, read off the publishes and receives: an item went in exactly when fewer than 128 were unread; the oldest of those were received in order, the others wait in order, the rest of what was due is the drop count |
| `BusExact.ClosedExactly` | internal/daemon/bus.go:40-46 | the channel is closed exactly when cancel has unlisted and then closed it, and listed exactly until cancel began |
| `SocketObject.Host.AcquireLock` | internal/daemon/socket.go:110-135 | the lock with the own pid written, or the holder's pid file read, or the lock released again |
| `SocketObject.Host.ClearPath` | internal/daemon/socket.go:65-75 | a leftover that answers ends the call as already running, one that cannot be removed fails it, any other is removed; nothing else is touched |
| `SocketObject.Host.BindSocket` | internal/daemon/socket.go:76-86 | bound, listening and with its mode set, or the lock released and the listener gone; what is left at the path for each failure |
| `SocketObject.Host.Listen` | internal/daemon/socket.go:47-87 | serving with all that serving promises, or not holding the lock; nothing is touched when another process has the lock |
| `SocketObject.Host.Close` | internal/daemon/socket.go:93-108 | the daemon's own path is unlinked while the lock is held, then the lock is free |
| `SocketRuns.RunKeeps` | internal/daemon/socket.go:47-143 | any number of processes, crashing at any step, keep the invariant |
| `SocketRuns.AtMostOneDaemon` | internal/daemon/socket.go:47-143 | whoever serves has the lock, its own live socket at the path and its pid in the file, and nobody else is past the lock |
| `SocketRuns.RefusalNamesTheDaemon` | internal/daemon/socket.go:115-122 | a process refused while a daemon serves reads that daemon's pid |
| `SocketRuns.UnlinksOnlyItsOwn` | internal/daemon/socket.go:93-108 | whatever is unlinked is the process's own socket or one whose daemon is dead or dying |
| `SocketRuns.LeftoverIsDead` | internal/daemon/socket.go:65-74 | under the lock a socket at the path has no listener but, perhaps, that of a dying process |
| `SocketRuns.AnsweredByTheDying` | internal/daemon/socket.go:66-70 | a dial under the lock is answered exactly while the exit of a crashed daemon is under way whose socket is at the path |
| `SocketRuns.DyingDaemonAnswers` | internal/daemon/socket.go:66-70 | a run in which that happens |
| `SocketRuns.StartsUp` | internal/daemon/socket.go:47-87 | with the lock free and no exit under way an undisturbed Listen serves, whatever crashed daemons left behind |
| `SocketRuns.CloseAgainKeeps` | internal/daemon/socket.go:93-108 | a second Close keeps the invariant exactly when nobody has a socket file at the path |
| `SocketRuns.CloseAgainUnlinksASuccessor` | internal/daemon/socket.go:93-108 | a run in which a second Close leaves a serving successor without its path |
| `Waiter.WaitEvents` | internal/nm/wifi.go:365-399 | the select loop ends as the fold over its inputs says, at the first input that ends it |
| `Waiter.EndsExactly` | internal/nm/wifi.go:369-397 | by the input that ends the wait: ok exactly for an activated event, ended(r) exactly for a deactivated event with reason r, cancelled exactly for the context, unavailable exactly for the closed channel; other events go on |
| `Waiter.TimesOutExactly` | internal/nm/wifi.go:375-386 | a wait times out exactly at a tick without an open secret request whose previous tick, if any, had none either |
| `Waiter.TimeoutIsFull` | internal/nm/wifi.go:360-364 | and then a full activateTimeout has passed since the start, or since the tick that found the extension over |
| `Waiter.DeadlineCounts` | internal/nm/wifi.go:366-384 | what deadline and extension mean after any inputs |
| `WaiterObject.Client.AddWaiter` | internal/nm/client.go:712-718 | a fresh channel waits last on its path |
| `WaiterObject.Client.RemoveWaiter` | internal/nm/client.go:720-733 | one channel stops waiting, the others keep their order, an empty entry goes |
| `WaiterObject.Client.NotifyWaiters` | internal/nm/client.go:735-744 | every channel waiting on the path, and no other, is offered the event |
| `WaiterObject.Client.CloseAll` | internal/nm/client.go:695-708 | every waiting channel is closed and none waits |
| `WakeUps.RunKeeps` | internal/nm/wifi.go:336-350 | every interleaving of NetworkManager, the signal loop and the waiter keeps the invariant |
| `WakeUps.MissesExactly` | internal/nm/client.go:735-744 | a waiter has nothing settling to come exactly when every settling event handled since its registration met a full channel and none is among the signals |
| `WakeUps.LostExactly` | internal/nm/wifi.go:332-351 | an activation that settled since the registration, or after a successful live read, is missed exactly when a settling event was refused, none was let in and none is to come |
| `WakeUps.NoLostWakeUp` | internal/nm/wifi.go:332-351 | so while no settling event met a full channel, one is always on its way |
| `WakeUps.SettledIsSeen` | internal/nm/client.go:560-566 | whatever is queued, draining the channel and handling the signals ends the wait by the first settled event: ok if it is an activation, with its reason if not |
| `WakeUps.LiveReadExactly` | internal/nm/wifi.go:339-349 | the live read ends the wait as ok exactly for an activated connection, as failed exactly for a deactivated one, and waits otherwise, also when the read fails |
| `WakeUps.TakeExactly` | internal/nm/wifi.go:387-396 | what the waiter makes of the oldest event, or of the closed channel |
| `WakeUps.FullChannelLoses` | internal/nm/client.go:738-743 | a run in which a full channel loses the settling event |
| `WakeUps.WithoutReadMisses` | internal/nm/wifi.go:339-349 | a run in which a failed live read misses an activation that settled before |
| `SafeWriter.SgrEnd` | internal/cli/safe.go:92-109 | complete, cut short or no SGR sequence, and where the scan ends |
| `SafeWriter.SanitizeBytes` | internal/cli/safe.go:57-86 | the index loop computes the recursive filter and its held tail |
| `SafeWriter.Writer.Write` | internal/cli/safe.go:24-38 | one write filters the held tail and the new bytes; a failing sink gets nothing |
| `SafeWriter.Writer.Flush` | internal/cli/safe.go:42-52 | the tail is decided and nothing stays held |
| `SafeRuns.BatchIsExact` | internal/cli/safe.go:8-12 | a whole buffer keeps, in order, exactly the bytes that are no control byte, the ESC of no SGR sequence excepted, and no half of an encoded C1 control: a local condition on each byte |
| `SafeRuns.StreamIsBatch` | internal/cli/safe.go:14-52 | for any split into writes the sink equals the batch result exactly when no boundary cuts an encoded C1 control; each cut adds two bytes |
| `SafeRuns.CutOnce` | internal/cli/safe.go:24-38 | the same for one cut, with the same tail held |
| `SafeRuns.CutControlPasses` | internal/cli/safe.go:78-80 | a cut control passes the filter |
| `SafeRuns.HeldTail` | internal/cli/safe.go:69-72 | what is held is ESC, or ESC [ and parameter bytes, at the very end of the input |
| `SafeRuns.SinkIsTame` | internal/cli/safe.go:8-12 | after every write and the Flush the sink's one-byte controls are newlines, tabs and the ESC of complete SGR sequences |
| `SafeRuns.BatchJoins` | internal/cli/safe.go:78-80 | the output holds an encoded C1 control exactly when only dropped bytes, and at least one, stood between a surviving lead byte and a surviving C1 byte |
| `SafeRuns.BellJoins` | internal/cli/safe.go:78-80 | such an input: a lead byte, BEL, a C1 byte |
| `SafeRuns.StreamJoins` | internal/cli/safe.go:24-52 | streamed output holds one exactly then or when a write boundary cut one |
| `Sse.ReadSse` | internal/client/sse.go:18-59 | the scanner loop gives the callback what the line-by-line reading says, and its error |
| `Sse.IndexOf` | internal/client/sse.go:43 | the first place of a byte |
| `SseRuns.SendRead` | internal/api/server.go:867-877 | what send prints is read back as exactly its event, whatever follows |
| `SseRuns.CommentRead` | internal/api/server.go:879-885 | what comment prints is read over without an event, whatever follows |
| `SseRuns.RoundTrip` | internal/client/sse.go:18-59 | reading any printed sequence of events and comments gives exactly the events, in order, or the prefix up to the first after which the callback wants no more |
| `SseRuns.FramesRead` | internal/client/sse.go:33-53 | the same for a stream that goes on with anything |
| `SseRuns.OverlongFails` | internal/client/sse.go:20 | the first frame with a line over the scanner's limit ends the reading with an error after exactly the events before it |
| `SseBlocks.BlockRead` | internal/client/sse.go:33-53 | any block of lines, with or without a space after the colon, ended by LF or CR LF, with comments and unknown fields between: at the blank line the callback is given the last name and the data lines joined by newlines, once, unless there is neither |
| `SseBlocks.LineSays` | internal/client/sse.go:38-52 | what one line does to the fields, by what it says |
| `SseBlocks.LastBlockRead` | internal/client/sse.go:54-58 | a block that the stream ends in is told of too |
| `SseBlocks.CutBlockRead` | internal/client/sse.go:33-58 | also when its last line has no end |

## Left out

- D-Bus calls, the object cache, settings encoding, polkit, the store's SQL, HTTP, JSON, the command line, the desktop app, probers and diagnostics: foreign calls and user interface. The store is an append-only list of samples and a last-write-wins map of baselines.
- Overlapping calls of Close on one socket: a second Close is modelled only after the first has returned.
- Event titles, bodies, urgencies and log lines; the extra data of an event. Type, key, instant and vpn id are kept.
- Prune, Pause, ResetBaseline, lastSample and store errors of the monitor: a round that fails to store a sample is not modelled.
- IEEE rounding in the engine: figures are reals.
- Random request ids of the agent: they are fresh. What the agent does with an answer after it was accepted (replying with settings, persisting) is not part of this model.
- Directory creation, its mode and the path-length check at the head of Listen: they come before the lock and touch none of the shared files. Processes that do not follow the protocol are not part of the model.
- The net.Listener.Close of Go's library is modelled as unlinking the path and then closing the descriptor.
- The error text and kind of activationError; an ended activation keeps its reason only.
- Waiter.WaitEvents: which ready case a select picks is the order of the input sequence; the theorems hold for every order.
- SafeRuns.StreamIsBatch: for writes the sink accepts; a failing sink loses that write's bytes, as in the source.
- SseRuns.RoundTrip: names and data are free of LF and do not end in CR, comments are free of LF, which is what the format carries in one line; what is read of any other block, multi-line data included, is SseBlocks.BlockRead.
- WarmRuns.WarmIsIdentity: streaks and the last reason are not stored by the source, so they are not rebuilt (for the key's since see WarmSince.WarmSinceExactly); names are distinct and non-empty (for others see WarmNames.WindowSurvivesExactly), samples come in time order at positive instants.
- Verdicts.OutageExactly: the answers in the window before the outage lie in a narrow band, so that loss alone decides; histories in which the latency rule fires too are not covered.
- EngineObject.BaselineEngine.Reset, EventDeriver.SetThePrimary and similar one-assignment helpers have no row of their own; the theorems about whole runs cover them.
- FilterTimers.ReleasedHasLasted: timers fire no earlier than a debounce after they were armed; a Flush delivers early, as in the source.
- The daemon's run loop beyond its calls on the deriver: snapshot refresh and monitor syncing.
