# Verification model of the DNP3 gateway

The gateway polls DNP3 devices, publishes what changed, watches links that may sleep or hang,
executes commands and reports device health. Its hard logic is a set of small in-memory protocols
shared by I/O callbacks, poll workers, the command thread and background publishers. This project
models them in Dafny and proves what they promise over every run.

How it is organised, one group of modules per part of the program:

- **Change publication.** `CacheModel` says what each method of the device cache does to the state
  its lock protects, `DeviceCache` is the cache as an object proved against it, `StoreLaws` the laws
  of its tables. `Publication` runs writers, pollers and operators in any interleaving and proves that
  no update is lost; `SingleFlight` proves when the last publication is also the current value,
  `LastWord` that of an online device no later comm_lost hides it. `Settlement` says which keys are
  dirty, and what a commit settles, from the run alone.
  `DevicePoll` is one device poll from its readings to their acknowledgement.
- **Link, recovery and sleep.** `PollModel` is one poll as a function of the master's state, `Reader`
  the poll as a sequence of cache calls. `LinkRuns` are runs of callbacks and polls; `Oscillation`,
  `QuietBudget`, `SmartSleep` and `Announcement` prove bounds and safety over them, `LinkRecovery`,
  `Classification` and `PollReports` what each poll decides and reports, from what happened before it.
  `RelinkBackoff` is the probing and relinking of lost devices, `ProbeRate` its use by a poll.
- **Device health.** `HealthWire` holds records, envelopes and a receiver written from the envelope's
  contract, `HealthPublisher` one turn of the publisher. `Replication` and `DeltaReplication` run them
  over a network that loses, delays and repeats; `SnapshotTurns` says which turns are snapshots,
  `BootIds` is the boot counter.
- **Diagnostic pool.** `DiagnosticPool` is the shared state and the object, `DiagnosticRuns` its threads,
  `StopSignals` the shutdown protocol.
- **Scheduling.** `PollScheduler`: due devices, the accounting of a cycle, starvation freedom.
  `GatewayState`: the window of known command ids and the refresh triggers.
- **Commands.** `CommandRules` are the pure gates, `CommandLedger` the journal, `CommandDispatch` the two
  channels as they run, `CommandResults` what their results mean, `CommandRuns` their interleavings
  with crashes, retention and time.
- **Interval code.** `DirectRead`, `G110Blocks` and `PortRanges`, with `Text` for strings.

Where a promise does not hold for all settings, the project states exactly when it does, with a run
that shows the other side:

- the last published value is current iff one poll of a device is in flight (`SingleFlight`);
- a loss is always announced again iff the policy is continuous and one poll is in flight (`Announcement`);
- an announced loss has been told for every signal iff the publisher takes batches or there is one
  signal (`DevicePoll`);
- probes of a lost device keep their 30 s distance iff no session was torn down and no poll found
  fresh evidence between them, because a poll forgets the probe record just before it probes (`ProbeRate`);
- a device found silent for too long stays lost until new evidence iff its last session does not count
  as one with evidence (`SmartSleep`);
- each increment of the refresh count refreshes once iff no config answer comes late (`GatewayState`);
- receiver and gateway agree after every good turn iff a send that raises is never applied
  (`DeltaReplication`);
- a snapshot request that arrives during a turn survives iff that turn is not a successful snapshot
  (`Replication`);
- boot numbers increase iff the counter file can be read at every restart and was written before (`BootIds`);
- every diagnostic worker gets a stop signal iff there is one worker, or the queue is at least as long
  as there are workers and no submitter is caught half-way (`StopSignals`);
- a command is executed at most once iff time stamps are required, the stamps under which one id is
  offered keep within a spread, and retention covers maximum age, skew, handler delay and that spread
  (`CommandRuns`);
- forced relinks keep their distances, and follow their probes, iff at most one poll of a device is
  under way at a time (`RelinkBackoff`);
- a delivery deadline binds iff no future skew is tolerated or it does not precede the creation time
  (`CommandRules`).

Where the code and its own documentation disagree, the models follow the code:

- `next_boot_id` documents 1 as its result when the file cannot be written; the code returns the stored
  number plus one (`src/dnp3_gateway/backend/device_health_publisher.py:392-415`).
- The serial poll path documents that a full outbox marks the remaining devices as read; the code marks
  only the device at hand (`src/dnp3_gateway/poller.py:490-500`).
- `shutdown` documents one reliable signal per worker; the code can throw signals away again
  (`src/dnp3_gateway/network_probe.py:385-395`).
- The probe of lost devices documents one request per 30 seconds; the code can ask in every poll
  (`src/dnp3_gateway/adapters/dnp3_yadnp3_master.py:362-369`, `4428-4435`).

Conventions: time is a real number of seconds on one non-decreasing clock, and 0.0 is the "unset"
value, as in the code. Raw measurement values have reflexive equality. A dictionary whose order matters
carries its insertion order. One method of the cache is one step, and one poll is one step against the
link callbacks, because a poll reads the state once and acts on it.

## Model

| member | source | states |
|---|---|---|
| `DeviceCaches.DeviceCache.constructor` | src/dnp3_gateway/adapters/dnp3_yadnp3_master.py:676-844 | a new cache: nothing known, link closed, state lost |
| `DeviceCaches.DeviceCache.Set` | src/dnp3_gateway/adapters/dnp3_yadnp3_master.py:846-936 | a measurement: new version only if (raw, text, flags) changed; the first one after the anchor of a recovery confirms it and re-dirties every known key in the same step |
| `DeviceCaches.DeviceCache.StoreValue` | src/dnp3_gateway/adapters/dnp3_yadnp3_master.py:876-900 | the value, dirty and version part of `set` |
| `DeviceCaches.DeviceCache.MarkAllDirty` | src/dnp3_gateway/adapters/dnp3_yadnp3_master.py:1055-1087 | every known key dirty under a fresh version; returns how many |
| `DeviceCaches.DeviceCache.PeekIfDirty` | src/dnp3_gateway/adapters/dnp3_yadnp3_master.py:952-979 | a dirty key yields its value with its version, and stays dirty |
| `DeviceCaches.DeviceCache.CommitPublished` | src/dnp3_gateway/adapters/dnp3_yadnp3_master.py:981-1000 | clears exactly the dirty keys of which some token carries the current version; returns how many |
| `DeviceCaches.DeviceCache.BeginStaleAnnounce` | src/dnp3_gateway/adapters/dnp3_yadnp3_master.py:1010-1018 | reads the announcement and its generation without setting it |
| `DeviceCaches.DeviceCache.ConfirmStaleAnnounced` | src/dnp3_gateway/adapters/dnp3_yadnp3_master.py:1020-1032 | takes effect only for the current generation, once |
| `DeviceCaches.DeviceCache.ResetStaleAnnounce` | src/dnp3_gateway/adapters/dnp3_yadnp3_master.py:1034-1038 | opens the announcement again under the next generation |
| `DeviceCaches.DeviceCache.RequestStrings` | src/dnp3_gateway/adapters/dnp3_yadnp3_master.py:1100-1106 | a new request for strings: budget and timer start over |
| `DeviceCaches.DeviceCache.StringsNeeded` | src/dnp3_gateway/adapters/dnp3_yadnp3_master.py:1108-1137 | due iff waiting, unanswered, past the timer and under the ceiling; then counts and doubles the delay up to 240 s |
| `DeviceCaches.DeviceCache.SetConnected` | src/dnp3_gateway/adapters/dnp3_yadnp3_master.py:1207-1276 | opening and closing: recovery marks, expected sleep of a smart device, string request |
| `DeviceCaches.DeviceCache.NoteEvidence` | src/dnp3_gateway/adapters/dnp3_yadnp3_master.py:1296-1320 | proof of life without data |
| `DeviceCaches.DeviceCache.BeginRecovery` | src/dnp3_gateway/adapters/dnp3_yadnp3_master.py:1335-1352 | entering recovering; no effect while recovering |
| `DeviceCaches.DeviceCache.FailRecovery` | src/dnp3_gateway/adapters/dnp3_yadnp3_master.py:1365-1378 | recovering gives up and remembers the evidence seen so far |
| `DeviceCaches.DeviceCache.CommLostDeferrable` | src/dnp3_gateway/adapters/dnp3_yadnp3_master.py:1380-1399 | whether comm_lost may still be postponed since the first postponement |
| `DeviceCaches.DeviceCache.EnterSmartIdle` | src/dnp3_gateway/adapters/dnp3_yadnp3_master.py:1480-1508 | the device is taken to be asleep; the first time also anchors the silence watch |
| `DeviceCaches.DeviceCache.ExitSmartIdle` | src/dnp3_gateway/adapters/dnp3_yadnp3_master.py:1510-1523 | clears the idle stamp and nothing else |
| `DeviceCaches.DeviceCache.SmartIdleToLost` | src/dnp3_gateway/adapters/dnp3_yadnp3_master.py:1525-1540 | asleep too long: lost, and the session no longer counts as evidence |
| `DeviceCaches.DeviceCache.ConsumeSmartWakeup` | src/dnp3_gateway/adapters/dnp3_yadnp3_master.py:1542-1547 | one-shot length of the sleep that ended |
| `DeviceCaches.DeviceCache.ConsumeRecoveryPublish` | src/dnp3_gateway/adapters/dnp3_yadnp3_master.py:1576-1587 | one-shot flag that a recovery must be published |
| `StoreLaws.StoreSetValid` | src/dnp3_gateway/adapters/dnp3_yadnp3_master.py:876-900 | every write keeps the cache tables consistent: same keys everywhere, versions within the issued ones |
| `StoreLaws.MarkAllDirtyMeaning` | src/dnp3_gateway/adapters/dnp3_yadnp3_master.py:1055-1070 | afterwards exactly the known keys are dirty, each under a version never issued before |
| `StoreLaws.TouchAllVersions` | src/dnp3_gateway/adapters/dnp3_yadnp3_master.py:1055-1070 | the i-th known key gets the i-th fresh version |
| `Publication.ActInv` | src/dnp3_gateway/adapters/dnp3_yadnp3_master.py:876-1087 | every step of writers, pollers and operators keeps: a version determines the sample, tokens are true to it, a clean key is durable |
| `Publication.NoLostUpdate` | src/dnp3_gateway/poller.py:201-355 | any interleaving, any number of polls: a clean key has had exactly its current (raw, text, flags) made durable by a reading peeked after its version was issued |
| `Publication.RepublishObligation` | src/dnp3_gateway/adapters/dnp3_yadnp3_master.py:1055-1087 | after re-dirtying at time t every known key stays dirty until a reading peeked at or after t is durable |
| `Publication.OldTokensClearNothing` | src/dnp3_gateway/adapters/dnp3_yadnp3_master.py:981-1000 | after an operator re-dirtying or a confirmed recovery, and after any continuation, a token peeked before it can clear no key that was known then |
| `Publication.TokensInFlightAreOld` | src/dnp3_gateway/poller.py:270-355 | tokens of polls that were under way at a re-dirtying are all of that kind |
| `Settlement.CommitSettles` | src/dnp3_gateway/adapters/dnp3_yadnp3_master.py:981-1000 | any run, any number of polls: after a commit a known key is dirty iff it was and no reading of it that this poll stored was taken after its current version was issued; nothing else changes |
| `Settlement.UndisturbedPollCleans` | src/dnp3_gateway/poller.py:201-355 | a poll all of whose messages were stored, and which no write or re-dirtying overtook, leaves every key it read clean |
| `Settlement.DirtyIffUnsettled` | src/dnp3_gateway/adapters/dnp3_yadnp3_master.py:846-1087 | over every run a key is dirty iff a measurement that differed from the one before, or a re-dirtying, has not been settled by a commit; its sample is what was measured last |
| `DevicePolls.PollDevice` | src/dnp3_gateway/poller.py:201-316 | what of one device poll is acknowledged: everything or nothing of a batch, exactly the stored messages otherwise |
| `DevicePolls.PublishEach` | src/dnp3_gateway/poller.py:284-316 | the loop over single messages, up to a full disk |
| `DevicePolls.StoredMeans` | src/dnp3_gateway/poller.py:284-316 | a reading is acknowledged iff its own message was stored before the disk was full |
| `DevicePolls.ToPublishMeans` | src/dnp3_gateway/poller.py:240-262 | published are exactly the readings that say something |
| `DevicePolls.ToPublishOrder` | src/dnp3_gateway/poller.py:240-262 | ... in the order they were read |
| `DevicePolls.ToldIff` | src/dnp3_gateway/poller.py:252-316 | a reading is acknowledged iff its batch did not raise or its own message was stored before the disk was full |
| `DevicePolls.AllToldIff` | src/dnp3_gateway/poller.py:252-316 | an announced loss has been told for every signal iff the publisher takes batches or the device has one signal to tell |
| `SingleFlight.OneFlightLastIsCurrent` | src/dnp3_gateway/poller.py:201-316 | one poll in flight: what was published last for a clean key is its current sample |
| `SingleFlight.OvertakenIsStale` | src/dnp3_gateway/poller.py:590-620 | the run that breaks it: a slow poll publishes 1.0 after a later poll has published and committed 2.0 |
| `SingleFlight.LastIsCurrentIffOneInFlight` | src/dnp3_gateway/poller.py:590-620 | that holds on all runs iff at most one poll of the device is in flight; a timed-out poll that goes on running breaks it |
| `LastWord.NextInv` | src/dnp3_gateway/poller.py:201-316 | every step of I/O, one poll and its messages keeps: messages are true to their version, and while online the last message about a clean key is its current value |
| `LastWord.OnlineLastWordIsCurrent` | src/dnp3_gateway/adapters/dnp3_yadnp3_master.py:846-1000 | one poll in flight, any policy, messages stored one by one: while a device is online the last durable message of any kind about a clean key is its current value, never comm_lost |
| `LastWord.WholePollSettles` | src/dnp3_gateway/poller.py:201-355 | a poll that nothing overtakes and whose messages are all stored leaves every signal of its list clean, or the loss announced |
| `Readers.Reader.ClassifyMode` | src/dnp3_gateway/adapters/dnp3_yadnp3_master.py:3657-3778 | the operation mode known so far decides the effective policy; true means the master was dropped |
| `Readers.Reader.AwaitMode` | src/dnp3_gateway/adapters/dnp3_yadnp3_master.py:3725-3778 | no mode seen yet: one classification poll per session, continuous after 120 s |
| `Readers.Reader.StartScans` | src/dnp3_gateway/adapters/dnp3_yadnp3_master.py:3780-3837 | switching a smart master to periodic scans, or dropping it |
| `Readers.Reader.CheckIdle` | src/dnp3_gateway/adapters/dnp3_yadnp3_master.py:4060-4160 | asleep, or silent for too long |
| `Readers.Reader.AskStrings` | src/dnp3_gateway/adapters/dnp3_yadnp3_master.py:4352-4355 | at most one round of string requests, with a ceiling of one for smart devices |
| `Readers.Reader.JudgeLink` | src/dnp3_gateway/adapters/dnp3_yadnp3_master.py:4485-4548 | stale edge, grace timeout and the way out of lost, in this order |
| `Readers.Reader.Changes` | src/dnp3_gateway/adapters/dnp3_yadnp3_master.py:4650-4798 | the tokens of the dirty signals in signal order |
| `Readers.Reader.Say` | src/dnp3_gateway/adapters/dnp3_yadnp3_master.py:4573-4648 | postpone, announce, repeat, or publish after a confirmed recovery |
| `Readers.Reader.ReadAwake` | src/dnp3_gateway/adapters/dnp3_yadnp3_master.py:4413-4648 | the part of a poll a sleeping device does not reach |
| `Readers.Reader.ReadDevice` | src/dnp3_gateway/adapters/dnp3_yadnp3_master.py:4302-4648 | one whole poll: new state, readings, requests sent and probe decisions |
| `LinkRuns.StepInv` | src/dnp3_gateway/adapters/dnp3_yadnp3_master.py:1207-1428 | every callback and poll keeps: recovering or online only on an open link, no idle stamp while connected, a lost open link only after a failed recovery |
| `Oscillation.EntriesBounded` | src/dnp3_gateway/adapters/dnp3_yadnp3_master.py:4485-4548 | entries into recovering over any run: at most credit + opens + 2 x evidence |
| `Oscillation.AtMostOneEntryWithoutEvidence` | src/dnp3_gateway/adapters/dnp3_yadnp3_master.py:1401-1428 | no opening and no new evidence: at most one entry, whatever the polls do |
| `Oscillation.EntriesFromStart` | src/dnp3_gateway/adapters/dnp3_yadnp3_master.py:1335-1378 | from a new cache: at most opens + 2 x evidence |
| `LinkRecovery.LostUntilHeardAgain` | src/dnp3_gateway/adapters/dnp3_yadnp3_master.py:4532-4549 | over every run: a poll takes a lost device with an open link to recovering iff evidence arrived after the recovery that failed and the last evidence is not older than the threshold; otherwise it stays lost |
| `LinkRecovery.RecoveringForGrace` | src/dnp3_gateway/adapters/dnp3_yadnp3_master.py:4500-4516 | a poll leaves a recovering device recovering iff no more than 15 s have passed since it began to recover, and lost otherwise |
| `LinkRecovery.OnlineWhileHeard` | src/dnp3_gateway/adapters/dnp3_yadnp3_master.py:4485-4500 | a poll leaves an online device online iff it was heard lately or is under the smart policy, and recovering otherwise |
| `LinkRecovery.RecoveryAsksOnce` | src/dnp3_gateway/adapters/dnp3_yadnp3_master.py:4352-4568 | what such a poll asks for: an integrity poll iff it begins a recovery of a continuous device, the classification poll once, the data-silence poll iff heard but without values, the probe iff left lost |
| `LinkRecovery.MeasurementEndsRecovery` | src/dnp3_gateway/adapters/dnp3_yadnp3_master.py:901-936 | a device gets online by a measurement that finds it recovering and is not stamped before the recovery began, and by nothing else |
| `LinkRecovery.SessionAge` | src/dnp3_gateway/adapters/dnp3_yadnp3_master.py:1140-1160 | the age of a session counts from the callback that opened the link, however often it repeats |
| `PollReports.TakenIffDirty` | src/dnp3_gateway/adapters/dnp3_yadnp3_master.py:4650-4798 | the readings of a poll are exactly those of the dirty keys of the signal list, with current value and version |
| `PollReports.TakenInOrder` | src/dnp3_gateway/adapters/dnp3_yadnp3_master.py:4650-4798 | ... in the order of the list |
| `PollReports.OnlineTells` | src/dnp3_gateway/adapters/dnp3_yadnp3_master.py:4600-4648 | over every run: an online poll tells every known signal if a recovery has not been published yet, else exactly the dirty ones; only the former opens a new announcement |
| `PollReports.OfflineTells` | src/dnp3_gateway/adapters/dnp3_yadnp3_master.py:4573-4600 | an offline poll postpones iff the device is smart, recovering, and within 15 s of the first postponement since a confirmed recovery; else it tells the loss iff that is not announced yet |
| `PollReports.EventsMean` | src/dnp3_gateway/adapters/dnp3_yadnp3_master.py:846-1087 | what measurements, re-dirtying, commits and confirmations do to the dirty keys and the announcement that polls report |
| `Classification.PolicyIff` | src/dnp3_gateway/adapters/dnp3_yadnp3_master.py:3657-3837 | over every run of an auto device: the master is dropped iff scans shall start and cannot, or the device proves smart under a continuous one; it stays smart unless another mode is seen or 120 s pass without one |
| `Classification.AsksModeOnce` | src/dnp3_gateway/adapters/dnp3_yadnp3_master.py:3725-3750 | the classification poll is sent exactly by the first poll over an open link that knows no mode |
| `Classification.ManualStays` | src/dnp3_gateway/adapters/dnp3_yadnp3_master.py:3657-3680 | a policy chosen by hand never changes |
| `QuietBudget.SmartRun` | src/dnp3_gateway/adapters/dnp3_yadnp3_master.py:4352-4568 | the budget as an invariant: rounds sent plus credit left never exceed what was asked for |
| `QuietBudget.SmartDeviceStaysQuiet` | src/dnp3_gateway/adapters/dnp3_yadnp3_master.py:1100-1137 | while the policy stays smart polls send at most one round per request for strings, plus one classification poll per opening of an auto device |
| `QuietBudget.StringRoundsBounded` | src/dnp3_gateway/adapters/dnp3_yadnp3_master.py:1108-1137 | any policy: at most six string rounds per request, the k-th gap at least min(240, 15 x 2^(k-1)) s |
| `QuietBudget.StringRoundIff` | src/dnp3_gateway/adapters/dnp3_yadnp3_master.py:1100-1137 | a poll sends a string round iff the link is open, strings were asked for and none came since, rounds are left under the policy, and the delay after the last round is over |
| `QuietBudget.StringDelays` | src/dnp3_gateway/adapters/dnp3_yadnp3_master.py:536-543 | the six delays: 15, 30, 60, 120, 240, 240 |
| `SmartSleep.SilenceDecides` | src/dnp3_gateway/adapters/dnp3_yadnp3_master.py:4095-4160 | any run of one master, disconnected listening device under the smart policy, fixed or classified: within the limit the poll publishes as healthy sleep, beyond it it reports the loss; it sends nothing either way |
| `SmartSleep.SleepsWithinLimit` | src/dnp3_gateway/adapters/dnp3_yadnp3_master.py:4060-4160 | the same told from the run: a disconnected smart device counts as asleep for the limit, from its last evidence, else from its first sleep, else from the creation of its master; lost after it |
| `SmartSleep.LostPollStarts` | src/dnp3_gateway/adapters/dnp3_yadnp3_master.py:1525-1540 | the poll that finds the silence too long makes the device lost; the evidence flag of the session survives exactly if the device was not asleep |
| `SmartSleep.LostUntilEvidence` | src/dnp3_gateway/adapters/dnp3_yadnp3_master.py:4095-4160 | from then on, without new evidence and however often a closing is reported, it never sleeps again and every disconnected poll reports the loss |
| `SmartSleep.StaysLostIff` | src/dnp3_gateway/adapters/dnp3_yadnp3_master.py:1207-1276 | a closed device found silent for too long can never fall asleep again without evidence iff its last session does not count as one with evidence |
| `SmartSleep.SilenceIsFinal` | src/dnp3_gateway/adapters/dnp3_yadnp3_master.py:4095-4160 | the whole promise over a run from a new cache: evidence over open links only, closings reported at any time, one poll beyond the limit, then lost until new evidence |
| `SmartSleep.NeverCallsIn` | src/dnp3_gateway/adapters/dnp3_yadnp3_master.py:4025-4037 | that run exists: a device that never calls in |
| `SmartSleep.SessionEvidence` | src/dnp3_gateway/adapters/dnp3_yadnp3_master.py:1207-1276 | the evidence flag of a session is exactly "something arrived since it opened" |
| `SmartSleep.ClosingIsSleepIffSpoken` | src/dnp3_gateway/adapters/dnp3_yadnp3_master.py:1241-1276 | a closing is sleep iff the policy is smart then and the device spoke in that session, otherwise a loss |
| `SmartSleep.WakeupLength` | src/dnp3_gateway/adapters/dnp3_yadnp3_master.py:1207-1250 | waking leaves the length of the sleep for the next poll, which takes it |
| `SmartSleep.DeferralIsBounded` | src/dnp3_gateway/adapters/dnp3_yadnp3_master.py:1380-1399 | between two confirmed recoveries all postponed polls lie in one grace window from the first, however often the link opens and closes |
| `Announcement.AnnouncedIsDurable` | src/dnp3_gateway/adapters/dnp3_yadnp3_master.py:1010-1038 | any number of polls: announced means that a comm_lost of the current generation is durable; late confirmations of older generations change nothing |
| `Announcement.LossIsReannounced` | src/dnp3_gateway/adapters/dnp3_yadnp3_master.py:4573-4648 | from any state with the continuous policy, by hand or of an auto device, and nothing announced, one poll in flight: while announced nothing good was published since, so the next poll that is not online after any good publication emits comm_lost |
| `Announcement.RecoverySettles` | src/dnp3_gateway/adapters/dnp3_yadnp3_master.py:4630-4646 | a master that became continuous with an old announcement gets into such a state with the first poll that publishes a confirmed recovery |
| `Announcement.SleepRetracts` | src/dnp3_gateway/adapters/dnp3_yadnp3_master.py:4395-4412 | a smart device asleep while announced publishes good values and its later loss is not announced again |
| `Announcement.SmartLosesAnnouncement` | src/dnp3_gateway/adapters/dnp3_yadnp3_master.py:1264-1276 | a smart device that wakes briefly while its loss is announced: one poll slot is enough to lose the announcement |
| `Announcement.TwoPollsLoseAnnouncement` | src/dnp3_gateway/poller.py:590-620 | a continuous device whose good poll is overtaken by one that finds it gone |
| `Announcement.AnnouncedIffContinuousAndAlone` | src/dnp3_gateway/adapters/dnp3_yadnp3_master.py:1264-1276 | losses are always announced iff the policy is continuous and one poll is in flight |
| `RelinkBackoff.Prober.constructor` | src/dnp3_gateway/adapters/dnp3_yadnp3_master.py:3045-3060 | zero settings select the defaults 30 s and 3 probes |
| `RelinkBackoff.Prober.ProbeLost` | src/dnp3_gateway/adapters/dnp3_yadnp3_master.py:3403-3531 | one probe of a lost device: rate limit, poll, or relink decision |
| `RelinkBackoff.Prober.CountAttempt` | src/dnp3_gateway/adapters/dnp3_yadnp3_master.py:3418-3431 | the rate limit and the two counters |
| `RelinkBackoff.Prober.TryRelink` | src/dnp3_gateway/adapters/dnp3_yadnp3_master.py:3455-3531 | young session, command under way and backoff each postpone; otherwise the session is torn down and the wait doubles |
| `RelinkBackoff.Prober.UndoAttempt` | src/dnp3_gateway/adapters/dnp3_yadnp3_master.py:3533-3547 | a postponed relink is taken out of the counter |
| `RelinkBackoff.Prober.Reset` | src/dnp3_gateway/adapters/dnp3_yadnp3_master.py:3300-3306 | hearing from the device forgets its record |
| `RelinkBackoff.ForcedCountsRelinks` | src/dnp3_gateway/adapters/dnp3_yadnp3_master.py:3425-3547 | however many devices and polls of one device overlap: the counter is the relinks performed plus those being decided |
| `RelinkBackoff.SparesYoungAndBusy` | src/dnp3_gateway/adapters/dnp3_yadnp3_master.py:3455-3480 | no decision to relink falls on a young session or while a command is under way, overlap or not |
| `RelinkBackoff.RelinksBackOff` | src/dnp3_gateway/adapters/dnp3_yadnp3_master.py:3484-3531 | one poll of a device at a time, any number of devices: until the device is heard again the gap after the k-th relink is at least min(3600, 300 x 2^(k-1)) s |
| `RelinkBackoff.SpacedIffAlone` | src/dnp3_gateway/adapters/dnp3_yadnp3_master.py:3484-3531 | the gaps hold on all runs iff at most one poll of a device is under way; two can both pass the check before either writes the record |
| `RelinkBackoff.RelinksInSpan` | src/dnp3_gateway/adapters/dnp3_yadnp3_master.py:387-392 | hence, one poll of a device at a time, at most five relinks within 8100 s of the first and one more per further hour |
| `RelinkBackoff.RelinkNeedsProbes` | src/dnp3_gateway/adapters/dnp3_yadnp3_master.py:3414-3475 | one poll of a device at a time: each relink follows at least the configured number of spaced unanswered probes since the last relink or sign of life, never on a young session or with a command under way |
| `RelinkBackoff.AttemptIff` | src/dnp3_gateway/adapters/dnp3_yadnp3_master.py:3414-3455 | one poll of a device at a time: an interval after the last attempt a poll probes while fewer than the configured number stayed unanswered, and comes to a decision after that; an earlier one does nothing |
| `RelinkBackoff.GoesAheadIff` | src/dnp3_gateway/adapters/dnp3_yadnp3_master.py:3455-3531 | a decision tears the session down iff that is neither young nor busy and the wait after the last relink is over |
| `RelinkBackoff.ProbedIffAlone` | src/dnp3_gateway/adapters/dnp3_yadnp3_master.py:3403-3531 | relinks follow their probes on all runs iff at most one poll of a device is under way; another poll can hear the device while the first decides |
| `ProbeRate.ProbingPollResets` | src/dnp3_gateway/adapters/dnp3_yadnp3_master.py:4428-4435 | a poll that probes has forgotten the record first iff the evidence is fresh |
| `ProbeRate.RateLimitedIffSilent` | src/dnp3_gateway/adapters/dnp3_yadnp3_master.py:4428-4568 | one poll: with stale evidence the 30 s limit decides; with fresh evidence the poll asks whatever the record says and no relink comes nearer |
| `ProbeRate.ResetsIffFresh` | src/dnp3_gateway/adapters/dnp3_yadnp3_master.py:4428-4435 | a poll of a continuous device forgets the record iff it finds the link open and its evidence fresh |
| `ProbeRate.CloserIffFresh` | src/dnp3_gateway/adapters/dnp3_yadnp3_master.py:3414-3531 | over a run: the next attempt within the interval of one is made rather than put off iff that one tore the session down or a poll since has found fresh evidence |
| `ProbeRate.CloseAttempts` | src/dnp3_gateway/adapters/dnp3_yadnp3_master.py:3414-3531 | any two attempts closer than the interval have a torn session or fresh evidence between them |
| `ProbeRate.ProbeBurst` | src/dnp3_gateway/adapters/dnp3_yadnp3_master.py:4504-4568 | a reachable case: two probes one second apart |
| `HealthWire.FieldsAreClassified` | src/dnp3_gateway/backend/device_health_wire.py:193-229 | every field is semantic or observational, never both |
| `HealthWire.SignatureIsSemantics` | src/dnp3_gateway/backend/device_health_wire.py:232-237 | equal signatures iff the records differ in observations only |
| `HealthWire.PartsPartition` | src/dnp3_gateway/backend/device_health_publisher.py:297-298 | batches partition the devices in order, none empty or over the limit, and their number is the announced count |
| `HealthPublishers.HealthPublisher.constructor` | src/dnp3_gateway/backend/device_health_publisher.py:84-120 | limits are at least 1 device and 10 s; the first turn is a snapshot |
| `HealthPublishers.HealthPublisher.RequestSnapshot` | src/dnp3_gateway/backend/device_health_publisher.py:150-154 | the next turn shall be a snapshot |
| `HealthPublishers.HealthPublisher.Collect` | src/dnp3_gateway/backend/device_health_publisher.py:265-282 | the signature table and the devices to send |
| `HealthPublishers.HealthPublisher.RunTurn` | src/dnp3_gateway/backend/device_health_publisher.py:245-369 | one turn with sends that may raise: envelopes sent, new memory and result |
| `HealthPublishers.HealthPublisher.SendBatches` | src/dnp3_gateway/backend/device_health_publisher.py:315-369 | the loop over batches up to the first failure |
| `HealthPublishers.HealthPublisher.SendBatch` | src/dnp3_gateway/backend/device_health_publisher.py:317-353 | one batch: sequence, envelope, and memory of the acknowledged devices |
| `HealthPublishers.HealthPublisher.Remember` | src/dnp3_gateway/backend/device_health_publisher.py:351-353 | acknowledged devices are noted one by one |
| `Replication.NextInv` | src/dnp3_gateway/backend/device_health_wire.py:265-316 | every step of publisher, network and receiver keeps: sequence order, genuine batches, fresh snapshot ids, and during a snapshot the receiver holds exactly the batches so far |
| `Replication.SnapshotReconciles` | src/dnp3_gateway/backend/device_health_publisher.py:258-369 | whatever was lost, delayed, repeated or left half-sent: a snapshot turn that succeeds leaves the receiver with exactly the table read, removals included |
| `SnapshotTurns.SnapshotIffOwed` | src/dnp3_gateway/backend/device_health_publisher.py:245-292 | over every run: a turn that sends is a snapshot iff a request, the start or a restart came since the last successful snapshot ended, or that end is an interval ago; if one is owed the turn sends iff a record can be built |
| `SnapshotTurns.OwedTurnReconciles` | src/dnp3_gateway/backend/device_health_publisher.py:245-369 | such a turn that ends well leaves the receiver with exactly the table read at its beginning, whatever the network does |
| `Replication.CompletedIsOneRead` | src/dnp3_gateway/backend/device_health_wire.py:265-300 | a batch of a snapshot leaves the rows alone unless it is the only one missing; then they become the batches of that single snapshot, in order |
| `Replication.DueTurnSendsIffNonEmpty` | src/dnp3_gateway/backend/device_health_publisher.py:284-292 | a due snapshot is sent iff some record could be built; an empty fleet leaves removals unreconciled |
| `Replication.RequestSurvivesIff` | src/dnp3_gateway/backend/device_health_publisher.py:258-361 | a request arriving during a turn is kept iff that turn is not a successful snapshot |
| `DeltaReplication.DeltaSendsExactlyChanged` | src/dnp3_gateway/backend/device_health_publisher.py:263-282 | a delta turn sends exactly the devices whose semantic fields differ from what counts as sent, and nothing if none do |
| `DeltaReplication.SentIsLastAcknowledged` | src/dnp3_gateway/backend/device_health_publisher.py:346-360 | at every moment the remembered signature of a device is that of its last acknowledged record |
| `DeltaReplication.TurnsLeaveAgreement` | src/dnp3_gateway/backend/device_health_publisher.py:245-369 | if a raised send is never applied, every turn that ends well leaves the receiver with the semantic state of every live device |
| `DeltaReplication.GoodTurnRemembersRead` | src/dnp3_gateway/backend/device_health_publisher.py:284-361 | after every turn that ends well, also one with nothing to send, what counts as sent is exactly what it read, so a device that is gone is forgotten |
| `DeltaReplication.RaisedYetApplied` | src/dnp3_gateway/backend/device_health_publisher.py:331-345 | a raised send that arrives after all leaves them apart although the turn ends well |
| `DeltaReplication.AgreesIffNeverUnsure` | src/dnp3_gateway/backend/device_health_publisher.py:331-360 | agreement after every such turn iff raised sends are never applied |
| `BootIds.IncreasingIffDiskWorks` | src/dnp3_gateway/backend/device_health_publisher.py:379-416 | boot numbers increase from start to start iff every restart could read and every earlier run could write the counter |
| `DiagnosticPools.DiagnosticExecutor.constructor` | src/dnp3_gateway/network_probe.py:222-247 | an open executor with room for at least one job |
| `DiagnosticPools.DiagnosticExecutor.Enter` | src/dnp3_gateway/network_probe.py:257-260 | accepted iff open and no job of the key is in flight |
| `DiagnosticPools.DiagnosticExecutor.PutNow` | src/dnp3_gateway/network_probe.py:261-264 | queues iff there is room, never waits |
| `DiagnosticPools.DiagnosticExecutor.GiveUp` | src/dnp3_gateway/network_probe.py:265-269 | a full queue drops the job and frees the key |
| `DiagnosticPools.DiagnosticExecutor.Submit` | src/dnp3_gateway/network_probe.py:251-273 | the whole submission without interference |
| `DiagnosticPools.DiagnosticExecutor.Get` | src/dnp3_gateway/network_probe.py:279-284 | takes the head of the queue |
| `DiagnosticPools.DiagnosticExecutor.Work` | src/dnp3_gateway/network_probe.py:284-306 | a job runs iff the executor is open; either way its key is freed and counted |
| `DiagnosticPools.DiagnosticExecutor.Leave` | src/dnp3_gateway/network_probe.py:299-306 | a job that ends is completed or cancelled and its key free |
| `DiagnosticPools.DiagnosticExecutor.Drain` | src/dnp3_gateway/network_probe.py:337-357 | empties the queue, counting each waiting job as cancelled |
| `DiagnosticPools.DiagnosticExecutor.Close` | src/dnp3_gateway/network_probe.py:378-380 | refuses from now on |
| `DiagnosticPools.DrainedMeans` | src/dnp3_gateway/network_probe.py:337-357 | draining frees exactly the waiting keys and touches nothing else |
| `DiagnosticRuns.NextInv` | src/dnp3_gateway/network_probe.py:251-412 | every interleaved step keeps: one job per key, keys in flight are exactly the jobs somewhere, nothing lost in the counters |
| `DiagnosticRuns.OneJobPerKeyAndNoneLost` | src/dnp3_gateway/network_probe.py:251-357 | on every run: at most one job per key, accepted = completed + cancelled + dropped + in flight |
| `DiagnosticRuns.CountersTell` | src/dnp3_gateway/network_probe.py:238-357 | completed, cancelled and dropped count the jobs that ran, that were ended without running, and that were given back |
| `DiagnosticRuns.NothingStartsAfterClosing` | src/dnp3_gateway/network_probe.py:284-306 | after the flag is set no job is chosen to run |
| `DiagnosticRuns.TrueMeansQuiet` | src/dnp3_gateway/network_probe.py:397-412 | after shutdown returned True no worker holds or runs a job, ever |
| `DiagnosticRuns.ReturnsWhetherQuiet` | src/dnp3_gateway/network_probe.py:359-412 | shutdown returns True iff all workers have exited by then |
| `DiagnosticRuns.EveryWorkerIsSignalled` | src/dnp3_gateway/network_probe.py:382-395 | room for all signals and no submitter caught half-way: every live worker gets its signal |
| `StopSignals.EnoughIff` | src/dnp3_gateway/network_probe.py:382-395 | every live worker is always signalled iff there is one worker, or the queue holds a signal per worker and no submitter is caught between accepting and queueing |
| `StopSignals.TooFewPlaces` | src/dnp3_gateway/network_probe.py:385-395 | fewer places than busy workers: some run loses a signal |
| `StopSignals.CaughtHalfWay` | src/dnp3_gateway/network_probe.py:257-264 | however long the queue: jobs caught between accepting and queueing can cost a signal |
| `StopSignals.RunSingle` | src/dnp3_gateway/network_probe.py:359-412 | a single worker: a signal is never in the queue while one is still to be placed |
| `StopSignals.LosesOne` | src/dnp3_gateway/network_probe.py:385-395 | emptying a full queue again throws away signals already counted as placed |
| `StopSignals.ReturnsAlone` | src/dnp3_gateway/network_probe.py:359-412 | once begun, shutdown returns by its own steps alone, in at most two per waiting job and four more |
| `PollSchedulers.DueMeans` | src/dnp3_gateway/state.py:608-630 | exactly the devices whose interval has passed, each once, strictly by (last read, config order) |
| `PollSchedulers.DueIff` | src/dnp3_gateway/state.py:608-640 | after any cycles a device is due iff its interval, at least 1 s, has passed since the last cycle that started its poll |
| `PollSchedulers.PollCycle.MarkRead` | src/dnp3_gateway/state.py:604-606 | sets the last read of one device |
| `PollSchedulers.PollCycle.Expire` | src/dnp3_gateway/poller.py:593-620 | per-device timeouts apply only to polls that have started |
| `PollSchedulers.PollCycle.RunParallel` | src/dnp3_gateway/poller.py:500-681 | a due device counts as read iff its poll was started |
| `PollSchedulers.PollCycle.MarkStarted` | src/dnp3_gateway/poller.py:622-681 | finished polls, and unfinished ones that had started |
| `PollSchedulers.PollCycle.RunSerial` | src/dnp3_gateway/poller.py:464-500 | the serial path up to a stop request or a full outbox |
| `PollSchedulers.ClassesPartition` | src/dnp3_gateway/poller.py:574-622 | every due device ends in exactly one class: done, timed out or left |
| `PollSchedulers.OutcomeIff` | src/dnp3_gateway/poller.py:560-640 | look by look: given up iff some look finds the poll unfinished after a positive timeout since its start, left iff no look finds it finished or that late, done otherwise |
| `PollSchedulers.AheadShrinks` | src/dnp3_gateway/state.py:608-630 | a cycle that passes over a due device puts w devices behind it and none ahead |
| `PollSchedulers.ServedWithin` | src/dnp3_gateway/state.py:608-630 | a due device with a devices ahead of it is started within a / w + 1 cycles |
| `GatewayStates.GatewayState.QueueCommand` | src/dnp3_gateway/state.py:180-192 | queued iff not among the remembered ids; the oldest is forgotten beyond 10000 |
| `GatewayStates.GatewayState.QueueCommands` | src/dnp3_gateway/state.py:172-174 | offers in order |
| `GatewayStates.GatewayState.TakeCommands` | src/dnp3_gateway/state.py:206-220 | empties the queue and keeps the window |
| `GatewayStates.GatewayState.ApplyPoll` | src/dnp3_gateway/state.py:222-253 | queues the commands and raises both triggers on a higher nonce |
| `GatewayStates.GatewayState.ApplyConfig` | src/dnp3_gateway/state.py:146-174 | the nonce and queue part of a config update; a config that is not behind settles the config trigger |
| `GatewayStates.GatewayState.TakeRefresh` | src/dnp3_gateway/state.py:194-204 | one-shot |
| `GatewayStates.WindowIsLast` | src/dnp3_gateway/state.py:180-192 | the window always holds the last 10000 ids that were queued |
| `GatewayStates.RequeuedOnlyBeyondWindow` | src/dnp3_gateway/state.py:180-192 | an id is queued again only after at least 10000 others |
| `GatewayStates.RaisesBounded` | src/dnp3_gateway/state.py:146-160 | refreshes triggered are at most the increase of the nonce plus what late config answers set it back |
| `GatewayStates.PendingMeansRaised` | src/dnp3_gateway/state.py:146-253 | a take finds the trigger up iff some count was reached since the last take |
| `GatewayStates.ReachedOnceIff` | src/dnp3_gateway/state.py:156-160 | over any polls and config answers every count is reached at most once, those of the start included, iff no answer goes back below an earlier and a later one |
| `GatewayStates.RefreshedOnceIff` | src/dnp3_gateway/state.py:146-253 | each increment of the backend refreshes at most once, whenever the trigger is taken, iff no config answer comes late in that sense |
| `GatewayStates.LateConfigRefreshesTwice` | src/dnp3_gateway/state.py:156-160 | the failing run from any settled state: a poll shows count + 1 and is taken, a config answer still says count, the next poll raises the trigger again |
| `GatewayStates.GatewayState.TakeConfig` | src/dnp3_gateway/state.py:255-262 | one-shot |
| `GatewayStates.NoticesAreSteps` | src/dnp3_gateway/state.py:146-262 | a poll, a config answer and the take change the config trigger as the three notices of ConfigPendingIff do |
| `GatewayStates.ConfigPendingIff` | src/dnp3_gateway/state.py:162-169 | polls in order, config answers possibly late: the config trigger is up iff a poll has shown, since the last take, a count above every config fetched and everything taken before |
| `CommandRules.FreshWindow` | src/dnp3_gateway/command_freshness.py:190-230 | a stamped command is accepted only from skew before to max age after its creation, and exactly then without a deadline |
| `CommandRules.DeadlineHoldsIff` | src/dnp3_gateway/command_freshness.py:196-262 | no acceptance after the deadline iff no future skew is tolerated or the deadline is not before the creation |
| `CommandRules.AuthorizedIff` | src/dnp3_gateway/command_authorization.py:114-163 | authorised iff the command is not blank and names the first binary output the device has at that index |
| `Text.BlankIffStripped` | src/dnp3_gateway/command_authorization.py:139 | text counts as blank iff stripping leaves nothing |
| `Text.SpaceMeans` | src/dnp3_gateway/command_authorization.py:139 | what stripping takes off: the ASCII blanks |
| `CommandLedgers.CommandLedger.StartDispatch` | src/dnp3_gateway/messaging/command_ledger.py:211-231 | true iff the id had no row; then it has one without a result |
| `CommandLedgers.CommandLedger.RecordResult` | src/dnp3_gateway/messaging/command_ledger.py:293-302 | the result makes the row complete |
| `CommandLedgers.CommandLedger.RecoverUnknown` | src/dnp3_gateway/messaging/command_ledger.py:304-327 | at start-up every row without a result gets "unknown" |
| `CommandLedgers.RecoverMeans` | src/dnp3_gateway/messaging/command_ledger.py:304-327 | start-up answers every interrupted command, never with success, and touches no other row |
| `CommandLedgers.CommandLedger.MarkDelivery` | src/dnp3_gateway/messaging/command_ledger.py:337-373 | delivered or dead-lettered |
| `CommandLedgers.CommandLedger.PruneOld` | src/dnp3_gateway/messaging/command_ledger.py:394-415 | removes delivered rows older than the retention time |
| `CommandLedgers.PruneKeeps` | src/dnp3_gateway/messaging/command_ledger.py:394-415 | a row goes iff it is delivered and completed longer ago than the retention time |
| `CommandRuns.NextInv` | src/dnp3_gateway/main.py:354-402 | every step of both channels, crashes and pruning keeps: one holder per reservation, past calls remembered while an offer of the id could be fresh |
| `CommandRuns.OperatesOnlyReserved` | src/dnp3_gateway/health_server.py:931-1160 | under any settings a physical call, on either channel, happens only under a durable row without a result and for a command that was fresh and authorised when its channel checked it |
| `CommandRuns.RowsTell` | src/dnp3_gateway/messaging/command_ledger.py:211-327 | over every run of both channels: every row says what was answered last while it was there, and nothing before that |
| `CommandRuns.RestartAnswersAll` | src/dnp3_gateway/messaging/command_ledger.py:304-327 | a restart keeps every row and leaves none open |
| `CommandRuns.NextGated` | src/dnp3_gateway/health_server.py:931-1010 | every step keeps: all calls made, and all HTTP requests on their way to one, have passed the freshness and authorisation gates |
| `CommandRuns.CallsAreLegitimate` | src/dnp3_gateway/command_freshness.py:190-230 | over a whole run every call was authorised and, unless it is an unstamped command that the settings let through, checked inside its window |
| `CommandRuns.AtMostOnce` | src/dnp3_gateway/main.py:354-402 | both channels together: at most one physical call per command id over crashes, restarts, repeats and pruning, if the time stamps under which one id is offered lie within a spread the retention covers |
| `CommandRuns.AlwaysOnceIff` | src/dnp3_gateway/messaging/command_ledger.py:394-415 | that holds on all runs iff time stamps are required, the stamps of one id keep within a spread, and retention is at least max age + skew + the handler delay + that spread |
| `CommandRuns.RestampedTwice` | src/dnp3_gateway/health_server.py:975-985 | an id offered again under a new time stamp, as the endpoint allows, is executed again once its row is pruned, under every setting |
| `CommandRuns.PrunedTooSoon` | src/dnp3_gateway/messaging/command_ledger.py:394-415 | shorter retention: an HTTP copy with the latest stamp of the spread, checked at its oldest, is executed again |
| `CommandRuns.UnstampedTwice` | src/dnp3_gateway/command_freshness.py:178-188 | time stamps not required: a copy never gets stale |
| `CommandDispatch.ExecutePending` | src/dnp3_gateway/main.py:110-288 | exactly one result per command, in order, and a call to the device iff no gate refuses |
| `CommandDispatch.OnlyLegitimateCalls` | src/dnp3_gateway/main.py:140-240 | with time stamps required, only commands inside their window that name an output of their own device reach a device |
| `CommandResults.RefusalMeans` | src/dnp3_gateway/main.py:140-240 | a command is refused iff its device is unknown, it is not in time, or it does not name the first output at its index; the status is that of the first of these |
| `CommandResults.ResultTells` | src/dnp3_gateway/main.py:140-288 | its result is ok iff no gate refuses and the device answers ok; otherwise it has the status of the gate, "error" for a raised call, or what the device answered |
| `CommandResults.CalledIff` | src/dnp3_gateway/main.py:140-288 | exactly the commands that pass every gate reach their device |
| `CommandResults.RoundTells` | src/dnp3_gateway/main.py:354-402 | after a round of the pull channel every new command has a row with that result, and was called iff it passed every gate |
| `CommandDispatch.Reserve` | src/dnp3_gateway/main.py:354-391 | durable reservations, one per new id |
| `CommandDispatch.RecordAll` | src/dnp3_gateway/main.py:392-402 | one result recorded per executed command |
| `CommandDispatch.PullOnce` | src/dnp3_gateway/main.py:354-402 | one round: reserve durably what is new, execute, record |
| `CommandDispatch.UnseenMeans` | src/dnp3_gateway/main.py:354-391 | the batch has one command for every offered id without a row, and no others |
| `CommandDispatch.RoundMeans` | src/dnp3_gateway/main.py:354-402 | afterwards every offered id has a row, each batch command its own result, earlier rows are untouched |
| `CommandDispatch.HandleOperate` | src/dnp3_gateway/health_server.py:918-1170 | the device is called iff every gate passes and the id is new; any other request leaves the journal as it was and gets the answer of the first gate that refuses it, a duplicate the recorded result while that is undelivered |
| `CommandResults.AdmittedIff` | src/dnp3_gateway/health_server.py:918-1020 | the gates of the endpoint in plain terms: a known device that can operate, an output named, a stamp inside its window, an id and a journal |
| `DirectReads.ReadBatch` | src/dnp3_gateway/adapters/dnp3_master.py:799-857 | one reading per signal, each what reading its index alone gives, or no change because even that request raised; without failures no difference; no request wider than its limit |
| `DirectReads.AloneMeans` | src/dnp3_gateway/adapters/dnp3_master.py:122-128 | what reading an index alone gives: 1.0 or 0.0 for binary points, the value for counters and analog points, no change for a point that is not there |
| `DirectReads.FillGroup` | src/dnp3_gateway/adapters/dnp3_master.py:816-843 | sparse, single-range or chunked: every index is read or its own request raised |
| `DirectReads.FillChunked` | src/dnp3_gateway/adapters/dnp3_master.py:504-562 | the chunk loop ends and goes through exactly the tiles of [lo, hi] |
| `DirectReads.FillChunk` | src/dnp3_gateway/adapters/dnp3_master.py:530-562 | two attempts, then the needed indices alone |
| `DirectReads.FillAlone` | src/dnp3_gateway/adapters/dnp3_master.py:450-482 | one request per index; failures skip that index only |
| `DirectReads.Store` | src/dnp3_gateway/adapters/dnp3_master.py:532-538 | the answers of one request go into the cache as the table has them |
| `DirectReads.TilesExact` | src/dnp3_gateway/adapters/dnp3_master.py:524-562 | chunks follow each other without gap or overlap and keep the limit |
| `G110Blocks.Blocks` | src/dnp3_gateway/adapters/dnp3_yadnp3_master.py:571-630 | at most 16 ordered, disjoint, separate blocks of at most 512 indices, each useful and without padding beyond small gaps; an index is covered iff not beyond the last block, all if fewer than 16 are used |
| `G110Blocks.Group` | src/dnp3_gateway/adapters/dnp3_yadnp3_master.py:590-600 | maximal runs with gaps of at most 8 |
| `G110Blocks.Split` | src/dnp3_gateway/adapters/dnp3_yadnp3_master.py:602-618 | a wide run is cut without losing an index, each piece still useful |
| `G110Blocks.SplitAll` | src/dnp3_gateway/adapters/dnp3_yadnp3_master.py:602-618 | the same indices as the runs |
| `G110Blocks.Collect` | src/dnp3_gateway/adapters/dnp3_yadnp3_master.py:582-589 | the sorted set of the string indices |
| `G110Blocks.WantedMeans` | src/dnp3_gateway/adapters/dnp3_yadnp3_master.py:582-589 | that set has exactly the indices of the group 110 signals, in increasing order |
| `PortRanges.ParsePorts` | scripts/render_compose.py:107-164 | the loops of the parser compute Parse |
| `PortRanges.AcceptedIff` | scripts/render_compose.py:107-164 | text is accepted iff all items are proper ranges, no two meet and they hold at most 512 ports; the result is those ranges, sorted |
| `PortRanges.DisjointPermutes` | scripts/render_compose.py:145-152 | whether two ranges meet does not depend on the order they are written in |
| `PortRanges.NeighboursDecide` | scripts/render_compose.py:145-152 | comparing neighbours decides whether any two sorted ranges meet |
| `PortRanges.TotalCountsPorts` | scripts/render_compose.py:154-163 | the checked total is the number of ports |
| `PortRanges.LabelsRoundTrip` | scripts/render_compose.py:172-190 | parsing the printed labels of an accepted list gives the list back |
| `PortRanges.HostPortFree` | scripts/render_compose.py:292-299 | the health port is rejected iff it is one of the published ports |

## Left out

- OpenDNP3, dnp3py, sockets, HTTP handling, SQLite, NATS, logging and settings: libraries and I/O. Publishing is "durable or raises", the journal a map with atomic steps, clock readings and device answers are parameters.
- Replacing a master while tokens of the old one are alive: version counters restart and a commit looks the cache up by device code, so all runs are over one cache lifetime.
- A reset of the command journal (its epoch) and the delivery-acknowledgement fields of its rows.
- A wall clock that is set back between two copies of a command; the runs of `CommandRuns` take it to be non-decreasing.
- Wall-clock display fields, IIN bits, the device clock observation and quality flags of the cache.
- The data-silence poll and its own rate limit; a poll only says whether it hands over to it. The `late` reporting state of sleeping devices is display only.
- Changing the operation mode of a master by hand and the rebuild after it was dropped.
- NaN raw values: equality of raw values is reflexive here, in the code a NaN is dirty on every write.
- SmartSleep.SilenceDecides: while one master lives; a poll that drops it, as classification may, is followed by a new cache.
- ProbeRate.CloserIffFresh: for a device under the continuous policy; a smart device is never probed.
- Replication.SnapshotReconciles: boot numbers increase; `BootIds` says when they do.
- Bounds on the time a shutdown takes; `DiagnosticRuns` has no clock, placing signals may time out at any moment.
- A second `shutdown` call, which skips the first emptying and places signals again; the runs hold one call.
- RelinkBackoff.RelinksInSpan: one poll of a device at a time; `SpacedIffAlone` shows that overlapping polls break the gaps it sums up.
- GatewayStates.ConfigPendingIff: no poll shows less than an earlier poll or an applied config; one that does raises the trigger again later.
- PollSchedulers.ServedWithin: for a fixed fleet, with at least w devices at the front of the due list started per cycle. How many workers are really free after polls that were given up is not modelled.
- The HTTP endpoint's authentication, body parsing and device lookup before the gates of `HandleOperate`.
- ISO-8601 parsing, JSON and base64. Digits and blanks outside ASCII are not treated as digits and blanks.
- The comment lines and the bind host in rendered compose files; only the port labels are modelled.
- The enum maps, the catalogue loader, the certificate and the web views: single-branch validation or presentation.
