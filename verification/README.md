# Edge console: verified model

The console consists of a gateway that folds bus messages into a fleet model and streams it to browsers
as one snapshot followed by numbered deltas, and of browser stores that fold the stream back.
This project models both ends and the protocol between them in Dafny 4.11, and proves when what
the browser shows is what the gateway holds, and what happens when it is not.

`dafny verify dfyconfig.toml` checks everything. One module per component:

| file | what it models |
|---|---|
| `Basics` | optional values, rings that keep the newest elements |
| `Fleet`, `Ladder` | the gateway's fleet fold and its staleness ladder over whole histories |
| `FleetHistory`, `AlarmHistory` | every fleet record and every alarm, read off everything heard |
| `FleetStore`, `FleetMirror` | the browser's fleet store, and what it holds of the gateway's fleet, by the history of its deltas |
| `Replication`, `ReplicationRuns` | the snapshot-then-deltas protocol as a state machine, over all runs |
| `ReplicationViews` | which histories make the shown liveness and the cadence right, and runs in which they are wrong |
| `Gemba`, `GembaMeaning` | the bounded egress session of an embedded application, and what its keyed table means |
| `GembaRuns`, `GembaFloors`, `GembaLoop` | the ledger of everything a session accepts, its sequence floors, and the loop that feeds it, over all runs |
| `Commands`, `Client`, `ClientHistory` | command bookkeeping; the client's connection, backoff and timers; what decided each command |
| `Signals`, `Metrics`, `Logs` | the data planes, gateway and browser side by side |
| `Alarms`, `Clock`, `Throughput` | containment, the clamped clock's episodes, the bus-rate meter |
| `GatewayModel` | the gateway's model object itself, its methods proved against the folds above |
| `JsonText`, `ConfigViews` | the configuration views: tokens, tree, rows, tallies |
| `Paths` | dot paths, form controls and the requests they assemble |
| `AddressTree`, `ComponentTree` | the two trees the user interface flattens and groups |

State that the source updates in place is a class (`Model`, `ThroughputMeter`, `GembaSession`,
`FleetClient`, the stores); each of its methods is proved to compute a function of the old
state, and the results are lemmas about those functions over every input and every run. What the
functions decide is in turn stated without them, over the history of what was heard or called.

What the proofs found, where the code and its own description part ways:

- A component's discovery delta does not carry the gateway's configured default cadence, and the
  browser's own is a fixed 5 s. With other settings the two differ until a snapshot or a message
  carries the cadence (`ReplicationViews.EveryRunShows`); nothing else of the record is affected.
- A snapshot taken during an outage hides the liveness ladder, and the end of the outage makes the
  browser guess it; only a change of the stored value, or a keepalive that gets past the channel
  cap, puts it right (`ReplicationViews.GuessAfterOutage`). A component first seen during an outage
  is stored UNREACHABLE by the gateway until the next sweep and FRESH by the browser
  (`ReplicationViews.FirstSeenInOutage`).
- A stopped component whose keepalive tells of a restart is stopped still at the gateway, but the
  browser takes any restart for a component running again (`FleetMirror.StatusStep`).
- A second lag within two seconds of a forced snapshot sends nothing, and if no later delta
  comes the browser stays behind (`ReplicationRuns.DampedLagLeavesClientBehind`). The comment
  there says the client is already receiving a fresh snapshot; that one was taken before the loss.
- In an application session, a fleet batch that is published after a newer one is discarded by
  the sequence floor without being counted, so no report asks for a resync
  (`GembaLoop.LateBatchVanishes`); so is an event at or below its floor
  (`GembaLoop.LateEventsVanish`). The ledger of `GembaRuns` therefore speaks of accepted frames:
  those past the floors.
- The browser's metric ring is never trimmed below the length its snapshot had, and with other
  gateway bounds than 60 points the two sides show different stretches of one history
  (`Metrics.MetricsMirror`).
- A delta gap, an idle teardown and a version skew leave commands in flight pending until their
  backstop fires; only a close or a stop fails them at once (`Client.FlightEndsExactly`). A reply
  that comes after its entry was trimmed lands in the component-scoped slot.
- The flat and the nested configuration view differ on leaves under empty keys.
- Control fields of which one leads through another lose a value (`Paths.RequestCompleteExactly`).
- The bus-rate meter's sixty seconds are exactly enough for a wall clock up to thirty seconds
  behind the timeline.

## Model

| member | source | states |
|---|---|---|
| Fleet.IngestKeepsFleetOk | gateway/src/model.rs:803-945 | any message keeps: liveness is STOPPED exactly when the last status is, a stored UNREACHABLE means no keepalive ever came, an outage has a start time exactly while it lasts |
| Fleet.SweepKeepsFleetOk | gateway/src/model.rs:521-562 | a staleness sweep in any visiting order keeps the same |
| FleetHistory.FleetIsHistory | gateway/src/model.rs:803-945 | over every history of messages and sweeps, each record is read off its component's messages: first message's path, hierarchy and time; last keepalive's status and time; last uptime and instance list reported; restarts as many as the uptime fell; last cadence or the default; per channel the last message, for the channels with fewer than the cap before them, the rest counted; a device is down exactly while its last keepalive is its bridge's last will, since the first of an unbroken row |
| FleetHistory.IngestShows | gateway/src/model.rs:888-943 | the liveness a message leaves: STOPPED or FRESH by its own keepalive, FRESH or UNREACHABLE by a discovery, else what it was |
| FleetHistory.IngestSays | gateway/src/model.rs:803-945 | a message sends a delta of each kind exactly when its fleet before and after it give reason to |
| FleetHistory.RestartsTold | gateway/src/model.rs:1936-1993 | over every history, a restart is told exactly for a keepalive whose uptime is below the last one its component reported, with both values |
| FleetStore.FleetStore.ApplySnapshot | ui/src/fleet/store.ts:201-227 | a snapshot replaces the browser's fleet and its last number, hiding the ladders an outage overlays |
| FleetStore.FleetStore.ApplyDeltas | ui/src/fleet/store.ts:229-247 | the loop computes the numbered fold: duplicates skipped, the successor applied, a hole reported and nothing folded past it; everything is a gap before the first snapshot |
| FleetMirror.IngestTracks | gateway/src/model.rs:803-945 | delta completeness, under any settings: folding a message's deltas takes a browser that tracks the fleet under some knowledge (which ladders are settled, hidden or guessed, which cadences were carried) to one that tracks the new fleet under the knowledge gained |
| FleetMirror.SweepTracks | gateway/src/model.rs:521-562 | the same of a whole sweep in any order; a notice settles its component's ladder |
| FleetMirror.SnapshotTracks | gateway/src/model.rs:599-650 | a browser that takes a snapshot of any reachable fleet tracks it: every cadence carried, every ladder settled that the snapshot does not show UNREACHABLE |
| FleetMirror.ShownExactly | ui/src/fleet/store.ts:315-338 | tracking makes path, hierarchy, restarts, instances, cache times and outage equal; the liveness shown equals the gateway's exactly when the device is down, the ladder is settled, or the guess is the stored value; the cadences are equal exactly when one was carried or the defaults agree |
| FleetMirror.StateStep | gateway/src/model.rs:1936-1993 | one keepalive's restart, instance and liveness deltas carry the browser's record to the gateway's |
| FleetMirror.CadenceStep | gateway/src/model.rs:1995-2023 | after any message the two cadences are equal if one was ever carried, this message included; otherwise each is still its own side's default |
| FleetMirror.ApplyDeviceBodies | ui/src/fleet/store.ts:340-429 | deltas about one device change that device's record only |
| FleetMirror.StatusStep | ui/src/fleet/store.ts:340-429 | whether the browser shows a component as stopped stays right over a message exactly when it is not a stopped component's keepalive that tells of a restart |
| FleetMirror.SnapshotShows | ui/src/fleet/store.ts:201-227 | a snapshot shows status, uptime and its anchor, last state time, refused channels and every cached body |
| FleetMirror.DeltasKeepBodies | ui/src/fleet/store.ts:340-429 | deltas never change a body: the browser holds the last snapshot's, and none for a newer channel |
| Replication.ResyncIsExact | gateway/src/model.rs:656-671 | for every resume number: nothing is sent exactly when up to date, a replay exactly when every missed delta is among the last thousand, and then it is exactly the missed deltas |
| Replication.AfterIsSuffix | gateway/src/model.rs:1477-1492 | what a replay selects out of the ring is a suffix of the delta log |
| Replication.FoldSlice | ui/src/fleet/store.ts:229-247 | a run of consecutive deltas is skipped, applied from the first unseen one on, or stopped at as a gap, depending only on where it starts and ends |
| Replication.ReceiveKeepsMirror | ui/src/fleet/client.ts:631-648 | any frame the gateway may send, received at any time, leaves the browser holding what its history since its snapshot makes of the fleet as of the last number it applied |
| Replication.CarriesFar | gateway/src/model.rs:1454-1474 | folding the log between two operations takes a browser that tracks the earlier fleet to one that tracks the later, with the knowledge of every operation in between |
| Replication.HandleHelloSafe | gateway/src/http.rs:428-451 | answering a hello sends only frames that are safe to fold |
| Replication.StepSafe | gateway/src/http.rs:191-214 | every protocol step (ingest, sweep, out-of-order publish, lag past the channel's capacity, delivery, hello, forced snapshot, receive, disconnect, redial) keeps this, whatever the gateway's and the browser's settings |
| ReplicationRuns.StepGood | gateway/src/http.rs:191-214 | every step also keeps account of each unseen delta (unpublished, queued, on the wire, or skipped by a lag), and the browser's number never runs back |
| ReplicationRuns.RunGood | gateway/src/ingress.rs:66-89 | both hold after every run, batches being published in any order after the lock is released |
| ReplicationRuns.ReplicationSafety | ui/src/fleet/client.ts:631-648 | over every run and under any settings: the browser holds what its history since its last snapshot makes of the fleet as of its last number; at rest it is up to date exactly when no delta beyond that number was skipped, and then that fleet is the current one |
| ReplicationRuns.LagAnswered | gateway/src/http.rs:200-210 | a lag of a ready session is answered with the current snapshot exactly when none was forced in the 2000 ms before, else with nothing |
| ReplicationRuns.UndampedIsUpToDate | gateway/src/http.rs:200-210 | if every lag since the last resync came two seconds or more after the last forced snapshot, a browser at rest is up to date |
| ReplicationRuns.DampedLagLeavesClientBehind | gateway/src/main.rs:61 | for every channel capacity and every message a run: traffic overflows the channel twice within two seconds, the second lag is ignored, and the browser rests behind the gateway |
| ReplicationViews.LearnGains | gateway/src/model.rs:803-945 | one operation settles a component's ladder exactly when it discovers it on a reachable device, changes its stored liveness, or caches a keepalive of it; otherwise a hidden ladder is guessed when its outage ends, and one discovered in an outage is FRESH |
| ReplicationViews.LearnedExactly | ui/src/fleet/store.ts:340-429 | a browser knows a ladder exactly if its snapshot showed it or an operation since settled it, and a cadence exactly if its snapshot held the component or an operation since carried it |
| ReplicationViews.EveryRunShows | ui/src/fleet/store.ts:315-338 | over every run, for every component of the fleet the browser stands at: everything but ladder and cadence is equal, and those two exactly under the conditions above, the device being down, a right guess or equal defaults; at rest, no lag damped, that is the current fleet |
| ReplicationViews.DeltasTell | ui/src/fleet/store.ts:340-429 | of uptime, its anchor, last state time and status the browser holds what the deltas since its snapshot told last, else what the snapshot showed |
| ReplicationViews.FirstSeenInOutage | gateway/src/model.rs:888-905 | a run in which a component first seen in an outage is UNREACHABLE at the gateway and FRESH in the browser, both at rest |
| ReplicationViews.GuessAfterOutage | ui/src/fleet/store.ts:413-446 | a run in which a snapshot taken in an outage leaves the browser at rest with the guess OFFLINE for a component the gateway holds FRESH |
| Gemba.GembaSession.HandleSubscribe | gateway/src/gemba.rs:222-252 | subscribing parses the request, denies or rejects it whole, or installs exactly the requested families and purges the rest |
| Gemba.GembaSession.PurgeUnsubscribed | gateway/src/gemba.rs:415-429 | exactly the entries of unsubscribed families go, and the byte total is recomputed exactly |
| Gemba.GembaSession.Push | gateway/src/gemba.rs:257-288 | pushing a frame computes the session function and keeps the session valid |
| Gemba.GembaSession.NormalizeSequence | gateway/src/gemba.rs:290-341 | sequence floors, discarded stale items and retired entries are exactly the function's |
| Gemba.GembaSession.PushStateEntry | gateway/src/gemba.rs:355-386 | the keyed push with its eviction loop, byte budget and drop counters computes the session function |
| Gemba.GembaSession.PushOrderedFrame | gateway/src/gemba.rs:388-413 | the same for the ordered queue |
| Gemba.GembaSession.MarkLag | gateway/src/gemba.rs:431-437 | a lag empties both queues and counts at least one upstream drop |
| Gemba.GembaSession.DrainUpdates | gateway/src/gemba.rs:439-470 | a drain hands over both queues and all drop counters and leaves none of them |
| Gemba.RoomForStateIs | gateway/src/gemba.rs:364-381 | making room evicts from the fronts only, spares the other queue while it can, and always ends in a pair that fits |
| Gemba.RoomForOrderedIs | gateway/src/gemba.rs:394-409 | the same with the ordered queue evicted first |
| Gemba.ParseWithinPolicy | gateway/src/gemba.rs:222-252 | a request is granted exactly when every entry names an allowed family, and then it is exactly those families; otherwise the first entry that does not decides between malformed and denied |
| Gemba.PushFrameKeepsValid | gateway/src/gemba.rs:257-288 | every push keeps: byte total within 1 MiB, at most 512 state and 256 ordered entries, keys in order, every pending family subscribed and allowed |
| Gemba.SubscribeKeepsValid | gateway/src/gemba.rs:222-252 | every subscription change keeps the same |
| GembaFloors.FloorsAreLargest | gateway/src/gemba.rs:290-341 | in every run, each sequence floor is the largest number of its family pushed while the session was ready and subscribed, 0 if none |
| GembaFloors.PushIsTakenUp | gateway/src/gemba.rs:257-341 | in every run, the next push is taken up exactly as what was pushed before says: one entry per item under its identity, of fleet deltas those newer than every number seen, or the whole frame in the snapshot slot; an ordered frame unless it is an event no newer than some number seen |
| GembaFloors.NewEventArrives | gateway/src/gemba.rs:327-334 | in every run, an event newer than every number seen is queued last, or counted as dropped when it alone exceeds the budget |
| GembaMeaning.PutMeaning | gateway/src/gemba.rs:355-386 | replacing a keyed entry is latest-wins, for a snapshot exactly when no item of its family is pending |
| GembaMeaning.RetireMeaning | gateway/src/gemba.rs:290-312 | a numbered fleet snapshot retires its family first and is always exact |
| GembaLoop.CoalescingPreservesMeaning | gateway/src/gemba.rs:257-288 | in every run of the session loop, with no frame lost since the last report, the table the next report hands over changes any consumer's view as the keyed frames accepted since and not withdrawn would one by one |
| GembaLoop.SnapshotsAreSafe | gateway/src/http.rs:327-353 | the snapshots pushed one after another after a subscription or a lag each find no item of their family, or are numbered fleet snapshots |
| GembaLoop.EveryResetIsSafe | gateway/src/http.rs:258-300 | so in every run of the loop each push, by the bus or with snapshots, writes its snapshot slot where that is exact |
| GembaLoop.LateDeltasVanish | gateway/src/gemba.rs:305-325 | deltas at or below the floor are discarded without any trace in the session, exactly when all of them are that old |
| GembaLoop.LateEventsVanish | gateway/src/gemba.rs:327-334 | an event leaves no trace exactly when it has an id at or below the floor |
| GembaLoop.LateBatchVanishes | gateway/src/gemba.rs:305-325 | a run from a new session: hello, subscription with its snapshot, a newer batch, an older one; the report lacks the older batch's item and asks for no resync |
| GembaRuns.StateDropsCounted | gateway/src/gemba.rs:355-386 | as multisets: of the entries pending or arriving and not replaced, a keyed push counts exactly those no longer pending, in either queue |
| GembaRuns.OrderedDropsCounted | gateway/src/gemba.rs:388-413 | the same of an ordered push |
| GembaRuns.StepHonest | gateway/src/gemba.rs:439-470 | every step keeps the ledger: each accepted keyed entry is handed over, pending, superseded or lost, each accepted ordered frame delivered in order, pending, withdrawn or lost, and the counters are the numbers of frames lost since the last report |
| GembaRuns.EveryRunIsHonest | gateway/src/gemba.rs:147-162 | from a new session, after every run: the ledger and all bounds hold; the next report counts exactly the frames lost since the last and asks for a resync exactly when one was lost or the bus skipped some; without a report nothing was |
| Commands.CommandStore.NotePending | ui/src/fleet/command-store.ts:99-111 | records the request and trims to the one possible result |
| Commands.CommandStore.Trim | ui/src/fleet/command-store.ts:210-221 | the trim loop leaves the uniquely determined entries: oldest settled ones dropped, as few as needed, never a pending one |
| Commands.CommandStore.ApplyResult | ui/src/fleet/command-store.ts:118-138 | a reply settles its entry in place, or opens a component-scoped one |
| Commands.CommandStore.FailAllPending | ui/src/fleet/command-store.ts:150-160 | every pending entry and no other fails |
| Commands.CommandStore.LatestBySlot | ui/src/fleet/command-store.ts:170-187 | every slot with an entry shows one of its entries, and a newest |
| Commands.TrimIsUnique | ui/src/fleet/command-store.ts:210-221 | two trims of the same entries agree |
| Commands.NotePends | ui/src/fleet/command-store.ts:99-111 | after a request exactly it is additionally pending, whatever was trimmed |
| Commands.SettlePends | ui/src/fleet/command-store.ts:118-138 | a reply ends exactly its own command |
| Client.DelayDoubles | ui/src/fleet/client.ts:840-849 | the backoff starts at the first delay, doubles up to the ceiling, never passes it, and reaches it |
| Client.StepNeverStuck | ui/src/fleet/client.ts:581-619 | every call keeps: a started client without version skew has exactly one of a socket and an armed retry timer |
| Client.StepCommandsOk | ui/src/fleet/client.ts:465-498 | every call keeps: the pending commands are exactly those with an armed backstop timer |
| Client.ClientNeverStuck | ui/src/fleet/client.ts:581-619 | both hold after every run of calls, with every armed delay the one its retry count says |
| Client.FlightEndsExactly | ui/src/fleet/client.ts:828-858 | a command in flight ends exactly with its reply, its backstop, the close of the live socket or a stop; a gap, an idle teardown or a version skew leaves it pending |
| Client.RepliesLandInTheirSlots | ui/src/fleet/command-store.ts:113-117 | in any run a reply that finds its entry, in flight or settled, lands in the slot named at request time; one that finds none, or an entry another such reply opened, lands in a component-scoped slot |
| ClientHistory.EntriesAreVerdicts | ui/src/fleet/client.ts:763-773 | over every run, each entry shows the last thing that decided its command: sent, a live reply with its success and result or its refusal and error and its time, DISCONNECTED by a close, a stop or an offline request, TIMEOUT by its backstop |
| ClientHistory.ConnectionRemembers | ui/src/fleet/client.ts:581-648 | over every run, the last-frame time is that of the last sign of life, the retry count that of retries armed since the server was last heard, connected means the live socket has opened, and the request counter counts the requests |
| ClientHistory.SilenceIsTornDown | ui/src/fleet/client.ts:851-858 | in any run the watchdog tears down the live socket exactly when the last sign of life is longer ago than the idle timeout |
| Client.ProtocolClient | ui/src/fleet/client.ts:631-648 | the client's frame handling is the protocol's receive step, and a gap means a new dial offering the last number |
| Client.FleetClient.Start | ui/src/fleet/client.ts:243-253 | starting dials once and is idempotent |
| Client.FleetClient.Stop | ui/src/fleet/client.ts:256-268 | stopping clears timers and socket and fails every pending command |
| Client.FleetClient.OnOpen | ui/src/fleet/client.ts:591-603 | the hello offers a resume number exactly when there is a snapshot; a stale socket's event changes nothing |
| Client.FleetClient.OnClose | ui/src/fleet/client.ts:608-616 | closing the live socket fails pending commands and schedules a reconnect |
| Client.FleetClient.OnMessage | ui/src/fleet/client.ts:621-790 | every frame kind's effect on connection, commands and mirrored fleet |
| Client.FleetClient.OnRetryTimer | ui/src/fleet/client.ts:845-848 | a fired retry dials again |
| Client.FleetClient.CheckIdle | ui/src/fleet/client.ts:851-858 | a silent socket is torn down and redialled |
| Client.FleetClient.InvokeCommand | ui/src/fleet/client.ts:465-498 | a request is settled at once without a live connection, and otherwise armed |
| Client.FleetClient.OnBackstop | ui/src/fleet/client.ts:486-494 | the backstop fails exactly its own command |
| Signals.SignalStore.ApplyUpdates | ui/src/fleet/signal-store.ts:84-129 | the loop over a push computes the fold |
| Signals.SignalStore.ApplyPoints | ui/src/fleet/signal-store.ts:136-152 | the loop over a backfill reply computes the replacement |
| Signals.IngestMirrors | gateway/src/model.rs:1133-1268 | simulation: a mirroring store that folds an ingest's push mirrors again, drops nothing, and stays complete where it was complete |
| Signals.FoldRing | ui/src/fleet/signal-store.ts:123-125 | folding a push keeps the newest sixty of the old and the pushed points |
| Signals.FoldFields | ui/src/fleet/signal-store.ts:103-122 | over one push the last sample decides value, quality and timestamps, labels stick |
| Signals.SnapshotMirrors | gateway/src/model.rs:700-715 | a snapshot mirrors; it carries a series' points exactly in full mode |
| Signals.BackfillCompletes | gateway/src/model.rs:719-743 | a backfill completes exactly the series asked for |
| Signals.RingsAreNewest | gateway/src/model.rs:1133-1268 | over every history a tracked series holds the newest sixty of all its points, and goes untracked only at the cap |
| Signals.SeriesAreHistory | gateway/src/model.rs:1133-1268 | over every history each field of a tracked series is read off its messages: value, quality and times of the last sample, display time from source, server or header, labels and address as last sent |
| Metrics.MetricStore.ApplyUpdates | ui/src/fleet/metric-store.ts:67-98 | the loop over a push computes the fold |
| Metrics.RingsAgree | ui/src/fleet/metric-store.ts:93-95 | one shift per push keeps the newest points under a bound that is the snapshot's length when that was larger |
| Metrics.StepAgree | gateway/src/model.rs:1000-1034 | one measure keeps the two stores in agreement, refused series included |
| Metrics.IngestAgree | gateway/src/model.rs:980-1038 | so does a whole message |
| Metrics.MetricsMirror | gateway/src/model.rs:980-1038 | over every run: same current values; both rings the newest of one history, equal exactly when the two bounds cut it alike; the same series exactly when the client dropped none |
| Metrics.LatestIsLast | gateway/src/model.rs:980-1038 | over every run a tracked series shows the last value offered for it, with its times |
| Logs.LogConservation | gateway/src/model.rs:1040-1131 | over every history: ids count up from 1, ring plus drop counter is every accepted record of the component, the ring is the newest of them, and the dedupe set holds exactly its queue |
| Logs.RefusedExactlyWhenRecent | gateway/src/model.rs:1073-1084 | a readable message is refused exactly when it repeats one of the last 2048 accepted |
| Logs.RingsIncrease | gateway/src/model.rs:1107-1115 | every component ring has strictly increasing ids |
| Logs.LogsReply | gateway/src/model.rs:1875-1894 | a reply is the newest matching records, newest first: whatever is missing does not match, or is older than all shown and the limit is used up |
| Logs.LogStore.ApplySnapshot | ui/src/fleet/log-store.ts:35-42 | a snapshot replaces one component's tail with its newest records |
| Logs.LogStore.ApplyRecords | ui/src/fleet/log-store.ts:44-62 | a push folds unseen records in, keeps a known drop count, and changes nothing when empty |
| Logs.FoldIsTop | ui/src/fleet/log-store.ts:44-62 | after a push the tail is the newest records of everything folded |
| Logs.TopIsUnique | ui/src/fleet/log-store.ts:44-62 | which determines the list |
| Logs.TailIsOrderIndependent | ui/src/fleet/log-store.ts:35-62 | so reordering or repeating pushes gives the same tail |
| Alarms.IngestContains | gateway/src/model.rs:827-886 | any message keeps contained alarms exactly those of unreachable devices, and one alarms frame goes out exactly when the table changed, showing its final state |
| Alarms.AlarmEventKeeps | gateway/src/model.rs:1351-1430 | whatever an event does to the table keeps containment and is reported exactly when it is a change; which events raise and clear is AlarmHistory.EventStep's |
| Alarms.FlipChanges | gateway/src/model.rs:1433-1447 | containment reports a change exactly when some alarm flipped |
| Alarms.AckContains | gateway/src/model.rs:584-593 | acknowledging keeps containment and reports exactly a change |
| Alarms.SweepContains | gateway/src/model.rs:521-562 | sweeps move no device in or out of containment |
| Alarms.ContainmentAlwaysAgrees | gateway/src/model.rs:456-593 | containment agrees in every reachable state |
| AlarmHistory.EventStep | gateway/src/model.rs:1351-1364 | an event calls for its alarm exactly if it has the level critical, error or warning and does not say inactive; otherwise it ends the alarm |
| AlarmHistory.AlarmsAreHistory | gateway/src/model.rs:1351-1447 | over every history, an alarm stands exactly if the last event about it not refused at two thousand calls for it; it shows that event's severity, message, channel and time, when it was first called for since absent, how often since, and whether acknowledged since; refusals are counted exactly; the resolved history is the newest 500 ended alarms as they then stood |
| Alarms.CountsPartition | gateway/src/model.rs:748-773 | critical and warning make active, active and contained make the table, acknowledged are active |
| Ladder.SweepSettles | gateway/src/model.rs:521-562 | a sweep brings a visited component exactly to the ladder function's value at its age unless stopped or unreachable, and changes nothing else; what that value is in milliseconds is Ladder.SweepShowsAge's |
| Ladder.SweepShowsAge | gateway/src/model.rs:536-554 | in plain arithmetic: after a sweep a visited component of a reachable device that is not stopped is OFFLINE, else STALE, else WARN exactly when the milliseconds since its last keepalive, or its discovery, exceed a thousand times its cadence times the multiplier, and FRESH otherwise |
| Ladder.OnlyDownBetweenKeepalives | gateway/src/model.rs:521-562 | between two keepalives at constant cadence a component that reported state only moves down the ladder, whatever else happens |
| Ladder.KeepaliveStartsFresh | gateway/src/model.rs:1936-1993 | every keepalive that does not say STOPPED starts such a stretch FRESH |
| Ladder.StoppedIsHeld | gateway/src/model.rs:533-535 | STOPPED is shown exactly while the last keepalive said so |
| Ladder.FrozenInOutage | gateway/src/model.rs:528-531 | while a device is unreachable the stored liveness of its known components does not change |
| Ladder.IngestNotices | gateway/src/model.rs:1936-1993 | a message's liveness notices are exactly its changes of known components, each from the liveness stored before and to the one stored after |
| Ladder.SweepNotices | gateway/src/model.rs:541-555 | so are a sweep's |
| Clock.AlwaysRemembers | gateway/src/model.rs:432-454 | the clock's fields mean what the history of readings and answers says they mean |
| Clock.ClockEpisodes | gateway/src/model.rs:432-454 | stamps never run back; one observation exactly per faulty reading outside an episode; inside one the timeline stands still; recovery exactly once a report is open, no episode is, and a full quiet window has passed |
| Throughput.ThroughputMeter.Record | gateway/src/model.rs:2085-2097 | recording keeps the newest sixty of the exact per-second counts |
| Throughput.ThroughputMeter.Rate | gateway/src/model.rs:2099-2106 | the current rate is exact when the last stamp is at most thirty seconds ahead |
| Throughput.ThroughputMeter.RecentRates | gateway/src/model.rs:2108-2119 | so are the last thirty rates |
| Throughput.AllSecondsExact | gateway/src/model.rs:2085-2097 | the counted seconds increase strictly and count exactly |
| Throughput.WindowExact | gateway/src/model.rs:2108-2119 | the sixty kept seconds lose nothing inside the window |
| Throughput.ThirtyOneSecondsAheadLoses | gateway/src/model.rs:2108-2119 | with thirty-one seconds ahead they can |
| GatewayModel.Model.Stamp | gateway/src/model.rs:432-454 | computes the clamped clock step |
| GatewayModel.Model.StampAndStore | gateway/src/model.rs:1454-1474 | numbers a batch consecutively, appends it to the log, and keeps the ring the last thousand |
| GatewayModel.Model.Resync | gateway/src/model.rs:656-671 | decides up to date, replay or snapshot from the ring |
| GatewayModel.Model.ReplayFrame | gateway/src/model.rs:1477-1492 | the loop selects the ring's deltas after the resume number |
| GatewayModel.Model.UpdateCache | gateway/src/model.rs:1898-1931 | computes the cache fold, cap included |
| GatewayModel.Model.UpdateState | gateway/src/model.rs:1936-1993 | computes the keepalive fold with its deltas in order, whose restarts, instances and deltas FleetHistory pins |
| GatewayModel.Model.UpdateCadence | gateway/src/model.rs:1995-2023 | computes the cadence fold |
| GatewayModel.Model.IngestFleet | gateway/src/model.rs:803-945 | computes the fleet fold and the containment that follows its transition |
| GatewayModel.Model.SweepDevices | gateway/src/model.rs:527-555 | visits every component of every reachable device once and computes the sweep in that order, whose rungs Ladder.SweepShowsAge pins |
| GatewayModel.Model.Sweep | gateway/src/model.rs:521-582 | one sweep on the clamped timeline: rungs by age in milliseconds, the frame exactly the changes, delta log, clock report and recovery; fleet and alarms stay what everything heard makes of them |
| GatewayModel.SweepIsTold | gateway/src/model.rs:521-562 | after a sweep of every component of the reachable devices each shows the rung of its silence in milliseconds, stopped and unreachable ones what they did, and the frame names exactly the changes |
| GatewayModel.Model.Recover | gateway/src/model.rs:564-576 | the quiet-clear decision |
| GatewayModel.Model.SetDeviceContainment | gateway/src/model.rs:1433-1447 | the loop flips exactly the device's alarms |
| GatewayModel.Model.TakeAlarmsFrame | gateway/src/model.rs:748-773 | the counting loop counts exactly |
| GatewayModel.Model.AckAlarm | gateway/src/model.rs:584-593 | acknowledges once and emits a frame exactly on a change |
| GatewayModel.Model.RaiseAlarm | gateway/src/model.rs:1366-1415 | raises, repeats, or counts a refused alarm |
| GatewayModel.Model.ClearAlarm | gateway/src/model.rs:1417-1430 | moves an alarm to the bounded history |
| GatewayModel.Model.IngestSignal | gateway/src/model.rs:1133-1268 | computes the signal fold and its push |
| GatewayModel.Model.IngestMetrics | gateway/src/model.rs:980-1038 | computes the metric fold and its push |
| GatewayModel.Model.IngestLog | gateway/src/model.rs:1040-1131 | computes the log fold and its push |
| GatewayModel.Model.Ingest | gateway/src/model.rs:456-519 | one message, one stamp: its frames tell exactly what changed, the delta log grows by its batch, and fleet, alarms, logs, signals and metrics stay what everything heard makes of them |
| GatewayModel.ApplyTells | gateway/src/model.rs:456-519 | at most one frame a plane, in plane order: the new deltas; the alarms and their counts exactly when they changed; updates whose fold keeps any signal mirror and any agreement on metrics; the log record exactly when the message is readable and no repeat |
| GatewayModel.IngestIsProtocolStep | gateway/src/ingress.rs:66-89 | the model's ingest is the protocol's ingest step: same fleet, same numbered batch to publish |
| GatewayModel.SweepIsProtocolStep | gateway/src/main.rs:196-230 | the model's sweep, in whatever order, is the protocol's sweep step |
| GatewayModel.ResyncIsProtocolStep | gateway/src/http.rs:428-451 | the model's answer out of its ring is the protocol's answer to a hello |
| JsonText.JsonTokens | ui/src/configreview/selectors.ts:232-269 | the accumulating walk emits the token function's tokens |
| JsonText.TokensEmit | ui/src/configreview/selectors.ts:226-269 | the joined tokens are the indented text of the value |
| JsonText.EmitParses | ui/src/configreview/selectors.ts:226-269 | the printed text of any value parses back to it and leaves what follows, wherever a value may end |
| JsonText.TokensRoundTrip | ui/src/configreview/selectors.ts:226-269 | parsing the joined tokens under RFC 8259, sections 2 to 7, returns the value |
| JsonText.ParseEscaped | ui/src/configreview/selectors.ts:264-267 | an escaped string reads back as itself |
| ConfigViews.ViewsAgreeExactly | ui/src/configreview/selectors.ts:62-154 | the flat rows are the tree's leaves in order exactly when no leaf sits under nothing but empty keys |
| ConfigViews.NodeRows | ui/src/configreview/selectors.ts:113-137 | below any non-empty path the two views agree |
| ConfigViews.EmptyLeafShows | ui/src/configreview/selectors.ts:113-137 | an empty-path leaf shows in the tree |
| ConfigViews.FlattenPaths | ui/src/configreview/selectors.ts:62-78 | no flat row has an empty path |
| ConfigViews.RowsAreTheLeaves | ui/src/configreview/selectors.ts:62-78 | the flat rows are the rows of the leaves, in document order, each once, under the dotted and bracketed path that leads to it, with its text and its marking; only an empty container without a path has none |
| ConfigViews.DecimalReads | ui/src/configreview/selectors.ts:62-78 | the text of an array position reads back as the position |
| ConfigViews.NodesHaveTheShape | ui/src/configreview/selectors.ts:113-137 | the tree has the configuration's shape: one child per member or item, captioned by key or position |
| ConfigViews.CountRedactions | ui/src/configreview/selectors.ts:210-218 | the loop counts redacted rows and references |
| ConfigViews.TalliesAgree | ui/src/configreview/selectors.ts:210-269 | redacted values and references are as many among the raw tokens as among the rows, for any configuration |
| Paths.JoinSplit | ui/src/components/panel-descriptor.ts:101-109 | splitting a path loses nothing |
| Paths.SplitJoin | ui/src/components/panel-descriptor.ts:101-109 | a path splits into the one sequence of dotless tokens that joins to it |
| Paths.SafePathExactly | ui/src/components/panel-descriptor.ts:101-109 | a dotted path is safe exactly when it has at most 128 characters in at most eight tokens, none empty, with a character of an expression, or a way into a prototype |
| Paths.ResolvePathSteps | ui/src/components/panel-descriptor.ts:115-125 | the token loop resolves own properties only, nothing for an unsafe path |
| Paths.SetThenGet | ui/src/components/panel-descriptor.ts:839-850 | a write is read back |
| Paths.SetElsewhere | ui/src/components/panel-descriptor.ts:839-850 | a write changes nothing at an unrelated path |
| Paths.SetAbove | ui/src/components/panel-descriptor.ts:839-850 | above a written path stands an object |
| Paths.ParseControls | ui/src/components/panel-descriptor.ts:791-826 | accepted fields are safe and distinct, each with the kind and options of the first usable entry that names it, in entry order; every entry accepted or rejected, every usable field kept |
| Paths.EmitsExactly | ui/src/components/panel-descriptor.ts:858-911 | which value each kind of control emits for which input; everything else emits nothing |
| Paths.AssembleControlArgs | ui/src/components/panel-descriptor.ts:858-911 | the loop assembles exactly the emitted values in control order |
| Paths.ArriveExactlyWhenUnrelated | ui/src/components/panel-descriptor.ts:858-911 | all distinct emitted paths resolve to their values exactly when none leads through another |
| Paths.NothingElse | ui/src/components/panel-descriptor.ts:858-911 | a path resolves exactly when it leads to an emitted one |
| Paths.RequestIsWhatWasEntered | ui/src/components/panel-descriptor.ts:852-911 | under unrelated fields a field resolves to its parsed value and nothing undeclared is in the request |
| Paths.RequestCompleteExactly | ui/src/components/panel-descriptor.ts:852-911 | accepted controls deliver all values exactly when their emitted fields are pairwise unrelated |
| AddressTree.CollectAddressNodes | ui/src/components/ComponentDetailView.tsx:596-612 | the walk collects what the collecting function says, stopping at repeated ids |
| AddressTree.MergeAddressTree | ui/src/components/ComponentDetailView.tsx:614-624 | the loop merges the collected nodes |
| AddressTree.BrowseLosesNothing | ui/src/components/ComponentDetailView.tsx:584-624 | a browse loses no loaded node and no property; a property has the value the browse last gave it, else the one it had; an entry's references are replaced exactly when a visited node of its id brings its own list, even an empty one, and then by the last such list |
| AddressTree.WalkRows | ui/src/components/ComponentDetailView.tsx:626-670 | the pushing walk with its duplicate counter computes the rows, and terminates on any cyclic table |
| AddressTree.ShownIs | ui/src/components/ComponentDetailView.tsx:584-595 | a reference shows its target completed by what is loaded: the loaded references if any were brought, loaded properties first |
| AddressTree.StepsDiffer | ui/src/components/ComponentDetailView.tsx:655-667 | different references of a node get different steps |
| AddressTree.RowsAreVisible | ui/src/components/ComponentDetailView.tsx:626-670 | a row exists exactly for each way down through open nodes that does not repeat one |
| AddressTree.RowsContiguous | ui/src/components/ComponentDetailView.tsx:626-670 | every row's descendants follow it directly |
| AddressTree.FlattenShowsTheVisible | ui/src/components/ComponentDetailView.tsx:626-670 | exactly the visible rows, once each, in preorder with siblings in reference order, each named by its last step, never deeper than there are expanded ids |
| ComponentTree.BuildComponentTree | ui/src/components/components-tree.ts:150-199 | the loops over devices and components place the matching ones in order and count them |
| ComponentTree.InsertFind | ui/src/components/components-tree.ts:170-188 | placing creates exactly the groups of the path and attaches the component at its end only |
| ComponentTree.MarkFind | ui/src/components/components-tree.ts:202-210 | marking flags exactly the groups of the path |
| ComponentTree.TreeGroupsByPath | ui/src/components/components-tree.ts:150-210 | the tree is the grouping by path: groups exist exactly on component paths, hold exactly their components, and are flagged exactly when an unreachable device's component lies at or beneath |
| ComponentTree.PathIs | ui/src/components/components-tree.ts:68-73 | a component's path is the values of its hierarchy, or its device alone when it advertises none |
| ComponentTree.TreeLevels | ui/src/components/components-tree.ts:170-188 | a group has the level the first component on its path gives it |
| ComponentTree.MatchingExactly | ui/src/components/components-tree.ts:150-165 | the items are the kept components, each once, in fleet order, with their device's flag |
| ComponentTree.EveryComponentOnce | ui/src/components/components-tree.ts:95-125 | the leaves are the matching components, each as often as it occurs, and add up to the total |

## Left out

- JSON bodies, `serde` encoding and frame bytes: bodies are opaque, an encoded delta is the delta, a frame's size is an arbitrary function of it.
- Number formats: counters, stamps and sequence numbers are unbounded naturals, uptimes and metric values reals; 64-bit wrap-around and saturation are not modelled.
- Keys built by joining strings (series, slots, dedupe keys, tree paths) are tuples and sequences: the joined texts are not injective in general.
- One gateway incarnation: a restarted gateway reuses sequence numbers, and the hello carries no epoch.
- Sockets, TLS, the bus library, process vitals, React rendering and formatting: only the order in which frames are read, published and delivered is modelled.
- Reading a message body (`extract_signal_samples`, `extract_metric_measures`, severity tokens): the values read are parameters of the messages.
- Attribute, configuration, description and event-log stores: replace or upsert tables with no deeper property.
- Series fields no push carries (address, adapter, endpoint, raw quality): the browser holds those of its last snapshot.
- Real-time liveness and fairness: nothing says that a reconnection eventually succeeds.
- Signal and metric pushes carry no number, so their simulation assumes no push in flight while the snapshot is taken.
- GatewayModel.Model.Sweep: the source visits components in key order; here any order is allowed, and the order of the deltas inside one sweep's batch is left open.
- GatewayModel.Model.Ingest: configuration, event and attribute frames of the same call are not among the frames listed.
- GatewayModel.Model.ClearAlarm: the resolution time is a parameter, since the source reads the raw clock for it and may resolve an alarm before it was raised.
- GembaLoop.EveryResetIsSafe: a snapshot whose text fails to parse, which the loop would skip, does not occur.
- GatewayModel.Model.TakeAlarmsFrame: the order of the listed alarms (by time raised) is not part of the frame.
- FleetMirror.IngestTracks: status, uptime and last-state time are tracked only as far as the guess of a hidden ladder needs them; what the browser holds of them is `ReplicationViews.DeltasTell`.
- FleetHistory.IngestSays: which deltas are sent, not their order within a batch, which the browser's fold depends on and `FleetMirror.IngestTracks` covers.
- Replication.StepSafe: the broadcast channel is a queue whose receiver loses all but the newest `capacity` messages; that the library rounds a configured capacity up to a power of two is in the parameter.
- Ladder.OnlyDownBetweenKeepalives: about components that have reported state; one that never has ages from its discovery.
- Logs.TailIsOrderIndependent: for batches with distinct ids and ids that identify records, as the gateway numbers them.
- Commands.CommandStore.LatestBySlot: the feed of recent commands, sorted by number, is not modelled.
- Client.FleetClient.OnMessage: frames of the other stores count as ordinary traffic; an exception out of a socket's send is not modelled, nor are the refresh timers of the configuration view.
- JsonText.TokensRoundTrip: numbers are carried as text in the number grammar, and strings as sequences of Unicode scalar values, so lone surrogates do not occur.
- ConfigViews.ViewsAgreeExactly: expansion state and the content fingerprint are not modelled.
- Paths.AssembleControlArgs: trimming and integer reading are parameters; the request is built as a value rather than by writing into nested heap objects, so aliasing is not captured.
- Paths.ParseControls: labels and the resolution of option sources are left out; an entry says whether its options resolve.
- AddressTree.FlattenShowsTheVisible: row keys are the structural paths, not their texts.
- AddressTree.BrowseLosesNothing: nodes below a repeated ancestor are not collected, as in the source.
- ComponentTree.BuildComponentTree: siblings stay in insertion order, the locale sort and the roll-up are left out; the search match is an arbitrary predicate, and groups are values rather than linked builders.
