# nodux, modelled

nodux watches a host and its containers and turns a noisy stream of events and polls into exactly the right messages.
This project models the code on that path and proves what its comments promise.

| files | what they model |
|---|---|
| `Issues`, `Bags`, `Filters`, `Events` | alerts, multisets and filtered lists, container events and the stop tracker |
| `Silence`, `SilenceHistory` | the store of silences and deploy windows, and a store that never forgets |
| `Tracker`, `TrackerTheorems`, `Engine`, `EpisodeHistory` | open episodes: what is announced, held back, resolved, saved and restored |
| `ExitDetector`, `CrashLoop` | detectors fed by the event stream, against the whole history of events |
| `EventStream`, `Recovery` | following the daemon's log through drops, crashes and restarts |
| `Incidents`, `IncidentRuns`, `IncidentInvariant`, `IncidentTheorems`, `IncidentMembership`, `Grouper` | grouping alerts into incidents |
| `Dispatch` | the pipeline from the alert queue through the grouper to the receivers |
| `HostOom` | telling host OOM kills from container ones by counting |
| `LeastSquares`, `Forecast` | the disk forecast |
| `Gate`, `Limits`, `Conversation` | the threshold gate, the cooldown and the hourly budget, rounds of tool calls |
| `Delivery`, `Framing` | the receivers' queue, worker and retries; the framing of container logs |

Every component has the same three layers. A value type and step functions say what one critical section does. A class
with the program's own fields and loops is proved to do exactly that. Lemmas over all runs of steps then say what comes
of it, against a history that the program doesn't keep: all events, all alerts ever filed, all calls ever accepted.

Instants and durations are unbounded integers, in nanoseconds; where the 64-bit range shows (doubling the forecast's
horizon, the longest duration as "never") it is written out. Free space, percentages and the fit are exact reals. What
comes from outside is a parameter: the clock, inspect results, readings, rendered bodies, the answers of HTTP servers
and of the model, whether a glob matches, the order in which a map yields its keys. A property that needs a clock that
doesn't run backwards says so.

Some promises hold with an exception, which the lemmas state exactly:

- A crash loop is missed when its events come late: a poll, or a restart with a later timestamp, that was handled before
  them has dropped restarts that are still in their window. The list is right up to exactly that (`ListIsExact`,
  `CountIsComplete`), for events and polls in any order; `LateEventMissesAnAlert` is an input.
- A loop keeps the threshold and the window of the restart that made it. Podman's events carry no labels, so before the
  first poll a container's labels aren't known: a loop made then goes by the general settings (`LateLabelsDontCount`).
- A resolution whose incident has expired goes out as an update with no earlier alerts, although there are some
  (`LateResolutionCarriesNothing`); every other batch has them (`BatchesTellTheTruth`).
- An incident takes alerts for a window after its last firing one, or longer while something of it is unsent; but a
  resolution that waits alone doesn't count (`WaitingResolutionKeepsNothingOpen`), and a restart closes every incident.
- Each event since nodux came in is handled exactly once if processes stop cleanly and resume, and at least once if they
  crash and resume (`ExactlyOnce`, `NothingUnhandled`). That takes a daemon that doesn't come up later with an event
  stamped before the moment nodux began to follow it: between connections such an event is lost (`LateEntryIsMissed`).
- A restart doesn't show in the next reading of a disk, unless it comes at the very instant of loading and a sample is
  exactly one window old: a check keeps it, loading drops it (`RestartDoesntShow`). It does show in a check that can't
  read the disk, exactly when loading dropped a sample (`UnreadCheckAfterRestart`): an open episode can end that way
  (`RestartForgetsAnUnreadDisk`).
- An open forecast closes above twice the horizon, up to half the longest duration; twice a longer one wraps around, and
  the episode closes at once (`ClosesAboveTwiceTheHorizon`, `TwoMillionHoursWraps`).
- A restart skips exactly the events older than the maximum replay, and handles some again if the saved position is from
  the future (`RestartSkipsOnlyTheOld`). It loses exactly the episodes whose detector was turned off or whose
  container was excluded (`RestartLosesNothing`).
- A log stream cut inside a payload gives an error and none of the whole frames before it (`CutAnywhere`).

## Model

| member | source | states |
|---|---|---|
| `Keys.CutJoined` | internal/engine/persist.go:146-152 | cutting an episode's key at the first slash gives back the detector it was built from |
| `Issues.CriticalIsMostUrgent` | internal/detector/detector.go:195-204 | critical is more urgent than a warning, a warning than anything else, and the rest are alike |
| `Events.StopsAreRequested` | internal/detector/signals.go:66-77 | a container is in the stop tracker exactly when a stopping kill came since its last start or destroy, over every history of events |
| `Events.StopIs` | internal/detector/signals.go:48-61 | a kill is a stop exactly if its signal is unknown, INT, QUIT, KILL, TERM or the container's own stop signal; starts and destroys reset it |
| `Exits.AfterIsHistory` | internal/detector/exit.go:47-84 | both sets the detector keeps say what the history says: stop requested, OOM seen, since the last start or destroy |
| `Exits.ReportedIffCrashed` | internal/detector/exit.go:47-86 | over every history, an event is reported exactly when it is a die, nobody asked for it, the OOM detector doesn't have it, and its code isn't in the container's own list or, without one, in the general one; and the report carries that death |
| `Exits.ExitDetector.HandleEvent` | internal/detector/exit.go:47-86 | the two sets and the report after one event |
| `Exits.ExitDetector.LoadState` | internal/detector/exit.go:106-121 | loading merges the saved sets in; a new detector ends up with exactly what was saved |
| `CrashLoops.CrashLoopDetector.HandleEvent` | internal/detector/crashloop.go:58-92 | the three maps and the alert after one event |
| `CrashLoops.CrashLoopDetector.Check` | internal/detector/crashloop.go:105-130 | the loop and the alert after one poll of a container |
| `CrashLoops.CrashLoopDetector.Prune` | internal/detector/crashloop.go:146-154 | the in-place filter keeps the restarts after the cutoff, in order |
| `CrashLoops.CrashLoopDetector.Forget` | internal/detector/crashloop.go:156-166 | nothing is left of a container that is gone, and others are untouched |
| `CrashLoops.CrashLoopDetector.LoadState` | internal/detector/crashloop.go:180-201 | loading merges everything saved except loops without a positive threshold and window |
| `CrashLoops.OnlySoundLoopsLoad` | internal/detector/crashloop.go:180-201 | whatever was saved, exactly the loops with a positive threshold and window are loaded, over what is there |
| `CrashLoops.LabelsGoFirst` | internal/detector/crashloop.go:94-103 | a container's labels set its threshold and window, each on its own, and the configuration does where there is none |
| `CrashLoopHistory.MemoryIsHistory` | internal/detector/crashloop.go:58-79 | over every run of events, polls and removals: who is marked as stopped or crashed, and with which exit code, is what the events say |
| `CrashLoopHistory.ListIsExact` | internal/detector/crashloop.go:79-92 | over every run of events, polls and removals, in any order and with any timestamps and labels: a loop has the window and threshold of the restart that made it, and a restart counted since then is in its list exactly until a poll or a counted restart of that container comes a window or more after it |
| `CrashLoopHistory.ListCoversTheWindow` | internal/detector/crashloop.go:146-154 | as of the latest time seen, in whatever order the steps came, the list has all restarts in the window since the loop was made, and all counted restarts there exactly when none is from before that |
| `CrashLoopHistory.FixedWindowMissesNone` | internal/detector/crashloop.go:94-103 | as of the latest time seen, as long as the window label stays the same, no counted restart from before the loop was made is in the window |
| `CrashLoopHistory.AlertsExactlyWhen` | internal/detector/crashloop.go:74-91 | any event, late or not, whatever its labels, alerts exactly when it restarts a crashed container, no episode is open and the listed restarts reach the loop's threshold; the alert carries their number and the exit code of the last die |
| `CrashLoopHistory.CountIsComplete` | internal/detector/crashloop.go:83-85 | that number is never more than the counted restarts in the event's window, and is less exactly when one of them had been dropped before or is from before the loop was made |
| `CrashLoopHistory.AlertsWhenThresholdIsCrossed` | internal/detector/crashloop.go:13-25 | an event no older than what came before alerts exactly when it restarts a crashed container, no episode is open and the restarts in its window since the loop was made reach the threshold, and reports their number; these are all counted restarts in its window as long as the window label stays the same |
| `CrashLoopHistory.LateEventMissesAnAlert` | internal/detector/crashloop.go:105-119 | three crashes within the window and no alert: a poll with a later time came before the last; without it there is the alert |
| `CrashLoopHistory.LateLabelsDontCount` | internal/detector/crashloop.go:79-92 | a container whose label, a threshold of two, is only known from its second restart on: two restarts listed and no alert |
| `CrashLoopHistory.EpisodeStaysOpen` | internal/detector/crashloop.go:105-130 | in any order of steps, an open episode is closed by exactly: its removal, or a poll that finds it running when every restart of its loop lies a window or more before some look at the list; no event alerts again meanwhile |
| `CrashLoopHistory.EndsWhenWindowIsEmpty` | internal/detector/crashloop.go:111-126 | for a poll that comes after everything else, that is when no restart of the loop is left in the window |
| `CrashLoopHistory.SecondAlertNeedsAnEnd` | internal/detector/crashloop.go:85-91 | over any stretch of steps none of which ends the episode, it stays open and no event raises another alert |
| `CrashLoopHistory.PollNeverOpens` | internal/detector/crashloop.go:105-130 | after any run, a poll reports an episode only if an event has opened it |
| `CrashLoopHistory.PollReportsExactlyWhen` | internal/detector/crashloop.go:105-130 | after any run, a poll reports exactly if an episode is open that it doesn't end: the container, its own time, no exit code, and how many of the loop's restarts no look has dropped, this one included |
| `CrashLoopHistory.PollLeavesTheLoop` | internal/detector/crashloop.go:111-126 | after any run, a poll leaves the loop exactly if a restart is still listed, or an episode is open and the container isn't running |
| `CrashLoopHistory.ReloadIsExact` | internal/detector/crashloop.go:174-201 | after any run, saving and loading leaves nothing out |
| `EventStream.EventLoop.constructor` | internal/engine/persist.go:193-203 | where a new process resumes: the saved position, unless it is missing, from the future or too old |
| `EventStream.EventLoop.OnEvent` | internal/engine/engine.go:416-438 | which events off the stream are handled, and the position afterwards |
| `EventStream.EventLoop.SavePosition` | internal/engine/persist.go:61-67 | the saved position names the events handled at its timestamp, if that is the last one handled |
| `EventStream.KeysDiffer` | internal/engine/engine.go:420-421 | different events never share the key they are remembered by, as actions have no slash |
| `EventStream.ReplayStart` | internal/engine/engine.go:408-416 | a replay from the position starts at or before the next event to handle, and everything before that is from the last timestamp |
| `EventStream.ReplayIsRecognised` | internal/engine/engine.go:420-431 | an event that is sent again is never handled again, even among others of its timestamp |
| `EventStream.NextIsNew` | internal/engine/engine.go:420-431 | an event that wasn't handled is never taken for one that was |
| `EventStream.RunKeeps` | internal/engine/persist.go:54-67 | over every run of appends, connects, deliveries, drops, saves, crashes and boots, position, detector memory and saved state describe the same stretch of the log |
| `EventStream.ExactlyOnce` | internal/engine/engine.go:408-438 | without a crash, the events handled by all processes together are a gap-free, duplicate-free stretch of the log, in its order, beginning with the first event at or after the first start |
| `EventStream.CaughtUp` | internal/engine/engine.go:408-438 | once the connection has nothing more to send, this line of processes has handled everything in the log from its first event on |
| `EventStream.NothingUnhandled` | internal/engine/persist.go:54-67 | crashes cost no event: if every process that finds saved state resumes, each log entry from where nodux came in up to the position was handled by one process or another |
| `EventStream.CrashRecovery` | internal/engine/persist.go:54-124 | for any detector, after any crashes between save and restore, its memory is what it would be had it handled that stretch of the log once, uninterrupted |
| `EventStream.BeganWhenItCameIn` | internal/engine/persist.go:126-140 | if every process that finds saved state resumes, that stretch began with the last start that found none, and with the detector's initial state |
| `EventStream.RecoveryIsFromTheStart` | internal/engine/persist.go:54-124 | then memory is one pass over the log from that start, from the initial state |
| `EventStream.InterruptionsDontShow` | internal/engine/persist.go:126-207 | two runs over the same log that came in at the same moment and were interrupted in different ways end with the same detector memory once both have caught up |
| `EventStream.RestartSkipsOnlyTheOld` | internal/engine/persist.go:193-203 | a restart that resumes skips nothing; from a saved position older than the maximum replay, exactly the unhandled events older than that; from one in the future, nothing, and of what came before it exactly the events stamped now or later come again |
| `EventStream.MemoryIsItsPast` | internal/engine/persist.go:175-203 | over every run, whether or not a restart resumes the stream: memory is one pass, from the initial state, over the events that led to each save a boot loaded, and those handled since |
| `EventStream.LateEntryIsMissed` | internal/engine/engine.go:408-431 | an event stamped before the position that comes into the log while nodux isn't connected is never handled |
| `Recovery.CrashesAreToldAfterRecovery` | internal/engine/persist.go:54-101 | through drops, crashes and restarts that resume, the exit detector reports exactly the crashes the log shows since nodux came in |
| `Recovery.StopsAndCrashesSurvive` | internal/engine/persist.go:54-101 | so do the crash-loop detector's marks: stopped and crashed are what the log shows |
| `Recovery.OutagesForgetNothing` | internal/engine/persist.go:175-203 | the crash loop detector's memory, open loops included, is what those events say, however long nodux was down |
| `Silences.EmptyAndStar` | internal/silence/silence.go:168-181 | the empty matcher selects nothing, the target "*" alone everything |
| `Silences.MatchesIs` | internal/silence/silence.go:133-192 | a matcher selects exactly if some field is given, every given one is a pattern and has a value that passes: the target the container's name or the resource, the others their own; a star passes everything, other patterns nothing empty |
| `Silences.Store.Add` | internal/silence/silence.go:195-212 | a silence is added exactly when its matcher is valid and its duration positive |
| `Silences.Store.Remove` | internal/silence/silence.go:214-222 | exactly the named silence goes |
| `Silences.Store.Deploy` | internal/silence/silence.go:226-235 | a deploy opens or extends the windows of its container and project, and shortens none |
| `Silences.Store.Silenced` | internal/silence/silence.go:273-296 | the answer to one alert; looking prunes what has ended |
| `Silences.Store.PruneNow` | internal/silence/silence.go:298-310 | exactly the ended silences and windows go |
| `Silences.Store.SaveState` | internal/silence/silence.go:318-322 | the saved lists hold exactly the active silences and windows, none twice |
| `Silences.Store.LoadState` | internal/silence/silence.go:324-345 | what is loaded, and what is left out: ended, invalid or unnamed |
| `SilenceHistory.NeverForgetsWhatMatters` | internal/silence/silence.go:273-310 | over every run of adds, removals, deploys, looks and reloads, the pruning store answers as one that keeps everything forever |
| `SilenceHistory.WindowEndsAtTheLatestDeadline` | internal/silence/silence.go:226-235 | an open window ends at the latest of all deadlines it was given, in whatever order they came |
| `SilenceHistory.ReloadIsPrune` | internal/silence/silence.go:318-345 | saving and loading changes nothing but what pruning at both moments would |
| `SilenceHistory.LoadsWhatIsLoadable` | internal/silence/silence.go:324-345 | of any list, exactly the silences with an identifier and a well-formed matcher are loaded, the last of each identifier |
| `EngineState.LookingChangesNoAnswer` | internal/engine/engine.go:1031-1050 | the pruning done by looking is unobservable |
| `EngineState.QuietIs` | internal/engine/engine.go:1031-1050 | an alert is quiet exactly if a silence that hasn't ended selects it or, unless it is a one-off, a deploy window is open for its container or project; the project is its label's, or the one the last poll knew |
| `EngineState.OngoingIsNoOneOff` | internal/engine/engine.go:1020-1031 | for an ongoing problem deploy windows count |
| `EngineState.Engine.SilencedLocked` | internal/engine/engine.go:1031-1050 | whether an alert is quiet, its project filled in from the last poll |
| `EngineState.Engine.TrackLocked` | internal/engine/engine.go:936-966 | opening, escalating and closing one key |
| `EngineState.Engine.TrackAt` | internal/engine/engine.go:927-934 | an observation made before the episode opened changes nothing |
| `EngineState.Engine.TrackSet` | internal/engine/engine.go:971-991 | a whole report: its loops come to one observation per problem, then one closing per key not reported |
| `EngineState.Engine.ResolveContainer` | internal/engine/engine.go:995-1006 | exactly the episodes of the container are closed, each with its resolution |
| `EngineState.Engine.ReleaseOne` | internal/engine/engine.go:1064-1084 | one held-back alert: announced if no silence covers it any more |
| `EngineState.Engine.FlushDeferred` | internal/engine/engine.go:1055-1088 | the loop over open episodes releases each held-back one once |
| `EngineState.Engine.SaveEpisodes` | internal/engine/persist.go:69-78 | each open episode is saved once, without logs |
| `EngineState.Engine.RestoreEpisodes` | internal/engine/persist.go:140-165 | which episodes come back, and as what |
| `EngineState.Engine.CoolingDown` | internal/engine/engine.go:1093-1112 | whether a one-off alert is suppressed, and the map after entries were dropped while ranging over it |
| `EngineState.CooldownsDontMix` | internal/engine/engine.go:1103 | no two detectors, and no two containers, share a cooldown, as detectors' names have no slash |
| `Tracker.RunConcat` | internal/engine/engine.go:971-991 | critical sections run one after the other say what they would say one by one |
| `TrackerTheorems.AudibleLifeCycle` | internal/engine/engine.go:936-966 | for every key, over every interleaving of tracker steps, silences and restarts, what is heard spells (firing+ resolved)* firing*; a trailing firing means an open, announced episode; and there are no more firings than severities up to its own |
| `TrackerTheorems.OneResolution` | internal/engine/engine.go:995-1018 | an episode that ends gets one resolution, heard exactly when its alert was |
| `TrackerTheorems.HeardOnce` | internal/engine/engine.go:936-966 | while an announced episode neither closes nor gets worse, nothing more is said about it |
| `TrackerTheorems.SilencedEscalation` | internal/engine/engine.go:946-958 | a silenced escalation of an announced episode is recorded, and nobody hears it |
| `TrackerTheorems.SetReconciliation` | internal/engine/engine.go:971-991 | after a whole report, the open keys under the detector's prefix are exactly the reported ones, and no other key is touched |
| `TrackerTheorems.SetReconciliationSays` | internal/engine/engine.go:971-991 | what it says is exactly the news, then one resolution per problem that is gone; news is what is worse than all there was of its key, open or reported earlier in the same report, or the first of it |
| `TrackerTheorems.StaleLooksCloseNothing` | internal/engine/engine.go:927-934 | a look at time t never closes an episode opened after it, whatever happened in between |
| `TrackerTheorems.NothingHeldBackWithoutASilence` | internal/engine/engine.go:1055-1084 | after the held-back alerts were looked at, every open episode is announced or silenced right now |
| `TrackerTheorems.RestartLosesNothing` | internal/engine/persist.go:140-165 | a restart keeps every open episode exactly when no detector was turned off and no container excluded, and changes nothing but logs |
| `EpisodeHistory.EpisodeIsHistory` | internal/engine/engine.go:938-965 | over every run of operations, a key is open exactly since a problem was reported when it wasn't; it keeps that report's time and container, the worst problem since, and whether anybody heard of it |
| `EpisodeHistory.OpeningIs` | internal/engine/engine.go:926-965 | in other words: nothing since has ended it, be it a look that isn't stale, a removal, or a restart that drops it |
| `EpisodeHistory.WorstIs` | internal/engine/engine.go:947-957 | the problem it keeps is the first of the worst reported since |
| `EpisodeHistory.SaysWhatHappened` | internal/engine/engine.go:938-1018 | after every run, each operation says exactly what the history of its key calls for: the news, the resolution with how long it lasted and whether it is heard, the held-back alert with its container filled in, or nothing |
| `EpisodeHistory.RemovalEndsItsEpisodes` | internal/engine/engine.go:993-1006 | removing a container ends exactly the open episodes that were opened by a report about it, with one resolution each; all others stay open |
| `Cooldowns.MapIsRecord` | internal/engine/engine.go:1093-1112 | the map that forgets tells of every key whether it passed lately |
| `Cooldowns.CooldownIsExact` | internal/engine/engine.go:1093-1112 | a one-off alert passes exactly when none of its key passed within the cooldown, so those that pass are a cooldown apart |
| `Budgets.Budget.Take` | internal/llm/anthropic.go:347-359 | one call against the budget |
| `Budgets.Budget.PruneCalls` | internal/llm/anthropic.go:361-370 | the in-place filter keeps the calls of the last hour |
| `Budgets.RefusedIffFull` | internal/llm/anthropic.go:347-370 | a call is refused exactly when the hour up to it holds the maximum, counting every call ever accepted |
| `Budgets.NeverOverBudget` | internal/llm/anthropic.go:347-370 | no hour, wherever it ends, holds more accepted calls than the maximum |
| `Budgets.NoMaximum` | internal/llm/anthropic.go:347-350 | without a maximum every call is accepted |
| `Conversations.Converse` | internal/llm/anthropic.go:251-288 | which requests are sent and what they carry, in what round it ends and with which answer |
| `Conversations.OnlyGrows` | internal/llm/anthropic.go:219-222 | every request starts with all of the one before |
| `Conversations.SidesAlternate` | internal/llm/anthropic.go:276-286 | user and model take turns in every request, the user first and last |
| `Conversations.AtMostMaxStepsRounds` | internal/llm/anthropic.go:219-288 | at most maxSteps rounds of tool calls; tools are off exactly in the request after the last one, which alone says so, once, at its end |
| `Conversations.EveryReplyIsAnswered` | internal/llm/anthropic.go:218-290 | each request has the prompt first, and after every reply of the model the result of what it asked for |
| `Conversations.ItEnds` | internal/llm/anthropic.go:218-290 | every conversation ends |
| `Conversations.EndsWithTheAnswer` | internal/llm/anthropic.go:218-290 | it goes on exactly while the model asks for tools, may have them and has rounds left; the last reply is the answer unless the request failed, the model refused, or no text is left |
| `Incidents.Expire` | internal/incident/incident.go:160-170 | an incident stays open exactly while it has something unsent or its last firing alert is within the window |
| `Incidents.Find` | internal/incident/incident.go:146-157 | the open incident of a number, if there is one; number 0 is none |
| `Incidents.Choose` | internal/incident/incident.go:113-121 | the match with the latest firing alert, the first of several, and none only if nothing matches |
| `Incidents.EarliestDue` | internal/incident/incident.go:197-211 | the earliest due time of the open incidents, if anything is due at all |
| `Grouping.Grouper.Add` | internal/incident/incident.go:90-137 | what filing an alert does to open incidents, the index, the counter and the ready list |
| `Grouping.Grouper.Expire` | internal/incident/incident.go:160-170 | the in-place filter |
| `Grouping.Grouper.Next` | internal/incident/incident.go:197-211 | the next due time, now if something is ready |
| `Grouping.Insert` | internal/incident/incident.go:226-234 | sorting by due time, one incident at a time |
| `Grouping.Grouper.Pick` | internal/incident/incident.go:226-234 | each incident to send once, by due time, and no other |
| `Grouping.Grouper.Due` | internal/incident/incident.go:213-218 | the batches that are due and the state they leave |
| `Grouping.Grouper.Flush` | internal/incident/incident.go:220-224 | every batch, due or not, and the state they leave |
| `Grouping.Grouper.SetSummary` | internal/incident/incident.go:262-268 | an empty summary, or one for an incident that is closed, changes nothing |
| `Grouping.Grouper.LoadState` | internal/incident/incident.go:283-296 | the counter never goes back, and the saved index is merged in |
| `IncidentInvariant.ExpireCloses` | internal/incident/incident.go:160-170 | an incident that is closed has sent everything filed under it |
| `IncidentInvariant.AddKeeps` | internal/incident/incident.go:90-144 | filing keeps every incident's accounts: sent, then pending, is what was filed, in order |
| `IncidentInvariant.TakeKeeps` | internal/incident/incident.go:226-258 | so does sending |
| `IncidentInvariant.RestartKeeps` | internal/incident/incident.go:270-296 | so does a clean restart |
| `IncidentInvariant.RunKeeps` | internal/incident/incident.go:60-71 | so does every run |
| `IncidentTheorems.FifoPerIncident` | internal/incident/incident.go:139-144 | per incident, what went out is a prefix of what was filed: in order, none twice, none made up |
| `IncidentTheorems.FlushSendsEverything` | internal/incident/incident.go:220-258 | after a flush, what went out is what came in, in order for every incident and as a multiset overall |
| `IncidentTheorems.FiledFirstSentFirst` | internal/incident/incident.go:226-258 | if an alert has gone out, every earlier one of its incident went out before it |
| `IncidentTheorems.ResolutionNeverOvertakes` | internal/incident/incident.go:101-112 | if nothing else about an episode comes in between, its resolution is filed under the incident of its alert and leaves after it, in the same batch or a later one, even if the incident has expired |
| `IncidentTheorems.DueSendsOnTime` | internal/incident/incident.go:139-144 | after Due at t, whatever is still held came in less than the wait before t |
| `IncidentTheorems.NextInTime` | internal/incident/incident.go:197-211 | while anything is held, Next names a moment no later than its deadline, or one already past |
| `IncidentTheorems.NextIsTheEarliest` | internal/incident/incident.go:197-211 | over every run, Next is now if a batch is ready, and otherwise exactly the earliest deadline of what is held, or none if nothing is |
| `IncidentTheorems.NeverEarly` | internal/incident/incident.go:213-234 | Due takes an incident only when the wait after its first unsent alert is over, and then takes all its unsent alerts |
| `IncidentTheorems.EarlierDeadlineFirst` | internal/incident/incident.go:230-238 | of the incidents sent together, one whose deadline is earlier goes first, and none goes twice |
| `IncidentTheorems.NumbersAreNeverReused` | internal/incident/incident.go:122-135 | open incidents have distinct numbers, and a new one gets a number above every number ever used, also after restarts |
| `IncidentTheorems.BatchesTellTheTruth` | internal/incident/incident.go:236-255 | over every run, a batch is an update exactly when one of its incident came before, and its earlier alerts are exactly the last 20 firing ones of its incident sent before, without logs, if the incident was open when it went out, and none if not; a batch with a firing alert always has them |
| `IncidentTheorems.AtMostTwenty` | internal/incident/incident.go:243-251 | those earlier alerts are all firing ones without their logs, or the last twenty of them |
| `IncidentTheorems.LateResolutionCarriesNothing` | internal/incident/incident.go:101-112 | an alert sent, and its resolution once the incident has expired: the update carries no earlier alert |
| `IncidentTheorems.IncidentsAreConnected` | internal/incident/incident.go:99-136 | every firing alert after an incident's first is a host alert, follows one, or shares a container or project with an earlier one, and joined within the window or while something was unsent |
| `IncidentMembership.JoinsTheMostRecent` | internal/incident/incident.go:99-136 | over every run, a firing alert joins an incident whenever one is in use and related to it by container, project or the host; of those it joins one whose last firing alert is the latest; and otherwise it gets a number never used |
| `IncidentMembership.InUseIsOpen` | internal/incident/incident.go:160-170 | by what was filed and sent: an incident is in use from its first firing alert until an alert is filed when everything of it is sent and its last firing alert is a window ago, or until a restart |
| `IncidentMembership.RecentIsInUse` | internal/incident/incident.go:16-18 | so it is in use for a window after each of its firing alerts, unless nodux is restarted |
| `IncidentMembership.WaitingResolutionKeepsNothingOpen` | internal/incident/incident.go:101-112 | the resolution of an expired incident waits to be sent, and a new alert of the same problem gets a new number |
| `IncidentMembership.ResolutionGoesWithItsAlert` | internal/incident/incident.go:101-112 | over every run, a resolution is filed under the number of the last alert with its key, if that was firing, and otherwise under none |
| `IncidentMembership.BatchesCarryTheAnalysis` | internal/incident/incident.go:236-268 | over every run, a batch carries the analysis last recorded for its incident if that was in use when it went out, and otherwise none |
| `Dispatching.Dispatcher.OnIssue` | internal/engine/dispatch.go:49-73 | one alert off the queue: silenced ones alone and at once, others filed; then everything due |
| `Dispatching.Dispatcher.OnWake` | internal/engine/dispatch.go:68-73 | the timer: everything due |
| `Dispatching.Dispatcher.OnClose` | internal/engine/dispatch.go:51-58 | the queue is closed: everything held back goes, in order of due time, and nothing is left in the grouper |
| `Dispatching.Dispatcher.DeliverGroup` | internal/engine/dispatch.go:76-97 | up to a group of batches is sent in order, changed only by their analysis, and each summary is left with its incident, if that is open |
| `Dispatching.ReachableGood` | internal/engine/dispatch.go:34-97 | over every interleaving of the two loops: what was pushed is what the grouper gave out plus the silenced ones, and what was delivered is a prefix of it |
| `Dispatching.IssueIsMoves` | internal/engine/dispatch.go:49-73 | what OnIssue does to the fields is a receive and a collect of the interleaved runs |
| `Dispatching.WakeIsMove` | internal/engine/dispatch.go:68-73 | what OnWake does is a collect |
| `Dispatching.CloseIsMove` | internal/engine/dispatch.go:51-58 | what OnClose does is a close |
| `Dispatching.GroupIsMoves` | internal/engine/dispatch.go:76-97 | what DeliverGroup does is one delivery per batch, so every run of the class is one of those the theorems are about |
| `Dispatching.NothingLostEndToEnd` | internal/engine/dispatch.go:34-97 | once closed and delivered, the alerts that reached the receivers are, as a multiset and up to incident number and analysis, those that came off the queue |
| `Dispatching.SilencedGoAlone` | internal/engine/dispatch.go:60-66 | a silenced alert is delivered alone, outside every incident |
| `Dispatching.EmittedIsAudible` | internal/engine/dispatch.go:60-66 | no incident ever holds a silenced alert |
| `Dispatching.ReceiversGetTheAnalysis` | internal/engine/dispatch.go:76-97 | over every interleaving, the receivers get the batches as pushed, in order, with each batch's own analysis on its firing alerts |
| `HostOoms.HostOOMDetector.ContainerOOM` | internal/detector/hostoom.go:71-75 | an event is one more credit |
| `HostOoms.HostOOMDetector.Check` | internal/detector/hostoom.go:98-144 | one reading of the counter, from any state: the queues, what is confirmed, and how many kills are reported |
| `HostOoms.HostOOMDetector.MatchOldest` | internal/detector/hostoom.go:104-112 | the loop that pays kills with events |
| `HostOoms.HostOOMDetector.Settle` | internal/detector/hostoom.go:113-123 | the loops that drop old events and confirm old kills |
| `HostOoms.HostOOMDetector.LoadState` | internal/detector/hostoom.go:192-202 | what comes back after a restart, and what doesn't: the credits of events handled before the save |
| `HostOomAccounts.MatchBalances` | internal/detector/hostoom.go:104-112 | matching takes as many kills as events, and stops only when one side is empty |
| `HostOomAccounts.PollBalances` | internal/detector/hostoom.go:98-144 | a poll neither loses nor makes up a kill or an event |
| `HostOomAccounts.EveryKillIsAccountedFor` | internal/detector/hostoom.go:98-144 | over every run of events, polls, failed polls and restarts: kills seen = matched + pending + confirmed + reported, events received = matched + queued + expired + forgotten in restarts; alerts are a cooldown apart; after a poll one queue is empty and nothing in the other is overdue |
| `HostOomAccounts.NoSettledKillIsLost` | internal/detector/hostoom.go:115-144 | after a poll outside the cooldown, every kill is matched, too young, or reported |
| `HostOomAccounts.OrderOfArrivalDoesntMatter` | internal/detector/hostoom.go:22-27 | after any poll of any run, whatever the order of arrival: matched is the lesser of the kills not confirmed or reported and the events not expired or lost; so it is min(kills, events) as long as nothing has reached settle age or been lost |
| `HostOomAccounts.GivenUpOnlyWhenOld` | internal/detector/hostoom.go:98-123 | over every run, by the steps alone: the accounts count what the readings and events say; a kill is blamed on the host only at a poll the settle time or more after the one that found it, an event given up only at a poll that much after it came, or in a restart |
| `HostOomAccounts.BriefRunsMatchEverything` | internal/detector/hostoom.go:22-27 | over every run without a restart or such a poll, in whatever order: after a poll, matched is the lesser of the counter's growth and the number of events, and nothing was blamed or given up |
| `LeastSquares.NumeratorIsPairs` | internal/detector/forecast.go:127-143 | twice n Sxy - Sx Sy is the sum of (xi - xj)(yi - yj) over all pairs |
| `LeastSquares.DenominatorSign` | internal/detector/forecast.go:138-141 | the denominator is never negative, and positive exactly when two samples differ in time |
| `LeastSquares.ClimbingSlope` | internal/detector/forecast.go:127-143 | what never falls has no falling slope |
| `LeastSquares.SlopeOfLine` | internal/detector/forecast.go:127-143 | on a straight line the slope is the line's |
| `LeastSquares.SlopeIgnoresShifts` | internal/detector/forecast.go:127-143 | shifting times or values leaves the slope as it is |
| `LeastSquares.SlopeIsLeastSquares` | internal/detector/forecast.go:127 | no line has a smaller squared error than the one with this slope |
| `Forecasts.FitSlope` | internal/detector/forecast.go:128-143 | the one-pass loop computes the slope |
| `Forecasts.DiskForecastDetector.Check` | internal/detector/forecast.go:54-84 | all paths in order, over the three maps: samples, episodes, failures and alerts |
| `Forecasts.DiskForecastDetector.CheckPath` | internal/detector/forecast.go:57-83 | one path, read or not; other paths are untouched |
| `Forecasts.DiskForecastDetector.Project` | internal/detector/forecast.go:88-113 | when there is enough to go by, the time left, the limit, and the episode |
| `Forecasts.DiskForecastDetector.SaveState` | internal/detector/forecast.go:184-194 | every configured path with its samples and whether it is firing |
| `Forecasts.DiskForecastDetector.LoadState` | internal/detector/forecast.go:196-217 | what configured paths get back, within the window; other paths are untouched |
| `ForecastTheorems.SamplesAreTheWindow` | internal/detector/forecast.go:73-78 | over every run of checks and restarts, however often reading failed, the samples are exactly the readings of the window before the last one, without those that were a window old at the last restart |
| `ForecastTheorems.FailingIsTheLast` | internal/detector/forecast.go:57-72 | a path counts as failing exactly if its last check couldn't read it |
| `ForecastTheorems.NotFillingIsQuiet` | internal/detector/forecast.go:89-113 | if free space never falls over the samples, there is no alert, for a horizon of any number of hours |
| `ForecastTheorems.NotFillingAlerts` | internal/detector/forecast.go:89-113 | for a horizon of any duration, such a disk alerts exactly when the horizon is the longest duration there is and no episode is open |
| `ForecastTheorems.ClosesAboveTwiceTheHorizon` | internal/detector/forecast.go:12-18 | an episode opens exactly when the time left is within the horizon, and stays open exactly when it is within twice the horizon and that doesn't wrap around |
| `ForecastTheorems.TwoMillionHoursWraps` | internal/detector/forecast.go:104-107 | with a horizon of two million hours every open episode closes at the next check |
| `ForecastTheorems.NeverFillingNeverAlerts` | internal/detector/forecast.go:12-23 | over any run of checks and restarts in which the free space read never falls there is never an alert or an open episode |
| `ForecastTheorems.EnoughIsSpread` | internal/detector/forecast.go:90-92 | whenever there is enough to go by, the fit is well defined |
| `ForecastTheorems.EnoughIsAQuarter` | internal/detector/forecast.go:90-92 | there is enough to go by with three samples or more, over a quarter of the window or more |
| `ForecastTheorems.SteadyFillIsForecast` | internal/detector/forecast.go:89-113 | on a disk that fills steadily the forecast is exact, or the longest duration if it would reach that, and there is an alert exactly when it is within the limit |
| `ForecastTheorems.ForecastIsWhenFull` | internal/detector/forecast.go:96-102 | the forecast is the last nanosecond at which a disk filling at that rate isn't overfull |
| `ForecastTheorems.RateIgnoresMoves` | internal/detector/forecast.go:128-131 | the rate doesn't depend on the origin of time, on when the samples were taken, or on how much space there is |
| `ForecastTheorems.RestartDoesntShow` | internal/detector/forecast.go:184-217 | a restart doesn't show in a next check that reads the disk, if and only if that isn't at the instant of loading with a sample exactly a window old |
| `ForecastTheorems.UnreadCheckAfterRestart` | internal/detector/forecast.go:58-71 | a next check that can't read the disk comes to the same state if and only if no sample was a window old when loaded, and tells the same if and only if no episode is open or what is left gives the same warning |
| `ForecastTheorems.LongOutageIsForgotten` | internal/detector/forecast.go:58-71 | after a window without a reading, a restart and an unread check tell of no episode |
| `ForecastTheorems.RestartForgetsAnUnreadDisk` | internal/detector/forecast.go:58-71 | a disk that has just run full, unread since: without the restart the episode goes on, with it nothing is told |
| `ForecastTheorems.PathsDontMix` | internal/detector/forecast.go:57-83 | checking several paths is checking each alone |
| `ForecastTheorems.AlertsInOrder` | internal/detector/forecast.go:54-84 | alerts come in the order of the paths |
| `Gates.Gate.Update` | internal/detector/gate.go:23-40 | one sample |
| `Gates.OpenExactlyWhenHeld` | internal/detector/gate.go:10-17 | over every trace of samples, the gate is open exactly when the value was once at or above the threshold in every sample for the sustain time and in no sample since below the closing level |
| `Gates.CanAlwaysClose` | internal/detector/gate.go:10-17 | a gate closes five points below its threshold, or at half of it when that is under ten: always above zero and below the threshold |
| `Deliveries.HTTPAction.Send` | internal/action/http.go:81-94 | queued, dropped and counted, or refused once closed |
| `Deliveries.HTTPAction.Close` | internal/action/http.go:107-112 | closing changes nothing but that |
| `Deliveries.HTTPAction.Take` | internal/action/http.go:125-127 | the oldest notification; on an empty queue, waiting while it is open and the end once it is closed |
| `Deliveries.HTTPAction.Process` | internal/action/http.go:127-142 | what the counters say after one notification, rendered or not |
| `Deliveries.HTTPAction.Deliver` | internal/action/http.go:145-162 | how a body fares and how often it is posted, with waits that double |
| `Deliveries.PostedAtMostThreeTimes` | internal/action/http.go:145-162 | a body is posted one to three times: exactly until it is accepted, fails for good, is interrupted or has failed the third time |
| `DeliveryProtocol.RunKeeps` | internal/action/http.go:81-143 | over every interleaving of senders under the read lock, Close under the write lock and the worker: nothing is sent on the closed queue, it never exceeds its size, accepted = taken + queued in order, taken = reported + in hand in order, each delivery is one to three posts and is counted once |
| `DeliveryProtocol.DroppedOnlyWhenFull` | internal/action/http.go:81-94 | after every run, a notification is dropped exactly if 100 accepted ones are waiting when its sender gets to the queue, and otherwise accepted |
| `DeliveryProtocol.DoneMeansAllReported` | internal/action/http.go:105-142 | when the worker is done, every accepted notification has its report, in order, and the counters add up to them |
| `DeliveryProtocol.DoneIsFinal` | internal/action/http.go:81-94 | after that, no call of Send or Close changes anything |
| `DeliveryProtocol.DrainNeverStuck` | internal/action/http.go:105-123 | once closed, the worker can always take another step until it is done |
| `DeliveryProtocol.WorkerGetsOn` | internal/action/http.go:125-143 | every step of the worker leaves less to do: notifications waiting, then the stage of the one in hand, then its bodies |
| `DeliveryProtocol.NobodyAdds` | internal/action/http.go:81-94 | once closed, nobody else changes what the worker has to do |
| `DeliveryProtocol.DrainEnds` | internal/action/http.go:105-123 | from every reachable world with a closed queue, every endless run in which the worker isn't held up forever comes to where it is done |
| `DeliveryProtocol.LoopIsSteps` | internal/action/http.go:134-141 | the worker's loop over a notification's bodies comes to the protocol's single steps |
| `DeliveryProtocol.SendIsSteps` | internal/action/http.go:81-94 | a send on an open queue is two steps of the protocol with the method's result, and on a closed one changes nothing |
| `DeliveryProtocol.OthersStayInside` | internal/action/http.go:81-94 | a sender that is done leaves all others inside the lock |
| `DeliveryProtocol.CloseIsStep` | internal/action/http.go:107-122 | close is one step, possible exactly when no sender is inside |
| `DeliveryProtocol.TakeIsStep` | internal/action/http.go:125-127 | an idle worker takes the oldest notification, waits, or is done exactly if the queue is closed and empty |
| `Framing.DemuxLogs` | internal/dockerclient/client.go:308-326 | the loop over the stream, including its errors |
| `Framing.RoundTrip` | internal/dockerclient/client.go:305-326 | what is written in frames, with payloads below 2^32 bytes, is read back in order |
| `Framing.CutAnywhere` | internal/dockerclient/client.go:311-324 | cut at any byte: between frames or inside a header, exactly the whole frames before; inside a payload, an error |
| `Framing.ReadsExactlyFrames` | internal/dockerclient/client.go:308-326 | over every stream of bytes, reading succeeds with a text exactly if the stream is frames with that text followed by less than a header |
| `Framing.BrokenStreamFails` | internal/dockerclient/client.go:312-317 | of a stream that breaks off with an error nothing is kept |

## Left out

- Docker, HTTP, TLS, SQLite, the file system and /proc: their results are inputs. Writing the state file atomically is
  the operating system's business.
- The model's prompts, the tools, the chat bot, the command line, metrics and the digest: input, output and wording.
- Configuration, routing of alerts by severity and pattern, and redaction.
- The text of messages: what the engine adds to a message is kept as structure, and the crash-loop, OOM and forecast
  alerts carry their numbers. JSON, and the sorting of saved lists, which only fixes the order in a file.
- Matching a glob, and reading numbers, durations and signals from labels and attributes: uninterpreted, or already read.
- Threads: every critical section is one step, with one reading of the clock. The order of the alert queue between loops
  isn't modelled, nor that a full channel makes its sender wait.
- Open incidents and crash loops are held as values in a sequence and a map, where the program has pointers: the lemmas
  don't speak about aliasing. Go's zero time is an absent value, so an event from the year 1 isn't modelled.
- Rounding of floating-point numbers, and durations beyond 292 years, at which subtracting two instants saturates.
- A clock that runs backwards, except in `EventStream`, where nodux's clock may jump and differ from the daemon's.
- What is sent twice after a crash that saved nothing: the detectors' memory is exact then, but alerts between the save
  and the crash are raised again.
- In `Recovery` the crash loop detector is driven by events alone; polls and removals are in `CrashLoopHistory`.
- The forecast with too few samples while an episode is open: the code reports nothing and leaves the episode marked as
  firing. The model does the same, and no lemma says more.
- What the engine keeps about images and runs of containers, and excluding containers by label.
- Deliveries.HTTPAction.Deliver: posting a request and the status codes behind its three kinds of answer are an input.
- DeliveryProtocol.DrainEnds: that the worker isn't held up forever is up to the scheduler and to the servers it posts to.
- HostOoms.HostOOMDetector.Check: a counter that can't be read changes nothing; that a missing one turns the detector off
  for good is a run of failed polls.
- Silences.Store.SaveState: it asks for silences to be stored under their own identifiers, as adding and loading do.
- EngineState.Engine.ReleaseOne: it is the body of a loop, for a key that is open and a store that exists.
- Conversations.Converse: what the tools return is identified with the reply that asked for them.
