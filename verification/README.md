# Verified model of the IronSoft ground link

IronSoft links a drone to an operator's window over MQTT. A backend on the drone announces its
presence, answers commands and beats a heartbeat; a sensor service on the same drone talks to an
Ekinox inertial sensor over UDP and to its data logger over REST; a Qt window on the ground shows
it all. This project models the parts where threads, processes and texts meet, and proves what
they promise each other.

## What is modelled

* **The GUI client as a two-thread machine** (`PahoMachine`, `PahoOwnership`, `PahoSignals`,
  `PahoLedger`, `PahoRuns`, `PahoPings`, `PahoChronicle`, `PahoPacing`, `PahoStop`, `PahoStates`,
  `PahoClient`, `Backoff`, `GuiMessages`). The UI thread runs connect, stop, ping and ping-timeout; the worker runs the
  MQTT loop. A step is one access to shared state or one library call, so every interleaving of
  the two threads at that grain is a schedule (`Run`). A setter is two steps, the atomic exchange
  and the posting of its signal, with the other thread free to run in between. Library calls may
  return, throw or deliver anything. `PahoMachine` gives each step as a function on states; the
  class `MqttPahoClient` in `PahoClient` performs the same steps in place on the client's fields,
  one handler per operation, keeps its `Valid()` through every schedule, and states the results
  on those fields.
* **Presence and commands** (`PresenceProtocol`, `BackendCommands`). The backend's sessions, an
  MQTT 3.1.1 broker and the GUI's subscription, with crash, loss, takeover and reconnection as
  steps of the environment; the backend's connect loop and its ping-only command handler.
  `PahoPresence` puts the two-thread client inside that protocol and shows that it refines the
  protocol's GUI.
* **REST paths and recording inference** (`RestPaths`, `RecordingInference`).
* **Configuration and status** (`EkinoxConfig`, `StatusCodec`) over JSON value trees
  (`JsonTree`, where both JSON libraries' reading rules are defined once).
* **The UDP session** (`UdpSession`) against a protocol automaton for the sensor library, in the
  branch built with that library.

## What is assumed

* Methods of the GUI client are called on the UI thread, and ping ids are fresh and non-empty
  (the code draws a UUID for each).
* A library call may fail but does not block forever once stop has asked it to end.
* A takeover applies the old session's will before the new session's CONNACK, and the client
  library queues messages that arrive between the subscription (`gui/src/mqtt_paho_client.cpp:439`)
  and `start_consuming` (line 476).
* The broker forwards to a live subscriber in order and may repeat a suffix of what it has already
  sent (MQTT 3.1.1 sections 4.3.2 and 4.6); backend publishes under way may be resent while its
  link is up and be cut off from any point on when it drops.
* A subscription is acknowledged only on a live link, and only the backend publishes on its
  presence topic.

## Results that went against expectation

* An acknowledgement that arrives between `publish` (`gui/src/mqtt_paho_client.cpp:149`) and the
  table entry (line 154) settles nothing. A ping is ponged exactly when an acknowledgement of it is
  taken while it is in the table (`PahoPings.FatesExactly`, `PahoPings.PingOutcome`), so one that
  is answered only in the gap times out in every run without a stop
  (`PahoPings.AckInTheGapTimesOut`); `PahoPings.RunAnsweredYetTimedOut` is such a run.
* The window can be told that the client is disconnected while it still shows the backend online:
  the session's end clears the connected flag first (lines 603-604 and 607-608).
  `PahoRuns.RunDisconnectedYetOnline` is such a run, and `PahoRuns.WhenDisconnectedYetOnline` says
  that it is confined to the two positions between the clearing of the two flags.
* A GUI that has not noticed the loss of its own link can be subscribed and drained and still show
  something else than the broker retains (`PresenceProtocol.StaleOnDeadLink`). Agreement is
  guaranteed exactly on a live link: `PresenceProtocol.LiveIsExact`.
* The endpoints are free of "//" exactly when the base path has a character other than a slash
  and neither part has a double slash inside: `RestPaths.CleanEndpoints`, with
  `RestPaths.RootBaseDoubles` for what happens to a base path of "/".
* Inference of the recording flag raises an exception exactly when a numeric `writeSpeed` does not
  fit an `int`, and leaves the texts already read in place:
  `RecordingInference.LoggerResult.EnrichFromJson`.
* `docs/ekinox_mqtt_contract.md` names the commands `start_logger` and `stop_logger`; the code
  uses `logger.start` and `logger.stop`. No command name other than `ping` plays a part here.

## Model

| member | source | states |
|---|---|---|
| Backoff.BackoffRange | gui/src/mqtt_paho_client.cpp:627 | the closed form min(1000·2^k, 10000) stays within one and ten seconds, is divisible by five (so the integer jitter is exact) and is at the cap exactly from the fifth wait on |
| Backoff.BackoffDoubles | gui/src/mqtt_paho_client.cpp:627 | doubling and capping the variable advances the closed form by one |
| Backoff.DelayInBand | gui/src/mqtt_paho_client.cpp:616-619 | every draw gives a delay between 4/5 and 6/5 of the backoff, at most ten seconds; the 200 ms floor never decides it |
| Backoff.SumAtLeastTotal | gui/src/mqtt_paho_client.cpp:616-627 | any n consecutive waits of the schedule last at least 4/5 of the closed-form total 1, 3, 7, 15, then ten seconds more each |
| Backoff.AttemptsInWindow | gui/src/mqtt_paho_client.cpp:616-627 | consecutive waits, wherever they stand in the schedule, that fit a window of w ms number at most (w + 20000) / 8000 |
| Backoff.WaitRange | gui/src/mqtt_paho_client.cpp:616-619 | every wait of the schedule is between 800 ms and ten seconds |
| Backoff.FailingAttempts | gui/src/mqtt_paho_client.cpp:407-628 | the loop that doubles `backoffMs` in place, while every attempt fails, chooses exactly the scheduled waits and ends at the closed form |
| PahoOwnership.StepOwn | gui/src/mqtt_paho_client.cpp:83-126 | every step of either thread keeps the ownership discipline: the UI thread writes the flags only while no worker exists, and the worker's position fixes them while it lives |
| PahoOwnership.AlwaysOwn | gui/src/mqtt_paho_client.cpp:406-634 | the discipline holds in every state any schedule reaches |
| PahoRuns.WhenDisconnectedYetOnline | gui/src/mqtt_paho_client.cpp:599-610 | while presence is up in any run the worker lives, and the client is disconnected exactly at the positions between the clearing of the connected and the presence flag |
| PahoRuns.RunDisconnectedYetOnline | gui/src/mqtt_paho_client.cpp:603-604 | a run whose last posted signal is the disconnection while the presence flag still stands |
| PahoSignals.AcceptedIsLanguage | gui/src/mqtt_paho_client.cpp:42-81 | the flag automaton accepts exactly the prefixes of (C+ (P+ P-)* (C- or P+ C- P-))* |
| PahoSignals.AlwaysSignals | gui/src/mqtt_paho_client.cpp:603-608 | in every schedule the signals exchanged so far are an accepted trace that ends at the current flags |
| PahoSignals.SignalTrace | gui/src/mqtt_paho_client.cpp:42-95 | over any number of connect/stop cycles and failures the posted connected and presence signals form a prefix of that regular expression, and with nothing in flight the last word of it is the two flags |
| PahoLedger.AlwaysBalanced | gui/src/mqtt_paho_client.cpp:128-162 | in every schedule each inserted ping has exactly one fate, and the finals posted, owed or in flight for an id match that fate |
| PahoLedger.LedgerConservation | gui/src/mqtt_paho_client.cpp:305-320 | each id ever inserted is in exactly one of pending, ponged, timed out and cleared; at most one final update is ever posted for an id; when nothing is in flight the finals posted are exactly the ponged and the timed-out ids |
| PahoLedger.NoLeakedPing | gui/src/mqtt_paho_client.cpp:152-158 | an idle UI thread leaves every pending ping with an armed timer, so the table is empty once all timers have fired, and empty whenever there is no worker; no erased ping is kept silent by a stop |
| PahoLedger.NoGhostPing | gui/src/mqtt_paho_client.cpp:89-121 | after a completed stop nothing final is ever posted for a ping issued before it, whatever is connected later |
| PahoPings.FatesExactly | gui/src/mqtt_paho_client.cpp:514-524 | in every run a ping is ponged exactly when an acknowledgement of it is taken while it is in the table, and dropped exactly when stop empties the table while it is there |
| PahoPings.EarlyAcksAreLost | gui/src/mqtt_paho_client.cpp:149-155 | acknowledgements taken before the ping enters the table never count, and its fate depends only on what follows |
| PahoPings.PingOutcome | gui/src/mqtt_paho_client.cpp:149-158 | once the timer of a published ping is done and nothing is in flight, it was ponged once exactly when answered in time, and timed out once exactly when neither answered in time nor dropped by a stop |
| PahoPings.UnansweredPingTimesOut | gui/src/mqtt_paho_client.cpp:152-158 | in every run without a stop a published ping that is not answered in time times out once and is never ponged |
| PahoPings.AckInTheGapTimesOut | gui/src/mqtt_paho_client.cpp:149-155 | in every run without a stop a ping answered only between publish and insert times out once and is never ponged |
| PahoRuns.RunIntoGap | gui/src/mqtt_paho_client.cpp:149-154 | the gap between publish and insert, with the worker taking messages, is reached from the first state for every id |
| PahoPings.RunAnsweredYetTimedOut | gui/src/mqtt_paho_client.cpp:149-158 | a run from the first state in which a ping is acknowledged and yet reported timed out |
| PahoChronicle.PongTimes | gui/src/mqtt_paho_client.cpp:152-158 | every ping update ever posted says what the clocks of the schedule say: a pong the time from the step that entered the ping to the delivery that answered it, never below zero; a pending or timed-out one -1 |
| PahoChronicle.WireIsRead | gui/src/mqtt_paho_client.cpp:501-512 | an acknowledgement is read as the id, ok and type on the wire, and one without an id is none |
| PahoChronicle.AcksPassedOn | gui/src/mqtt_paho_client.cpp:514-542 | the acknowledgement signals posted or owed are the in-order image of the acknowledgements taken, each with its own id, ok and kind, "ping" standing in for the missing kind of one that settles a ping |
| PahoChronicle.PingsAnnounced | gui/src/mqtt_paho_client.cpp:152-157 | the pending updates posted or still to come are the pings entered in the table, in order, one each |
| PahoChronicle.EnteredExactly | gui/src/mqtt_paho_client.cpp:137-155 | the pings entered are exactly those whose publish returned, but for the one in the gap, and each had found the client set and connected |
| PahoPacing.AlwaysPaced | gui/src/mqtt_paho_client.cpp:616-627 | in every schedule the backoff variable is the closed form in the number of waits since the last reset, and each wait lies in its band |
| PahoPacing.ReconnectRate | gui/src/mqtt_paho_client.cpp:616-627 | in every reachable state any stretch of n consecutive waits since the last session lasts at least 8 n - 20 seconds |
| PahoPacing.DelaysAreRecent | gui/src/mqtt_paho_client.cpp:477-627 | the waits a living worker remembers are exactly those the run chose since its last reset, by a session or a new thread, each by the closed form |
| PahoPacing.AttemptsAreSpaced | gui/src/mqtt_paho_client.cpp:410-628 | across all resets, in any stretch of any run every connection attempt but one, and one more for each thread started, is preceded by a wait of at least 800 ms slept in full |
| PahoStop.StepShrinks | gui/src/mqtt_paho_client.cpp:101-115 | once the stop flag is up every step of either thread lowers one measure |
| PahoStop.StopNotStuck | gui/src/mqtt_paho_client.cpp:113-115 | while stop runs some step is always possible: the join does not deadlock |
| PahoStop.StopIsBounded | gui/src/mqtt_paho_client.cpp:101-126 | every schedule leaves stop within the measure's number of steps |
| PahoStop.StopReturns | gui/src/mqtt_paho_client.cpp:101-126 | from every worker position stop reaches its return |
| PahoStop.StopTerminates | gui/src/mqtt_paho_client.cpp:101-126 | in any reachable state with the stop flag up, stop has returned after at most 147 steps of the two threads in any order, and some continuation does return |
| PahoStop.StopIsNotLost | gui/src/mqtt_paho_client.cpp:479-625 | after the flag the worker begins at most one more connection or message in all and sleeps through at most one wait of at most ten seconds, even when it misses the notification |
| PahoStop.StopIsNeverLost | gui/src/mqtt_paho_client.cpp:479-625 | the same from the first state on: however a run came to the raised flag, at most one more begin and one wait follow |
| PahoStop.NotifyWakes | gui/src/mqtt_paho_client.cpp:113-115 | a notification that finds the worker blocked ends its wait: nothing is slept through after it, unless the worker had tested the flag and not yet blocked |
| PahoStop.OneWorker | gui/src/mqtt_paho_client.cpp:83-115 | a thread is started only where none exists, ends only from its last position, and while it lives the stop flag never falls |
| PahoStop.StopPostcondition | gui/src/mqtt_paho_client.cpp:115-126 | when stop returns there is no worker, no client and no pending ping, both flags are down, and the state and the last state posted are Disconnected |
| PahoStates.StateIsTold | gui/src/mqtt_paho_client.cpp:259-263 | while no stop is requested the connection state says where the worker is, and while none disturbs it is the last state told once the trays are empty, in every run |
| PahoStates.SessionTellsConnected | gui/src/mqtt_paho_client.cpp:435-480 | a session past its announcement is one the window has been told is Connected |
| PahoClient.MqttPahoClient.constructor | gui/src/mqtt_paho_client.h:116-127 | a new client is valid and in the first state |
| PahoClient.MqttPahoClient.SetConnected | gui/src/mqtt_paho_client.cpp:42-47 | the flag takes the value, and a signal is owed exactly when it changed |
| PahoClient.MqttPahoClient.SetPresence | gui/src/mqtt_paho_client.cpp:76-81 | the flag takes the value, and a signal is owed exactly when it changed |
| PahoClient.MqttPahoClient.SetState | gui/src/mqtt_paho_client.cpp:259-263 | the state takes the value, and a signal is owed exactly when it changed |
| PahoClient.MqttPahoClient.Step | gui/src/mqtt_paho_client.cpp:83-634 | any step of either thread, done in place on the fields, is the step of the machine and keeps the client valid |
| PahoClient.MqttPahoClient.Execute | gui/src/mqtt_paho_client.cpp:83-634 | after any schedule the posted signals are in the language and end at the fields `connected` and `presence`, no ping has two outcomes, and every pending ping of an idle client has its timer |
| PahoClient.MqttPahoClient.Stop | gui/src/mqtt_paho_client.cpp:101-126 | stop on the object, against any proposed interleaving and library answers, returns and leaves no worker, no client, no pending ping, both flags down, and Disconnected as the state and the last state posted |
| GuiMessages.PresenceReads | gui/src/mqtt_paho_client.cpp:545-553 | only the text "online" or "offline" under "state" of an object announces presence |
| GuiMessages.AckReads | gui/src/mqtt_paho_client.cpp:501-512 | an acknowledgement is an object with a non-empty string id; ok counts only as a boolean, type only as a string |
| PresenceProtocol.PayloadsDecode | gui/src/mqtt_paho_client.cpp:545-553 | the GUI reads the backend's online payload as online and its will as offline |
| PresenceProtocol.PayloadTexts | backend/src/mqtt_client.cpp:28-33 | the will says offline with its time and the reason "lwt", the announcement online with its time and no reason |
| PresenceProtocol.AlwaysFits | backend/src/mqtt_client.cpp:76-138 | in every run the broker's log, the session it holds, the backend and the GUI's queue fit together: folding the queued messages over the GUI's flag yields the retained value |
| PresenceProtocol.NoStaleWill | backend/src/mqtt_client.cpp:23-38 | once a publish of session k is applied nothing of an earlier session is applied after it, and nothing of a session follows its own will |
| PresenceProtocol.RetainedOnlineIsNewest | backend/src/mqtt_client.cpp:80-84 | the broker retains "online" exactly when it holds the newest session and that session's announcement is the last publish applied |
| PresenceProtocol.PresenceAgreement | gui/src/mqtt_paho_client.cpp:545-553 | in every run a subscribed GUI on a live link with a drained queue shows exactly what the broker retains, over any drops and reconnections on either side |
| PresenceProtocol.LiveIsExact | gui/src/mqtt_paho_client.cpp:480-487 | a subscribed, drained GUI agrees with the broker whatever the rest of the world goes on to do if and only if its link is live |
| PresenceProtocol.GuiTracksBackend | backend/src/mqtt_client.cpp:80-84 | such a GUI shows online when the backend is connected and its announcement has arrived, offline once the broker has noticed its loss, and online only for a session the broker holds |
| PresenceProtocol.StaleOnDeadLink | gui/src/mqtt_paho_client.cpp:480-487 | a run to a subscribed, drained GUI whose link is silently dead and which disagrees with the broker |
| PahoPresence.Refines | gui/src/mqtt_paho_client.cpp:410-634 | every run of the two-thread client within the broker and backend is a run of the client and a run of the protocol, with the worker's position and the presence flag matched to the protocol's GUI at every step |
| PahoPresence.WindowShowsBroker | gui/src/mqtt_paho_client.cpp:545-553 | subscribed, on a live link and with no presence message left to take, the client's own presence flag is what the broker retains, and so is the last thing its window was told once its signals are posted |
| PahoPresence.WindowTracksBackend | gui/src/mqtt_paho_client.cpp:545-553 | in such a state the client shows online once the backend's announcement has arrived and offline once the broker has noticed the backend's loss |
| BackendCommands.TopicsApart | backend/include/ironsoft/topics.h:15-24 | acknowledgements have a topic of their own, different from the other four, for every drone id |
| BackendCommands.OnlyStringReadsPing | backend/src/main.cpp:64-65 | of all JSON values only the string "ping" reads as the text ping |
| BackendCommands.AckMeaning | backend/src/mqtt_client.cpp:100-116 | an acknowledgement echoes the id ("" when there is none to read), is positive exactly for a ping, and carries a message or an error but never both |
| BackendCommands.AckAnswers | backend/src/mqtt_client.cpp:100-116 | every acknowledgement echoes the id of its command as text, whatever the type of the command: strings as they are, other scalars as the library prints them, "" for an absent, null, array or object id and for text that is not JSON; and gives the verdict on the type |
| BackendCommands.WhenItThrows | backend/src/main.cpp:55-67 | the handler throws exactly on JSON that is neither object nor null and on an object whose type is an array or object |
| BackendCommands.PingRoundTrip | gui/src/mqtt_paho_client.cpp:131-135 | the GUI's ping comes back as a positive ack with its own id, as the GUI's reader sees it |
| BackendCommands.Consumed | backend/src/mqtt_client.cpp:89-125 | a session processes the messages before the first whose handler or answer throws, no fewer and no more |
| BackendCommands.AcksAre | backend/src/mqtt_client.cpp:112-118 | one acknowledgement per command, the k-th for the k-th, at QoS 1 and not retained |
| BackendCommands.AckCorrespondence | backend/src/mqtt_client.cpp:76-131 | over any number of reconnections the messages on the ack topic are exactly the in-order image of the commands consumed |
| BackendCommands.KthAnswer | backend/src/mqtt_client.cpp:89-118 | over any reconnections the k-th message on the drone's ack topic answers the k-th command consumed, on that command's own fields |
| BackendCommands.CommandsAreTheCmdTopic | backend/src/mqtt_client.cpp:95-96 | the commands of a session are the payloads taken from the drone's cmd topic, all of them and in order |
| BackendCommands.GreetingsAreRetained | backend/src/mqtt_client.cpp:133-146 | over any script the drone's presence and status topics carry exactly one online announcement and one status report from each connection that got as far, in order, at QoS 1 and retained |
| BackendCommands.AnnouncementsAreOnline | backend/src/mqtt_client.cpp:133-138 | each such announcement is retained and is, to the broker model, the online publish of a session |
| BackendCommands.MqttBackendClient.constructor | backend/src/mqtt_client.cpp:19-20 | a new backend is disconnected, has sent nothing and uses its drone's topics |
| BackendCommands.MqttBackendClient.Consume | backend/src/mqtt_client.cpp:95-119 | one message throws exactly when its handler or the publish of its answer does, and otherwise adds its one answer, if it is a command |
| BackendCommands.MqttBackendClient.RunSession | backend/src/mqtt_client.cpp:84-120 | a session that gets to its message loop publishes its greeting, then the acknowledgements of the commands it consumed |
| BackendCommands.MqttBackendClient.RunGreeting | backend/src/mqtt_client.cpp:84-86 | a connection that breaks in a greeting publish or in the subscription has sent the part of the greeting before it |
| BackendCommands.MqttBackendClient.RunAttempt | backend/src/mqtt_client.cpp:78-126 | a refused connection, one that breaks early and a session each add exactly their output and leave the backend disconnected |
| BackendCommands.MqttBackendClient.RunConnectLoop | backend/src/mqtt_client.cpp:76-131 | over any attempts the loop publishes the concatenated output, adds to the ack topic exactly the in-order acknowledgements of the commands consumed, and is left disconnected |
| RestPaths.TrimTrailingSlash | services/ekinox/src/ekinox_logger_api.cpp:96-101 | the loop on the local string computes the trimmed path |
| RestPaths.JoinPaths | services/ekinox/src/ekinox_logger_api.cpp:103-113 | the loop on the local tail computes the joined path |
| RestPaths.BuildPaths | services/ekinox/src/ekinox_logger_api.cpp:115-121 | the three endpoint paths are the joins of the configuration |
| RestPaths.TrimmedShape | services/ekinox/src/ekinox_logger_api.cpp:96-101 | a trimmed path is a prefix that keeps its first character, ends in no slash unless it is one, and is unchanged by trimming again |
| RestPaths.BaseShape | services/ekinox/src/ekinox_logger_api.cpp:89-104 | a rooted and trimmed path is absolute, ends in no slash unless it is one, and is a fixed point of both functions |
| RestPaths.StrippedBase | services/ekinox/src/ekinox_logger_api.cpp:104-108 | rooting and trimming a path, then dropping its leading slashes, leaves the trimmed tail of the path |
| RestPaths.JoinBase | services/ekinox/src/ekinox_logger_api.cpp:103-113 | a joined path is absolute, and its own base is the left base followed by the trimmed right tail |
| RestPaths.JoinAssociative | services/ekinox/src/ekinox_logger_api.cpp:103-113 | `join_paths` is associative on all strings, empty and all-slash ones included |
| RestPaths.EndpointsAsOneJoin | services/ekinox/src/ekinox_logger_api.cpp:115-121 | the start and stop paths are the base path joined with the joined data-logger suffix |
| RestPaths.SlashInsensitive | services/ekinox/src/ekinox_logger_api.cpp:89-121 | trailing slashes on the base path and leading ones on the data-logger path change no endpoint; trailing ones on the latter change neither start nor stop |
| RestPaths.DistinctEndpoints | services/ekinox/src/ekinox_logger_api.cpp:115-128 | the three endpoints are pairwise distinct and absolute, so building a URL never rewrites them |
| RestPaths.CleanEndpoints | services/ekinox/src/ekinox_logger_api.cpp:103-121 | no endpoint contains "//" if and only if the configuration is clean |
| RestPaths.CleanInputs | services/ekinox/src/ekinox_logger_api.cpp:103-121 | parts without "//" and a base path that is not only slashes are clean |
| RestPaths.RootBaseDoubles | services/ekinox/src/ekinox_logger_api.cpp:112 | a base path of "/" doubles the slash at the seam |
| RecordingInference.LoggerResult.EnrichFromJson | services/ekinox/src/ekinox_logger_api.cpp:135-211 | the cascade of updates leaves every field as the declarative rule says, for every JSON body and every earlier contents, and throws exactly when the write speed overflows |
| RecordingInference.LoggerResult.ReadTexts | services/ekinox/src/ekinox_logger_api.cpp:152-170 | status, mode and session are taken when they are strings, and count as evidence by the rule |
| RecordingInference.LoggerResult.ReadSpeed | services/ekinox/src/ekinox_logger_api.cpp:171-178 | a numeric write speed is evidence, of recording when positive; one out of range throws after the flag is set |
| RecordingInference.LoggerResult.FillIn | services/ekinox/src/ekinox_logger_api.cpp:179-190 | an empty status is filled from `state`, an empty message from status, else mode |
| RecordingInference.LoggerResult.ReadFlags | services/ekinox/src/ekinox_logger_api.cpp:204-210 | without evidence the first boolean of the four keys decides |
| RecordingInference.LoggerResult.AssignBool | services/ekinox/src/ekinox_logger_api.cpp:191-198 | only a boolean assigns the flag |
| RecordingInference.FlagsIgnoredWithEvidence | services/ekinox/src/ekinox_logger_api.cpp:199-203 | with any evidence present no value of any explicit flag changes the verdict |
| RecordingInference.FirstBoolDecides | services/ekinox/src/ekinox_logger_api.cpp:204-210 | without evidence the verdict is that of the first key holding a boolean, and there is none exactly when no key does |
| RecordingInference.VerdictByStatus | services/ekinox/src/ekinox_logger_api.cpp:152-170 | with a status text and no write speed the device is recording exactly when the status is "recording", or a session is named and the status is not "ready" |
| RecordingInference.VerdictWithoutStatus | services/ekinox/src/ekinox_logger_api.cpp:162-210 | without a status text the earlier status stands in for the session rule, and failing that the first boolean of recording, isRecording, recording_active and active decides, in this order |
| RecordingInference.VerdictByWholeSpeed | services/ekinox/src/ekinox_logger_api.cpp:171-178 | a whole write speed is evidence, of recording when positive, and throws exactly outside the range of a 32-bit integer |
| RecordingInference.VerdictByFractionalSpeed | services/ekinox/src/ekinox_logger_api.cpp:171-178 | a fractional write speed counts by its whole part |
| RecordingInference.FinalStatusText | services/ekinox/src/ekinox_logger_api.cpp:152-183 | the status text left is the reply's, else the earlier one, else "state" |
| EkinoxConfig.ValidatePort | services/ekinox/src/ekinox_config.cpp:13-26 | accepted exactly when an integer in the port range, with the integer read; otherwise the field is named |
| EkinoxConfig.ValidatePositiveTimeout | services/ekinox/src/ekinox_config.cpp:28-40 | accepted exactly when a positive integer; otherwise the field is named |
| EkinoxConfig.ReadTimeout | services/ekinox/src/ekinox_config.cpp:155-161 | an absent timeout keeps the current value, a present one must be valid |
| EkinoxConfig.SchemaError | services/ekinox/src/ekinox_config.cpp:68-209 | there is an error to report exactly when the tree does not meet the schema |
| EkinoxConfig.EkinoxConfig.constructor | services/ekinox/include/ironsoft/ekinox/ekinox_config.h:10-49 | a new configuration holds the defaults |
| EkinoxConfig.EkinoxConfig.Load | services/ekinox/src/ekinox_config.cpp:68-209 | loading succeeds exactly when the tree meets the schema, with the error text cleared; the result then depends on the tree and the defaults alone, never on the earlier contents; a failure reports the first unmet requirement and leaves the fields read before it, the rest at their defaults; a file that is no object changes nothing |
| EkinoxConfig.LeftIsLoaded | services/ekinox/src/ekinox_config.cpp:78-209 | on a tree that meets the schema every field holds what the tree says |
| EkinoxConfig.EkinoxConfig.LoadMqtt | services/ekinox/src/ekinox_config.cpp:80-121 | the broker section, filled field by field, is accepted exactly by its schema, and a refusal leaves the fields before the one refused |
| EkinoxConfig.EkinoxConfig.LoadNet | services/ekinox/src/ekinox_config.cpp:123-152 | the sensor section, filled field by field, is accepted exactly by its schema, and a refusal leaves the fields before the one refused |
| EkinoxConfig.EkinoxConfig.LoadTimeouts | services/ekinox/src/ekinox_config.cpp:154-190 | the nine optional timeouts are accepted exactly by their schema, and a refusal leaves those before the one refused |
| EkinoxConfig.EkinoxConfig.LoadRest | services/ekinox/src/ekinox_config.cpp:192-206 | the REST section may be absent or an object, and empty texts keep the defaults |
| EkinoxConfig.LoadedIsUsable | services/ekinox/src/ekinox_logger_api.cpp:77-87 | every loaded configuration passes the REST client's own check, and its base URL is the configured host, port and joined path, never empty |
| EkinoxConfig.LoadedTimeoutsPositive | services/ekinox/src/ekinox_config.cpp:154-190 | every loaded timeout and threshold is positive |
| EkinoxConfig.LoadsWhatItSays | services/ekinox/src/ekinox_config.cpp:80-206 | a tree that states a usable configuration, each value under its own key, loads as exactly that configuration |
| EkinoxConfig.OnlyUsableLoads | services/ekinox/src/ekinox_config.cpp:80-206 | every loaded configuration is usable: texts present, ports in range, timeouts positive |
| EkinoxConfig.TreeSays | services/ekinox/src/ekinox_config.cpp:80-206 | every configuration is stated by a tree built key by key |
| EkinoxConfig.LoadableIsUsable | services/ekinox/src/ekinox_config.cpp:68-209 | the configurations that some file loads as are exactly the usable ones |
| EkinoxConfig.RequiredKeysSuffice | services/ekinox/include/ironsoft/ekinox/ekinox_config.h:10-49 | a file with only the required keys gets every documented default |
| EkinoxConfig.BaseUrlOfTree | services/ekinox/src/ekinox_logger_api.cpp:115-133 | the base URL is made of the ip, rest_port, base_path and datalogger_path of the file |
| EkinoxConfig.TargetErrors | services/ekinox/src/ekinox_logger_api.cpp:77-87 | the check of the REST target refuses exactly a missing address or port, by name, and only then is there no base URL |
| EkinoxConfig.BadTimeoutNamed | services/ekinox/src/ekinox_config.cpp:155-189 | a file whose one bad value is a timeout is refused with the name of that timeout |
| EkinoxConfig.RequiredNamed | services/ekinox/src/ekinox_config.cpp:80-133 | the first unmet requirement of the two required sections is the one reported |
| EkinoxConfig.OptionalNamed | services/ekinox/src/ekinox_config.cpp:136-196 | and so for the sensor ports and the REST section |
| StatusCodec.StateText | services/ekinox/include/ironsoft/ekinox/ekinox_types.h:42-93 | parsing inverts printing of states and accepts nothing else |
| StatusCodec.BuildStatusJson | services/ekinox/src/ekinox_state.cpp:15-28 | the keyed assignments build the ten fields of the status |
| StatusCodec.StatusLosesNothing | services/ekinox/src/ekinox_state.cpp:15-28 | every field of the status can be read back under its name on the wire, and the duplicated names agree |
| StatusCodec.ParseEkinoxStatusJson | gui/src/mqtt_paho_client.cpp:225-257 | the field-by-field parser accepts exactly objects, and otherwise leaves its result alone |
| StatusCodec.ParserReads | gui/src/mqtt_paho_client.cpp:238-255 | what the parser makes of each name on the wire, with the fallback names, the kept recording flag and the time of arrival |
| StatusCodec.StatusRoundTrip | gui/src/mqtt_paho_client.cpp:238-249 | the GUI recovers link, recording, session, last error and a state text that parses back to the service's state, also when "mode" and one of each duplicated pair are missing and whatever the parser started from |
| StatusCodec.PresenceRoundTrip | services/ekinox/src/ekinox_state.cpp:7-13 | the GUI reads the sensor's presence payload as the service meant it |
| UdpSession.EkinoxUdpSession.constructor | services/ekinox/src/ekinox_udp_session.cpp:14 | a new session holds nothing |
| UdpSession.EkinoxUdpSession.Open | services/ekinox/src/ekinox_udp_session.cpp:69-99 | opening closes first, succeeds exactly when address, creation and start do, gives back what a failed start created, sets clock and error text accordingly, and after a failure reports the maximal receive age |
| UdpSession.EkinoxUdpSession.Bind | services/ekinox/src/ekinox_udp_session.cpp:79-94 | an interface is created and either runs or is destroyed again |
| UdpSession.EkinoxUdpSession.Close | services/ekinox/src/ekinox_udp_session.cpp:101-108 | an open session closes its handle, then destroys its interface; a closed one does nothing |
| UdpSession.EkinoxUdpSession.Poll | services/ekinox/src/ekinox_udp_session.cpp:110-124 | not-ready and time-out count as success, a received frame sets the clock, and nothing else changes |
| UdpSession.EkinoxUdpSession.PerformOne | services/ekinox/src/ekinox_udp_session.cpp:69-124 | each operation on the fields is the specified one |
| UdpSession.EkinoxUdpSession.Perform | services/ekinox/src/ekinox_udp_session.cpp:69-124 | any sequence of operations with any library answers takes the object to the specified state |
| UdpSession.Accounts | services/ekinox/src/ekinox_udp_session.cpp:79-106 | in a call log that drives the library in order, each interface is created once and destroyed once unless it is the one held, and handles likewise |
| UdpSession.AlwaysInStep | services/ekinox/src/ekinox_udp_session.cpp:69-108 | after any operations the library accepted every call and holds a running handle exactly when the session is connected |
| UdpSession.ResourceBalance | services/ekinox/src/ekinox_udp_session.cpp:69-108 | between operations live interfaces and live handles are one each when connected and none otherwise |
| UdpSession.LifetimeBalance | services/ekinox/src/ekinox_udp_session.cpp:16-18 | after the destructor every interface ever created has been destroyed exactly once |
| UdpSession.AgeAfterOpen | services/ekinox/src/ekinox_udp_session.cpp:28-34 | after a failed open the receive age is the maximum, after a successful one it counts from that open |
| UdpSession.PollIsPrepared | services/ekinox/src/ekinox_udp_session.cpp:85-115 | every poll of any run is made on an interface that was created, put in connected mode, started and given its callback before, in this order and once each |
| UdpSession.ConnectedIsPrepared | services/ekinox/src/ekinox_udp_session.cpp:85-97 | the interface of a connected session has been so prepared and its handle has the callback |
| UdpSession.FrameRefreshesAge | services/ekinox/src/ekinox_udp_session.cpp:57-67 | a frame found by a poll of a connected session restarts the receive age |

## Left out

- The sensor service's own state machine and command handlers (`services/ekinox/src/ekinox_service.cpp`) and the window logic (`gui/src/mainwindow.cpp`): separate components that only consume what is proved here.
- JSON text: parsing and printing are library work; every program is modelled from the value tree on, a text that does not parse being `None`.
- File reading, the GUI's own configuration file, HTTP transport, logging texts, TLS and authentication options, heartbeats and the backend status parser: each is a straight copy of fields or a library call.
- Text encoding: strings are sequences of characters, without UTF-8 or case rules.
- The GUI's `client_` pointer is read by the UI thread while the worker may replace it; the model makes each access atomic and keeps only whether it is set.
- An exception from building the MQTT client object (`gui/src/mqtt_paho_client.cpp:419`), which lies outside the worker's try block and would end the program.
- The GUI's other commands (`publishCommandPayload`): they publish and touch no shared state of the client.
- Wall-clock time of waits and timers: a wait is counted by the delay it was given, a timer may fire at any moment after it is armed.
- Liveness of the backend's stop, and the presence the broker retains after an orderly one: both depend on how the library closes a connection.
- Order of the state signals while stop and the worker run at once: only the final one is claimed.
- UdpSession: the branch built without the sensor library, where opening and polling always fail.
- StatusCodec.ParseEkinoxStatusJson: a fractional or huge "ts" is truncated on exact numbers, without the rounding of a double beyond 2^53.
- PresenceProtocol.AwayIsOffline: speaks of the time after a session's end has cleared both flags; the moment between the two is `PahoRuns.WhenDisconnectedYetOnline`.
- PresenceProtocol.PresenceAgreement: repeated deliveries are modelled within one GUI session, which is clean, so none survive a reconnection.
- BackendCommands.AckCorrespondence: the commands consumed are those before the first message that throws; one whose handler or answer throws ends its session unanswered, as the code has it, and what the broker had already accepted of a failing publish is not modelled.
