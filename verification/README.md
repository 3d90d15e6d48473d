# The call protocol of the Mattermost Calls plugin, in Dafny

This project models what happens to the calls of a channel: joining and leaving, hosts, screen
sharing, video, muting, raised hands, recording and transcription jobs; the cluster lock under which
all of it runs; the batching of joins and leaves; the browser's copy of the state; and the browser's
reconnecting WebSocket. It proves properties of that model for all inputs, all runs and all
interleavings. Verify it with `dafny verify dfyconfig.toml`.

## How it is organised

Values first. `Rows` holds the three tables of the store and their writes, `Load` what a reload
selects from them. `Host`, `JobDesk`, `Membership` and `Handlers` give each handler as a function from
the store and the in-memory state to an outcome: the new store, the new state, the error, the events
published and the stop messages sent. `Machine` makes the handlers the steps of a state machine, one
locked section a step, and states the store invariant.

Then the code as it runs. `CallStates` has the objects the server shares and updates in place:
sessions, jobs, the map of video timers, the call state and its `Clone`. `JoinHandlers`,
`LeaveHandlers`, `CallHandlers`, `JobHandlers` and `Queries` are the handlers and queries as methods
on these objects, with their loops, early returns and failing writes; `Plugins.Plugin` is the server,
each method of which is one locked section proved equal to the machine's step. `Batcher`, `Mutex`,
`Reconnect` and `EventHandlers` hold the classes of the queue, the lock, the WebSocket client and the
browser's store.

Then the results. `HandlerEffects`, `JoinEffects`, `LeaveEffects` and `JobEffects`: who is
answered how, what each section changes and publishes, and that it changes nothing else. `JobFacts`,
`JobRuns`, `Invariant`, `Steps` and `Reachable`: the store invariant, in every run. `History`: who ever joined, what became of jobs. `VideoTime`: an account of video seconds.
`WriteThrough`: memory against store. `Captions` and `TwoCaptions`: calls with several live captions
jobs. `Batches`: batched against single processing. `Reducers`,
`Mirror` and `MirrorRuns`: the browser's copy. `BatchLoop` and `Retirement`: the queue and its
retirement under every interleaving. `Lease` and `Cluster`: several nodes with a timed lock, down to
the machine's runs. `Locality` and `Conflicts`: what a step leaves alone, and where it does not.
`BotEvents`: what clients see of the bot. `JobStarts`: where the job service's answer goes. `SampleRuns`:
runs from the empty store that reach the situations listed below.

Three things are inputs of the handlers rather than computed: fresh IDs, clock readings, and `hint`,
which stands for the order in which Go iterates over a map when two users joined at the same
millisecond (`Host` proves that this is the only influence of that order).

## What the proofs found

* A connection that is already in one call can be offered to another. The join then fails on the
  primary key of the sessions table after the call row has been written. The store invariant survives
  iff a call was active and the newcomer cannot become its host, which its row says before the join
  (`Conflicts.TakenConnectionSound`); otherwise a channel can be left with an active call without
  sessions that nobody can join any more (`Conflicts.OneConnectionTwoCalls` is a run of three joins).
* The screen handler does not check that its sender is still in the call: an accepted `screen_on`
  keeps the store invariant iff the sender has a session there (`Reachable.ScreenOnSafeIff`). A run of
  join, join, leave, `screen_on` breaks it (`SampleRuns.SharerWithoutSession`).
* A repeated `video_on` restarts the timer. Time is lost iff one comes in a later second than the
  timer's start (`VideoTime.NothingLostIff`, `VideoTime.EndedVideoDuration`); in one run all three
  seconds of video are lost (`SampleRuns.RestartLosesTime`).
* The bot is hidden from clients by leaving it out of snapshots and dropping its `user_joined` and
  `user_left`. Its other messages show it: a mute, hand or video message keeps the browser's copy
  right iff its sender is not the bot, a leave of the bot iff it neither shares nor has video. Its
  screen messages do no harm, because snapshots name the sharer whoever it is (`BotEvents`).
* The lock is safe by timing alone (`Lease.LateIffTwoHolders`), and a late holder loses updates: in
  every cluster run that has reached an idle call, a late mute can undo a raised hand
  (`Cluster.LateRun`; `SampleRuns.LateHolder` is such a run).
* Starting a recording or a transcription drops the lock while the job service is called. Afterwards
  the row inserted before is found iff it has not ended meanwhile (`JobStarts.InsertedFoundIff`). The
  answer goes to whatever live job the call then has: a failure ends it without a look at its job ID,
  a success is noted unless it has one (`JobStarts.AnswerGoesToTheLive`). In
  `SampleRuns.AnswerForAnother` the answer for one recording is noted with another.
* A transcription that times out leaves its captions job un-ended: the source writes the transcription
  where it changed the captions. A restart then makes two live captions jobs. After a leave the store
  reads back as what is in memory iff the call has ended, or its captions job is still live, or there is
  no other live one (`Captions.LeaveWrittenThrough`). A batch of leaves agrees with single leaves in
  captions iff no item would end a second captions job after one has ended the first
  (`Batches.BatchedLeavesRefineSingle`); if one would, the batch leaves that job un-ended for good
  (`Batches.BatchKeepsSecond`). `SampleRuns.TwoCaptionsJobs` is a run that reaches both failures.
* Stopping a coupled recording and transcription would be carried out by halves if the job service
  refused the stop (`JobRuns.RefusedStop`); it refuses empty arguments only, and no run offers it
  those (`Reachable.StopsAccepted`), so that a host's stop is carried out in full (`Reachable.StopCarriedOut`).

## Model

| member | source | states |
|---|---|---|
| Steps.StepKeeps | server/sync.go:51-63 | every legal locked section (join, leave, screen, video, mute, hand, host change, every job section) keeps the whole store invariant and leaves an in-memory state the store agrees with |
| Steps.RunKeeps | server/sync.go:51-63 | so the invariant holds in every reachable store |
| Reachable.OneCallPerChannel | server/db/calls_store.go:213-228 | in every run a channel has at most one active call, an active call has a session, and a load of the channel finds that call |
| Reachable.HostOfActiveCall | server/state.go:172-201 | in every run the host is a non-bot user with a live session, there is one whenever a non-bot session exists, and a locked host with a session is the host |
| Reachable.LockedHostReturns | server/host_controls.go:61-64 | a locked host who joins again is the host in the stored call |
| Reachable.CreateExactlyWhenNone | server/session.go:230-238 | after an accepted join there is exactly one session iff no active call was loaded, iff the call row is new; so the session count picks the right write |
| Reachable.ScreenOnSafeIff | server/websocket.go:182-192 | an accepted screen_on keeps the store invariant iff its sender has a session in the call |
| Reachable.RemovedSharer | server/websocket.go:182-192 | whoever leaves a call that goes on, in which nobody else shares, and whose screen_on is handled afterwards, breaks the invariant |
| Reachable.StopsAccepted | server/job_service.go:212-223 | whatever job a legal step of a sound store holds, the job service accepts a stop of it |
| Reachable.StopCarriedOut | server/recording_api.go:182-231 | in every run the host's stop of a live recording ends it and the coupled transcription at that moment, with one stop message each |
| JoinEffects.JoinAnswered | server/session.go:109-197 | the answer to every legal join, error by error, from the loaded state; a refused one changes nothing |
| JoinEffects.LastSeat | server/session.go:493-506 | a user with an unused connection is refused iff there is a limit and as many sessions as the limit or more, for a new call with none; otherwise the call has one session more |
| JoinEffects.JoinEffect | server/session.go:199-244 | an accepted join: one session, the host and participants from those before, the bot's connection noted with its job, the events in order, and no other row |
| JoinEffects.HostChosen | server/session.go:206-207 | the locked user becomes host on coming back, else the host stays, else the newcomer becomes it unless it is the bot |
| LeaveEffects.LeaveAnswered | server/session.go:291-303 | a leave is accepted iff its session is in the call that goes on; otherwise nothing changes |
| LeaveEffects.LeaveEffect | server/session.go:303-476 | an accepted leave: the session is gone, the call goes on or ends as said, the events in order, the stop messages, and no other row |
| LeaveEffects.HostFollows | server/session.go:441-459 | the host stays unless its last session left; then a non-bot user with the least join time follows, or nobody when only the bot is left |
| LeaveEffects.LeftRow | server/session.go:303-476 | sharer, timer and recorded seconds after a leave; the ended call keeps its participants and seconds and clears the rest |
| HandlerEffects.ScreenEffect | server/websocket.go:167-246 | screen_on is accepted iff sharing is allowed, a call goes on and nobody shares, screen_off iff the sender shares; sharer, start, seconds and event are those of the message |
| HandlerEffects.VideoEffect | server/websocket.go:409-470 | a video message is accepted iff its sender is in the call; flag, timer, recorded seconds and event are those of the message, and no other row |
| HandlerEffects.MuteEffect | server/websocket.go:348-381 | a mute or unmute is accepted iff its sender is in the call; it sets that one flag as the message says, and the event says the same |
| HandlerEffects.HandEffect | server/websocket.go:471-509 | the same for a hand, with the time of the message or 0 |
| HandlerEffects.HostEffect | server/host_controls.go:23-76 | a change of host is carried out iff a call goes on, the requester is its host or an admin, and the new host is host already or a participant, and not the bot; it is then host and locked, an own lock staying, and no other row changes |
| JobEffects.BeginRecEffect | server/recording_api.go:76-91 | the host, and nobody else, begins a recording, iff none goes on |
| JobEffects.BeginTrEffect | server/transcription_api.go:102-138 | a transcription is begun iff none goes on, with captions if they are on |
| JobEffects.FinishTrEffect | server/transcription_api.go:177-221 | the rows of transcription and captions after the job service's answer |
| JobEffects.StopRecEffect | server/recording_api.go:182-231 | the host, and nobody else, stops the recording that goes on, the transcription and its captions with it, with one stop message each for the two |
| JobEffects.OtherReport | server/bot_api.go:473-487 | a report about any other job changes nothing |
| JobEffects.StartedReport | server/bot_api.go:503-531 | a start is noted once, for a transcription with its captions |
| JobEffects.RecordingFailed | server/bot_api.go:490-498 | a failed recording ends with the error, the transcription and its captions end with it, the transcription gets one stop message |
| JobEffects.TranscriptionFailed | server/bot_api.go:490-502 | a failed transcription ends with the error, the recording ends with it and gets one stop message |
| JobEffects.RecTimeoutEffect | server/recording_api.go:23-72 | a recording times out iff it has not started and is the timer's; what ends with it and the one stop message |
| JobEffects.TrTimeoutEffect | server/transcription_api.go:19-100 | a transcription likewise; its captions do not end |
| JobEffects.ReconnectEffect | server/websocket.go:1444-1483 | the new connection replaces the previous one with the job that has it, the recording first, and with captions that have it |
| Invariant.Accepted | server/session.go:127-243 | what an admissible join stores and holds in memory, in closed form, with the choice between creating and updating the call |
| Invariant.JoinCallOk | server/session.go:199-228 | host, participants, timers and limits after a join, from those before |
| Invariant.LeaveCallOk | server/session.go:303-476 | the same after a leave, or the call ended at that moment |
| Invariant.JoinKeeps | server/session.go:83-244 | a join keeps the invariant from any in-memory state a batch may hold, an ended call included |
| Steps.LeaveStored | server/session.go:291-490 | what an accepted leave stores and holds in memory, in closed form |
| Steps.LeaveKeeps | server/session.go:282-491 | a leave keeps the invariant from any in-memory state a batch may hold |
| Steps.ScreenKeeps | server/websocket.go:167-209 | so does a screen message of a live sender |
| Steps.VideoKeeps | server/websocket.go:409-457 | so do video_on and video_off: the timers name exactly the sessions with video |
| Steps.TouchKeeps | server/websocket.go:356-362 | so do mute, unmute, raise and lower hand |
| Steps.HostKeeps | server/host_controls.go:34-64 | so does a change of host |
| Steps.JobKeeps | server/recording_api.go:76-150 | so does each half of starting a job, a stop, a report, a timeout and a bot reconnection |
| Locality.StepElsewhere | server/sync.go:20-36 | a step writes the rows of one call only: all other calls and their sessions are untouched |
| Locality.PostsElsewhere | server/websocket.go:121-165 | and publishes to its own channel only |
| Host.GetHostID | server/state.go:172-201 | the loop returns the locked user if present, else the current host if present, else the first visited user with the least join time, else nobody |
| Host.IsUserIDInCall | server/state.go:203-210 | the loop answers whether some session belongs to the user |
| Host.EveryOrderGivesAChoice | server/state.go:178-198 | whatever the iteration order the answer is an allowed choice, stated without any order |
| Host.EveryChoiceHasAnOrder | server/state.go:178-198 | and every allowed choice is the answer for some iteration order |
| Host.UniqueChoice | server/state.go:193-197 | when one user alone attains the earliest join time the answer does not depend on the order |
| Host.EarliestExists | server/state.go:187-197 | with a non-bot session there is an earliest one |
| Load.GetActiveCallJobs | server/db/calls_jobs_store.go:112-149 | the loop keeps, for each type, the first un-ended job by start time and ID, and none otherwise |
| Load.NewestJob | server/db/calls_jobs_store.go:117-122 | the selected job started last, and of several has the least ID |
| Queries.First | server/db/calls_store.go:219-222 | the row a query ordered by descending start time and ID puts first |
| Queries.GetActiveCallByChannelID | server/db/calls_store.go:213-245 | the latest active call of the channel, or none |
| Queries.QueryJobs | server/db/calls_jobs_store.go:117-122 | all un-ended jobs of the call, each once, in query order |
| Queries.GetCallState | server/state.go:269-321 | the loaded objects show exactly the active call, its sessions and un-ended jobs, and are all new |
| WriteThrough.JoinWrittenThrough | server/session.go:230-241 | after a join, accepted or refused, memory is exactly what a reload gives; a refused join leaves the store alone |
| WriteThrough.HandlersWrittenThrough | server/websocket.go:449-457 | the same after screen, video, mute, hand and change of host |
| WriteThrough.LeaveWrittenButCaptions | server/session.go:486-488 | after a leave, up to ended calls and ended jobs reading back as absent, and apart from captions |
| Captions.LeaveWrittenThrough | server/session.go:429-434 | with captions: from any state a batch may hold, memory is what a reload gives iff the call has ended, or the captions job in memory is still live, or no other one is |
| Captions.LoadedLeaveWrittenThrough | server/session.go:429-434 | after a load: iff the call has ended, or captions were off, or the leave does not end the captions job, or it was the only live one |
| Captions.OneCaptionsWrittenThrough | server/session.go:429-434 | in particular when the call has at most one live captions job |
| TwoCaptions.Abandoned | server/transcription_api.go:46-66 | in every call a bot that joins and does not report leaves its captions job live after the timeout of its transcription |
| TwoCaptions.SecondStart | server/transcription_api.go:103-138 | in every call a further start and a further bot make two live captions jobs, one of which a load selects |
| TwoCaptions.OtherReadBack | server/session.go:429-434 | when the bot of the selected one leaves, captions are off in memory and a load finds the other job on |
| TwoCaptions.SecondOutlives | server/session.go:577-604 | when both bots leave in one batch the other job stays live, where single leaves end it |
| WriteThrough.JoinBotReloads | server/session.go:167-190 | noting the bot's connection changes neither which jobs a reload selects nor anything else of them |
| JobRuns.StopRecordingEffect | server/recording_api.go:182-231 | stopping from the recording side ends recording, transcription and its captions and sends each live job one stop message, transcription first |
| JobRuns.StopTranscribingEffect | server/transcription_api.go:234-303 | the same from the transcription side; the mutual recursion ends because each call ends a job |
| JobRuns.RefusedStop | server/transcription_api.go:271-279 | were a stop refused, the two sides would differ; it is refused exactly when the channel or the bot is empty |
| JobRuns.LeaveJobsEffect | server/session.go:338-434 | the jobs and stop messages after a leave, in closed form: a bot that leaves ends both jobs and the other job alone is told to stop |
| JobRuns.LeaveJobsKeeps | server/session.go:338-434 | and the job rows stay consistent and only this call's rows change |
| JobRuns.JoinBotKeeps | server/session.go:167-196 | the same for a bot that joins |
| JobRuns.BeginRecordingKeeps | server/recording_api.go:77-91 | inserting the row keeps at most one live recording |
| JobRuns.FinishRecordingKeeps | server/recording_api.go:119-150 | so does the second half, whatever job the reload found |
| JobRuns.BeginTranscribingKeeps | server/transcription_api.go:103-138 | the same for a transcription and its captions |
| JobRuns.FinishTranscribingKeeps | server/transcription_api.go:177-221 | and its second half |
| JobRuns.ReportStatusKeeps | server/bot_api.go:450-528 | a report of the bot, of a start or a failure, keeps the rows |
| JobRuns.FailedRecording | server/bot_api.go:490-528 | writing the failed job last gives the same as writing it first |
| JobRuns.RecordingTimeoutKeeps | server/recording_api.go:41-72 | so does the timeout of a recording |
| JobRuns.TranscriptionTimeoutKeeps | server/transcription_api.go:46-100 | so does the timeout of a transcription |
| JobRuns.ReconnectBotKeeps | server/websocket.go:1444-1483 | so does a reconnection of the bot |
| JobFacts.ReloadJobs | server/db/calls_jobs_store.go:112-149 | a reload gives the recording and transcription slots back, ended jobs as absent |
| JobStarts.FoundIffUnended | server/recording_api.go:113-122 | a load finds a given recording or transcription of the call iff that one has not ended |
| JobStarts.InsertedFoundIff | server/recording_api.go:76-122 | in every run a load finds a job inserted earlier iff it has not ended by then, and never again once it has |
| JobStarts.AnswerGoesToTheLive | server/recording_api.go:119-140 | the answer of the job service goes to the call's one live recording: a failure ends it whatever its job ID, a success is noted unless it has one; without a live recording nothing changes |
| JobStarts.AnswerReachesIff | server/recording_api.go:124-131 | a failed start ends the recording it was asked for iff that one has not ended meanwhile |
| JobStarts.TranscriptionAnswer | server/transcription_api.go:177-215 | the same for the call's live transcription; no other recording or transcription changes |
| JobStarts.ForeignAnswer | server/recording_api.go:109-140 | start, stop, start again: in every call the answer to the first start is noted with the second recording |
| History.RunAdvances | server/bot_api.go:480-508 | between any two moments of a run no job disappears, an ended one stays ended, and recordings and transcriptions keep their first end and start times |
| History.OneJobAtATime | server/recording_api.go:76-150 | at every moment a call has at most one live recording and one live transcription, though starting releases the lock |
| History.RunRemembers | server/session.go:222-228 | in every run a call's participants are exactly the non-bot users ever let in, while it goes on and when it ends |
| History.EndedParticipants | server/state.go:399-407 | in particular the list saved with an ended call |
| History.NeverOverfull | server/session.go:152-158 | no call ever has more sessions than a positive limit |
| VideoTime.RunBalances | server/websocket.go:425-447 | in every run with a clock of whole seconds, recorded time plus running timers plus time lost to repeated video_on equals the person-seconds of video |
| VideoTime.NothingLostIff | server/websocket.go:425-433 | in every run nothing is lost iff every video_on of a session whose video is on comes in the second its timer started |
| VideoTime.EndedVideoDuration | server/session.go:460-476 | an ended call never records more than its person-seconds of video, and all of them iff every repeated video_on came in the second its timer started |
| VideoTime.NothingWasted | server/websocket.go:427-432 | nothing is lost when no video_on repeats |
| VideoTime.LeaveKeepsTime | server/session.go:318-327 | a leave moves time from the timers to the record; at the last leave the finalising loop finds no timer |
| VideoTime.RunningRemove | server/session.go:467-472 | the finalising sum does not depend on the order of the map |
| VideoTime.OneInterval | server/utils.go:128-130 | with a millisecond clock an interval is credited within -0.5 s and 1.5 s of its length |
| Batches.BatchedJoinsRefineSingle | server/websocket.go:981-1042 | item by item a batch of joins gives the same store, state, acceptance and events as one locked section per item |
| Batches.BatchedLeavesRefineSingle | server/session.go:571-632 | a batch of leaves gives the same calls, sessions, recordings, transcriptions, errors and events; the extra stop messages go to ended jobs; captions agree up to their end stamps iff no item would end the next captions job after one has ended the one in memory |
| Batches.BatchKeepsSecond | server/session.go:577-604 | if one would, that captions job is live after the batch and has ended after single leaves |
| Batches.OneCaptionsAgree | server/session.go:571-632 | captions agree in particular when the call has at most one live captions job |
| Batches.NothingAfterTheEnd | server/session.go:287-293 | once the last session has left both forms refuse every further item and leave the store alone |
| Conflicts.TakenConnection | server/session.go:239-241 | a join over a connection of another call fails after the call row was written |
| Conflicts.TakenConnectionSound | server/session.go:199-241 | the store invariant survives a join with a taken connection iff a call was active and the newcomer is the bot or the host, or there is a host and the newcomer is not the locked one |
| Conflicts.StuckChannel | server/session.go:230-238 | once an active call has no session every later join is refused, because it tries to create the call again |
| Conflicts.OneConnectionTwoCalls | server/session.go:136-241 | a run of three joins that ends so |
| CallStates.CallState.Clone | server/state.go:24-80 | the copy shows the same state and shares no session, job, participants or dismissals with the original, only the map of video timers |
| CallStates.NewSessions | server/db/calls_sessions_store.go:133-170 | the loop makes one new object per session |
| JoinHandlers.AddTo | server/session.go:83-244 | addUserSession on objects: on any error the caller's own state comes back; without store failures the outcome is the specification's |
| JoinHandlers.Prepare | server/session.go:142-197 | the checks and the bot's part, on the copy |
| JoinHandlers.Seat | server/session.go:199-228 | the session, host and participants, on the copy |
| JoinHandlers.WriteJoined | server/session.go:230-241 | the two writes, either of which may fail |
| LeaveHandlers.RemoveFrom | server/session.go:282-491 | removeUserSession on objects equals the specification's leave |
| LeaveHandlers.LeaveCallIn | server/session.go:303-476 | its effect on the call and the events it publishes |
| LeaveHandlers.SumTimers | server/session.go:466-473 | the finalising loop adds up the timers still running |
| LeaveHandlers.Finish | server/session.go:460-476 | the end of the call on objects |
| LeaveHandlers.OnlyLeft | server/state.go:258-267 | the loop answers whether there are sessions and all belong to the user |
| CallHandlers.Screen | server/websocket.go:182-206 | the screen handler on objects equals the specification's |
| CallHandlers.Video | server/websocket.go:419-457 | the video handler on objects |
| CallHandlers.Mute | server/websocket.go:356-379 | the mute handler on objects |
| CallHandlers.Hand | server/websocket.go:485-509 | the hand handler on objects |
| CallHandlers.AssignHost | server/host_controls.go:30-73 | changeHost on objects |
| JobHandlers.StopRecordingJob | server/recording_api.go:182-231 | stopRecordingJob on objects equals the specification's |
| JobHandlers.StopTranscribingJob | server/transcription_api.go:234-303 | stopTranscribingJob on objects |
| JobHandlers.EndBotJobs | server/session.go:338-434 | the job part of a leave on objects |
| JobHandlers.BotJoins | server/session.go:166-197 | the job part of a join on objects |
| JobHandlers.BeginRecordingJob | server/recording_api.go:77-91 | the first half of starting a recording |
| JobHandlers.FinishRecordingJob | server/recording_api.go:119-150 | the second half, on the reloaded object |
| JobHandlers.BeginTranscribingJob | server/transcription_api.go:103-138 | the first half of starting a transcription |
| JobHandlers.FinishTranscribingJob | server/transcription_api.go:177-221 | the second half |
| JobHandlers.ReportJobStatus | server/bot_api.go:450-531 | the bot's report on objects |
| JobHandlers.RecJobTimeout | server/recording_api.go:33-72 | the recording timeout on objects |
| JobHandlers.TranscriptionJobTimeout | server/transcription_api.go:28-100 | the transcription timeout on objects |
| JobHandlers.BotReconnects | server/websocket.go:1444-1483 | the bot's reconnection on objects |
| Plugins.Plugin.AddUserSession | server/session.go:88-98 | join failure is invisible: only the store and the events may change, an error returns the caller's state with nothing reachable modified, success a new state sharing only the video timers |
| Plugins.JoinItem | server/websocket.go:782-835 | one item of a join on objects: the start post, the events and the snapshot |
| Plugins.Plugin.HandleJoin | server/websocket.go:1034-1042 | a single join is exactly one step of the machine |
| Plugins.Plugin.HandleLeave | server/session.go:625-632 | a single leave is exactly one step |
| Plugins.Plugin.HandleJoinBatch | server/websocket.go:993-1017 | the batch loop gives what its items give one at a time |
| Plugins.Plugin.HandleLeaveBatch | server/session.go:577-604 | the batch loop over one shared state, and its agreement with single leaves, with the exact condition for captions |
| Plugins.Plugin.HandleScreen | server/websocket.go:167-246 | load, change the objects, write back: the same store, error and events as one step of the machine, and the invariant is kept |
| Plugins.Plugin.HandleVideo | server/websocket.go:382-470 | load, change the objects, write back: the same store, error and events as one step of the machine, and the invariant is kept |
| Plugins.Plugin.HandleMute | server/websocket.go:348-381 | load, change the objects, write back: the same store, error and events as one step of the machine, and the invariant is kept |
| Plugins.Plugin.HandleHand | server/websocket.go:471-509 | load, change the objects, write back: the same store, error and events as one step of the machine, and the invariant is kept |
| Plugins.Plugin.ChangeHostOf | server/host_controls.go:23-76 | load, change the objects, write back: the same store, error and events as one step of the machine, and the invariant is kept |
| Plugins.Plugin.HandleJob | server/bot_api.go:436-531 | each locked section of the job handlers gives the rows, error and stop messages of one step |
| Mirror.SnapshotMirrors | webapp/src/actions.ts:519-594 | handling a snapshot brings any client into step with the server's view |
| Mirror.Left | webapp/src/reducers.ts:760-789 | user_left removes the session and, alone, clears the sharer |
| Mirror.LastLeft | webapp/src/actions.ts:401-416 | when the last known session leaves, the client drops the call and its sessions and keeps the host it knew |
| Mirror.StartNoted | webapp/src/websocket_handlers.ts:119-160 | the start of a call is noted with its host, and nothing else |
| Mirror.FirstHeard | webapp/src/reducers.ts:168-464 | the first event about a session of an unknown channel makes an entry of what it tells; a video that stops makes an unmuted one |
| Mirror.OneFieldHeard | webapp/src/reducers.ts:168-464 | an unknown session of a known channel gets an entry with that one field |
| Mirror.Unshared | webapp/src/reducers.ts:760-789 | a screen_off without a session ID leaves the sharer in place |
| Mirror.SessionRewritten | webapp/src/reducers.ts:168-464 | mute, video and hand events rewrite one known session as the server did |
| Mirror.OtherChannel | webapp/src/reducers.ts:168-464 | events of other channels leave a channel's view alone |
| MirrorRuns.MirrorStep | server/state.go:212-256 | after any step of any channel the client of a participant shows what the server would send |
| MirrorRuns.MirrorRun | server/websocket.go:121-165 | so after any run during which its user stays in the call |
| MirrorRuns.MirrorFromSnapshot | server/websocket.go:1149-1181 | starting from one snapshot, whatever the client held before |
| BotEvents.MuteMirrorsIff | server/websocket.go:369-379 | a mute message keeps the mirror iff its sender is not the bot |
| BotEvents.HandMirrorsIff | server/websocket.go:498-508 | a hand message keeps the mirror iff its sender is not the bot |
| BotEvents.VideoMirrorsIff | server/websocket.go:459-469 | a video message keeps the mirror iff its sender is not the bot |
| BotEvents.ScreenMirrorsAlways | server/websocket.go:211-246 | a screen message keeps the mirror whoever sends it |
| BotEvents.BotLeaveMirrorsIff | server/websocket.go:121-126 | a leave of the bot keeps the mirror iff it neither shared its screen nor had video |
| MirrorRuns.QuietStep | server/websocket.go:182-192 | the bot shares nothing in every run in which it only joins and leaves |
| EventHandlers.ClientStore.HandleEvent | webapp/src/websocket_handlers.ts:106-341 | each event handler's dispatches leave the store as specified |
| EventHandlers.ClientStore.UserLeaves | webapp/src/actions.ts:401-416 | userLeft reads the state back and ends the call when no session is left |
| EventHandlers.ClientStore.HandlePosts | webapp/src/websocket_handlers.ts:106-341 | a series of events, in order |
| Batcher.Batcher.Push | server/batching/batcher.go:61-69 | accepts an item iff there is room, at the end of the queue |
| Batcher.Batcher.Tick | server/batching/batcher.go:79-102 | a batch runs exactly the items queued when it started, a failed callback none, and arrivals wait |
| Batcher.NewBatcher | server/batching/batcher.go:43-58 | refuses a non-positive interval or size |
| BatchLoop.ExactlyOnce | server/batching/batcher.go:61-107 | in every interleaving, items run followed by items queued are the accepted pushes, once each and in order, within the size |
| BatchLoop.LaterItemsWait | server/batching/batcher.go:80-97 | items pushed during a batch wait for a later one; when it ends all earlier ones have run |
| BatchLoop.NextOk | server/batching/batcher.go:89-97 | a failed callback leaves the queue unchanged and a receive within a batch never blocks |
| Retirement.DoOk | server/session.go:529-613 | every step under p.mut or of a batcher keeps: a retired batcher is out of the table and empty |
| Retirement.NothingLost | server/session.go:542-561 | under every interleaving the queue is empty when Stop is called and all accepted items have been taken |
| Retirement.RetiredForGood | server/websocket.go:972-1022 | and no item is accepted by that batcher afterwards |
| Mutex.LifeExceedsRefresh | server/cluster/mutex.go:94-114 | for a valid configuration the truncated life exceeds the refresh interval iff the TTL is at least a second |
| Mutex.Defaults | server/cluster/mutex.go:80-92 | which refresh intervals go with the default TTL |
| Mutex.CallLockPolls | server/sync.go:25-30 | while waiting for the call lock the pauses grow by 50 ms up to one second at the twentieth retry |
| Mutex.NewMutex | server/cluster/mutex.go:117-133 | refuses an empty name and a configuration that is invalid once completed |
| Mutex.Mutex.TryLock | server/cluster/mutex.go:136-147 | one atomic attempt |
| Mutex.Mutex.Refresh | server/cluster/mutex.go:150-163 | a failed refresh ends the refreshing, not the holding |
| Mutex.Mutex.Lock | server/cluster/mutex.go:170-228 | locks only at a moment when the key is not live, by the deadline, waiting at least the poll interval between attempts; always returns |
| Mutex.Mutex.Unlock | server/cluster/mutex.go:231-253 | deletes the key whoever wrote it last; harmless when not locked |
| Lease.TimelySafety | server/cluster/mutex.go:136-163 | in every timely run at most one instance holds the lock and the key is live while held |
| Lease.LateIffTwoHolders | server/cluster/mutex.go:136-147 | after a timely past a second instance gets the lock beside the holder iff the holder is late |
| Lease.UnlockOfALateHolder | server/cluster/mutex.go:246-250 | and the late holder's unlock then lets a third one in |
| Lease.Slack | server/cluster/mutex.go:109-111 | how late a refresh may be |
| Lease.CallLockSlack | server/sync.go:25-30 | the call lock tolerates delays below three seconds |
| Cluster.ReloadElsewhere | server/sync.go:51-63 | a locked section of one channel changes nothing a load of another channel sees, jobs included |
| Cluster.WorkIsSteps | server/websocket.go:981-1042 | a section with a good load, of one operation, of a batch of joins or of the answer to a started recording with the begin of its transcription, does exactly its steps and other channels do not see it |
| Cluster.CoupleIsSteps | server/recording_api.go:114-163 | beginning the transcription with the state loaded for the answer to the recording is the same as loading again |
| Cluster.WriteIsSteps | server/sync.go:51-77 | a section that loaded earlier and writes now does exactly its steps on the store of now |
| Cluster.Serializable | server/sync.go:19-77 | in every timely run of any number of nodes and channels, in which sections lock, load and write at different moments, the stores form a run of the machine |
| Cluster.LateMuteLosesHand | server/websocket.go:348-367 | two overlapping sections of one channel lose an update |
| Cluster.LateRun | server/cluster/mutex.go:136-163 | every cluster run with an idle call can go on so that the key of a holder expires, a second node raises a hand and the late mute of the first lowers it |
| SampleRuns.RestartLosesTime | server/websocket.go:425-433 | a run of a join and two video_on in which three seconds of video are lost |
| SampleRuns.AnswerForAnother | server/recording_api.go:109-140 | a run in which the job service's answer for one recording is noted with another |
| SampleRuns.SharerWithoutSession | server/websocket.go:182-206 | a run of two joins and a leave after which the leaver's screen_on breaks the invariant |
| SampleRuns.LateHolder | server/cluster/mutex.go:136-163 | a cluster run in which two nodes hold a channel's lock and a raised hand is lost |
| SampleRuns.TwoCaptionsJobs | server/transcription_api.go:60-65 | a run of eleven steps after which one leave does not read back and a batch of two leaves differs from single ones |
| Reconnect.NineWaits | webapp/src/websocket.ts:10-12 | the waits stay below the timeout for exactly nine of them |
| Reconnect.AtMostTen | webapp/src/websocket.ts:233-253 | at most ten attempts follow one another without success, and ten can |
| Reconnect.WebSocketClient.OnTimer | webapp/src/websocket.ts:245-250 | an attempt is made iff the client is not closed, never beyond the tenth in a row |
| Reconnect.WebSocketClient.Reconnect | webapp/src/websocket.ts:233-253 | gives up iff thirty seconds have passed, else schedules one attempt |
| Reconnect.WebSocketClient.OnClose | webapp/src/websocket.ts:162-168 | a close schedules an attempt iff the client is not closed and time is not up |
| Reconnect.WebSocketClient.OnOpen | webapp/src/websocket.ts:65-85 | a reconnection resets the count; a waiting leave is sent once and the client closes |
| Reconnect.WebSocketClient.OnHello | webapp/src/websocket.ts:120-137 | the first connection ID stays the original one |
| Reconnect.WebSocketClient.SendLeaveAndClose | webapp/src/websocket.ts:193-212 | leaves now, when the connection opens, or never, by the socket's state |
| Reconnect.WebSocketClient.OnPingInterval | webapp/src/websocket.ts:271-285 | an unanswered ping counts as a close |

## Left out

- HTTP routing, permissions, licences, configuration parsing, posts, notifications, translations and metrics: the answers the handlers depend on are boolean inputs.
- RTC and rtcd calls, media tracks and their failures between the lock and the events: not part of this model.
- SQL and JSON: replaced by map operations on rows; an insert fails on an invalid row or a taken primary key.
- Store failures outside the join: the leave, screen, video, mute, hand, host and job handlers are stated for writes that succeed.
- Nil maps and empty maps are one value in the tables and specifications; the objects in memory distinguish them.
- The list of participants of an ended call is a set: its order comes from a Go map.
- Each handler reads the clock once, in milliseconds; the source reads it several times.
- Call-job events, voice activity, reactions, dismissed notifications, incoming-call notices and titles: one-branch facts outside the properties.
- The text of stop and timeout errors: one constant each.
- Forced end of a call and the clean-up at start: they do not run under the call lock.
- Screen time totals: the stop handler assigns the duration where the leave adds to it, so no sum holds; only the assignments are modelled.
- The participants in the ended post: read after they were cleared; only the stored list is claimed.
- Uniqueness of live captions jobs: it does not hold (`TwoCaptions`).
- Cluster.Serializable: a batch of leaves under one lock is no section: it agrees with its steps only up to captions jobs and repeated stop messages, so its stores are not those of a run.
- History.NeverOverfull: the limit is one for a whole run; the source reads it anew for each join, so that a call may hold more sessions than a limit lowered meanwhile.
- Batches.BatchedLeavesRefineSingle: the end stamps of captions jobs are not compared, because a batch may stamp an ended one again.
- LeaveHandlers.RemoveFrom: a failing write after the changes in memory is left out, as for all handlers but the join.
- CallStates.CallState.Clone: the list of hosts is a value, because the source replaces it and never writes into it; its separation is not stated.
- Conflicts.TakenConnectionSound: stated for a connection whose session belongs to another call; connections are otherwise assumed fresh.
- MirrorRuns.MirrorRun: the bot only joins and leaves, local optimistic updates and events before the first snapshot are left out, because the source's fallback for an unknown session differs from the server's view.
- Host.GetHostID: sessions have a user, as the sessions table demands.
- Lease.TimelySafety: only a holder unlocks; the source tolerates unlocking a mutex another goroutine holds.
- Mutex.Mutex.Lock: the in-process mutex is assumed granted; waiting for it is not timed.
- The key-value server's meaning of a life of zero seconds: not part of this model.
- Reconnect.WebSocketClient.OnPong: the sequence number of the answer is not compared.
- Removal of a session is attempted once per session by an atomic flag: the model leaves repeated attempts to the check for a known session.
