# Keycard: what the room protocol guarantees

Keycard is an SSH server that gives every session a sandbox of its own (a "room") and destroys or pauses that
room when the session ends. This project models the parts of it where that promise is decided and proves, over every
run, what they guarantee: who owns a room while tasks race to end it, what shutdown leaves behind, what a shell inside a
microVM reads and writes across reconnects, what a failed boot or a crash leaves on the host, and that the wire formats
and the configuration always come back as they were meant.

`dafny verify dfyconfig.toml` checks everything.

## How it is built

**The room lifecycle.** A segment is the code asyncio runs between two suspension points. `RoomSessions` says what each
segment does to one session, `Lifecycle` puts any number of sessions, the kept-room registry with its expiry timers and
the shutdown path into one step system, and `SessionObjects` holds the classes of `session.py` field by field.
`Servers` puts these objects together and proves that whatever event can happen in a state of a run, the objects'
methods carry out and reach the next state of that run, so that every theorem about runs is one about the objects.
`SessionInvariants`, `Ownership`, `KeptHandles` and `Shutdown` are the invariants, `Runs` the theorems about every run,
`Incidents` how cancellations reach tasks, when no room can be lost, and runs in which things go wrong. `Progress` shows
that the tasks come to an end, that the reaper watches, and that shutdown can always close in time. `TypeAhead` and
`IdleReaper` are the input queue with its feeder and the watchdog's loop.

**The guest agent.** `GuestAgent` is a step system of the tasks around one shell: `attach`, the readers, the input task,
the output pump and the exit task. `GuestOutput` and `GuestInput` are its invariants, `GuestRuns` its theorems,
`GuestDelivery` what it owes the host: all output to whoever is attached, the exit line, nothing stuck; `GuestObjects` shows that `attach` as a method is a run of those steps, and models `serve`.

**Firecracker.** `Firecracker` builds, resumes, pauses and destroys a microVM with a failure at any step; `Reaper` is the
startup sweep among processes that start, crash and reuse each other's numbers.

**The wire.** `Text` is decimal numbers, Python's `int`, `split` and `strip`; on it stand `ControlChannel` (exit status and
resizes), `Vsock` (the handshake and its retry loop) and `Http` (HTTP/1.1 requests and responses, RFC 9112). Bytes are
characters below 256.

**Configuration and routing.** `Config` loads a TOML table; `Routing` sends opens and handles to backends.

The fields `born`, `settled`, `lost`, `log`, `evicted`, `published`, `pauseFailed` and `reported` are history: they only
record what happened. `releases` counts calls of `_release`, and a segment that raises it also takes the session out of
the active set.

## Assumptions

- No session begins after the listener has been closed (src/keycard/server.py:249).
- A backend's `open` that is cancelled cleans up after itself. This is not so for the Docker backend
  (src/keycard/backends/docker.py:188-199), whose executor thread still creates the container when the waiting task is
  cancelled; such a container is no room whose `open` returned, so no theorem here speaks of it. A cancellation during
  `resume`, during the cleanup of a failed resume or during the destroy of a late room loses the room, and is counted
  as such.
- A room is "settled" when a destroy call on it has run to its end, whether it returned or raised.
- A backend may absorb a cancellation: a task with one waiting at its await may also complete normally. Either way the
  cancellation is delivered at that await and gone when the task goes on.
- A destroy that raises in the shutdown sweep, or a `force_close` that raises, abandons shutdown before `backend.close()`
  (the phase `Aborted`).
- `Room.pause` returns a new handle every time, and a backend's rooms can be paused exactly if the backend says so.
- A sweep's `rmtree` succeeds. The whole sweep over the directory, making a directory with its owner record, and starting
  a VMM with its record are each one step for other processes.
- What JSON text a request body is encoded as does not matter.

## What the proofs brought to light

- The comments at `_teardown` (src/keycard/session.py:142-145) say that cancelling the pump cannot abort a destroy under
  way. The code awaits the teardown task unshielded, so it can. `Incidents.CancelledExactlyBy` gives the exact condition
  and `Incidents.HangUpDuringCheckoutLosesRoom` a run. A teardown cancelled before its first step never releases its session
  (`Incidents.UnstartedTeardownStaysActive`; `Incidents.HangUpBeforeCheckoutStaysActive` is a run).
- `KeptRooms.keep` overwrites an outstanding entry for the same username and so loses the room behind it
  (src/keycard/session.py:99); `Incidents.SecondKeepLosesFirstRoom` is a run.
- An `attach` that `serve` admitted just before the shell exited can be overtaken by the whole exit task, and then stays
  open on a session that is over (`GuestObjects.OvertakenAttachStaysOpen`; exactly when: `GuestRuns.WritersLeftOpen` for
  the two write halves, `GuestRuns.ReadersLeftOpen` for the two read halves).
- A refused snapshot leaves the VMM running with its guest frozen and its attachment already closed (`Firecracker.Host.Pause`).
  No session meets this in the version modelled, since rooms of this backend refuse to be paused
  (src/keycard/backends/firecracker.py:306) and so no handle for one is ever made (`Routing.UnpausableGetsNoHandle`).
- A response body that only the end of the connection delimits is dropped in silence: `Http.WholeBody` says for exactly
  which responses all of the body is read.
- `open` and `resume` leave a VMM running if the failure strikes while `vmm.pid` is written or is a cancellation of the
  readiness wait, and `open` leaves a directory if `owner.pid` cannot be written (`Firecracker.Host.Open`).
- The sweep compares the VMM's program with the fixed name `firecracker`, while the binary can be configured: the
  directory of a running VMM of another name is swept once its keycard is gone (`Reaper.RenamedBinaryIsNotSpared`).
- A table whose every room entry is skipped can still be warned about a `pids_limit` of such an entry, because a built-in
  room took its name (`Config.WarnedThoughSkipped`); the comment at src/keycard/config.py:238-239 says otherwise.

## Model

| member | source | states |
|---|---|---|
| Runs.LinearOwnership | src/keycard/session.py:91-116 | in every state of every run, each room whose open returned is at exactly one of: one single owner (slot, teardown, pump, registry, expiry, sweep), settled, lost |
| Runs.OnlyBornRoomsAreHeld | src/keycard/session.py:271-302 | nobody ever holds a room no backend handed over |
| Runs.LostExactlyBy | src/keycard/session.py:95-100 | a room is lost at some point of a run if and only if a cancellation was delivered to the task holding it, or a pause completed over the entry that held it |
| Incidents.NothingLost | src/keycard/session.py:200-302 | in a run where no hang-up and no force-close timeout reaches an awaited teardown, no client hangs up while its pump resumes a kept room, cleans up after that or destroys a late room, and no pause completes over an outstanding entry, no room is lost and each has exactly one owner until its destroy ends; hang-ups at any other time, also during `open`, cost nothing |
| Runs.FirstTriggerIsFinal | src/keycard/session.py:226-228 | whichever of the four paths comes first creates the one teardown; nothing later replaces it, restarts it or changes its terms |
| Runs.FirstToAskDecides | src/keycard/session.py:211-228 | a session has a teardown if and only if the stream ended, the client hung up, the idle reaper fired or shutdown forced it; the one that asked first is the one whose terms hold |
| Runs.OutcomeFollowsFirstTrigger | src/keycard/session.py:230-261 | a finished teardown of a published room completed a pause if and only if hang-up came first, the keep window is on, the room can be paused and no pause of it raised; and completed a destroy if and only if it completed no pause |
| Runs.PauseIsOfPublishedRoom | src/keycard/session.py:235-245 | a pause completes only for a hang-up, and stores the room the session published under its username |
| Runs.GoodbyeOnlyForOwnTeardown | src/keycard/session.py:323-345 | a shell status is reported only if the pump began the teardown, and is the one its destroy ended with |
| Runs.StatusIsRecorded | src/keycard/session.py:259 | a session has a status if and only if its destroy ended, and it is the one the destroy ended with |
| Runs.SlotStaysEmpty | src/keycard/session.py:231 | once the teardown body has started, the room slot is empty at every later suspension point |
| Runs.LateRoomBelongsToPump | src/keycard/session.py:276-302 | a room opened or resumed after teardown was requested is with the late-open branch alone, until it is settled or that branch is cancelled, in every continuation |
| Runs.DrainSignal | src/keycard/session.py:41-70 | the empty event is set exactly when no session is active; a session is active exactly until it releases, which happens at most once |
| Runs.LeavesOnce | src/keycard/session.py:263-267 | a session that left the active set never returns to it |
| Runs.LeavingMeansDealtWith | src/keycard/session.py:259-261 | at the moment a session leaves, its published room has had its destroy end or is kept under its username if and only if the leaving is not a cancelled teardown |
| Runs.ConsumedAtMostOnce | src/keycard/session.py:91-116 | reconnect, expiry and sweep together consume each handle at most once, never one that was overwritten, and a consumed handle is not registered |
| Runs.EveryHandleAccounted | src/keycard/session.py:95-107 | every handle ever kept is registered with its timer pending, consumed, or overwritten |
| Runs.NoOverwriteNoEviction | src/keycard/session.py:99 | handles are overwritten if and only if some pause completed under a username that still had an entry |
| Runs.SpentForGood | src/keycard/session.py:91-116 | a handle once consumed or overwritten is never registered again in any continuation |
| Runs.StaleTimerIsHarmless | src/keycard/session.py:102-107 | a timer whose handle was spent at any earlier time changes neither the registry nor any room's owner whenever it wakes, whoever is kept under its username by then |
| Runs.TornDownExactlyOnce | src/keycard/session.py:211-228 | no two steps of a run end a destroy of the same room, and a room is settled if and only if one step does |
| Runs.ShutdownGuarantee | src/keycard/server.py:154-258 | if shutdown reaches `backend.close()` and no force-close timed out, no session is active, all slots and the registry are empty, and rooms are held only by expiry tasks and by pumps; `Progress.CanCloseInTime` says from where that can be reached |
| Runs.UndestroyedAtClose | src/keycard/server.py:241-258 | a room not yet settled then was lost to one of the steps above, or an expiry task or a pump has it |
| Incidents.CancelledExactlyBy | src/keycard/session.py:200-209 | a cancellation is on its way to a teardown if and only if the client hung up while pump or watchdog awaited it, or the force-close timed out while awaiting it, and no pause has raised since |
| Incidents.PumpCancelledExactlyBy | src/keycard/session.py:204-205 | a cancellation waits at the await a pump is suspended in if and only if the client hung up while the pump could take one and the pump has not gone on since |
| Incidents.DoomedByHangUp | src/keycard/session.py:275-302 | a resume, its cleanup or a late destroy has a cancellation on its way only if the client hung up during such a call |
| Incidents.UnstartedTeardownStaysActive | src/keycard/session.py:226-261 | a teardown cancelled before its first step leaves its session active, with its room in the slot, for good |
| Incidents.HangUpBeforeCheckoutStaysActive | src/keycard/session.py:323-333 | a run in which that happens: the shell exits and the client hangs up before the teardown's first step |
| Incidents.HangUpDuringCheckoutLosesRoom | src/keycard/session.py:323-333 | a run in which a hang-up during a checkout cancels the destroy: the room is lost and no session is active |
| Incidents.SecondKeepLosesFirstRoom | src/keycard/session.py:95-100 | a run in which two connections under one username are kept and the first room is lost |
| Progress.TimedOutExactlyIf | src/keycard/server.py:178-184 | in every run, from the drain on shutdown counts as timed out if and only if the force-closes ran out of time |
| Progress.CanCloseInTime | src/keycard/server.py:241-258 | from every state a run leads to in which the server serves and no cancellation has reached the teardown of an active session, shutdown can get to `backend.close()` in time, whatever the sessions are doing and whoever is kept |
| Progress.ShutdownClosesInTime | src/keycard/server.py:154-258 | a run with one room kept and one in use: force-close and sweep destroy both, none is lost, and `backend.close()` is reached in time |
| Progress.WatchedExactlyIf | src/keycard/session.py:175-177 | from the start of its tasks until the client hangs up or the watchdog fires a session is watched, and can be reaped, if and only if the idle reaper is on |
| Progress.AwaitsExactlyIf | src/keycard/session.py:402-428 | the watchdog awaits the teardown from the moment it fires until it is let go, which is once, and at most once |
| Progress.NobodyLeavesEarly | src/keycard/session.py:226-261 | pump and watchdog go on only once the teardown is over, a force-close only once it ran to its end; the teardown and the pump are cancelled only by a cancellation on its way, and a teardown with one on its way does not take its first step |
| Progress.GoodbyeExactlyIf | src/keycard/session.py:323-345 | the status is reported when the pump comes out of the teardown if and only if the channel is open, the teardown was asked for by the shell's exit and ran to its end, and no hang-up is about to cancel the pump |
| Progress.FewSegments | src/keycard/session.py:119-428 | in any run a session takes at most 15 segments, hang-ups apart: its tasks come to an end |
| Progress.CanFinish | src/keycard/session.py:211-345 | from any state a run leads to, the unfinished tasks of a session can all be finished without a hang-up: none waits for one that waits for it |
| Progress.OpenMayFail | src/keycard/session.py:281-292 | an `open` under way can always fail; the pump ends, nothing is opened again and no room changes hands |
| Progress.ResumeMayFail | src/keycard/session.py:281-292 | a resume under way can always fail, and the kept room is then destroyed |
| Progress.PauseMayFail | src/keycard/session.py:246-259 | a pause under way can always raise; the room is then destroyed with whatever status that has |
| Progress.KeptRoomMayExpire | src/keycard/session.py:102-107 | any kept room can expire: its username is free, its handle consumed by the timer, and the room destroyed |
| Progress.LogIsTrue | src/keycard/session.py:91-116 | each step consumes exactly the handle that a reconnect finds, that a timer still finds as its own, or that the sweep still finds as listed, and no other |
| Ownership.TransferKeepsOwned | src/keycard/session.py:230-261 | moving one room from its one owner to a free place, to settled or to lost keeps ownership linear for all rooms |
| Ownership.OwnedStep | src/keycard/session.py:211-345 | every segment of the server makes at most such moves |
| SessionInvariants.ControlStep | src/keycard/session.py:211-267 | every segment keeps slot, teardown, releases and active set consistent |
| KeptHandles.HandlesStep | src/keycard/session.py:91-116 | every segment keeps registry, timers and consumption log consistent |
| Shutdown.DrainStep | src/keycard/server.py:154-184 | every segment keeps what the drain and the sweep have established |
| SessionObjects.ActiveSessions.Add | src/keycard/session.py:49-51 | adds the session and clears the event |
| SessionObjects.ActiveSessions.Discard | src/keycard/session.py:53-56 | removes the session and sets the event exactly if none is left |
| SessionObjects.KeptRooms.Take | src/keycard/session.py:91-93 | hands out and unregisters the entry, a consumption by reconnect |
| SessionObjects.KeptRooms.Stored | src/keycard/session.py:98-100 | registers the handle over whatever was there and starts its timer |
| SessionObjects.KeptRooms.ExpiryWakes | src/keycard/session.py:102-107 | unregisters and goes on to destroy if and only if the entry is the timer's own handle |
| SessionObjects.KeptRooms.SweepTurn | src/keycard/session.py:113-116 | unregisters and goes on to destroy if and only if the entry is still the listed handle |
| SessionObjects.RoomSession.SessionStarted | src/keycard/session.py:175-177 | schedules the pump, and has the session watched exactly if the idle reaper is on |
| SessionObjects.RoomSession.BeginTeardown | src/keycard/session.py:211-228 | every caller gets the one teardown back: an existing one unchanged, else a new one on the caller's terms; the object's invariant holds again for every caller but the pump, which then awaits |
| SessionObjects.RoomSession.ConnectionLost | src/keycard/session.py:200-209 | leaves room, pump and status alone, creates the teardown unless there is one, and cancels teardown and pump exactly in the states that let the cancellation through |
| SessionObjects.RoomSession.TeardownStarts | src/keycard/session.py:230-259 | the slot's room is with the teardown afterwards, to be paused if and only if trigger, setting and room say so; the session leaves the active set if and only if there was none |
| SessionObjects.RoomSession.PauseReturns | src/keycard/session.py:237-245 | the teardown's room is in the registry under the username and nowhere else, and the session has left the active set |
| SessionObjects.RoomSession.PauseFails | src/keycard/session.py:246-259 | the teardown still holds the same room, now to destroy it |
| SessionObjects.RoomSession.DestroyEnds | src/keycard/session.py:259-261 | records the status, 1 if destroy raised, and leaves the active set |
| SessionObjects.RoomSession.TeardownCancelled | src/keycard/session.py:230-261 | leaves the active set if and only if the body had started |
| SessionObjects.RoomSession.PumpStarts | src/keycard/session.py:275-280 | resumes the kept room under the username, which is unregistered, or opens a new one |
| SessionObjects.RoomSession.RoomArrives | src/keycard/session.py:294-308 | exactly one of the slot and the late branch has the room, the slot if and only if no teardown was requested |
| SessionObjects.RoomSession.StreamEnds | src/keycard/session.py:323-333 | the pump awaits a teardown that it began if and only if there was none |
| SessionObjects.RoomSession.PumpResumes | src/keycard/session.py:334-345 | the goodbye with the status is sent exactly if the pump began the teardown, that finished with a status, the pump is not cancelled and the channel is open |
| SessionObjects.RoomSession.ForceCloseReturns | src/keycard/session.py:381-398 | when force-close comes back the slot is empty |
| Servers.Server.Happen | src/keycard/server.py:154-258 | whatever event can happen in a state of a run, the objects carry out and are in the next state of that run |
| Servers.Server.Step | src/keycard/session.py:119-428 | the same for any segment of any session, whatever the other sessions are doing |
| Servers.Server.RoomHasOneHolder | src/keycard/session.py:211-261 | in every state the objects get to, a room in a session's slot is in no other slot and not in the registry |
| Servers.Server.NothingHeldAtClose | src/keycard/server.py:241-258 | at `backend.close()` without a force-close timeout, active set, registry and every slot are empty |
| TypeAhead.InOrder | src/keycard/session.py:347-357 | delivered chunks, then the one in flight, then the queue are the accepted chunks in order, at all times |
| TypeAhead.TypedBeforeOpenIsKept | src/keycard/session.py:147-150 | of what is typed before the room opens, exactly the first 512 chunks are kept |
| TypeAhead.NothingAfterStop | src/keycard/session.py:359-362 | in every continuation after the feeder stops, the room has been given exactly the accepted chunks taken till then, in order, without the one whose write was interrupted |
| TypeAhead.CanDeliver | src/keycard/session.py:347-357 | as long as the feeder runs, everything accepted so far can be brought to the room |
| TypeAhead.InputQueue.DataReceived | src/keycard/session.py:187-195 | queues the chunk, or drops exactly that chunk when 512 wait |
| IdleReaper.IdleWatchdog | src/keycard/session.py:402-424 | for every activity trace and any oversleeping, teardown is requested only when nothing happened for the whole idle period, and with exact sleeps at the first such instant |
| IdleReaper.LastActivityDecides | src/keycard/session.py:413-417 | comparing the clock with the last activity decides idleness over the whole trace |
| GuestRuns.InputNeverInterleaves | guest-agent/src/session.rs:280-307 | until the exit task detaches, the pty has been given a prefix of one prefix of each connection's input, joined in attach order |
| GuestRuns.InputConserved | guest-agent/src/session.rs:212-221 | typed bytes, the chunk in flight and the queue are exactly what connections handed over, in attach order |
| GuestRuns.OneReaderAtATime | guest-agent/src/session.rs:85-92 | until the exit task's detach begins, two connections' readers are never alive together |
| GuestRuns.OutputBlocks | guest-agent/src/session.rs:190-210 | each connection is handed one contiguous block of the shell's output; blocks are disjoint and in attach order; while the pump runs, the attached connection's block reaches up to the last byte written or dropped |
| GuestRuns.ExitLineComesLast | guest-agent/src/session.rs:236-254 | at most one exit line is written, and after it no connection is handed another data byte |
| GuestRuns.LineMeansPumpGone | guest-agent/src/session.rs:240-247 | an exit line is written only after the pump has ended |
| GuestRuns.CodeCameFromShell | guest-agent/src/session.rs:230-245 | the code on the exit line is the one the shell exited with |
| GuestRuns.EarlyAttachmentsAreClosed | guest-agent/src/session.rs:249-254 | once the exit task is done and no attach is in the middle of aborting readers, both halves of both channels of every attachment that returned before the exit task's detach began are dropped |
| GuestRuns.WritersLeftOpen | guest-agent/src/session.rs:288-293 | a writer is still there at the end if and only if its attach installed it after the exit task had cleared that slot |
| GuestRuns.ReadersLeftOpen | guest-agent/src/session.rs:295-328 | at the end with no attach under way, a connection's readers are still registered, until the next connection drops the session, if and only if its attach had not returned when the exit task's detach began; all others have ended |
| GuestDelivery.AttachedIsHandedAll | guest-agent/src/session.rs:190-210 | while a connection stays attached, its writes succeed and the pump runs, it is handed exactly the output the pump gets through, from the first byte on |
| GuestDelivery.DisplacedIsHandedNothing | guest-agent/src/session.rs:85-92 | from the moment `attach` has cleared the data slot, the connections before are handed nothing more, ever |
| GuestDelivery.OutputIsWritten | guest-agent/src/session.rs:193-198 | the output is what the pump read from the pty |
| GuestDelivery.InputIsSent | guest-agent/src/session.rs:295-307 | a connection's input is what its reader read from the host |
| GuestDelivery.LineIsWritten | guest-agent/src/session.rs:230-247 | when the exit task reports, a line with the code the shell exited with goes to the installed control writer exactly if the write succeeds; no other step writes a line |
| GuestDelivery.CanSettle | guest-agent/src/session.rs:190-328 | from any state a run leads to, every attach, every chunk read, all queued input and the exit task can be brought to their end: nothing waits for something that waits for it |
| GuestDelivery.WriteMayFail | guest-agent/src/session.rs:201-206 | a write under way can always fail; the writer is given up, the rest of the chunk dropped, and the pump reads on |
| GuestDelivery.EndedForGood | guest-agent/src/session.rs:296-307 | a reader that has ended stays ended |
| GuestDelivery.RefusedForGood | guest-agent/src/session.rs:215-221 | once the pty has refused input the shell is given nothing more |
| GuestDelivery.QueueIsBounded | guest-agent/src/session.rs:212-214 | however much the host sends, at most 64 chunks wait for the shell |
| GuestObjects.OneWholeSession | guest-agent/src/session.rs:174-328 | a run through a whole session: a byte goes each way, the shell exits, the line is written and everything is closed |
| GuestObjects.OvertakenAttachStaysOpen | guest-agent/src/main.rs:179-200 | a run in which an admitted attach is overtaken by the exit task and all four halves stay open |
| GuestObjects.AttachIsARun | guest-agent/src/session.rs:280-328 | an undisturbed attach is a run of the step system |
| GuestObjects.GuestSession.Detach | guest-agent/src/session.rs:85-92 | exactly the registered readers are ended, and both writers are dropped |
| GuestObjects.GuestSession.Attach | guest-agent/src/session.rs:280-328 | ends the old connection and installs the new one, as the step system does |
| GuestObjects.Serve | guest-agent/src/main.rs:179-200 | the new connection goes to the live session exactly if its running flag is still set, else to a new one, and the old is untouched |
| Firecracker.Host.Stop | src/keycard/backends/firecracker.py:413-437 | the process is gone however it ended |
| Firecracker.Host.Spawn | src/keycard/backends/firecracker.py:686-721 | for every failure: whether the VMM runs and is recorded |
| Firecracker.Host.Build | src/keycard/backends/firecracker.py:765-777 | whether each failure leaves `vm` set, a process running and the directory there |
| Firecracker.Host.Open | src/keycard/backends/firecracker.py:757-784 | succeeds exactly without a failure; after a failure no process is left unless it struck between exec and the end of the readiness wait, and no directory unless the owner record failed |
| Firecracker.Host.Resume | src/keycard/backends/firecracker.py:812-849 | as for open, and the directory survives every failure |
| Firecracker.Host.ResumeOrCleanUp | src/keycard/session.py:277-289 | a failed resume of such a handle would leave no directory; in this version no session holds one, since these rooms refuse to be paused |
| Firecracker.Host.Pause | src/keycard/backends/firecracker.py:388-410 | the attachment is closed in every case; the VMM is gone and the snapshot there, or the VMM runs, frozen exactly if the snapshot call was the one refused |
| Firecracker.Host.PauseOrDestroy | src/keycard/session.py:237-259 | after a pause that raised and the checkout that follows, VMM, directory and attachment are gone; in this version the session never takes this branch for such a room |
| Firecracker.TornDownOnce | src/keycard/backends/firecracker.py:365-385 | however many destroy calls race, the room is torn down at most once, and when all have returned exactly once: one call reports the status and every other reports 0 |
| Firecracker.AllCanReturn | src/keycard/backends/firecracker.py:365-385 | from any state of any race all calls can return: none waits for another |
| Firecracker.FirecrackerRoom.PassLock | src/keycard/backends/firecracker.py:365-369 | the first call past the lock goes on to tear down, every other returns 0 |
| Firecracker.FirecrackerRoom.TearDown | src/keycard/backends/firecracker.py:371-385 | the VMM and the directory are gone, and the status is the recorded one or 0 |
| Reaper.RuntimeDir.ReapDebris | src/keycard/backends/firecracker.py:511-545 | removes exactly the debris, lists exactly what went, in order; nothing if the listing failed |
| Reaper.SweepSparesTheLiving | src/keycard/backends/firecracker.py:453-490 | whatever numbers were reused, a directory whose creator or whose `firecracker` VMM still runs stays |
| Reaper.LivingRoomSurvives | src/keycard/backends/firecracker.py:493-508 | through any run of starts, deaths and sweeps a directory stays while the very process that made it runs and no keycard removes it |
| Reaper.GoneOnlyBy | src/keycard/backends/firecracker.py:493-545 | a directory that is gone was removed by a keycard or was debris at a sweep in between |
| Reaper.CrashDebrisGoes | src/keycard/backends/firecracker.py:511-545 | a directory with creator and VMM gone survives the next sweep if and only if a recorded number was taken again, the VMM's by another `firecracker` |
| Reaper.RenamedBinaryIsNotSpared | src/keycard/backends/firecracker.py:508 | a run in which the directory of a running VMM of another name is swept |
| Reaper.DebrisIsWhatGoes | src/keycard/backends/firecracker.py:511-545 | what a sweep lists is what it takes away, in the order of the directory listing |
| Reaper.StraysStay | src/keycard/backends/firecracker.py:493-545 | through any run, what is no instance directory is never swept |
| Reaper.RecordsAreTrue | src/keycard/backends/firecracker.py:686-721 | in every run, what is recorded in a directory is the very process that made it, and the VMM last started for it |
| Reaper.WholeLife | src/keycard/backends/firecracker.py:493-545 | a run in which a room is made, paused, resumed and destroyed, with a sweep in between that takes nothing |
| ControlChannel.WatchExit | src/keycard/backends/firecracker.py:339-355 | for every cutting into chunks, the status is that of the first complete line that is a valid exit message |
| ControlChannel.ExitLineReadsBack | src/keycard/backends/firecracker.py:130-142 | every i32 the guest prints is parsed back |
| ControlChannel.ShellStatusReadsBack | guest-agent/src/session.rs:136-142 | however the shell ended, the host reads back its code, or 128 and the signal that killed it |
| ControlChannel.OthersAreIgnored | src/keycard/backends/firecracker.py:130-142 | a line with another verb, without a code or with a third word is no exit message |
| ControlChannel.ExitCodeSurvivesChunking | guest-agent/src/session.rs:245 | the same through any chunking, behind any lines that are no exit message |
| ControlChannel.ResizeReadsBack | guest-agent/src/session.rs:126-134 | the guest applies a printed size if and only if both numbers are u16, as the same columns and rows |
| ControlChannel.OtherVerbsAreIgnored | guest-agent/src/session.rs:126-134 | a line with another verb, or with a size missing, is no resize |
| ControlChannel.SizesReadBack | guest-agent/src/session.rs:312-314 | any list of u16 sizes the host writes is applied in order |
| Vsock.ReadAck | src/keycard/backends/vsock.py:55-71 | takes the line up to the newline or 64 bytes, and how far it reads |
| Vsock.AckLeavesTheRest | src/keycard/backends/vsock.py:55-71 | an acknowledgement of fewer than 64 bytes is returned whole and exactly the rest is left |
| Vsock.LongAckLeavesTheNewline | src/keycard/backends/vsock.py:64-71 | from 64 bytes on it is cut at 64 bytes, and never exactly the rest is left but its remainder with the newline |
| Vsock.AckReadsBack | src/keycard/backends/vsock.py:37-52 | every 32-bit port is parsed back from its acknowledgement, whatever whitespace stands around it |
| Vsock.OthersAreRefused | src/keycard/backends/vsock.py:37-52 | a line that does not start with OK, or has nothing behind a first space, is no acknowledgement |
| Vsock.ConnectWithRetry | src/keycard/backends/vsock.py:102-131 | connects if and only if some attempt does with none before it ended past the deadline; gives up only past the deadline; makes no more attempts than the budget has delays, plus two |
| Http.ParseHead | src/keycard/backends/fcapi.py:110-132 | the status and the dictionary of a head, or an error |
| Http.ReadResponse | src/keycard/backends/fcapi.py:135-148 | the response off the front of the stream, and that exactly head and body were taken |
| Http.RequestFraming | src/keycard/backends/fcapi.py:89-107 | a server that reads an encoded request splits its first line into exactly verb, path and `HTTP/1.1`, finds the payload's length among the fields and the payload behind the blank line, and leaves exactly what came behind |
| Http.RequestFieldsAre | src/keycard/backends/fcapi.py:98-107 | it reads exactly these fields: host, accept, a connection to be closed, the payload's length, and a JSON type exactly if there is a payload |
| Http.StatusInGeneral | src/keycard/backends/fcapi.py:113-124 | what status any first line has: none without a space or of another protocol, else what `int` makes of the second word |
| Http.FieldInGeneral | src/keycard/backends/fcapi.py:126-132 | whitespace around name and value does not count, nor does the case of the name, and the value may hold colons |
| Http.FieldWithoutColon | src/keycard/backends/fcapi.py:126-132 | a line without a colon is a name without a value, and an empty line is nothing |
| Http.ResponseFraming | src/keycard/backends/fcapi.py:110-148 | a rendered response, with or without a length, parses back to its status and the body its fields announce, whatever follows; refused exactly with a transfer encoding or a number too long for `int` |
| Http.UnannouncedIsEmpty | src/keycard/backends/fcapi.py:146-147 | a response without a length, such as an empty 204, reads as empty in front of any rest |
| Http.WholeBody | src/keycard/backends/fcapi.py:135-148 | of a response followed by the end of the connection, all of the body is read if and only if there is no transfer encoding and the announced length is the body's own; without a length the body is dropped |
| Http.TruncatedResponseIsRefused | src/keycard/backends/fcapi.py:142-148 | no proper prefix of a response is taken for one |
| Http.HeadIsTaken | src/keycard/backends/fcapi.py:142-143 | the head ends at the first blank line, whatever follows it |
| Http.RenderedMeans | src/keycard/backends/fcapi.py:126-132 | rendered fields parse to the dictionary they mean: later ones win, names without regard to case |
| Text.PyIntReadsBack | src/keycard/backends/fcapi.py:121-124 | Python's `int` reads back every printed integer of at most 4300 digits and refuses longer ones |
| Text.SignsAndGroups | src/keycard/backends/fcapi.py:121-124 | digits count with a single underscore between them and one sign in front |
| Text.StraysAreNoInt | src/keycard/backends/fcapi.py:121-124 | underscores anywhere else, a second sign and a bare sign are refused |
| Text.GapsAreSkipped | src/keycard/backends/firecracker.py:130-142 | `split` takes any amount of whitespace as one separator |
| Text.StripsAround | src/keycard/backends/vsock.py:37-52 | `strip` takes away exactly the whitespace around |
| Config.ParseRooms | src/keycard/config.py:186-208 | fails exactly if a usable entry has a number that is none; otherwise yields exactly the usable entries, in order |
| Config.Load | src/keycard/config.py:301-360 | when loading fails, and that what loads is what the table asks for and is routable |
| Config.ResolveIsTotal | src/keycard/config.py:162-164 | after any load every username resolves, to its own entry or to the one default, on a known backend |
| Config.LoadsBack | src/keycard/config.py:186-208 | every routable configuration, written down as a table, loads back as itself |
| Config.RoomReadsBack | src/keycard/config.py:194-207 | a room written down with all its keys is parsed back field by field |
| Config.PlainRoom | src/keycard/config.py:194-207 | a room that sets nothing but its image is as a built-in one with that image: no limits set but 512 processes |
| Config.ZeroConfig | src/keycard/config.py:25-33 | without a file there are three rooms on docker, and any other username gets `ubuntu` |
| Config.ValidBackend | src/keycard/config.py:167-183 | an empty or known name comes back unchanged, any other becomes docker |
| Config.WarnIgnoredRoomKeys | src/keycard/config.py:211-247 | warns about exactly the entries that set the key and whose room runs on firecracker |
| Config.WarnedThoughSkipped | src/keycard/config.py:233-239 | a skipped entry is warned about if and only if every entry was skipped, it has a built-in name and the server's backend is firecracker |
| Config.WarnedAboutBuiltin | src/keycard/config.py:233-239 | a table for which that happens |
| Routing.RoutingBackend.BuildAll | src/keycard/backends/routing.py:99-108 | startup succeeds exactly if every name in use is known and its factory returns, and builds each once |
| Routing.RoutingBackend.GetBackend | src/keycard/backends/routing.py:115-126 | finds or builds, raises for unknown names, and never replaces a backend |
| Routing.RoutingBackend.Open | src/keycard/backends/routing.py:144-146 | the wrapper names the very backend that made the room; for configured rooms nothing is built |
| Routing.RoutingBackend.Resume | src/keycard/backends/routing.py:148-151 | the handle reaches the backend object that made it, and the new wrapper names it again |
| Routing.RoutingBackend.DestroyKept | src/keycard/backends/routing.py:153-155 | the handle reaches the backend object that made it, and no backend is built |
| Routing.RoutingBackend.Close | src/keycard/backends/routing.py:157-164 | every backend is asked to close, whichever raise |
| Routing.RoutingBackend.RoomsWithoutKeep | src/keycard/backends/routing.py:131-142 | lists exactly the rooms whose backend cannot pause |
| Routing.HandlesGoHome | src/keycard/backends/routing.py:52-155 | through any interleaving of opens, pauses, resumes and destructions each backend is given only handles it made itself |
| Routing.HandleReachesItsMaker | src/keycard/backends/routing.py:148-155 | in every run a resume or a destroy of a kept room gives its handle, then and there, to the backend object that made it, and no other step gives a backend anything |
| Routing.RoomIsMade | src/keycard/backends/routing.py:144-146 | with a loaded configuration every user's room can come into being, on the backend the configuration names |
| Routing.RoomIsKept | src/keycard/backends/routing.py:76-155 | any room that can be paused can be kept and resumed or destroyed, and its maker is given the handle each time |
| Routing.AlwaysRouted | src/keycard/backends/routing.py:115-129 | with a loaded configuration every username's backend was built at startup, at every moment of every run |
| Routing.TableDecidesBackend | src/keycard/config.py:167-208 | at every moment of every run, a client asking for a room the table describes is sent to the object built at startup for the backend the table chose: the room's key, else the server's, else docker |
| Routing.UnpausableGetsNoHandle | src/keycard/backends/routing.py:76-95 | a backend whose rooms refuse to pause is never given a handle, and none names it, in any run |
| Routing.AnnouncementHolds | src/keycard/backends/routing.py:131-142 | the rooms announced at startup as not kept are exactly those whose rooms refuse to pause, ever after |
| Routing.FirecrackerIsNotKept | src/keycard/backends/firecracker.py:306 | with the backends there are, the rooms announced as not kept are exactly those on firecracker |

## Left out

- AsyncSSH, authentication, host keys, signals, the command line, banners and log text: input, output and library plumbing.
- `src/keycard/backends/docker.py`: appears only as what a backend promises (`src/keycard/backends/base.py`).
- `src/keycard/backends/confine.py`: system calls, and facts about one step each.
- Parsing of memory sizes, vCPU counts and durations, and the configuration keys passed through unchanged (listen address, paths, timeouts, the firecracker table): easy members. A path that cannot be expanded makes loading fail; the model loads such a table.
- Terminal sizes on the host: resizes are unordered tasks, and nothing strong holds of them.
- The exit statuses 1, 124 and 143 that other paths than the pump's goodbye send on the channel.
- How long anything takes: grace periods, close timeouts and blocked writes are steps that may come at any time.
- `Drop` of a guest session and the ioctl that applies a size.
- The exit task's write of the exit line and its lock: one step in `GuestAgent`.
- Sockets that a failed `attach` leaves open, and the limit asyncio puts on the length of a head.
- Http.RequestFraming: for verbs and paths without carriage returns, the only ones the client uses.
- GuestRuns.EarlyAttachmentsAreClosed: only for attachments that returned before the exit task's detach began; of the others the code leaves open what `GuestRuns.WritersLeftOpen` and `GuestRuns.ReadersLeftOpen` say.
- GuestRuns.OneReaderAtATime: not beyond the start of the exit task's detach, because an attach that overtakes it can start its readers before the old ones have ended; the shell is gone by then.
