/**
 One `RoomSession` as a value, and what each of its atomic segments does to it.

 A segment is the code asyncio runs between two suspension points, so it is
 never interleaved with anything.  `SessionObjects` ties the imperative class to
 these functions; `Lifecycle` composes them into runs of the whole server.
 */
module RoomSessions {
  import opened Wrappers

  type User = string

  /** A room a backend built.  `canPause` is `Room.can_pause` seen through the routing wrapper. */
  datatype Sandbox = Sandbox(id: nat, canPause: bool)

  /** The handle `Room.pause` returns; a new one for every pause, compared by identity. */
  datatype Kept = Kept(id: nat, sandbox: Sandbox)

  /** The four paths that can each decide a room should end. */
  datatype Trigger = ShellExit | HangUp | IdleReaper | ForcedClose

  datatype Pump =
    | NoPump
    | Scheduled
    | Opening
    | Resuming(kept: Kept)
    | Cleaning(kept: Kept)         // in destroy_kept after a failed resume
    | LateCheckout(room: Sandbox)  // in destroy of a room that opened too late
    | Reading
    | Awaiting(ours: bool)         // in the finally block, awaiting the teardown task
    | PumpEnded

  datatype Watchdog = NoWatchdog | Watching | WatchAwaiting | WatchEnded

  /** The one teardown task.  `first` remembers which path created it. */
  datatype Teardown =
    | NoTeardown
    | Requested(first: Trigger)                   // task created, body not yet started
    | Pausing(first: Trigger, room: Sandbox)
    | Destroying(first: Trigger, room: Sandbox)
    | Finished(first: Trigger)                    // ran to its end and released
    | Interrupted(first: Trigger)                 // cancelled while suspended; still released
    | NeverRan(first: Trigger)                    // cancelled before its first step; never released
  {
    predicate Over() { Finished? || Interrupted? || NeverRan? }
    predicate Released() { Finished? || Interrupted? }
    predicate Running() { Requested? || Pausing? || Destroying? }
    predicate BodyStarted() { Pausing? || Destroying? || Finished? || Interrupted? }
  }

  datatype Force = Unforced | ForceScheduled | ForceAwaiting | ForceReturned

  datatype Session = Session(
    user: User,
    slot: Option<Sandbox>,        // _room
    pump: Pump,                   // _pump
    pumpCancel: bool,             // a cancellation is waiting at the await the pump is suspended in
    watchdog: Watchdog,           // _watchdog
    teardown: Teardown,           // _teardown
    teardownCancel: bool,         // a cancellation is waiting at the await the teardown is suspended in
    force: Force,                 // the drain's force_close call on this session
    status: Option<int>,          // _status
    reported: Option<int>,        // status the pump sent with the goodbye
    published: Option<Sandbox>,   // history: the room once put in the slot for others to see
    pauseFailed: bool,            // history: the pause of this session's room raised
    releases: nat)                // history: how often _release ran

  function NewSession(user: User): Session {
    Session(user, None, NoPump, false, NoWatchdog, NoTeardown, false, Unforced, None, None, None, false, 0)
  }

  function OnSessionStarted(x: Session, idleEnabled: bool): Session {
    x.(pump := Scheduled, watchdog := if idleEnabled then Watching else WatchEnded)
  }

  /** `_begin_teardown`: the first caller creates the task, later callers get that one. */
  function OnBeginTeardown(x: Session, why: Trigger): Session {
    if x.teardown.NoTeardown? then x.(teardown := Requested(why)) else x
  }

  /**
   What cancelling the pump reaches.  A task suspended in `await` on another task
   passes the cancellation on to that task, so a pump waiting for an unfinished
   teardown cancels the teardown.
   */
  function OnCancelPump(x: Session): Session {
    match x.pump
    case NoPump | PumpEnded => x
    case Awaiting(_) =>
      if x.teardown.Over() then x.(pumpCancel := true) else x.(teardownCancel := true)
    case _ => x.(pumpCancel := true)
  }

  function OnCancelWatchdog(x: Session): Session {
    match x.watchdog
    case Watching => x.(watchdog := WatchEnded)
    case WatchAwaiting => if x.teardown.Over() then x else x.(teardownCancel := true)
    case _ => x
  }

  /** `connection_lost`. */
  function OnHangUp(x: Session): Session {
    OnBeginTeardown(OnCancelWatchdog(OnCancelPump(x)), HangUp)
  }

  /** The pump's first segment: `taken` is what `KeptRooms.take` returned. */
  function OnPumpStart(x: Session, taken: Option<Kept>): Session {
    x.(pump := if taken.Some? then Resuming(taken.value) else Opening)
  }

  /** `open` or `resume` returned: publish the room, or destroy it if the session is already over. */
  function OnRoomArrives(x: Session, room: Sandbox): Session {
    if x.teardown.NoTeardown?
    then x.(slot := Some(room), published := Some(room), pump := Reading, pumpCancel := false)
    else x.(slot := None, pump := LateCheckout(room), pumpCancel := false)
  }

  function OnRoomFails(x: Session): Session {
    x.(pump := if x.pump.Resuming? then Cleaning(x.pump.kept) else PumpEnded, pumpCancel := false)
  }

  function OnPumpEnds(x: Session): Session {
    x.(pump := PumpEnded, pumpCancel := false)
  }

  /** The read loop ended, was cancelled or failed: the finally block up to its await. */
  function OnStreamEnds(x: Session): Session {
    OnBeginTeardown(x.(pump := Awaiting(x.teardown.NoTeardown?), pumpCancel := false), ShellExit)
  }

  /** The teardown the pump awaited is over; `open` says the channel still takes a goodbye. */
  function OnPumpResumes(x: Session, open: bool): Session
    requires x.pump.Awaiting?
  {
    var say := x.pump.ours && open && !x.pumpCancel && x.teardown.Finished? && x.status.Some?;
    x.(pump := PumpEnded, pumpCancel := false, reported := if say then x.status else x.reported)
  }

  function OnIdleFires(x: Session): Session {
    OnBeginTeardown(x.(watchdog := WatchAwaiting), IdleReaper)
  }

  function OnForceStart(x: Session): Session {
    OnBeginTeardown(x.(force := ForceAwaiting), ForcedClose)
  }

  function OnRelease(x: Session): Session {
    x.(releases := x.releases + 1)
  }

  /** `_run_teardown` from its first line to its first await, or to its end if the slot is empty. */
  function OnTeardownStart(x: Session, keepEnabled: bool): Session
    requires x.teardown.Requested?
  {
    var first := x.teardown.first;
    match x.slot
    case None => OnRelease(x.(teardown := Finished(first)))
    case Some(room) =>
      var pause := first.HangUp? && keepEnabled && room.canPause;
      x.(slot := None, teardown := if pause then Pausing(first, room) else Destroying(first, room))
  }

  function OnPauseReturns(x: Session): Session
    requires x.teardown.Pausing?
  {
    OnRelease(x.(teardown := Finished(x.teardown.first)))
  }

  function OnPauseFails(x: Session): Session
    requires x.teardown.Pausing?
  {
    x.(teardown := Destroying(x.teardown.first, x.teardown.room), teardownCancel := false, pauseFailed := true)
  }

  /** `_checkout` returned; a destroy that raised is reported as status 1. */
  function OnDestroyEnds(x: Session, status: int): Session
    requires x.teardown.Destroying?
  {
    OnRelease(x.(status := Some(status), teardown := Finished(x.teardown.first)))
  }

  /** CancelledError thrown into the teardown task: its finally runs only if its body had started. */
  function OnTeardownCancelled(x: Session): Session
    requires x.teardown.Running()
  {
    if x.teardown.Requested?
    then x.(teardown := NeverRan(x.teardown.first))
    else OnRelease(x.(teardown := Interrupted(x.teardown.first)))
  }
}
