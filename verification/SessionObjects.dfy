/**
 The objects of `session.py`, field by field.

 Each method is one atomic segment of the program.  It keeps its object valid,
 says what its callers rely on, and acts on the fields as the functions of
 `RoomSessions` and `Lifecycle` say; `Servers` puts the objects together.
 */
module SessionObjects {
  import opened Wrappers
  import opened RoomSessions
  import opened Lifecycle
  import opened SessionInvariants
  import opened Ownership
  import opened Incidents

  class ActiveSessions {
    var sessions: set<RoomSession>
    var empty: bool

    ghost predicate Valid()
      reads this
    {
      empty <==> sessions == {}
    }

    constructor ()
      ensures Valid() && sessions == {}
    {
      sessions, empty := {}, true;
    }

    method Add(session: RoomSession)
      requires Valid()
      modifies this
      ensures Valid() && sessions == old(sessions) + {session}
    {
      sessions := sessions + {session};
      empty := false;
    }

    method Discard(session: RoomSession)
      requires Valid()
      modifies this
      ensures Valid() && sessions == old(sessions) - {session}
    {
      sessions := sessions - {session};
      if sessions == {} {
        empty := true;
      }
    }
  }

  class KeptRooms {
    const enabled: bool
    var byUsername: map<User, Kept>
    var timers: seq<Timer>      // the expiry tasks, in the order they were created
    var nextKept: nat           // the identity of the next handle

    constructor (enabled: bool)
      ensures this.enabled == enabled && byUsername == map[] && timers == [] && nextKept == 0
    {
      this.enabled := enabled;
      byUsername, timers, nextKept := map[], [], 0;
    }

    /** The part of the shared state that lives in this object. */
    ghost predicate Mirrors(c: Common)
      reads this
    {
      byUsername == c.registry && timers == c.timers && nextKept == c.books.nextKept
    }

    method Take(username: User) returns (kept: Option<Kept>)
      modifies this
      ensures kept.Some? <==> username in old(byUsername)
      ensures kept.Some? ==> kept.value == old(byUsername)[username]
      ensures byUsername == old(byUsername) - {username}
      ensures forall c :: old(Mirrors(c)) ==>
        && kept == Lookup(c, username)
        && Mirrors(if username in c.registry then Consume(c, username, Reconnect) else c)
    {
      if username in byUsername {
        kept := Some(byUsername[username]);
        byUsername := byUsername - {username};
      } else {
        kept := None;
      }
    }

    /** `keep` once `room.pause()` has returned the handle. */
    method Stored(username: User, kept: Kept)
      requires kept.id == nextKept
      modifies this
      ensures byUsername == old(byUsername)[username := kept]
      ensures forall c :: old(Mirrors(c)) ==> Mirrors(Keep(c, username, kept.sandbox))
    {
      byUsername := byUsername[username := kept];
      timers := timers + [Timer(username, kept, Sleeping)];
      nextKept := nextKept + 1;
    }

    /** An expiry task wakes; `mine` says that it goes on to destroy the room. */
    method ExpiryWakes(t: nat) returns (mine: bool)
      requires t < |timers|
      modifies this
      ensures forall c :: old(Mirrors(c)) ==>
        && mine == (Lookup(c, c.timers[t].user) == Some(c.timers[t].kept))
        && Mirrors(ExpiryWake(c, t))
    {
      var timer := timers[t];
      mine := timer.user in byUsername && byUsername[timer.user] == timer.kept;
      if mine {
        byUsername := byUsername - {timer.user};
        timers := timers[t := timer.(phase := Deleting)];
      } else {
        timers := timers[t := timer.(phase := TimerEnded)];
      }
    }

    /** The expiry task's `destroy_kept` ended. */
    method ExpiryEnds(t: nat)
      requires t < |timers|
      modifies this
      ensures forall c :: old(Mirrors(c)) ==> Mirrors(ExpiryEnd(c, t))
    {
      timers := timers[t := timers[t].(phase := TimerEnded)];
    }

    /** One turn of `destroy_all` over its list; `mine` says that it goes on to destroy the room. */
    method SweepTurn(username: User, kept: Kept) returns (mine: bool)
      modifies this
      ensures forall c ::
        old(Mirrors(c)) && c.phase.Sweeping? && c.phase.todo != [] && c.phase.todo[0] == (username, kept) ==>
        && Mirrors(SweepOne(c))
        && mine == (Lookup(c, username) == Some(kept))
    {
      mine := username in byUsername && byUsername[username] == kept;
      if mine {
        byUsername := byUsername - {username};
      }
    }
  }

  class RoomSession {
    const id: nat                // which session of the server it is
    const active: ActiveSessions
    const kept: KeptRooms
    const username: User
    const idleEnabled: bool
    var room: Option<Sandbox>
    var pump: Pump
    var pumpCancel: bool
    var watchdog: Watchdog
    var teardown: Teardown
    var teardownCancel: bool
    var force: Force
    var status: Option<int>
    ghost var reported: Option<int>
    ghost var published: Option<Sandbox>
    ghost var pauseFailed: bool
    ghost var releases: nat

    /** The session as a value. */
    ghost function View(): Session
      reads this
    {
      Session(username, room, pump, pumpCancel, watchdog, teardown, teardownCancel, force,
              status, reported, published, pauseFailed, releases)
    }

    /** Slot, teardown, status and history agree with one another. */
    ghost predicate Valid()
      reads this
    {
      SessionOk(View()) && OutcomeOk(View(), kept.enabled)
    }

    constructor (id: nat, active: ActiveSessions, kept: KeptRooms, username: User, idleEnabled: bool)
      ensures Valid() && View() == NewSession(username)
      ensures this.id == id && this.active == active && this.kept == kept && this.idleEnabled == idleEnabled
    {
      this.id, this.active, this.kept, this.username, this.idleEnabled := id, active, kept, username, idleEnabled;
      room, pump, pumpCancel, watchdog := None, NoPump, false, NoWatchdog;
      teardown, teardownCancel, force, status := NoTeardown, false, Unforced, None;
      reported, published, pauseFailed, releases := None, None, false, 0;
    }

    method ConnectionMade()
      requires active.Valid()
      modifies active
      ensures active.Valid() && active.sessions == old(active.sessions) + {this}
    {
      active.Add(this);
    }

    method SessionStarted()
      requires Valid() && pump.NoPump?
      modifies this
      ensures Valid() && pump == Scheduled && (watchdog.Watching? <==> idleEnabled)
      ensures teardown == old(teardown) && room == old(room)
      ensures View() == OnSessionStarted(old(View()), idleEnabled)
    {
      pump := Scheduled;
      if idleEnabled {
        watchdog := Watching;
      } else {
        watchdog := WatchEnded;
      }
    }

    /** Every caller gets the one task: an existing teardown is left exactly as it is. */
    method BeginTeardown(why: Trigger) returns (task: Teardown)
      requires Valid()
      modifies this`teardown
      ensures task == teardown && !task.NoTeardown?
      ensures !old(teardown).NoTeardown? ==> task == old(teardown)
      ensures old(teardown).NoTeardown? ==> task == Requested(why)
      ensures why != ShellExit ==> Valid()
    {
      if teardown.NoTeardown? {
        teardown := Requested(why);
      }
      task := teardown;
    }

    method CancelPump()
      modifies this`pumpCancel, this`teardownCancel
      ensures View() == OnCancelPump(old(View()))
    {
      match pump {
        case NoPump =>
        case PumpEnded =>
        case Awaiting(_) =>
          if teardown.Over() {
            pumpCancel := true;
          } else {
            teardownCancel := true;
          }
        case _ =>
          pumpCancel := true;
      }
    }

    method CancelWatchdog()
      modifies this`watchdog, this`teardownCancel
      ensures View() == OnCancelWatchdog(old(View()))
    {
      if watchdog.Watching? {
        watchdog := WatchEnded;
      } else if watchdog.WatchAwaiting? && !teardown.Over() {
        teardownCancel := true;
      }
    }

    /**
     A hang-up leaves room, pump and status alone.  It creates the teardown unless there is one, and
     its cancellation reaches the teardown exactly if pump or watchdog was awaiting it.
     */
    method ConnectionLost()
      requires Valid()
      modifies this
      ensures Valid() && SameButCancels(old(View()), View())
      ensures old(teardown).NoTeardown? ==> teardown == Requested(HangUp)
      ensures !old(teardown).NoTeardown? ==> teardown == old(teardown)
      ensures teardownCancel <==> old(teardownCancel) || HangUpReaches(old(View()))
      ensures pumpCancel <==> old(pumpCancel) || Cancellable(old(View()))
      ensures View() == OnHangUp(old(View()))
    {
      ghost var x := View();
      CancelPump();
      CancelWatchdog();
      if teardown.NoTeardown? {
        teardown := Requested(HangUp);
      }
      HangUpFrame(x);
      HangUpKeeps(x);
      HangUpCancels(x);
    }

    method PumpStarts()
      requires Valid() && pump.Scheduled? && !pumpCancel
      modifies this, kept
      ensures Valid() && (pump.Resuming? || pump.Opening?)
      ensures pump.Resuming? ==> old(username in kept.byUsername) && pump.kept == old(kept.byUsername)[username]
      ensures kept.byUsername == old(kept.byUsername) - {username}
      ensures forall c :: old(kept.Mirrors(c)) ==>
        && View() == OnPumpStart(old(View()), Lookup(c, username))
        && kept.Mirrors(CommonAfter(c, old(View()), Segment.PumpStarts))
    {
      var taken := kept.Take(username);
      match taken {
        case Some(k) => pump := Resuming(k);
        case None => pump := Opening;
      }
    }

    /** `open` or `resume` returned `arrived`: exactly one of the slot and the late branch has it now. */
    method RoomArrives(arrived: Sandbox)
      requires Valid() && (pump.Opening? || pump.Resuming?)
      modifies this
      ensures Valid() && teardown == old(teardown)
      ensures room == Some(arrived) <==> teardown.NoTeardown?
      ensures PumpHolds(pump) == Some(arrived) <==> !teardown.NoTeardown?
      ensures room.Some? ==> published == room
      ensures room.None? ==> published == old(published)
      ensures View() == OnRoomArrives(old(View()), arrived)
    {
      pumpCancel := false;
      room := Some(arrived);
      if !teardown.NoTeardown? {
        room := None;
        pump := LateCheckout(arrived);
        return;
      }
      published := room;
      pump := Reading;
    }

    method RoomFails()
      requires Valid() && (pump.Opening? || pump.Resuming?)
      modifies this
      ensures Valid() && PumpHolds(pump) == PumpHolds(old(pump))
      ensures View() == OnRoomFails(old(View()))
    {
      pumpCancel := false;
      if pump.Resuming? {
        pump := Cleaning(pump.kept);
      } else {
        pump := PumpEnded;
      }
    }

    /** The pump's task is over, or has been cancelled. */
    method PumpEnds()
      requires Valid() && !pump.Reading? && !pump.Awaiting?
      modifies this
      ensures Valid() && View() == OnPumpEnds(old(View()))
    {
      pump, pumpCancel := PumpEnded, false;
    }

    /** The pump awaits the teardown, and remembers whether it is on the pump's own terms. */
    method StreamEnds()
      requires Valid() && pump.Reading?
      modifies this
      ensures Valid() && room == old(room) && pump.Awaiting?
      ensures pump.ours <==> old(teardown).NoTeardown?
      ensures pump.ours ==> teardown == Requested(ShellExit)
      ensures !pump.ours ==> teardown == old(teardown)
      ensures View() == OnStreamEnds(old(View()))
    {
      var ours := teardown.NoTeardown?;
      var task := BeginTeardown(ShellExit);
      pump, pumpCancel := Awaiting(ours), false;
    }

    /**
     What the pump does once the teardown it awaited is over: the goodbye goes out exactly if the
     pump began that teardown, it ran to its end, the pump is not cancelled and the channel is open.
     */
    method PumpResumes(channelOpen: bool) returns (sent: Option<int>)
      requires Valid() && pump.Awaiting? && teardown.Over()
      modifies this
      ensures Valid() && View() == OnPumpResumes(old(View()), channelOpen)
      ensures sent == if old(pump).ours && teardown.Finished? && !old(pumpCancel) && channelOpen then status else None
      ensures reported == if sent.Some? then sent else old(reported)
      ensures sent.Some? ==> teardown.first == ShellExit
    {
      sent := None;
      if pump.ours && teardown.Finished? && !pumpCancel {
        if status.Some? && channelOpen {
          sent := status;
          reported := status;
        }
      }
      pump, pumpCancel := PumpEnded, false;
    }

    method IdleFires()
      requires Valid() && watchdog.Watching?
      modifies this
      ensures Valid() && room == old(room)
      ensures teardown == if old(teardown).NoTeardown? then Requested(IdleReaper) else old(teardown)
      ensures View() == OnIdleFires(old(View()))
    {
      var task := BeginTeardown(IdleReaper);
      watchdog := WatchAwaiting;
    }

    method WatchdogResumes()
      requires Valid() && watchdog.WatchAwaiting? && teardown.Over()
      modifies this
      ensures Valid() && View() == old(View()).(watchdog := WatchEnded)
    {
      watchdog := WatchEnded;
    }

    /** The drain created a task for `force_close`. */
    method ForceScheduled()
      requires Valid()
      modifies this`force
      ensures Valid() && force == Force.ForceScheduled
    {
      force := Force.ForceScheduled;
    }

    method ForceCloseStarts()
      requires Valid() && force.ForceScheduled?
      modifies this
      ensures Valid() && room == old(room)
      ensures teardown == if old(teardown).NoTeardown? then Requested(ForcedClose) else old(teardown)
      ensures View() == OnForceStart(old(View()))
    {
      var task := BeginTeardown(ForcedClose);
      force := ForceAwaiting;
    }

    /** `force_close` comes back only once the teardown has run to its end, so the room is not in the slot any more. */
    method ForceCloseReturns()
      requires Valid() && force.ForceAwaiting? && teardown.Finished?
      modifies this
      ensures Valid() && room == None && View() == old(View()).(force := ForceReturned)
    {
      force := ForceReturned;
    }

    /** The drain's time is up: the cancellation goes through an awaiting `force_close` to the teardown. */
    method CancelForce()
      requires Valid()
      modifies this`teardownCancel
      ensures Valid()
      ensures teardownCancel <==> old(teardownCancel) || (force.ForceAwaiting? && teardown.Running())
    {
      if force.ForceAwaiting? && !teardown.Over() {
        teardownCancel := true;
      }
    }

    method Release()
      requires active.Valid()
      modifies this`releases, active
      ensures View() == OnRelease(old(View()))
      ensures active.Valid() && active.sessions == old(active.sessions) - {this}
    {
      active.Discard(this);
      releases := releases + 1;
    }

    /** Whether a segment that turned `x` into `y` ran `_release`, and what that did to the active set. */
    ghost predicate LeftIf(x: Session, y: Session, before: set<RoomSession>)
      reads active
    {
      active.Valid() && active.sessions == (if y.releases > x.releases then before - {this} else before)
    }

    /** The slot is empty from here on, and what it held is with the teardown. */
    method TeardownStarts()
      requires Valid() && active.Valid() && teardown.Requested?
      modifies this, active
      ensures Valid() && room == None && TeardownHolds(teardown) == old(room)
      ensures teardown.Pausing? <==> old(room).Some? && PausesOn(old(teardown).first, kept.enabled, old(room).value)
      ensures this !in active.sessions <==> this !in old(active.sessions) || old(room).None?
      ensures View() == OnTeardownStart(old(View()), kept.enabled)
      ensures LeftIf(old(View()), View(), old(active.sessions))
    {
      var mine := room;
      room := None;
      match mine {
        case None =>
          teardown := Finished(teardown.first);
          Release();
        case Some(r) =>
          if teardown.first.HangUp? && kept.enabled {
            if r.canPause {
              teardown := Pausing(teardown.first, r);
              return;
            }
          }
          teardown := Destroying(teardown.first, r);
      }
    }

    /** The room leaves the teardown for the registry, under the session's username. */
    method PauseReturns(handle: Kept)
      requires Valid() && active.Valid() && teardown.Pausing?
      requires handle.id == kept.nextKept && handle.sandbox == teardown.room
      modifies this, active, kept
      ensures Valid() && TeardownHolds(teardown) == None
      ensures kept.byUsername == old(kept.byUsername)[username := handle] && handle.sandbox == old(teardown).room
      ensures this !in active.sessions
      ensures View() == OnPauseReturns(old(View()))
      ensures LeftIf(old(View()), View(), old(active.sessions))
      ensures forall c :: old(kept.Mirrors(c)) ==> kept.Mirrors(CommonAfter(c, old(View()), Segment.PauseReturns))
    {
      kept.Stored(username, handle);
      teardown := Finished(teardown.first);
      Release();
    }

    /** The room stays with the teardown, which goes on to destroy it. */
    method PauseFails()
      requires Valid() && teardown.Pausing?
      modifies this
      ensures Valid() && teardown.Destroying? && TeardownHolds(teardown) == TeardownHolds(old(teardown))
      ensures teardown.first == old(teardown).first
      ensures View() == OnPauseFails(old(View()))
    {
      teardown, teardownCancel := Destroying(teardown.first, teardown.room), false;
      pauseFailed := true;
    }

    /** `_checkout`: `result` is what destroy returned, or nothing if it raised. */
    method DestroyEnds(result: Option<int>)
      requires Valid() && active.Valid() && teardown.Destroying?
      modifies this, active
      ensures Valid() && teardown == Finished(old(teardown).first) && this !in active.sessions
      ensures status == Some(if result.Some? then result.value else 1)
      ensures View() == OnDestroyEnds(old(View()), if result.Some? then result.value else 1)
      ensures LeftIf(old(View()), View(), old(active.sessions))
    {
      match result {
        case Some(code) => status := Some(code);
        case None => status := Some(1);
      }
      teardown := Finished(teardown.first);
      Release();
    }

    /** A teardown cancelled before its first step never leaves the active set; any other does. */
    method TeardownCancelled()
      requires Valid() && active.Valid() && teardown.Running()
      modifies this, active
      ensures Valid() && teardown.Over() && TeardownHolds(teardown) == None && room == old(room)
      ensures this !in active.sessions <==> this !in old(active.sessions) || !old(teardown).Requested?
      ensures View() == OnTeardownCancelled(old(View()))
      ensures LeftIf(old(View()), View(), old(active.sessions))
    {
      if teardown.Requested? {
        teardown := NeverRan(teardown.first);
      } else {
        teardown := Interrupted(teardown.first);
        Release();
      }
    }
  }
}
