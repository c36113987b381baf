/**
 The objects put together: a server whose sessions, registry and drain are those
 of `SessionObjects`, and which goes through a run of `Lifecycle` with them.
 */
module Servers {
  import opened Wrappers
  import opened RoomSessions
  import opened Lifecycle
  import opened SessionInvariants
  import opened Ownership
  import opened Runs
  import opened SessionObjects

  /** The state an event leads to, if it can happen. */
  function Next(s: System, e: Event): Option<System> {
    if Enabled(s, e) then Some(Apply(s, e)) else None
  }

  lemma NextConnect(s: System, i: nat, user: User) returns (t: System)
    requires Reaches(s) && Next(s, Connects(i, user)).Some?
    ensures Next(s, Connects(i, user)) == Some(t) && Reaches(t)
    ensures i !in s.sessions && s.common.phase.Serving?
    ensures t.sessions == s.sessions[i := NewSession(user)] && t.active == s.active + {i} && t.common == s.common
    ensures t.keepEnabled == s.keepEnabled && t.idleEnabled == s.idleEnabled
  {
    t := Apply(s, Connects(i, user));
    Extend(s, Connects(i, user));
  }

  lemma NextSegment(s: System, i: nat, g: Segment) returns (t: System, y: Session, c: Common)
    requires Reaches(s) && Next(s, At(i, g)).Some?
    ensures Next(s, At(i, g)) == Some(t) && Reaches(t)
    ensures i in s.sessions && SegmentEnabled(s.sessions[i], g, true)
    ensures y == SessionAfter(s, s.sessions[i], g) && c == CommonAfter(s.common, s.sessions[i], g)
    ensures t.sessions == s.sessions[i := y]
    ensures t.active == if y.releases > s.sessions[i].releases then s.active - {i} else s.active
    ensures t.common == c && c.phase == s.common.phase
    ensures c.books.nextRoom == s.common.books.nextRoom + (if g.OpenReturns? then 1 else 0)
    ensures t.keepEnabled == s.keepEnabled && t.idleEnabled == s.idleEnabled
  {
    Extend(s, At(i, g));
    SegmentFrame(s, i, g);
    t, y, c := Apply(s, At(i, g)), SessionAfter(s, s.sessions[i], g), CommonAfter(s.common, s.sessions[i], g);
  }

  /** `x` is session number `i` of a server with this active set and registry, and shows `y`. */
  ghost predicate Shows(x: RoomSession, i: nat, active: ActiveSessions, kept: KeptRooms, idleEnabled: bool, y: Session)
    reads x
  {
    x.id == i && x.active == active && x.kept == kept && x.idleEnabled == idleEnabled && x.View() == y
  }

  /** What a segment of `x` reads outside `x`, as a state `s` has it. */
  ghost predicate Setting(x: RoomSession, s: System, nextRoom: nat)
    reads x, x.active, x.kept
  {
    && x.active.Valid() && x.kept.Mirrors(s.common)
    && x.kept.enabled == s.keepEnabled && x.idleEnabled == s.idleEnabled && nextRoom == s.common.books.nextRoom
  }

  /** The segment `g` of one session object, where the room that `open` returns is number `nextRoom`. */
  method RunPump(x: RoomSession, g: Segment, nextRoom: nat, ghost s: System)
    requires x.Valid() && Setting(x, s, nextRoom) && SegmentEnabled(x.View(), g, true) && IsPumpSegment(g)
    modifies x, x.kept
    ensures x.Valid() && x.View() == SessionAfter(s, old(x.View()), g)
    ensures x.View().releases == old(x.View()).releases
    ensures x.kept.Mirrors(CommonAfter(s.common, old(x.View()), g))
  {
    match g
    case SessionStarted => x.SessionStarted();
    case PumpStarts => x.PumpStarts();
    case OpenReturns(canPause) => x.RoomArrives(Sandbox(nextRoom, canPause));
    case ResumeReturns => x.RoomArrives(x.pump.kept.sandbox);
    case RoomFails => x.RoomFails();
    case CleanupEnds => x.PumpEnds();
    case LateCheckoutEnds => x.PumpEnds();
    case StreamEnds => x.StreamEnds();
    case PumpResumes(channelOpen) => var sent := x.PumpResumes(channelOpen);
    case PumpCancelled => x.PumpEnds();
  }

  method RunOther(x: RoomSession, g: Segment, ghost s: System, nextRoom: nat)
    requires x.Valid() && Setting(x, s, nextRoom) && SegmentEnabled(x.View(), g, true) && !IsPumpSegment(g)
    modifies x, x.active, x.kept
    ensures x.Valid() && x.View() == SessionAfter(s, old(x.View()), g)
    ensures x.LeftIf(old(x.View()), x.View(), old(x.active.sessions))
    ensures x.kept.Mirrors(CommonAfter(s.common, old(x.View()), g))
  {
    match g
    case HangsUp => x.ConnectionLost();
    case IdleFires => x.IdleFires();
    case WatchdogResumes => x.WatchdogResumes();
    case TeardownStarts => x.TeardownStarts();
    case PauseReturns => x.PauseReturns(Kept(x.kept.nextKept, x.teardown.room));
    case PauseFails => x.PauseFails();
    case DestroyEnds(status) => x.DestroyEnds(Some(status));
    case TeardownCancelled => x.TeardownCancelled();
    case ForceStarts => x.ForceCloseStarts();
    case ForceReturns => x.ForceCloseReturns();
  }

  /** Any segment of one session object acts as the run says, on the object and on what it shares. */
  method Run(x: RoomSession, g: Segment, nextRoom: nat, ghost s: System)
    requires x.Valid() && Setting(x, s, nextRoom) && SegmentEnabled(x.View(), g, true)
    modifies x, x.active, x.kept
    ensures x.Valid() && x.View() == SessionAfter(s, old(x.View()), g)
    ensures x.LeftIf(old(x.View()), x.View(), old(x.active.sessions))
    ensures x.kept.Mirrors(CommonAfter(s.common, old(x.View()), g))
  {
    if IsPumpSegment(g) {
      RunPump(x, g, nextRoom, s);
    } else {
      RunOther(x, g, s, nextRoom);
    }
  }

  /** `gather` creates a task for every `force_close`. */
  method ScheduleAll(xs: set<RoomSession>)
    requires forall x :: x in xs ==> x.Valid()
    modifies xs
    ensures forall x :: x in xs ==> x.View() == old(x.View()).(force := ForceScheduled)
  {
    var rest := xs;
    while rest != {}
      invariant rest <= xs
      invariant forall x :: x in rest ==> x.Valid() && x.View() == old(x.View())
      invariant forall x :: x in xs && x !in rest ==> x.View() == old(x.View()).(force := ForceScheduled)
    {
      var x :| x in rest;
      x.ForceScheduled();
      rest := rest - {x};
    }
  }

  /** Cancelling the `gather` cancels every `force_close` that has not come back. */
  method CancelAll(xs: set<RoomSession>)
    requires forall x :: x in xs ==> x.Valid()
    modifies xs
    ensures forall x :: x in xs ==> x.View() == TimedOut(old(x.View()))
  {
    var rest := xs;
    while rest != {}
      invariant rest <= xs
      invariant forall x :: x in rest ==> x.Valid() && x.View() == old(x.View())
      invariant forall x :: x in xs && x !in rest ==> x.View() == TimedOut(old(x.View()))
    {
      var x :| x in rest;
      x.CancelForce();
      rest := rest - {x};
    }
  }

  function TimedOut(x: Session): Session {
    if x.force.ForceAwaiting? && !x.teardown.Over() then x.(teardownCancel := true) else x
  }

  class Server {
    const active: ActiveSessions
    const kept: KeptRooms
    const idleEnabled: bool
    var sessions: map<nat, RoomSession>
    var targets: set<RoomSession>         // the sessions the drain is force-closing
    var todo: seq<(User, Kept)>           // what the shutdown sweep has listed and not yet visited
    var nextRoom: nat                     // the identity of the next room a backend builds

    /** The objects are in state `s`, and `s` is a state that a run leads to. */
    ghost predicate In(s: System)
      reads this, sessions.Values, active, kept
    {
      && Reaches(s)
      && ShowsSessions(s.sessions)
      && ShowsActive(s.active)
      && ShowsCommon(s.common)
      && kept.enabled == s.keepEnabled && idleEnabled == s.idleEnabled
    }

    ghost predicate ShowsSessions(shown: map<nat, Session>)
      reads this`sessions, sessions.Values
    {
      && sessions.Keys == shown.Keys
      && (forall i :: i in sessions ==> Shows(sessions[i], i, active, kept, idleEnabled, shown[i]))
    }

    ghost predicate ShowsActive(shown: set<nat>)
      reads this`sessions, active
    {
      && active.Valid()
      && (forall x :: x in active.sessions ==> x.id in sessions && sessions[x.id] == x)
      && (forall i :: i in sessions ==> (sessions[i] in active.sessions <==> i in shown))
    }

    ghost predicate ShowsCommon(shown: Common)
      reads this`sessions, this`targets, this`todo, this`nextRoom, kept
    {
      kept.Mirrors(shown) && nextRoom == shown.books.nextRoom && ShowsPhase(shown.phase)
    }

    ghost predicate ShowsPhase(shown: Phase)
      reads this`sessions, this`targets, this`todo
    {
      && (shown.Sweeping? ==> todo == shown.todo)
      && (shown.Forcing? ==> ShowsTargets(shown.targets))
    }

    ghost predicate ShowsTargets(shown: set<nat>)
      reads this`sessions, this`targets
    {
      && (forall x :: x in targets ==> x.id in sessions && sessions[x.id] == x)
      && (forall i :: i in sessions ==> (sessions[i] in targets <==> i in shown))
    }

    constructor (keepEnabled: bool, idleEnabled: bool)
      ensures In(Init(keepEnabled, idleEnabled))
      ensures fresh(active) && fresh(kept) && sessions == map[]
    {
      this.idleEnabled := idleEnabled;
      active := new ActiveSessions();
      kept := new KeptRooms(keepEnabled);
      sessions, targets, todo, nextRoom := map[], {}, [], 0;
      new;
      InitReached(keepEnabled, idleEnabled);
    }

    lemma StateOk(s: System)
      requires In(s)
      ensures Inv(s)
    {
      var ss, es :| IsRun(ss, es) && ss[|es|] == s;
      InvAt(ss, es, |es|);
    }

    lemma ObjectsOk(s: System)
      requires In(s)
      ensures forall i :: i in sessions ==> sessions[i].Valid()
    {
      StateOk(s);
      forall i | i in sessions
        ensures sessions[i].Valid()
      {
        assert SessionOk(s.sessions[i]) && OutcomeOk(s.sessions[i], s.keepEnabled);
      }
    }

    // ---- what one changed object leaves the others ---------------------------------------

    /** Session `at.0` is new or changed, no other object did, and they showed `at.1` before. */
    twostate lemma OthersShown(at: (nat, map<nat, Session>))
      requires old(ShowsSessions(at.1)) && at.0 in sessions && sessions.Keys == old(sessions.Keys) + {at.0}
      requires forall j :: j in old(sessions) && j != at.0 ==> sessions[j] == old(sessions)[j] && unchanged(sessions[j])
      requires Shows(sessions[at.0], at.0, active, kept, idleEnabled, sessions[at.0].View())
      ensures ShowsSessions(at.1[at.0 := sessions[at.0].View()])
    {
    }

    /** The active set was `at.1` before, and at most lost or won session `at.0`. */
    twostate lemma ActiveShown(at: (nat, set<nat>))
      requires old(ShowsActive(at.1)) && at.0 in sessions && sessions.Keys == old(sessions.Keys) + {at.0}
      requires forall j :: j in old(sessions) ==> sessions[j] == old(sessions)[j]
      requires active.Valid() && forall j :: j in sessions ==> sessions[j].id == j
      ensures active.sessions == old(active.sessions) && sessions == old(sessions) ==> ShowsActive(at.1)
      ensures active.sessions == old(active.sessions) - {sessions[at.0]} && sessions == old(sessions) ==>
        ShowsActive(at.1 - {at.0})
      ensures active.sessions == old(active.sessions) + {sessions[at.0]} ==> ShowsActive(at.1 + {at.0})
    {
    }

    // ---- clients connect ---------------------------------------------------------------

    method Create(i: nat, user: User) returns (session: RoomSession)
      requires active.Valid()
      modifies active
      ensures fresh(session) && Shows(session, i, active, kept, idleEnabled, NewSession(user))
      ensures active.Valid() && active.sessions == old(active.sessions) + {session}
    {
      session := new RoomSession(i, active, kept, user, idleEnabled);
      session.ConnectionMade();
    }

    method Admit(i: nat, user: User, ghost s: System)
      requires ShowsSessions(s.sessions) && ShowsActive(s.active) && i !in sessions
      modifies this`sessions, active
      ensures i in sessions && sessions == old(sessions)[i := sessions[i]] && fresh(sessions[i])
      ensures ShowsSessions(s.sessions[i := NewSession(user)])
      ensures ShowsActive(s.active + {i})
    {
      var session := Create(i, user);
      sessions := sessions[i := session];
      OthersShown((i, s.sessions));
      ActiveShown((i, s.active));
    }

    /** A client connects. */
    method Connects(i: nat, user: User, ghost s: System) returns (ghost t: System)
      requires In(s) && Next(s, Event.Connects(i, user)).Some?
      modifies this`sessions, active
      ensures In(t) && Next(s, Event.Connects(i, user)) == Some(t)
      ensures i in sessions && sessions == old(sessions)[i := sessions[i]] && fresh(sessions[i])
    {
      t := NextConnect(s, i, user);
      Admit(i, user, s);
    }

    // ---- the segments of sessions ------------------------------------------------------

    /** Runs segment `g` on the object of session `i`. */
    method Act(i: nat, g: Segment, room: nat, ghost s: System)
      requires ShowsSessions(s.sessions) && ShowsActive(s.active) && i in sessions && sessions[i].Valid()
      requires Setting(sessions[i], s, room) && SegmentEnabled(s.sessions[i], g, true)
      modifies sessions[i], active, kept
      ensures ShowsSessions(s.sessions[i := SessionAfter(s, s.sessions[i], g)])
      ensures ShowsActive(if SessionAfter(s, s.sessions[i], g).releases > s.sessions[i].releases
                          then s.active - {i} else s.active)
      ensures kept.Mirrors(CommonAfter(s.common, s.sessions[i], g))
    {
      Run(sessions[i], g, room, s);
      OthersShown((i, s.sessions));
      ActiveShown((i, s.active));
    }

    /** The same, with the session and the shared state that the step leaves. */
    method ActOn(i: nat, g: Segment, ghost s: System, ghost y: Session, ghost c: Common)
      requires ShowsSessions(s.sessions) && ShowsActive(s.active) && i in sessions && sessions[i].Valid()
      requires Setting(sessions[i], s, nextRoom) && SegmentEnabled(s.sessions[i], g, true)
      requires y == SessionAfter(s, s.sessions[i], g) && c == CommonAfter(s.common, s.sessions[i], g)
      modifies this`nextRoom, sessions[i], active, kept
      ensures ShowsSessions(s.sessions[i := y])
      ensures ShowsActive(if y.releases > s.sessions[i].releases then s.active - {i} else s.active)
      ensures kept.Mirrors(c) && nextRoom == old(nextRoom) + (if g.OpenReturns? then 1 else 0)
    {
      var room := nextRoom;
      nextRoom := room + (if g.OpenReturns? then 1 else 0);
      Act(i, g, room, s);
    }

    /** The same, seen with the drain and the sweep, which no session's segment touches. */
    method ActInPhase(i: nat, g: Segment, ghost s: System, ghost y: Session, ghost c: Common)
      requires ShowsSessions(s.sessions) && ShowsActive(s.active) && i in sessions && sessions[i].Valid()
      requires Setting(sessions[i], s, nextRoom) && SegmentEnabled(s.sessions[i], g, true)
      requires y == SessionAfter(s, s.sessions[i], g) && c == CommonAfter(s.common, s.sessions[i], g)
      requires ShowsPhase(c.phase) && c.books.nextRoom == nextRoom + (if g.OpenReturns? then 1 else 0)
      modifies this`nextRoom, sessions[i], active, kept
      ensures ShowsSessions(s.sessions[i := y])
      ensures ShowsActive(if y.releases > s.sessions[i].releases then s.active - {i} else s.active)
      ensures ShowsCommon(c)
    {
      ActOn(i, g, s, y, c);
    }

    /** Any segment of any session, run on its object, is that step of the run. */
    method Step(i: nat, g: Segment, ghost s: System) returns (ghost t: System)
      requires In(s) && Next(s, At(i, g)).Some?
      modifies this`nextRoom, sessions.Values, active, kept
      ensures In(t) && Next(s, At(i, g)) == Some(t)
    {
      ghost var y, c;
      t, y, c := NextSegment(s, i, g);
      ObjectsOk(s);
      ActInPhase(i, g, s, y, c);
    }

    // ---- the drain ---------------------------------------------------------------------

    function ForcedNow(shown: map<nat, Session>, targets: set<nat>): map<nat, Session> {
      map i | i in shown :: if i in targets then shown[i].(force := ForceScheduled) else shown[i]
    }

    /** The grace period is over: `_drain` forces whatever is still active. */
    method ScheduleForce(ghost shown: map<nat, Session>, ghost ids: set<nat>)
      requires ShowsSessions(shown) && ShowsActive(ids) && forall i :: i in sessions ==> sessions[i].Valid()
      modifies this`targets, active.sessions
      ensures ShowsSessions(ForcedNow(shown, ids)) && ShowsTargets(ids)
    {
      targets := active.sessions;
      ScheduleAll(targets);
    }

    method ForceActive(ghost s: System)
      requires ShowsSessions(s.sessions) && ShowsActive(s.active) && ShowsCommon(s.common)
      requires forall i :: i in sessions ==> sessions[i].Valid()
      modifies this`targets, sessions.Values
      ensures ShowsSessions(ForcedNow(s.sessions, s.active))
      ensures ShowsActive(s.active) && ShowsCommon(s.common.(phase := Forcing(s.active)))
    {
      ScheduleForce(s.sessions, s.active);
    }

    /** The drain's time is up: what `force_close` calls still await is cancelled. */
    method CancelForced(ghost s: System)
      requires ShowsSessions(s.sessions) && s.common.phase.Forcing? && ShowsTargets(s.common.phase.targets)
      requires forall i :: i in sessions ==> sessions[i].Valid()
      modifies targets
      ensures ShowsSessions(ForceTimeout(s).sessions)
    {
      CancelAll(targets);
    }

    /** A segment of an expiry timer or of the shutdown path, on the registry and the sweep's list. */
    method RunChore(h: Chore, ghost s: System)
      requires ShowsCommon(s.common) && ChoreEnabled(s, h)
      modifies this`todo, kept
      ensures ShowsCommon(ChoreStep(s, h))
    {
      match h
      case ExpiryWakes(t) => var mine := kept.ExpiryWakes(t);
      case ExpiryEnds(t) => kept.ExpiryEnds(t);
      case SweepBegins(order) => todo := SweepList(kept.byUsername, order);
      case SweepNext =>
        var mine := kept.SweepTurn(todo[0].0, todo[0].1);
        todo := todo[1..];
      case _ =>
    }

    lemma NextGrace(s: System) returns (t: System)
      requires Reaches(s) && Next(s, GraceEnds).Some?
      ensures Next(s, GraceEnds) == Some(t) && Reaches(t) && !s.common.phase.Sweeping?
      ensures t.active == s.active && t.keepEnabled == s.keepEnabled && t.idleEnabled == s.idleEnabled
      ensures s.active == {} ==> t.sessions == s.sessions && t.common == s.common.(phase := Closing(false))
      ensures s.active != {} ==>
        && t.common == s.common.(phase := Forcing(s.active))
        && t.sessions == ForcedNow(s.sessions, s.active)
    {
      t := GraceEnd(s);
      Extend(s, GraceEnds);
    }

    /** The end of the grace period, as the step of the run it is. */
    method GraceOver(ghost s: System) returns (ghost t: System)
      requires In(s) && Next(s, GraceEnds).Some?
      modifies this`targets, sessions.Values
      ensures In(t) && Next(s, GraceEnds) == Some(t)
    {
      t := NextGrace(s);
      ObjectsOk(s);
      NoneActive(s);
      if active.sessions == {} {
        assert ShowsCommon(t.common);
      } else {
        ForceActive(s);
      }
    }

    lemma NoneActive(s: System)
      requires In(s)
      ensures active.sessions == {} <==> s.active == {}
    {
      StateOk(s);
      forall i | i in s.active
        ensures sessions[i] in active.sessions
      {
      }
      if x :| x in active.sessions {
        assert x.id in s.active;
      }
    }

    method TimeOver(ghost s: System) returns (ghost t: System)
      requires In(s) && Next(s, ForceTimesOut).Some?
      modifies sessions.Values
      ensures In(t) && Next(s, ForceTimesOut) == Some(t)
    {
      t := NextTimeout(s);
      ObjectsOk(s);
      CancelForced(s);
    }

    lemma NextTimeout(s: System) returns (t: System)
      requires Reaches(s) && Next(s, ForceTimesOut).Some?
      ensures Next(s, ForceTimesOut) == Some(t) && Reaches(t) && t == ForceTimeout(s) && s.common.phase.Forcing?
      ensures t.active == s.active && t.common == s.common.(phase := Closing(true))
      ensures t.keepEnabled == s.keepEnabled && t.idleEnabled == s.idleEnabled
    {
      t := ForceTimeout(s);
      Extend(s, ForceTimesOut);
    }

    method DoChore(h: Chore, ghost s: System) returns (ghost t: System)
      requires In(s) && Next(s, Elsewhere(h)).Some?
      modifies this`todo, kept
      ensures In(t) && Next(s, Elsewhere(h)) == Some(t)
    {
      t := s.(common := ChoreStep(s, h));
      Extend(s, Elsewhere(h));
      RunChore(h, s);
    }

    /** Whatever can happen in the state the objects are in, the objects do, and reach the next state of the run. */
    method Happen(e: Event, ghost s: System) returns (ghost t: System)
      requires In(s) && Next(s, e).Some?
      modifies this, sessions.Values, active, kept
      ensures In(t) && Next(s, e) == Some(t)
    {
      if e.Connects? {
        t := Connects(e.i, e.user, s);
      } else if e.At? {
        t := Step(e.i, e.segment, s);
      } else if e.Elsewhere? {
        t := DoChore(e.chore, s);
      } else if e.GraceEnds? {
        t := GraceOver(s);
      } else {
        t := TimeOver(s);
      }
    }

    // ---- what the objects hold, in every state they get to ------------------------------

    lemma SlotAndRegistryDiffer(s: System, i: nat, user: User)
      requires In(s) && i in sessions && sessions[i].room.Some? && user in kept.byUsername
      ensures kept.byUsername[user].sandbox != sessions[i].room.value
    {
      StateOk(s);
      assert Held(s, InSlot(i)) == sessions[i].room;
      assert Held(s, InRegistry(user)) == Some(kept.byUsername[user].sandbox);
    }

    /** A room in a session's slot is in no other session's slot and not kept. */
    lemma RoomHasOneHolder(s: System, i: nat, j: nat, user: User)
      requires In(s) && i in sessions && sessions[i].room.Some?
      ensures j in sessions && j != i ==> sessions[j].room != sessions[i].room
      ensures user in kept.byUsername ==> kept.byUsername[user].sandbox != sessions[i].room.value
    {
      StateOk(s);
      assert Held(s, InSlot(i)) == sessions[i].room;
      if j in sessions && j != i {
        assert Held(s, InSlot(j)) == sessions[j].room;
      }
      if user in kept.byUsername {
        SlotAndRegistryDiffer(s, i, user);
      }
    }

    /** At `backend.close()`, without a force-close timeout, the objects are empty. */
    lemma NothingHeldAtClose(s: System)
      requires In(s) && s.common.phase == Closed(false)
      ensures active.sessions == {} && active.empty && kept.byUsername == map[]
      ensures forall i :: i in sessions ==> sessions[i].room == None
    {
      var ss, es :| IsRun(ss, es) && ss[|es|] == s;
      ShutdownGuarantee(ss, es, |es|);
      NoneActive(s);
    }
  }
}
