/** What every segment keeps true of the session it runs in. */
module SessionInvariants {
  import opened Wrappers
  import opened RoomSessions
  import opened Lifecycle

  predicate SlotOk(x: Session) {
    && (x.slot.Some? ==> !x.teardown.BodyStarted() && (x.pump.Reading? || x.pump.Awaiting? || x.pump.PumpEnded?))
    && (x.slot.Some? ==> x.slot == x.published)
    && (x.published.Some? && !x.teardown.BodyStarted() ==> x.slot == x.published)
    && (x.teardown.Pausing? || x.teardown.Destroying? ==> x.published == Some(x.teardown.room))
    && (x.published.Some? ==> x.pump.Reading? || x.pump.Awaiting? || x.pump.PumpEnded?)
    && (x.pump.Reading? || x.pump.Awaiting? ==> x.published.Some?)
  }

  predicate TeardownOk(x: Session) {
    && x.releases == (if x.teardown.Released() then 1 else 0)
    && (x.teardown.NoTeardown? ==>
          !x.pump.Awaiting? && !x.watchdog.WatchAwaiting? && !x.force.ForceAwaiting? && !x.teardownCancel)
    && (x.force.ForceReturned? ==> x.teardown.Finished?)
    && (x.teardown.Pausing? ==> x.teardown.first.HangUp? && x.teardown.room.canPause)
    && (x.status.Some? ==> x.teardown.Finished?)
    && (x.pump.Awaiting? ==> (x.pump.ours <==> x.teardown.first.ShellExit?))
    && (!x.teardown.NoTeardown? && x.teardown.first.ShellExit? ==> x.pump.Awaiting? || x.pump.PumpEnded?)
    && (x.reported.Some? ==> x.pump.PumpEnded? && x.teardown == Finished(ShellExit) && x.status == x.reported)
  }

  predicate SessionOk(x: Session) {
    SlotOk(x) && TeardownOk(x)
  }

  /** Whether a session's room is to be paused: the first trigger, the setting and the room decide. */
  predicate PausesOn(first: Trigger, keepEnabled: bool, room: Sandbox) {
    first.HangUp? && keepEnabled && room.canPause
  }

  /** A finished teardown left a status exactly if the room was checked out rather than stored. */
  predicate OutcomeOk(x: Session, keepEnabled: bool) {
    && (x.pauseFailed ==> x.teardown.BodyStarted())
    && (x.teardown.Pausing? ==> PausesOn(x.teardown.first, keepEnabled, x.teardown.room) && !x.pauseFailed)
    && (x.teardown.Destroying? ==> !PausesOn(x.teardown.first, keepEnabled, x.teardown.room) || x.pauseFailed)
    && (x.teardown.Finished? && x.published.Some? ==>
          (x.status.None? <==> PausesOn(x.teardown.first, keepEnabled, x.published.value) && !x.pauseFailed))
  }

  predicate SameButCancels(x: Session, y: Session) {
    && y.slot == x.slot && y.pump == x.pump && y.force == x.force && y.releases == x.releases && y.user == x.user
    && y.status == x.status && y.reported == x.reported && y.published == x.published && y.pauseFailed == x.pauseFailed
    && (y.watchdog.WatchAwaiting? ==> x.watchdog.WatchAwaiting?)
  }

  lemma CancelPumpFrame(x: Session)
    ensures SameButCancels(x, OnCancelPump(x)) && OnCancelPump(x).teardown == x.teardown
  {
  }

  lemma CancelWatchdogFrame(x: Session)
    ensures SameButCancels(x, OnCancelWatchdog(x)) && OnCancelWatchdog(x).teardown == x.teardown
  {
  }

  /** What a hang-up leaves alone, and what it does to the teardown. */
  lemma HangUpFrame(x: Session)
    ensures SameButCancels(x, OnHangUp(x))
    ensures OnHangUp(x).teardown == (if x.teardown.NoTeardown? then Requested(HangUp) else x.teardown)
  {
    CancelPumpFrame(x);
    CancelWatchdogFrame(OnCancelPump(x));
  }

  lemma BeginTeardownKeeps(x: Session, why: Trigger)
    requires SessionOk(x) && why != ShellExit
    ensures SessionOk(OnBeginTeardown(x, why))
    ensures x.teardown.Released() ==> OnBeginTeardown(x, why).teardown.Released()
  {
  }

  lemma HangUpKeeps(x: Session)
    requires SessionOk(x)
    ensures SessionOk(OnHangUp(x))
    ensures x.teardown.Released() ==> OnHangUp(x).teardown.Released()
  {
    HangUpFrame(x);
    assert SlotOk(OnHangUp(x));
  }

  predicate IsPumpSegment(g: Segment) {
    g.SessionStarted? || g.PumpStarts? || g.OpenReturns? || g.ResumeReturns? || g.RoomFails? || g.CleanupEnds?
    || g.LateCheckoutEnds? || g.StreamEnds? || g.PumpResumes? || g.PumpCancelled?
  }

  lemma PumpSegmentKeeps(s: System, x: Session, g: Segment)
    requires SessionOk(x) && SegmentEnabled(x, g, true) && IsPumpSegment(g)
    ensures SessionOk(SessionAfter(s, x, g))
    ensures x.teardown.Released() ==> SessionAfter(s, x, g).teardown.Released()
  {
  }

  lemma TeardownSegmentKeeps(s: System, x: Session, g: Segment)
    requires SessionOk(x) && SegmentEnabled(x, g, true)
    requires g.TeardownStarts? || g.PauseReturns? || g.PauseFails? || g.DestroyEnds? || g.TeardownCancelled?
    ensures SessionOk(SessionAfter(s, x, g))
    ensures x.teardown.Released() ==> SessionAfter(s, x, g).teardown.Released()
  {
  }

  lemma SessionKept(s: System, x: Session, g: Segment)
    requires SessionOk(x) && SegmentEnabled(x, g, true)
    ensures SessionOk(SessionAfter(s, x, g))
    ensures x.teardown.Released() ==> SessionAfter(s, x, g).teardown.Released()
  {
    if IsPumpSegment(g) {
      PumpSegmentKeeps(s, x, g);
    } else if g.HangsUp? {
      HangUpKeeps(x);
    } else if g.TeardownStarts? || g.PauseReturns? || g.PauseFails? || g.DestroyEnds? || g.TeardownCancelled? {
      TeardownSegmentKeeps(s, x, g);
    } else if g.IdleFires? {
      BeginTeardownKeeps(x.(watchdog := Watching), IdleReaper);
    } else if g.ForceStarts? {
      BeginTeardownKeeps(x, ForcedClose);
    }
  }

  /** A segment of session `i` changes that session only, and leaves `active` exactly when it releases. */
  lemma SegmentFrame(s: System, i: nat, g: Segment)
    requires i in s.sessions && SegmentEnabled(s.sessions[i], g, true)
    ensures var x := s.sessions[i]; var y := SessionAfter(s, x, g); var t := SegmentStep(s, i, g);
      && t.sessions == s.sessions[i := y]
      && t.active == (if y.releases > x.releases then s.active - {i} else s.active)
      && t.empty == (if y.releases > x.releases && t.active == {} then true else s.empty)
      && t.common == CommonAfter(s.common, x, g)
      && t.keepEnabled == s.keepEnabled
  {
  }

  ghost predicate Control(s: System) {
    && (forall i :: i in s.sessions ==> SessionOk(s.sessions[i]))
    && (forall i :: i in s.active <==> i in s.sessions && !s.sessions[i].teardown.Released())
    && s.empty == (s.active == {})
  }

  lemma SegmentControl(s: System, i: nat, g: Segment)
    requires Control(s) && i in s.sessions && SegmentEnabled(s.sessions[i], g, true)
    ensures Control(SegmentStep(s, i, g))
  {
    SessionKept(s, s.sessions[i], g);
    SegmentFrame(s, i, g);
    ControlSwapped(s, SegmentStep(s, i, g), i, SessionAfter(s, s.sessions[i], g));
  }

  /** Session `i` became `y`, and left the active set if it released. */
  lemma ControlSwapped(s: System, t: System, i: nat, y: Session)
    requires Control(s) && i in s.sessions && SessionOk(y) && t.sessions == s.sessions[i := y]
    requires s.sessions[i].teardown.Released() ==> y.teardown.Released()
    requires t.active == if y.releases > s.sessions[i].releases then s.active - {i} else s.active
    requires t.empty == if y.releases > s.sessions[i].releases && t.active == {} then true else s.empty
    ensures Control(t)
  {
    assert SessionOk(s.sessions[i]);
  }

  lemma GraceEndControl(s: System)
    requires Control(s)
    ensures Control(GraceEnd(s))
  {
    forall i | i in s.sessions
      ensures SessionOk(s.sessions[i].(force := ForceScheduled))
    {
    }
  }

  lemma ForceTimeoutControl(s: System)
    requires Control(s) && s.common.phase.Forcing?
    ensures Control(ForceTimeout(s))
  {
    forall i | i in s.sessions && !s.sessions[i].teardown.NoTeardown?
      ensures SessionOk(s.sessions[i].(teardownCancel := true))
    {
    }
  }

  lemma ConnectControl(s: System, i: nat, user: User)
    requires Control(s) && i !in s.sessions
    ensures Control(Connect(s, i, user))
  {
    assert i in Connect(s, i, user).active;
  }

  lemma ControlStep(s: System, e: Event)
    requires Control(s) && Enabled(s, e)
    ensures Control(Apply(s, e))
  {
    if e.At? {
      SegmentControl(s, e.i, e.segment);
    } else if e.GraceEnds? {
      GraceEndControl(s);
    } else if e.ForceTimesOut? {
      ForceTimeoutControl(s);
    } else if e.Connects? {
      ConnectControl(s, e.i, e.user);
    }
  }

  ghost predicate Outcomes(s: System) {
    forall i :: i in s.sessions ==> OutcomeOk(s.sessions[i], s.keepEnabled)
  }

  lemma OutcomeKept(s: System, x: Session, g: Segment)
    requires SessionOk(x) && OutcomeOk(x, s.keepEnabled) && SegmentEnabled(x, g, true)
    ensures OutcomeOk(SessionAfter(s, x, g), s.keepEnabled)
  {
    if g.HangsUp? {
      HangUpFrame(x);
    } else if IsPumpSegment(g) {
      PumpOutcomeKept(s, x, g);
    }
  }

  lemma PumpOutcomeKept(s: System, x: Session, g: Segment)
    requires SessionOk(x) && OutcomeOk(x, s.keepEnabled) && SegmentEnabled(x, g, true) && IsPumpSegment(g)
    ensures OutcomeOk(SessionAfter(s, x, g), s.keepEnabled)
  {
  }

  lemma OutcomesStep(s: System, e: Event)
    requires Control(s) && Outcomes(s) && Enabled(s, e)
    ensures Outcomes(Apply(s, e))
  {
    if e.At? {
      OutcomeKept(s, s.sessions[e.i], e.segment);
      SegmentFrame(s, e.i, e.segment);
    }
  }
}
