/**
 Tasks and shutdown come to an end: every segment moves its session forward, no
 unfinished task is ever stuck, and a shutdown that no cancellation disturbs can
 always reach `backend.close()` without running out of time.
 */
module Progress {
  import opened Wrappers
  import opened RoomSessions
  import opened Lifecycle
  import opened SessionInvariants
  import opened Ownership
  import opened KeptHandles
  import opened Runs
  import opened Incidents

  // ---- every segment moves forward -------------------------------------------------------

  function PumpRank(p: Pump): nat {
    match p
    case NoPump => 0
    case Scheduled => 1
    case Opening => 2
    case Resuming(_) => 2
    case Cleaning(_) => 3
    case LateCheckout(_) => 3
    case Reading => 3
    case Awaiting(_) => 4
    case PumpEnded => 5
  }

  function WatchdogRank(w: Watchdog): nat {
    match w
    case NoWatchdog => 0
    case Watching => 1
    case WatchAwaiting => 2
    case WatchEnded => 3
  }

  function TeardownRank(t: Teardown): nat {
    match t
    case NoTeardown => 0
    case Requested(_) => 1
    case Pausing(_, _) => 2
    case Destroying(_, _) => 3
    case _ => 4
  }

  function ForceRank(f: Force): nat {
    match f
    case Unforced => 0
    case ForceScheduled => 1
    case ForceAwaiting => 2
    case ForceReturned => 3
  }

  /** How far the tasks of a session have come; at most 15. */
  function Rank(x: Session): (n: nat)
    ensures n <= 15
  {
    PumpRank(x.pump) + WatchdogRank(x.watchdog) + TeardownRank(x.teardown) + ForceRank(x.force)
  }

  /** No task goes back, and a task that a segment belongs to goes on. */
  predicate Forward(x: Session, y: Session, g: Segment) {
    && PumpRank(x.pump) <= PumpRank(y.pump) && (IsPumpSegment(g) ==> PumpRank(x.pump) < PumpRank(y.pump))
    && WatchdogRank(x.watchdog) <= WatchdogRank(y.watchdog)
    && (g.IdleFires? || g.WatchdogResumes? ==> WatchdogRank(x.watchdog) < WatchdogRank(y.watchdog))
    && TeardownRank(x.teardown) <= TeardownRank(y.teardown)
    && (IsTeardownSegment(g) ==> TeardownRank(x.teardown) < TeardownRank(y.teardown))
    && ForceRank(x.force) <= ForceRank(y.force)
    && (g.ForceStarts? || g.ForceReturns? ==> ForceRank(x.force) < ForceRank(y.force))
  }

  predicate IsTeardownSegment(g: Segment) {
    g.TeardownStarts? || g.PauseReturns? || g.PauseFails? || g.DestroyEnds? || g.TeardownCancelled?
  }

  /** The pump and the watchdog are started together. */
  predicate StartedTogether(x: Session) {
    x.pump.NoPump? <==> x.watchdog.NoWatchdog?
  }

  lemma PumpForward(s: System, x: Session, g: Segment)
    requires SegmentEnabled(x, g, true) && IsPumpSegment(g) && StartedTogether(x)
    ensures Forward(x, SessionAfter(s, x, g), g) && StartedTogether(SessionAfter(s, x, g))
  {
  }

  lemma TeardownForward(s: System, x: Session, g: Segment)
    requires SegmentEnabled(x, g, true) && IsTeardownSegment(g) && StartedTogether(x)
    ensures Forward(x, SessionAfter(s, x, g), g) && StartedTogether(SessionAfter(s, x, g))
  {
  }

  lemma HangUpForward(s: System, x: Session)
    requires StartedTogether(x)
    ensures Forward(x, OnHangUp(x), HangsUp) && StartedTogether(OnHangUp(x))
  {
    HangUpFrame(x);
    HangUpWatchdog(x);
  }

  lemma HangUpWatchdog(x: Session)
    ensures WatchdogRank(OnHangUp(x).watchdog) >= WatchdogRank(x.watchdog)
    ensures OnHangUp(x).watchdog.NoWatchdog? <==> x.watchdog.NoWatchdog?
  {
    assert OnCancelPump(x).watchdog == x.watchdog;
    assert OnHangUp(x).watchdog == OnCancelWatchdog(OnCancelPump(x)).watchdog;
  }

  lemma SegmentForward(s: System, x: Session, g: Segment)
    requires SegmentEnabled(x, g, true) && StartedTogether(x)
    ensures Forward(x, SessionAfter(s, x, g), g) && StartedTogether(SessionAfter(s, x, g))
  {
    if IsPumpSegment(g) {
      PumpForward(s, x, g);
    } else if IsTeardownSegment(g) {
      TeardownForward(s, x, g);
    } else if g.HangsUp? {
      HangUpForward(s, x);
    }
  }

  lemma {:induction false} TogetherAt(ss: seq<System>, es: seq<Event>, k: nat, i: nat)
    requires IsRun(ss, es) && k <= |es| && i in ss[k].sessions
    ensures StartedTogether(ss[k].sessions[i])
  {
    if k > 0 {
      if i !in ss[k - 1].sessions {
        NewSessionStep(ss[k - 1], es[k - 1], i);
      } else {
        TogetherAt(ss, es, k - 1, i);
        if IsAt(es[k - 1], i) {
          OwnStep(ss[k - 1], es[k - 1], i);
          SegmentForward(ss[k - 1], ss[k - 1].sessions[i], es[k - 1].segment);
        } else {
          OtherStep(ss[k - 1], es[k - 1], i);
        }
      }
    }
  }

  /** How many of the first `k` events are segments of session `i` other than hang-ups. */
  function Steps(es: seq<Event>, k: nat, i: nat): nat
    requires k <= |es|
  {
    if k == 0 then 0
    else Steps(es, k - 1, i) + (if IsAt(es[k - 1], i) && es[k - 1].segment != HangsUp then 1 else 0)
  }

  lemma ForwardCounts(x: Session, y: Session, g: Segment)
    requires Forward(x, y, g)
    ensures Rank(y) >= Rank(x) + (if g.HangsUp? then 0 else 1)
  {
  }

  /** Until the grace period ends nothing is force-closed. */
  ghost predicate UnforcedYet(s: System) {
    s.common.phase.Serving? || s.common.phase.Grace? ==> forall i :: i in s.sessions ==> s.sessions[i].force.Unforced?
  }

  lemma SegmentUnforced(s: System, x: Session, g: Segment)
    requires SegmentEnabled(x, g, false) && x.force.Unforced?
    ensures SegmentEnabled(x, g, true) && SessionAfter(s, x, g).force.Unforced?
  {
    if g.HangsUp? {
      HangUpFrame(x);
    }
  }

  lemma UnforcedSegmentStep(s: System, i: nat, g: Segment)
    requires UnforcedYet(s) && Enabled(s, At(i, g))
    ensures UnforcedYet(Apply(s, At(i, g)))
  {
    SegmentFrame(s, i, g);
    SegmentPhase(s.common, s.sessions[i], g);
    if s.common.phase.Serving? || s.common.phase.Grace? {
      SegmentUnforced(s, s.sessions[i], g);
    }
  }

  lemma UnforcedStep(s: System, e: Event)
    requires UnforcedYet(s) && Enabled(s, e)
    ensures UnforcedYet(Apply(s, e))
  {
    if e.At? {
      UnforcedSegmentStep(s, e.i, e.segment);
    } else if e.Elsewhere? {
      ChorePhase(s, e.chore);
    } else if e.Connects? {
      assert Apply(s, e).common == s.common;
    }
  }

  lemma ChorePhase(s: System, h: Chore)
    requires ChoreEnabled(s, h)
    ensures ChoreStep(s, h).phase.Serving? || ChoreStep(s, h).phase.Grace? ==>
      s.common.phase.Serving? || s.common.phase.Grace?
  {
  }

  lemma SegmentPhase(c: Common, x: Session, g: Segment)
    requires SegmentEnabled(x, g, true)
    ensures CommonAfter(c, x, g).phase == c.phase
  {
  }

  lemma {:induction false} UnforcedAt(ss: seq<System>, es: seq<Event>, k: nat)
    requires IsRun(ss, es) && k <= |es|
    ensures UnforcedYet(ss[k])
  {
    if k > 0 {
      UnforcedAt(ss, es, k - 1);
      UnforcedStep(ss[k - 1], es[k - 1]);
    }
  }

  lemma OtherForward(s: System, e: Event, i: nat)
    requires UnforcedYet(s) && Enabled(s, e) && i in s.sessions && !IsAt(e, i)
    ensures i in Apply(s, e).sessions && Rank(Apply(s, e).sessions[i]) >= Rank(s.sessions[i])
  {
    OtherStep(s, e, i);
    if e.At? {
      SegmentFrame(s, e.i, e.segment);
    }
  }

  /** In any run a session takes at most 15 segments, hang-ups apart: its tasks come to an end. */
  lemma {:induction false} FewSegments(ss: seq<System>, es: seq<Event>, k: nat, i: nat)
    requires IsRun(ss, es) && k <= |es|
    ensures if i in ss[k].sessions then Steps(es, k, i) <= Rank(ss[k].sessions[i]) else Steps(es, k, i) == 0
    ensures Steps(es, k, i) <= 15
  {
    if k > 0 {
      FewSegments(ss, es, k - 1, i);
      if i in ss[k - 1].sessions {
        RankNext(ss, es, k - 1, i);
      } else if i in ss[k].sessions {
        NewSessionStep(ss[k - 1], es[k - 1], i);
      } else {
        AbsentStep(ss[k - 1], es[k - 1], i);
      }
    }
  }

  lemma RankNext(ss: seq<System>, es: seq<Event>, k: nat, i: nat)
    requires IsRun(ss, es) && k < |es| && i in ss[k].sessions
    ensures i in ss[k + 1].sessions
    ensures Rank(ss[k + 1].sessions[i]) >=
      Rank(ss[k].sessions[i]) + (if IsAt(es[k], i) && es[k].segment != HangsUp then 1 else 0)
  {
    if IsAt(es[k], i) {
      TogetherAt(ss, es, k, i);
      OwnStep(ss[k], es[k], i);
      SegmentForward(ss[k], ss[k].sessions[i], es[k].segment);
      ForwardCounts(ss[k].sessions[i], ss[k + 1].sessions[i], es[k].segment);
    } else {
      UnforcedAt(ss, es, k);
      OtherForward(ss[k], es[k], i);
    }
  }

  // ---- no unfinished task is stuck -------------------------------------------------------

  predicate Unfinished(x: Session) {
    || (!x.pump.NoPump? && !x.pump.PumpEnded?)
    || x.watchdog.WatchAwaiting? || x.teardown.Running()
  }

  /** Whatever task of a session is unfinished, some segment of the session can run that is no hang-up. */
  lemma SomethingCanRun(x: Session, forcing: bool)
    requires SessionOk(x) && Unfinished(x)
    ensures exists g: Segment :: g != HangsUp && SegmentEnabled(x, g, forcing)
  {
    var g := Goes(x);
    assert SegmentEnabled(x, g, forcing);
  }

  /** One that can run: the teardown's if there is one running, else the pump's, else the watchdog's. */
  function Goes(x: Session): Segment {
    match x.teardown
    case Requested(_) => if x.teardownCancel then TeardownCancelled else TeardownStarts
    case Pausing(_, _) => PauseReturns
    case Destroying(_, _) => DestroyEnds(0)
    case _ =>
      match x.pump
      case Scheduled => if x.pumpCancel then PumpCancelled else PumpStarts
      case Opening => OpenReturns(true)
      case Resuming(_) => ResumeReturns
      case Cleaning(_) => CleanupEnds
      case LateCheckout(_) => LateCheckoutEnds
      case Reading => StreamEnds
      case Awaiting(_) => PumpResumes(true)
      case _ => WatchdogResumes
  }

  /** A session's unfinished tasks can all be finished from any state a run leads to, without a hang-up. */
  lemma CanFinish(s: System, i: nat) returns (t: System)
    requires Reaches(s) && i in s.sessions
    ensures Reaches(t) && i in t.sessions && !Unfinished(t.sessions[i])
    ensures t.common.phase == s.common.phase
    decreases 15 - Rank(s.sessions[i])
  {
    t := s;
    if Unfinished(s.sessions[i]) {
      var g := Goes(s.sessions[i]);
      ReachedFacts(s, i);
      assert SegmentEnabled(s.sessions[i], g, Forced(s.common.phase, i));
      t := CanGoOn(s, i, g);
      t := CanFinish(t, i);
    }
  }

  lemma CanGoOn(s: System, i: nat, g: Segment) returns (t: System)
    requires Reaches(s) && Enabled(s, At(i, g)) && g != HangsUp && StartedTogether(s.sessions[i])
    ensures Reaches(t) && i in t.sessions && Rank(t.sessions[i]) > Rank(s.sessions[i])
    ensures t.common.phase == s.common.phase
  {
    t := Apply(s, At(i, g));
    Extend(s, At(i, g));
    SegmentFrame(s, i, g);
    SegmentPhase(s.common, s.sessions[i], g);
    SegmentForward(s, s.sessions[i], g);
    ForwardCounts(s.sessions[i], t.sessions[i], g);
  }

  lemma ReachedFacts(s: System, i: nat)
    requires Reaches(s) && i in s.sessions
    ensures SessionOk(s.sessions[i]) && StartedTogether(s.sessions[i])
  {
    var ss, es :| IsRun(ss, es) && ss[|es|] == s;
    ControlAt(ss, es, |es|);
    TogetherAt(ss, es, |es|, i);
  }

  // ---- the idle reaper is on ---------------------------------------------------------------

  /** The session's tasks have been started, and since then no client hung up and the watchdog did not fire. */
  ghost predicate StillWatching(es: seq<Event>, k: nat, i: nat)
    requires k <= |es|
  {
    exists n :: 0 <= n < k && es[n] == At(i, SessionStarted) && forall m :: n < m < k ==> !EndsWatch(es[m], i)
  }

  predicate EndsWatch(e: Event, i: nat) {
    e == At(i, HangsUp) || e == At(i, IdleFires)
  }

  lemma WatchNext(es: seq<Event>, k: nat, i: nat)
    requires k < |es|
    ensures StillWatching(es, k + 1, i) <==>
      es[k] == At(i, SessionStarted) || (StillWatching(es, k, i) && !EndsWatch(es[k], i))
  {
    if StillWatching(es, k, i) && !EndsWatch(es[k], i) {
      var n :| 0 <= n < k && es[n] == At(i, SessionStarted) && forall m :: n < m < k ==> !EndsWatch(es[m], i);
      assert es[n] == At(i, SessionStarted);
    }
  }

  lemma SegmentWatch(s: System, x: Session, g: Segment)
    requires SegmentEnabled(x, g, true) && StartedTogether(x)
    ensures SessionAfter(s, x, g).watchdog.Watching? <==>
      if g.SessionStarted? then s.idleEnabled else x.watchdog.Watching? && !g.HangsUp? && !g.IdleFires?
  {
    if IsPumpSegment(g) {
      PumpSegmentWatch(s, x, g);
    } else if IsTeardownSegment(g) {
      assert SessionAfter(s, x, g).watchdog == x.watchdog;
    }
  }

  lemma PumpSegmentWatch(s: System, x: Session, g: Segment)
    requires SegmentEnabled(x, g, true) && StartedTogether(x) && IsPumpSegment(g)
    ensures SessionAfter(s, x, g).watchdog.Watching? <==>
      if g.SessionStarted? then s.idleEnabled else x.watchdog.Watching?
  {
  }

  lemma WatchStep(ss: seq<System>, es: seq<Event>, k: nat, i: nat)
    requires IsRun(ss, es) && k < |es| && i in ss[k].sessions
    ensures i in ss[k + 1].sessions
    ensures ss[k + 1].sessions[i].watchdog.Watching? <==>
      if es[k] == At(i, SessionStarted) then ss[k].idleEnabled
      else ss[k].sessions[i].watchdog.Watching? && !EndsWatch(es[k], i)
  {
    if IsAt(es[k], i) {
      TogetherAt(ss, es, k, i);
      OwnStep(ss[k], es[k], i);
      SegmentWatch(ss[k], ss[k].sessions[i], es[k].segment);
    } else {
      OtherStep(ss[k], es[k], i);
    }
  }

  lemma SettingsStay(s: System, e: Event)
    requires Enabled(s, e)
    ensures Apply(s, e).keepEnabled == s.keepEnabled && Apply(s, e).idleEnabled == s.idleEnabled
  {
  }

  lemma {:induction false} SettingAt(ss: seq<System>, es: seq<Event>, k: nat)
    requires IsRun(ss, es) && k <= |es|
    ensures ss[k].idleEnabled == ss[0].idleEnabled && ss[k].keepEnabled == ss[0].keepEnabled
  {
    if k > 0 {
      SettingAt(ss, es, k - 1);
      SettingsStay(ss[k - 1], es[k - 1]);
    }
  }

  lemma NewIsNotWatched(ss: seq<System>, es: seq<Event>, k: nat, i: nat)
    requires IsRun(ss, es) && k < |es| && i !in ss[k].sessions && i in ss[k + 1].sessions
    ensures !ss[k + 1].sessions[i].watchdog.Watching? && !StillWatching(es, k + 1, i)
  {
    NewSessionStep(ss[k], es[k], i);
    AbsentBefore(ss, es, k, i);
  }

  lemma {:induction false} WatchAt(ss: seq<System>, es: seq<Event>, k: nat, i: nat)
    requires IsRun(ss, es) && k <= |es| && i in ss[k].sessions
    ensures ss[k].sessions[i].watchdog.Watching? <==> ss[0].idleEnabled && StillWatching(es, k, i)
  {
    if k > 0 {
      if i in ss[k - 1].sessions {
        WatchAt(ss, es, k - 1, i);
        WatchStep(ss, es, k - 1, i);
        WatchNext(es, k - 1, i);
        SettingAt(ss, es, k - 1);
      } else {
        NewIsNotWatched(ss, es, k - 1, i);
      }
    }
  }

  /**
   From the moment its tasks start until the client hangs up or the watchdog fires, a session is
   watched, and can be reaped, exactly if the idle reaper is on.
   */
  lemma WatchedExactlyIf(ss: seq<System>, es: seq<Event>, k: nat, i: nat)
    requires IsRun(ss, es) && k <= |es| && i in ss[k].sessions
    ensures ss[k].sessions[i].watchdog.Watching? <==> ss[0].idleEnabled && StillWatching(es, k, i)
    ensures Enabled(ss[k], At(i, IdleFires)) <==> ss[0].idleEnabled && StillWatching(es, k, i)
  {
    WatchAt(ss, es, k, i);
  }

  lemma SegmentAwait(s: System, x: Session, g: Segment)
    requires SegmentEnabled(x, g, true) && StartedTogether(x)
    ensures SessionAfter(s, x, g).watchdog.WatchAwaiting? <==>
      g.IdleFires? || (x.watchdog.WatchAwaiting? && !g.WatchdogResumes?)
  {
    if IsPumpSegment(g) {
      assert SessionAfter(s, x, g).watchdog == x.watchdog || g.SessionStarted?;
    } else if IsTeardownSegment(g) {
      assert SessionAfter(s, x, g).watchdog == x.watchdog;
    }
  }

  /** The watchdog goes forward only: it fires at most once, and is let go at most once and after that. */
  predicate FiredBy(w: Watchdog, fired: bool, gone: bool) {
    && (w.WatchAwaiting? <==> fired && !gone)
    && (gone ==> fired && w.WatchEnded?)
  }

  lemma FiredStep(s: System, x: Session, g: Segment, fired: bool, gone: bool)
    requires SegmentEnabled(x, g, true) && StartedTogether(x) && FiredBy(x.watchdog, fired, gone)
    ensures FiredBy(SessionAfter(s, x, g).watchdog, fired || g.IdleFires?, gone || g.WatchdogResumes?)
  {
    SegmentAwait(s, x, g);
    SegmentForward(s, x, g);
  }

  /**
   From the moment the watchdog fires until it is let go, it awaits the session's teardown: a
   hang-up or a timeout that comes in between finds it there.
   */
  lemma {:induction false} AwaitsExactlyIf(ss: seq<System>, es: seq<Event>, k: nat, i: nat)
    requires IsRun(ss, es) && k <= |es| && i in ss[k].sessions
    ensures FiredBy(ss[k].sessions[i].watchdog, Happened(es, k, i, IdleFires), Happened(es, k, i, WatchdogResumes))
  {
    if k > 0 {
      HappenedNext(es, k - 1, i, IdleFires);
      HappenedNext(es, k - 1, i, WatchdogResumes);
      if i !in ss[k - 1].sessions {
        NewNeverFired(ss, es, k - 1, i);
      } else {
        AwaitsExactlyIf(ss, es, k - 1, i);
        AwaitNext(ss, es, k - 1, i);
      }
    }
  }

  lemma NewNeverFired(ss: seq<System>, es: seq<Event>, k: nat, i: nat)
    requires IsRun(ss, es) && k < |es| && i !in ss[k].sessions && i in ss[k + 1].sessions
    ensures ss[k + 1].sessions[i].watchdog.NoWatchdog?
    ensures !Happened(es, k + 1, i, IdleFires) && !Happened(es, k + 1, i, WatchdogResumes)
  {
    NewSessionStep(ss[k], es[k], i);
    AbsentBefore(ss, es, k, i);
  }

  lemma AwaitNext(ss: seq<System>, es: seq<Event>, k: nat, i: nat)
    requires IsRun(ss, es) && k < |es| && i in ss[k].sessions
    requires FiredBy(ss[k].sessions[i].watchdog, Happened(es, k, i, IdleFires), Happened(es, k, i, WatchdogResumes))
    ensures i in ss[k + 1].sessions
    ensures FiredBy(ss[k + 1].sessions[i].watchdog,
                    Happened(es, k, i, IdleFires) || es[k] == At(i, IdleFires),
                    Happened(es, k, i, WatchdogResumes) || es[k] == At(i, WatchdogResumes))
  {
    if IsAt(es[k], i) {
      TogetherAt(ss, es, k, i);
      OwnStep(ss[k], es[k], i);
      var x, fired, gone := ss[k].sessions[i], Happened(es, k, i, IdleFires), Happened(es, k, i, WatchdogResumes);
      FiredStep(ss[k], x, es[k].segment, fired, gone);
    } else {
      OtherStep(ss[k], es[k], i);
    }
  }

  // ---- nobody walks away early -----------------------------------------------------------

  /**
   Whoever awaits a session's teardown goes on only once that is over, a force-close only once it
   ran to its end; and a teardown a cancellation has reached before its first step never takes it.
   */
  lemma NobodyLeavesEarly(ss: seq<System>, es: seq<Event>, k: nat, i: nat)
    requires IsRun(ss, es) && k < |es| && IsAt(es[k], i)
    ensures i in ss[k].sessions
    ensures es[k].segment.PumpResumes? || es[k].segment.WatchdogResumes? ==> ss[k].sessions[i].teardown.Over()
    ensures es[k].segment.ForceReturns? ==> ss[k].sessions[i].teardown.Finished?
    ensures es[k].segment.TeardownStarts? ==> !TeardownCancelPending(ss, es, k, i)
    ensures es[k].segment.TeardownCancelled? ==> TeardownCancelPending(ss, es, k, i)
    ensures es[k].segment.PumpCancelled? ==> PumpCancelPending(ss, es, k, i)
  {
    assert Enabled(ss[k], es[k]);
    CancelledExactlyBy(ss, es, k, i);
    PumpCancelledExactlyBy(ss, es, k, i);
  }

  // ---- what can go wrong is covered ---------------------------------------------------------

  /** Any `open` may fail, which ends the pump. */
  lemma OpenMayFail(s: System, i: nat) returns (t: System)
    requires Reaches(s) && i in s.sessions && s.sessions[i].pump.Opening?
    ensures Reaches(t) && t.common == s.common && i in t.sessions && t.sessions[i].pump.PumpEnded?
    ensures t.sessions[i].slot == s.sessions[i].slot
  {
    t := Apply(s, At(i, RoomFails));
    Extend(s, At(i, RoomFails));
    SegmentFrame(s, i, RoomFails);
  }

  /** Any `resume` may fail, and then the kept room is destroyed. */
  lemma ResumeMayFail(s: System, i: nat) returns (t: System)
    requires Reaches(s) && i in s.sessions && s.sessions[i].pump.Resuming?
    ensures Reaches(t) && t.common == Settle(s.common, s.sessions[i].pump.kept.sandbox)
    ensures i in t.sessions && t.sessions[i].pump.PumpEnded?
  {
    t := Apply(s, At(i, RoomFails));
    Extend(s, At(i, RoomFails));
    SegmentFrame(s, i, RoomFails);
    t := CleanupMayEnd(t, i);
  }

  lemma CleanupMayEnd(s: System, i: nat) returns (t: System)
    requires Reaches(s) && i in s.sessions && s.sessions[i].pump.Cleaning?
    ensures Reaches(t) && t.common == Settle(s.common, s.sessions[i].pump.kept.sandbox)
    ensures i in t.sessions && t.sessions[i].pump.PumpEnded?
  {
    t := Apply(s, At(i, CleanupEnds));
    Extend(s, At(i, CleanupEnds));
    SegmentFrame(s, i, CleanupEnds);
  }

  /** Any pause may raise, and then the room is destroyed with whatever status. */
  lemma PauseMayFail(s: System, i: nat, status: int) returns (t: System)
    requires Reaches(s) && i in s.sessions && s.sessions[i].teardown.Pausing?
    ensures Reaches(t) && t.common == Settle(s.common, s.sessions[i].teardown.room)
    ensures i in t.sessions && t.sessions[i].teardown.Finished? && t.sessions[i].status == Some(status)
  {
    t := Apply(s, At(i, PauseFails));
    Extend(s, At(i, PauseFails));
    SegmentFrame(s, i, PauseFails);
    t := DestroyMayEnd(t, i, status);
  }

  lemma DestroyMayEnd(s: System, i: nat, status: int) returns (t: System)
    requires Reaches(s) && i in s.sessions && s.sessions[i].teardown.Destroying?
    ensures Reaches(t) && t.common == Settle(s.common, s.sessions[i].teardown.room)
    ensures i in t.sessions && t.sessions[i].teardown.Finished? && t.sessions[i].status == Some(status)
  {
    t := Apply(s, At(i, DestroyEnds(status)));
    Extend(s, At(i, DestroyEnds(status)));
    SegmentFrame(s, i, DestroyEnds(status));
  }

  /** Any kept room may expire, which destroys it and frees its username. */
  lemma KeptRoomMayExpire(s: System, user: User) returns (t: System)
    requires Reaches(s) && user in s.common.registry
    ensures Reaches(t) && user !in t.common.registry && s.common.registry[user].sandbox in t.common.books.settled
    ensures t.common.books.log == s.common.books.log + [Consumption(s.common.registry[user], Expiry)]
    ensures t.sessions == s.sessions
  {
    var h := s.common.registry[user];
    TimerIsPending(s, user);
    t := Apply(s, Elsewhere(ExpiryWakes(h.id)));
    Extend(s, Elsewhere(ExpiryWakes(h.id)));
    assert t.common.timers[h.id] == Timer(user, h, Deleting);
    Extend(t, Elsewhere(ExpiryEnds(h.id)));
    t := Apply(t, Elsewhere(ExpiryEnds(h.id)));
  }

  lemma TimerIsPending(s: System, user: User)
    requires Reaches(s) && user in s.common.registry
    ensures var h := s.common.registry[user];
      h.id < |s.common.timers| && s.common.timers[h.id] == Timer(user, h, Sleeping)
  {
    var ss, es :| IsRun(ss, es) && ss[|es|] == s;
    InvAt(ss, es, |es|);
    assert TimerPending(s.common, s.common.registry[user]);
  }

  /** A destroy that raises in the sweep, or a force-close that raises, may abandon any shutdown. */
  lemma ShutdownMayAbort(s: System) returns (t: System)
    requires Reaches(s)
    requires || (s.common.phase.Sweeping? && s.common.phase.busy.Some?)
             || (s.common.phase.Forcing? && exists i ::
                  i in s.common.phase.targets && i in s.sessions && !s.sessions[i].force.ForceReturned?)
    ensures Reaches(t) && t.common.phase.Aborted?
  {
    var h := if s.common.phase.Sweeping? then SweepRaises else ForceRaises;
    Extend(s, Elsewhere(h));
    t := Apply(s, Elsewhere(h));
  }

  /** The force-closes may run out of time at any moment, which cancels what they still await. */
  lemma TimeMayRunOut(s: System) returns (t: System)
    requires Reaches(s) && s.common.phase.Forcing?
    ensures Reaches(t) && t.common.phase == Closing(true) && t.sessions.Keys == s.sessions.Keys
    ensures forall i :: i in s.sessions && TimeoutReaches(s.common.phase, i, s.sessions[i]) ==>
                          t.sessions[i].teardownCancel
  {
    t := Apply(s, ForceTimesOut);
    Extend(s, ForceTimesOut);
  }

  // ---- who consumes a kept room --------------------------------------------------------------

  /** The consumption a step makes: by a reconnect, by its own timer, or by the sweep. */
  function Consumes(s: System, e: Event): seq<Consumption>
    requires Enabled(s, e)
  {
    match e
    case At(i, PumpStarts) =>
      if s.sessions[i].user in s.common.registry
      then [Consumption(s.common.registry[s.sessions[i].user], Reconnect)] else []
    case Elsewhere(ExpiryWakes(t)) =>
      var timer := s.common.timers[t];
      if timer.user in s.common.registry && s.common.registry[timer.user] == timer.kept
      then [Consumption(timer.kept, Expiry)] else []
    case Elsewhere(SweepNext) =>
      var (user, kept) := s.common.phase.todo[0];
      if user in s.common.registry && s.common.registry[user] == kept then [Consumption(kept, Sweep)] else []
    case _ => []
  }

  lemma SegmentConsumes(s: System, i: nat, g: Segment)
    requires Enabled(s, At(i, g))
    ensures CommonAfter(s.common, s.sessions[i], g).books.log == s.common.books.log + Consumes(s, At(i, g))
  {
  }

  lemma ChoreConsumes(s: System, h: Chore)
    requires Enabled(s, Elsewhere(h))
    ensures ChoreStep(s, h).books.log == s.common.books.log + Consumes(s, Elsewhere(h))
  {
  }

  /** The log says who consumed what, and nothing else is ever consumed. */
  lemma LogIsTrue(ss: seq<System>, es: seq<Event>, k: nat)
    requires IsRun(ss, es) && k < |es|
    ensures Enabled(ss[k], es[k])
    ensures ss[k + 1].common.books.log == ss[k].common.books.log + Consumes(ss[k], es[k])
  {
    var s, e := ss[k], es[k];
    if e.At? {
      SegmentFrame(s, e.i, e.segment);
      SegmentConsumes(s, e.i, e.segment);
    } else if e.Elsewhere? {
      ChoreConsumes(s, e.chore);
    }
  }

  // ---- the goodbye ---------------------------------------------------------------------------

  /**
   When the pump comes out of the teardown, it reports the shell's status exactly if the channel is
   open, the teardown was its own and ran to its end, and no cancellation is waiting for the pump.
   */
  lemma GoodbyeExactlyIf(ss: seq<System>, es: seq<Event>, k: nat, i: nat, open: bool)
    requires IsRun(ss, es) && k < |es| && es[k] == At(i, PumpResumes(open))
    ensures i in ss[k].sessions && i in ss[k + 1].sessions
    ensures ss[k + 1].sessions[i].reported ==
      if open && ss[k].sessions[i].teardown == Finished(ShellExit) && !PumpCancelPending(ss, es, k, i)
      then ss[k].sessions[i].status else None
    ensures ss[k].sessions[i].teardown == Finished(ShellExit) ==> ss[k].sessions[i].status.Some?
  {
    assert Enabled(ss[k], es[k]);
    InvAt(ss, es, k);
    assert SessionOk(ss[k].sessions[i]) && OutcomeOk(ss[k].sessions[i], ss[k].keepEnabled);
    PumpCancelledExactlyBy(ss, es, k, i);
    OwnStep(ss[k], es[k], i);
  }

  // ---- when shutdown counts as timed out ---------------------------------------------------

  ghost predicate TimedOutBefore(es: seq<Event>, k: nat)
    requires k <= |es|
  {
    exists n :: 0 <= n < k && es[n] == ForceTimesOut
  }

  lemma TimedOutNext(es: seq<Event>, k: nat)
    requires k < |es|
    ensures TimedOutBefore(es, k + 1) <==> TimedOutBefore(es, k) || es[k] == ForceTimesOut
  {
    if n :| 0 <= n < k && es[n] == ForceTimesOut {
      assert es[n] == ForceTimesOut;
    }
  }

  /** What the phase says of a force-close timeout. */
  predicate PhaseSays(p: Phase, timedOut: bool) {
    match p
    case Closing(late) => late == timedOut
    case Sweeping(late, _, _) => late == timedOut
    case Closed(late) => late == timedOut
    case Aborted => true
    case _ => !timedOut
  }

  lemma PhaseStep(s: System, e: Event, timedOut: bool)
    requires Enabled(s, e) && PhaseSays(s.common.phase, timedOut)
    ensures PhaseSays(Apply(s, e).common.phase, timedOut || e == ForceTimesOut)
  {
    if e.At? {
      SegmentFrame(s, e.i, e.segment);
      SegmentPhase(s.common, s.sessions[e.i], e.segment);
    }
  }

  /** From the drain on, shutdown counts as timed out exactly if the force-closes ran out of time. */
  lemma {:induction false} TimedOutExactlyIf(ss: seq<System>, es: seq<Event>, k: nat)
    requires IsRun(ss, es) && k <= |es|
    ensures PhaseSays(ss[k].common.phase, TimedOutBefore(es, k))
  {
    if k > 0 {
      TimedOutExactlyIf(ss, es, k - 1);
      PhaseStep(ss[k - 1], es[k - 1], TimedOutBefore(es, k - 1));
      TimedOutNext(es, k - 1);
    }
  }

  // ---- shutdown can complete in time -------------------------------------------------------

  /** No cancellation has reached the session's teardown. */
  predicate Undisturbed(x: Session) {
    !x.teardownCancel && !x.teardown.NeverRan? && !x.teardown.Interrupted?
  }

  /** The next segment on the way of an undisturbed force-close. */
  function Forces(x: Session): Segment {
    if x.force.ForceScheduled? then ForceStarts
    else match x.teardown
         case Requested(_) => TeardownStarts
         case Pausing(_, _) => PauseReturns
         case Destroying(_, _) => DestroyEnds(0)
         case _ => ForceReturns
  }

  lemma ForcesRuns(s: System, x: Session)
    requires SessionOk(x) && StartedTogether(x) && Undisturbed(x) && (x.force.ForceScheduled? || x.force.ForceAwaiting?)
    requires x.force.ForceAwaiting? ==> !x.teardown.NoTeardown?
    ensures SegmentEnabled(x, Forces(x), true)
    ensures var y := SessionAfter(s, x, Forces(x));
      && Undisturbed(y) && !y.force.Unforced? && Rank(y) > Rank(x)
      && (y.force.ForceAwaiting? ==> !y.teardown.NoTeardown?)
  {
    SegmentForward(s, x, Forces(x));
    ForwardCounts(x, SessionAfter(s, x, Forces(x)), Forces(x));
  }

  /** One force-close comes back, and nothing else of the sessions or the phase changes. */
  lemma CanForce(s: System, i: nat) returns (t: System)
    requires Reaches(s) && Forced(s.common.phase, i) && i in s.sessions && Undisturbed(s.sessions[i])
    requires !s.sessions[i].force.Unforced?
    ensures Reaches(t) && t.common.phase == s.common.phase && t.keepEnabled == s.keepEnabled
    ensures t.sessions.Keys == s.sessions.Keys && t.sessions[i].force.ForceReturned?
    ensures forall j :: j in s.sessions && j != i ==> t.sessions[j] == s.sessions[j]
    decreases 15 - Rank(s.sessions[i])
  {
    t := s;
    var x := s.sessions[i];
    if !x.force.ForceReturned? {
      ReachedFacts(s, i);
      ForcesRuns(s, x);
      var next := Apply(s, At(i, Forces(x)));
      Extend(s, At(i, Forces(x)));
      SegmentFrame(s, i, Forces(x));
      SegmentPhase(s.common, x, Forces(x));
      t := CanForce(next, i);
    }
  }

  /** Every force-close of the drain comes back. */
  lemma CanForceAll(s: System, rest: set<nat>) returns (t: System)
    requires Reaches(s) && s.common.phase.Forcing? && rest <= s.common.phase.targets <= s.sessions.Keys
    requires forall i :: i in rest ==> Undisturbed(s.sessions[i]) && !s.sessions[i].force.Unforced?
    requires forall i :: i in s.common.phase.targets && i !in rest ==> s.sessions[i].force.ForceReturned?
    ensures Reaches(t) && t.common.phase == s.common.phase && t.sessions.Keys == s.sessions.Keys
    ensures forall i :: i in s.common.phase.targets ==> t.sessions[i].force.ForceReturned?
    decreases |rest|
  {
    t := s;
    if i :| i in rest {
      t := CanForce(s, i);
      t := CanForceAll(t, rest - {i});
    }
  }

  /** The sweep gets through its list. */
  lemma CanSweep(s: System) returns (t: System)
    requires Reaches(s) && s.common.phase.Sweeping? && s.common.phase.busy.None?
    ensures Reaches(t) && t.common.phase == Closed(s.common.phase.timedOut)
    decreases |s.common.phase.todo|
  {
    if s.common.phase.todo == [] {
      Extend(s, Elsewhere(BackendCloses));
      t := Apply(s, Elsewhere(BackendCloses));
    } else {
      t := SweepTurn(s);
      t := CanSweep(t);
    }
  }

  lemma SweepTurn(s: System) returns (t: System)
    requires Reaches(s) && s.common.phase.Sweeping? && s.common.phase.busy.None? && s.common.phase.todo != []
    ensures Reaches(t) && t.common.phase == s.common.phase.(todo := s.common.phase.todo[1..])
  {
    Extend(s, Elsewhere(SweepNext));
    t := Apply(s, Elsewhere(SweepNext));
    if t.common.phase.busy.Some? {
      t := SweepDone(t);
    }
  }

  lemma SweepDone(s: System) returns (t: System)
    requires Reaches(s) && s.common.phase.Sweeping? && s.common.phase.busy.Some?
    ensures Reaches(t) && t.common.phase == s.common.phase.(busy := None)
  {
    Extend(s, Elsewhere(SweepEnds));
    t := Apply(s, Elsewhere(SweepEnds));
  }

  lemma InOrder(users: set<User>) returns (order: seq<User>)
    ensures forall u :: u in order <==> u in users
    decreases |users|
  {
    order := [];
    if u :| u in users {
      order := InOrder(users - {u});
      order := [u] + order;
    }
  }

  lemma CanSweepAll(s: System) returns (t: System)
    requires Reaches(s) && s.common.phase.Closing?
    ensures Reaches(t) && t.common.phase == Closed(s.common.phase.timedOut)
  {
    var order := InOrder(s.common.registry.Keys);
    Extend(s, Elsewhere(SweepBegins(order)));
    t := CanSweep(Apply(s, Elsewhere(SweepBegins(order))));
  }

  /** A server no cancellation has disturbed can be shut down in time, whatever its sessions are doing. */
  lemma CanCloseInTime(s: System) returns (t: System)
    requires Reaches(s) && s.common.phase.Serving?
    requires forall i :: i in s.active && i in s.sessions ==> Undisturbed(s.sessions[i])
    ensures Reaches(t) && t.common.phase == Closed(false)
  {
    Extend(s, Elsewhere(ShutdownBegins));
    t := Apply(s, Elsewhere(ShutdownBegins));
    if s.active != {} {
      t := CanDrain(t);
    }
    t := CanSweepAll(t);
  }

  lemma CanDrain(s: System) returns (t: System)
    requires Reaches(s) && s.common.phase.Grace? && s.active != {}
    requires forall i :: i in s.active && i in s.sessions ==> Undisturbed(s.sessions[i])
    ensures Reaches(t) && t.common.phase == Closing(false)
  {
    ActiveAreSessions(s);
    Extend(s, GraceEnds);
    var forcing := Apply(s, GraceEnds);
    t := CanForceAll(forcing, s.active);
    Extend(t, Elsewhere(AllForced));
    t := Apply(t, Elsewhere(AllForced));
  }

  lemma ActiveAreSessions(s: System)
    requires Reaches(s)
    ensures s.active <= s.sessions.Keys
  {
    var ss, es :| IsRun(ss, es) && ss[|es|] == s;
    ControlAt(ss, es, |es|);
  }

  // ---- one shutdown from beginning to end --------------------------------------------------

  /** One room kept, one session reading: what shutdown then does, up to the force-close that comes back. */
  lemma DrainOneSession(s: System, i: nat, user: User, room: Sandbox) returns (t: System)
    requires Reaches(s) && s.common.phase.Serving? && s.active == {i} && i in s.sessions
    requires s.sessions[i] == CheckedIn(user, room)
    ensures Reaches(t) && t.common == Settle(s.common, room).(phase := Closing(false))
  {
    Extend(s, Elsewhere(ShutdownBegins));
    var grace := Apply(s, Elsewhere(ShutdownBegins));
    Extend(grace, GraceEnds);
    t := Apply(grace, GraceEnds);
    assert t.sessions[i] == CheckedIn(user, room).(force := ForceScheduled);
    t := ForceOneSession(t, i, user, room);
    Extend(t, Elsewhere(AllForced));
    t := Apply(t, Elsewhere(AllForced));
  }

  lemma ForceOneSession(s: System, i: nat, user: User, room: Sandbox) returns (t: System)
    requires Reaches(s) && s.common.phase == Forcing({i}) && i in s.sessions
    requires s.sessions[i] == CheckedIn(user, room).(force := ForceScheduled)
    ensures Reaches(t) && t.common == Settle(s.common, room) && t.sessions.Keys == s.sessions.Keys
    ensures t.sessions[i].force.ForceReturned?
  {
    Extend(s, At(i, ForceStarts));
    SegmentFrame(s, i, ForceStarts);
    t := Apply(s, At(i, ForceStarts));
    Extend(t, At(i, TeardownStarts));
    SegmentFrame(t, i, TeardownStarts);
    t := Apply(t, At(i, TeardownStarts));
    t := FinishForced(t, i, room);
  }

  lemma FinishForced(s: System, i: nat, room: Sandbox) returns (t: System)
    requires Reaches(s) && s.common.phase == Forcing({i}) && i in s.sessions
    requires s.sessions[i].teardown == Destroying(ForcedClose, room) && s.sessions[i].force.ForceAwaiting?
    ensures Reaches(t) && t.common == Settle(s.common, room) && t.sessions.Keys == s.sessions.Keys
    ensures t.sessions[i].force.ForceReturned?
  {
    t := s;
    Extend(t, At(i, DestroyEnds(0)));
    SegmentFrame(t, i, DestroyEnds(0));
    t := Apply(t, At(i, DestroyEnds(0)));
    Extend(t, At(i, ForceReturns));
    SegmentFrame(t, i, ForceReturns);
    t := Apply(t, At(i, ForceReturns));
  }

  lemma SweepOneRoom(s: System, user: User, kept: Kept) returns (t: System)
    requires Reaches(s) && s.common.phase == Closing(false) && s.common.registry == map[user := kept]
    ensures Reaches(t)
    ensures t.common == Settle(Consume(s.common, user, Sweep), kept.sandbox).(phase := Closed(false))
  {
    Extend(s, Elsewhere(SweepBegins([user])));
    t := Apply(s, Elsewhere(SweepBegins([user])));
    assert t.common.phase.todo == [(user, kept)];
    Extend(t, Elsewhere(SweepNext));
    t := Apply(t, Elsewhere(SweepNext));
    Extend(t, Elsewhere(SweepEnds));
    t := Apply(t, Elsewhere(SweepEnds));
    Extend(t, Elsewhere(BackendCloses));
    t := Apply(t, Elsewhere(BackendCloses));
  }

  /** The first client's room is kept, the second client is using one. */
  lemma KeptAndReading() returns (t: System)
    ensures Reaches(t) && t.active == {1} && 1 in t.sessions && t.sessions[1] == CheckedIn("v", Sandbox(1, true))
    ensures t.common == Bear(Keep(Bear(Init(true, false).common, true), "u", Sandbox(0, true)), true)
  {
    InitReached(true, false);
    CheckIn(Init(true, false), 0, "u");
    var s := AfterCheckIn(Init(true, false), 0, "u");
    s := HangUpAndKeep(s, 0, "u", Sandbox(0, true));
    CheckIn(s, 1, "v");
    t := AfterCheckIn(s, 1, "v");
  }

  /** A kept room and a session in use: shutdown destroys both and reaches `backend.close()` in time. */
  lemma ShutdownClosesInTime() returns (t: System)
    ensures Reaches(t) && t.common.phase == Closed(false) && t.common.registry == map[]
    ensures t.common.books.settled == {Sandbox(0, true), Sandbox(1, true)} == t.common.books.born
    ensures t.common.books.log == [Consumption(Kept(0, Sandbox(0, true)), Sweep)] && t.common.books.lost == map[]
  {
    var s := KeptAndReading();
    s := DrainOneSession(s, 1, "v", Sandbox(1, true));
    t := SweepOneRoom(s, "u", Kept(0, Sandbox(0, true)));
  }
}
