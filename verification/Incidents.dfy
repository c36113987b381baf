/**
 How a cancellation reaches a teardown, and what it then costs.

 The comments at `_teardown` promise that cancelling the pump cannot abort a
 destroy that is under way.  The code awaits the teardown task unshielded, so it
 can; this module says exactly when, and shows runs in which rooms are lost.
 */
module Incidents {
  import opened Wrappers
  import opened RoomSessions
  import opened Lifecycle
  import opened SessionInvariants
  import opened Ownership
  import opened Runs

  /** A hang-up passes its cancellation on to the teardown: something it cancels is awaiting it. */
  predicate HangUpReaches(x: Session) {
    x.teardown.Running() && (x.pump.Awaiting? || x.watchdog.WatchAwaiting?)
  }

  predicate TimeoutReaches(phase: Phase, i: nat, x: Session) {
    Forced(phase, i) && x.force.ForceAwaiting? && x.teardown.Running()
  }

  predicate CancelsTeardown(s: System, e: Event, i: nat) {
    && i in s.sessions
    && ((e == At(i, HangsUp) && HangUpReaches(s.sessions[i]))
        || (e == ForceTimesOut && TimeoutReaches(s.common.phase, i, s.sessions[i])))
  }

  lemma PumpCancelReaches(x: Session)
    ensures OnCancelPump(x).teardownCancel <==> x.teardownCancel || (x.pump.Awaiting? && !x.teardown.Over())
    ensures OnCancelPump(x).watchdog == x.watchdog && OnCancelPump(x).teardown == x.teardown
  {
  }

  lemma WatchdogCancelReaches(x: Session)
    ensures OnCancelWatchdog(x).teardownCancel <==>
      x.teardownCancel || (x.watchdog.WatchAwaiting? && !x.teardown.Over())
  {
  }

  lemma HangUpCancels(x: Session)
    requires SessionOk(x)
    ensures OnHangUp(x).teardownCancel <==> x.teardownCancel || HangUpReaches(x)
  {
    PumpCancelReaches(x);
    WatchdogCancelReaches(OnCancelPump(x));
  }

  lemma SegmentCancels(s: System, x: Session, g: Segment)
    requires SessionOk(x) && SegmentEnabled(x, g, true)
    ensures SessionAfter(s, x, g).teardownCancel <==>
      (x.teardownCancel && !g.PauseFails?) || (g.HangsUp? && HangUpReaches(x))
  {
    if g.HangsUp? {
      HangUpCancels(x);
    }
  }

  lemma TimeoutCancels(s: System, i: nat)
    requires Control(s) && s.common.phase.Forcing? && i in s.sessions
    ensures i in ForceTimeout(s).sessions
    ensures ForceTimeout(s).sessions[i].teardownCancel <==>
      s.sessions[i].teardownCancel || TimeoutReaches(s.common.phase, i, s.sessions[i])
  {
    assert SessionOk(s.sessions[i]);
  }

  lemma CancelStep(s: System, e: Event, i: nat)
    requires Control(s) && Enabled(s, e) && i in s.sessions
    ensures i in Apply(s, e).sessions
    ensures Apply(s, e).sessions[i].teardownCancel <==>
      (s.sessions[i].teardownCancel && e != At(i, PauseFails)) || CancelsTeardown(s, e, i)
  {
    if IsAt(e, i) {
      OwnStep(s, e, i);
      SegmentCancels(s, s.sessions[i], e.segment);
    } else if e.ForceTimesOut? {
      TimeoutCancels(s, i);
    } else if e.At? {
      SegmentFrame(s, e.i, e.segment);
    }
  }

  /** A cancellation reached the teardown, and no pause has raised since, which would have swallowed it. */
  ghost predicate TeardownCancelPending(ss: seq<System>, es: seq<Event>, k: nat, i: nat)
    requires |ss| > |es| >= k
  {
    exists n :: 0 <= n < k && CancelsTeardown(ss[n], es[n], i) && forall m :: n < m < k ==> es[m] != At(i, PauseFails)
  }

  lemma TeardownCancelNext(ss: seq<System>, es: seq<Event>, k: nat, i: nat)
    requires |ss| > |es| > k
    ensures TeardownCancelPending(ss, es, k + 1, i) <==>
      (TeardownCancelPending(ss, es, k, i) && es[k] != At(i, PauseFails)) || CancelsTeardown(ss[k], es[k], i)
  {
    if es[k] != At(i, PauseFails) && TeardownCancelPending(ss, es, k, i) {
      var n :| 0 <= n < k && CancelsTeardown(ss[n], es[n], i) && forall m :: n < m < k ==> es[m] != At(i, PauseFails);
      assert CancelsTeardown(ss[n], es[n], i);
    }
  }

  lemma CancelNext(ss: seq<System>, es: seq<Event>, k: nat, i: nat)
    requires IsRun(ss, es) && k < |es| && i in ss[k + 1].sessions
    ensures if i in ss[k].sessions
            then ss[k + 1].sessions[i].teardownCancel <==>
                   (ss[k].sessions[i].teardownCancel && es[k] != At(i, PauseFails)) || CancelsTeardown(ss[k], es[k], i)
            else !ss[k + 1].sessions[i].teardownCancel && !CancelsTeardown(ss[k], es[k], i)
  {
    if i in ss[k].sessions {
      ControlAt(ss, es, k);
      CancelStep(ss[k], es[k], i);
    } else {
      NewSessionStep(ss[k], es[k], i);
    }
  }

  /**
   A cancellation is on its way to a session's teardown exactly if, earlier in the run, the
   client hung up while the pump or the watchdog was awaiting the unfinished teardown, or the
   force-close of that session timed out while awaiting it, and no pause has raised since.
   */
  lemma {:induction false} CancelledExactlyBy(ss: seq<System>, es: seq<Event>, k: nat, i: nat)
    requires IsRun(ss, es) && k <= |es| && i in ss[k].sessions
    ensures ss[k].sessions[i].teardownCancel <==> TeardownCancelPending(ss, es, k, i)
  {
    if k > 0 {
      CancelNext(ss, es, k - 1, i);
      TeardownCancelNext(ss, es, k - 1, i);
      if i in ss[k - 1].sessions {
        CancelledExactlyBy(ss, es, k - 1, i);
      } else {
        AbsentBefore(ss, es, k - 1, i);
      }
    }
  }

  // ---- cancelled pumps ---------------------------------------------------------------

  /** A hang-up leaves a cancellation with the pump itself, rather than with the teardown it awaits. */
  predicate Cancellable(x: Session) {
    !x.pump.NoPump? && !x.pump.PumpEnded? && (x.pump.Awaiting? ==> x.teardown.Over())
  }

  predicate CancelsPump(s: System, e: Event, i: nat) {
    e == At(i, HangsUp) && i in s.sessions && Cancellable(s.sessions[i])
  }

  /** The pump goes on: a cancellation waiting at the await it was suspended in has been raised or swallowed there. */
  predicate PumpGoesOn(e: Event, i: nat) {
    IsAt(e, i) && IsPumpSegment(e.segment) && !e.segment.SessionStarted?
  }

  lemma PumpSegmentDelivers(s: System, x: Session, g: Segment)
    requires SegmentEnabled(x, g, true) && IsPumpSegment(g) && !g.SessionStarted?
    ensures !SessionAfter(s, x, g).pumpCancel
  {
  }

  lemma OtherSegmentCancels(s: System, x: Session, g: Segment)
    requires SegmentEnabled(x, g, true) && (!IsPumpSegment(g) || g.SessionStarted?)
    ensures SessionAfter(s, x, g).pumpCancel <==> x.pumpCancel || (g.HangsUp? && Cancellable(x))
  {
  }

  lemma PumpCancelStep(s: System, e: Event, i: nat)
    requires Enabled(s, e) && i in s.sessions
    ensures i in Apply(s, e).sessions
    ensures Apply(s, e).sessions[i].pumpCancel <==>
      (s.sessions[i].pumpCancel && !PumpGoesOn(e, i)) || CancelsPump(s, e, i)
  {
    if IsAt(e, i) {
      OwnStep(s, e, i);
      if PumpGoesOn(e, i) {
        PumpSegmentDelivers(s, s.sessions[i], e.segment);
      } else {
        OtherSegmentCancels(s, s.sessions[i], e.segment);
      }
    } else {
      OtherStep(s, e, i);
    }
  }

  /** The client hung up while the pump could take a cancellation, and the pump has not gone on since. */
  ghost predicate PumpCancelPending(ss: seq<System>, es: seq<Event>, k: nat, i: nat)
    requires |ss| > |es| >= k
  {
    exists n :: 0 <= n < k && CancelsPump(ss[n], es[n], i) && forall m :: n < m < k ==> !PumpGoesOn(es[m], i)
  }

  lemma PumpCancelNext(ss: seq<System>, es: seq<Event>, k: nat, i: nat)
    requires |ss| > |es| > k
    ensures PumpCancelPending(ss, es, k + 1, i) <==>
      (PumpCancelPending(ss, es, k, i) && !PumpGoesOn(es[k], i)) || CancelsPump(ss[k], es[k], i)
  {
    if !PumpGoesOn(es[k], i) && PumpCancelPending(ss, es, k, i) {
      var n :| 0 <= n < k && CancelsPump(ss[n], es[n], i) && forall m :: n < m < k ==> !PumpGoesOn(es[m], i);
      assert CancelsPump(ss[n], es[n], i);
    }
  }

  lemma PumpMarkNext(ss: seq<System>, es: seq<Event>, k: nat, i: nat)
    requires IsRun(ss, es) && k < |es| && i in ss[k + 1].sessions
    ensures if i in ss[k].sessions
            then ss[k + 1].sessions[i].pumpCancel <==>
                   (ss[k].sessions[i].pumpCancel && !PumpGoesOn(es[k], i)) || CancelsPump(ss[k], es[k], i)
            else !ss[k + 1].sessions[i].pumpCancel && !CancelsPump(ss[k], es[k], i)
  {
    if i in ss[k].sessions {
      PumpCancelStep(ss[k], es[k], i);
    } else {
      NewSessionStep(ss[k], es[k], i);
    }
  }

  /**
   A cancellation waits at the await a session's pump is suspended in exactly if its client hung
   up while the pump could take one and the pump has not gone on since.
   */
  lemma {:induction false} PumpCancelledExactlyBy(ss: seq<System>, es: seq<Event>, k: nat, i: nat)
    requires IsRun(ss, es) && k <= |es| && i in ss[k].sessions
    ensures ss[k].sessions[i].pumpCancel <==> PumpCancelPending(ss, es, k, i)
  {
    if k > 0 {
      PumpMarkNext(ss, es, k - 1, i);
      PumpCancelNext(ss, es, k - 1, i);
      if i in ss[k - 1].sessions {
        PumpCancelledExactlyBy(ss, es, k - 1, i);
      } else {
        AbsentBefore(ss, es, k - 1, i);
      }
    }
  }

  /** The pump is in a backend call that a room depends on: a resume, a cleanup, or the destroy of a late room. */
  predicate HoldsRoom(p: Pump) {
    p.Resuming? || p.Cleaning? || p.LateCheckout?
  }

  /** A client hangs up during such a call. */
  predicate HangsUpOnRoom(s: System, e: Event, i: nat) {
    e == At(i, HangsUp) && i in s.sessions && HoldsRoom(s.sessions[i].pump)
  }

  predicate PumpDoomed(x: Session) {
    x.pumpCancel && HoldsRoom(x.pump)
  }

  lemma SegmentDooms(s: System, x: Session, g: Segment)
    requires SegmentEnabled(x, g, true) && PumpDoomed(SessionAfter(s, x, g))
    ensures PumpDoomed(x) || (g.HangsUp? && HoldsRoom(x.pump))
  {
    if g.HangsUp? {
      HangUpFrame(x);
    } else if IsPumpSegment(g) && !g.SessionStarted? {
      PumpSegmentDelivers(s, x, g);
    }
  }

  lemma DoomStep(s: System, e: Event, i: nat)
    requires Enabled(s, e) && i in s.sessions && i in Apply(s, e).sessions && PumpDoomed(Apply(s, e).sessions[i])
    ensures PumpDoomed(s.sessions[i]) || HangsUpOnRoom(s, e, i)
  {
    if IsAt(e, i) {
      OwnStep(s, e, i);
      SegmentDooms(s, s.sessions[i], e.segment);
    } else {
      OtherStep(s, e, i);
    }
  }

  /** A hang-up in any other state of the pump, also while its room is opening, never cancels such a call later. */
  lemma {:induction false} DoomedByHangUp(ss: seq<System>, es: seq<Event>, k: nat, i: nat)
    requires IsRun(ss, es) && k <= |es| && i in ss[k].sessions && PumpDoomed(ss[k].sessions[i])
    ensures exists n :: 0 <= n < k && HangsUpOnRoom(ss[n], es[n], i)
  {
    if k > 0 {
      if i in ss[k - 1].sessions {
        DoomStep(ss[k - 1], es[k - 1], i);
        if !HangsUpOnRoom(ss[k - 1], es[k - 1], i) {
          DoomedByHangUp(ss, es, k - 1, i);
        }
      } else {
        NewSessionStep(ss[k - 1], es[k - 1], i);
      }
    }
  }

  // ---- when nothing is ever lost -----------------------------------------------------

  /**
   What a room can be lost to, in terms of what clients and the shutdown timeout do: a hang-up or a timeout that
   reaches an awaited teardown, a hang-up while the pump resumes a kept room, cleans up after that or destroys a
   late room, or a pause over an outstanding entry.
   */
  ghost predicate Endangers(s: System, e: Event) {
    (exists i :: CancelsTeardown(s, e, i) || HangsUpOnRoom(s, e, i)) || Overwrites(s, e)
  }

  lemma LossWasEndangered(ss: seq<System>, es: seq<Event>, k: nat, b: Sandbox)
    requires IsRun(ss, es) && k < |es| && Loses(ss[k], es[k], b)
    ensures exists n :: 0 <= n <= k && Endangers(ss[n], es[n])
  {
    var i := es[k].i;
    match es[k].segment
    case PumpCancelled =>
      DoomedByHangUp(ss, es, k, i);
      var n :| 0 <= n < k && HangsUpOnRoom(ss[n], es[n], i);
      assert Endangers(ss[n], es[n]);
    case TeardownCancelled =>
      CancelledExactlyBy(ss, es, k, i);
      var n :| 0 <= n < k && CancelsTeardown(ss[n], es[n], i);
      assert Endangers(ss[n], es[n]);
    case PauseReturns => assert Endangers(ss[k], es[k]);
  }

  /**
   In a run where no hang-up and no force-close timeout reaches an awaited teardown, no client hangs up while its
   pump resumes a kept room, cleans up after that or destroys a late room, and no pause completes over an
   outstanding entry, no room is ever lost: each has exactly one owner until the destroy of it ends, and none from
   then on.  Hang-ups at any other time, also while a room is opening, cost nothing.
   */
  lemma NothingLost(ss: seq<System>, es: seq<Event>, k: nat, b: Sandbox)
    requires IsRun(ss, es) && k <= |es| && forall n :: 0 <= n < k ==> !Endangers(ss[n], es[n])
    ensures ss[k].common.books.lost == map[]
    ensures b in ss[k].common.books.born ==>
      && (b in ss[k].common.books.settled <==> !exists p :: Held(ss[k], p) == Some(b))
      && forall p, q :: Held(ss[k], p) == Some(b) && Held(ss[k], q) == Some(b) ==> p == q
  {
    forall a, n | 0 <= n < k
      ensures !Loses(ss[n], es[n], a)
    {
      if Loses(ss[n], es[n], a) {
        LossWasEndangered(ss, es, n, a);
      }
    }
    forall a
      ensures a !in ss[k].common.books.lost
    {
      LostExactlyBy(ss, es, k, a);
    }
    if b in ss[k].common.books.born {
      NeverLost(ss, es, k, b);
    }
  }

  /** A teardown cancelled before its first segment never releases: the session is active for good. */
  lemma UnstartedTeardownStaysActive(ss: seq<System>, es: seq<Event>, j: nat, k: nat, i: nat)
    requires IsRun(ss, es) && j <= k <= |es| && i in ss[j].sessions && ss[j].sessions[i].teardown.NeverRan?
    ensures i in ss[k].active && i in ss[k].sessions && ss[k].sessions[i].slot == ss[k].sessions[i].published
  {
    FirstTriggerIsFinal(ss, es, j, k, i);
    ControlAt(ss, es, k);
    assert SessionOk(ss[k].sessions[i]);
  }

  // ---- concrete runs ---------------------------------------------------------

  function CheckedIn(user: User, room: Sandbox): Session {
    NewSession(user).(pump := Reading, watchdog := WatchEnded, slot := Some(room), published := Some(room))
  }

  function AfterCheckIn(s: System, i: nat, user: User): System {
    s.(sessions := s.sessions[i := CheckedIn(user, Sandbox(s.common.books.nextRoom, true))],
       active := s.active + {i}, empty := false, common := Bear(s.common, true))
  }

  function Admitted(s: System, i: nat, user: User): System {
    Connect(s, i, user).(sessions := s.sessions[i := NewSession(user).(pump := Opening, watchdog := WatchEnded)])
  }

  /** A client connects and its room starts to open. */
  lemma Admit(s: System, i: nat, user: User)
    requires Reaches(s) && s.common.phase.Serving? && i !in s.sessions && user !in s.common.registry && !s.idleEnabled
    ensures Reaches(Admitted(s, i, user))
  {
    var s1 := Apply(s, Connects(i, user));
    Extend(s, Connects(i, user));
    var s2 := Apply(s1, At(i, SessionStarted));
    Extend(s1, At(i, SessionStarted));
    Extend(s2, At(i, PumpStarts));
    assert Apply(s2, At(i, PumpStarts)) == Admitted(s, i, user);
  }

  /** A client connects and gets a new room. */
  lemma CheckIn(s: System, i: nat, user: User)
    requires Reaches(s) && s.common.phase.Serving? && i !in s.sessions && user !in s.common.registry && !s.idleEnabled
    ensures Reaches(AfterCheckIn(s, i, user))
  {
    Admit(s, i, user);
    var t := Admitted(s, i, user);
    Extend(t, At(i, OpenReturns(true)));
    assert Apply(t, At(i, OpenReturns(true))) == AfterCheckIn(s, i, user);
  }

  /** A client hangs up and its room is paused. */
  lemma HangUpAndKeep(s: System, i: nat, user: User, room: Sandbox) returns (t: System)
    requires Reaches(s) && s.keepEnabled && room.canPause && i in s.sessions && s.sessions[i] == CheckedIn(user, room)
    ensures Reaches(t) && t.common == Keep(s.common, user, room) && t.keepEnabled == s.keepEnabled == true
    ensures t.idleEnabled == s.idleEnabled
    ensures t.sessions.Keys == s.sessions.Keys && !t.sessions[i].teardownCancel && t.active == s.active - {i}
    ensures forall j :: j in s.sessions && j != i ==> t.sessions[j] == s.sessions[j]
  {
    t := Apply(s, At(i, HangsUp));
    Extend(s, At(i, HangsUp));
    HangUpFrame(s.sessions[i]);
    SegmentFrame(s, i, HangsUp);
    t := PauseRequested(s, t, i, user, room);
  }

  lemma PauseRequested(s: System, s1: System, i: nat, user: User, room: Sandbox) returns (t: System)
    requires Reaches(s1) && i in s1.sessions
    requires s1.sessions[i].teardown == Requested(HangUp) && !s1.sessions[i].teardownCancel
    requires s1.sessions[i].slot == Some(room) && s1.sessions[i].user == user && s1.keepEnabled && room.canPause
    requires s1.idleEnabled == s.idleEnabled && s1.keepEnabled == s.keepEnabled
    requires s1.common == s.common && s1.sessions == s.sessions[i := s1.sessions[i]] && i in s.sessions
    ensures Reaches(t) && t.common == Keep(s.common, user, room) && t.keepEnabled == s.keepEnabled == true
    ensures t.idleEnabled == s.idleEnabled
    ensures t.sessions.Keys == s.sessions.Keys && !t.sessions[i].teardownCancel && t.active == s1.active - {i}
    ensures forall j :: j in s.sessions && j != i ==> t.sessions[j] == s.sessions[j]
  {
    var s2 := Apply(s1, At(i, TeardownStarts));
    Extend(s1, At(i, TeardownStarts));
    SegmentFrame(s1, i, TeardownStarts);
    assert s2.sessions[i].teardown == Pausing(HangUp, room);
    t := Apply(s2, At(i, PauseReturns));
    Extend(s2, At(i, PauseReturns));
    SegmentFrame(s2, i, PauseReturns);
  }

  /** The client hangs up during a checkout the pump is awaiting, and the destroy is cancelled. */
  lemma CheckoutCancelled(s: System, i: nat, room: Sandbox) returns (t: System)
    requires Reaches(s) && i in s.sessions && s.sessions[i].teardown == Destroying(ShellExit, room)
    requires s.sessions[i].pump.Awaiting?
    ensures Reaches(t) && room in t.common.books.lost && t.active == s.active - {i}
  {
    var s1 := Apply(s, At(i, HangsUp));
    Extend(s, At(i, HangsUp));
    HangUpFrame(s.sessions[i]);
    PumpCancelReaches(s.sessions[i]);
    WatchdogCancelReaches(OnCancelPump(s.sessions[i]));
    SegmentFrame(s, i, HangsUp);
    t := Apply(s1, At(i, TeardownCancelled));
    Extend(s1, At(i, TeardownCancelled));
    SegmentFrame(s1, i, TeardownCancelled);
  }

  /** A shell exits, its checkout begins, the client hangs up: the room is lost and the session counts as over. */
  lemma HangUpDuringCheckoutLosesRoom() returns (t: System)
    ensures Reaches(t) && Sandbox(0, true) in t.common.books.lost && t.active == {}
  {
    InitReached(false, false);
    CheckIn(Init(false, false), 0, "u");
    var s := ShellExits(AfterCheckIn(Init(false, false), 0, "u"), 0, "u", Sandbox(0, true));
    s := CheckoutBegins(s, 0, Sandbox(0, true));
    t := CheckoutCancelled(s, 0, Sandbox(0, true));
  }

  /** A shell exits, so that the pump awaits a teardown that has not taken its first step. */
  lemma ShellExits(s: System, i: nat, user: User, room: Sandbox) returns (t: System)
    requires Reaches(s) && i in s.sessions && s.sessions[i] == CheckedIn(user, room)
    ensures Reaches(t) && t.sessions.Keys == s.sessions.Keys && t.active == s.active && t.common == s.common
    ensures t.sessions[i].teardown == Requested(ShellExit) && t.sessions[i].pump == Awaiting(true)
    ensures t.sessions[i].slot == Some(room)
    ensures t.sessions[i].releases == 0 && !t.sessions[i].teardownCancel
  {
    t := Apply(s, At(i, StreamEnds));
    Extend(s, At(i, StreamEnds));
    SegmentFrame(s, i, StreamEnds);
  }

  /** The teardown takes its first step, to destroy the room. */
  lemma CheckoutBegins(s: System, i: nat, room: Sandbox) returns (t: System)
    requires Reaches(s) && i in s.sessions && s.sessions[i].teardown == Requested(ShellExit)
    requires s.sessions[i].pump == Awaiting(true) && s.sessions[i].slot == Some(room) && !s.sessions[i].teardownCancel
    ensures Reaches(t) && t.common == s.common && t.active == s.active && t.sessions.Keys == s.sessions.Keys
    ensures t.sessions[i].teardown == Destroying(ShellExit, room) && t.sessions[i].pump == Awaiting(true)
  {
    t := Apply(s, At(i, TeardownStarts));
    Extend(s, At(i, TeardownStarts));
    SegmentFrame(s, i, TeardownStarts);
  }

  /** The client hangs up before that first step. */
  lemma HangUpBeforeCheckout(s: System, i: nat, room: Sandbox) returns (t: System)
    requires Reaches(s) && i in s.sessions && s.sessions[i].teardown == Requested(ShellExit)
    requires s.sessions[i].pump.Awaiting? && s.sessions[i].slot == Some(room)
    ensures Reaches(t) && t.sessions.Keys == s.sessions.Keys && t.active == s.active
    ensures t.sessions[i].teardown == NeverRan(ShellExit) && t.sessions[i].slot == Some(room)
  {
    var s1 := Apply(s, At(i, HangsUp));
    Extend(s, At(i, HangsUp));
    HangUpFrame(s.sessions[i]);
    PumpCancelReaches(s.sessions[i]);
    WatchdogCancelReaches(OnCancelPump(s.sessions[i]));
    SegmentFrame(s, i, HangsUp);
    t := Apply(s1, At(i, TeardownCancelled));
    Extend(s1, At(i, TeardownCancelled));
    SegmentFrame(s1, i, TeardownCancelled);
  }

  /** The session of such a run is active for good, with its room in the slot. */
  lemma HangUpBeforeCheckoutStaysActive() returns (t: System)
    ensures Reaches(t) && t.active == {0} && t.sessions.Keys == {0}
    ensures t.sessions[0].teardown == NeverRan(ShellExit) && t.sessions[0].slot == Some(Sandbox(0, true))
  {
    InitReached(false, false);
    CheckIn(Init(false, false), 0, "u");
    var s := ShellExits(AfterCheckIn(Init(false, false), 0, "u"), 0, "u", Sandbox(0, true));
    t := HangUpBeforeCheckout(s, 0, Sandbox(0, true));
  }

  /** Two connections under one username are both kept: the second pause drops the first room's only handle. */
  lemma SecondKeepLosesFirstRoom() returns (t: System)
    ensures Reaches(t) && t.common.books.lost == map[Sandbox(0, true) := EntryOverwritten]
    ensures forall i :: i in t.sessions ==> !t.sessions[i].teardownCancel
  {
    InitReached(true, false);
    var s0 := Init(true, false);
    CheckIn(s0, 0, "u");
    var s1 := AfterCheckIn(s0, 0, "u");
    CheckIn(s1, 1, "u");
    var s2 := AfterCheckIn(s1, 1, "u");
    var s3 := HangUpAndKeep(s2, 0, "u", Sandbox(0, true));
    t := HangUpAndKeep(s3, 1, "u", Sandbox(1, true));
  }
}
