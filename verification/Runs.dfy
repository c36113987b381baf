/**
 The theorems about every run of the server.

 Steps that cancel a task, or that keep a room over an outstanding entry, are
 ordinary segments here: the theorems say exactly what they cost.
 */
module Runs {
  import opened Wrappers
  import opened RoomSessions
  import opened Lifecycle
  import opened SessionInvariants
  import opened Ownership
  import opened KeptHandles
  import opened Shutdown

  ghost predicate Inv(s: System) {
    Control(s) && Outcomes(s) && Owned(s) && HandlesOk(s.common) && DrainOk(s)
  }

  lemma InvStep(s: System, e: Event)
    requires Inv(s) && Enabled(s, e)
    ensures Inv(Apply(s, e))
  {
    ControlStep(s, e);
    OutcomesStep(s, e);
    OwnedStep(s, e);
    HandlesStep(s, e);
    DrainStep(s, e);
  }

  lemma {:induction false} InvAt(ss: seq<System>, es: seq<Event>, k: nat)
    requires IsRun(ss, es) && k <= |es|
    ensures Inv(ss[k])
  {
    if k == 0 {
      assert forall p :: Held(ss[0], p) == None;
    } else {
      InvAt(ss, es, k - 1);
      InvStep(ss[k - 1], es[k - 1]);
    }
  }

  lemma ControlAt(ss: seq<System>, es: seq<Event>, k: nat)
    requires IsRun(ss, es) && k <= |es|
    ensures Control(ss[k])
  {
    InvAt(ss, es, k);
  }

  // ---- linear ownership ------------------------------------------------------------

  /** The number of ways in which `b` is accounted for is exactly one. */
  ghost predicate OneFate(s: System, b: Sandbox) {
    var settled, lost, held := b in s.common.books.settled, b in s.common.books.lost, exists p :: Held(s, p) == Some(b);
    && (settled || lost || held)
    && !(settled && lost) && !(settled && held) && !(lost && held)
    && forall p, q :: Held(s, p) == Some(b) && Held(s, q) == Some(b) ==> p == q
  }

  /** In every state of every run each room whose open returned has one owner, or is settled, or is lost. */
  lemma LinearOwnership(ss: seq<System>, es: seq<Event>, k: nat, b: Sandbox)
    requires IsRun(ss, es) && k <= |es| && b in ss[k].common.books.born
    ensures OneFate(ss[k], b)
  {
    InvAt(ss, es, k);
    assert Accounted(ss[k], b);
  }

  /** Nothing is ever held that no backend handed over. */
  lemma OnlyBornRoomsAreHeld(ss: seq<System>, es: seq<Event>, k: nat, p: Place)
    requires IsRun(ss, es) && k <= |es| && Held(ss[k], p).Some?
    ensures Held(ss[k], p).value in ss[k].common.books.born
  {
    InvAt(ss, es, k);
  }

  /**
   The segments that lose `b`: a cancellation delivered to the task holding it, or a
   keep under a username whose entry still holds it.
   */
  predicate Loses(s: System, e: Event, b: Sandbox) {
    && e.At? && e.i in s.sessions
    && var x := s.sessions[e.i];
       match e.segment
       case PumpCancelled => PumpHolds(x.pump) == Some(b)
       case TeardownCancelled => TeardownHolds(x.teardown) == Some(b)
       case PauseReturns => x.user in s.common.registry && s.common.registry[x.user].sandbox == b
       case _ => false
  }

  lemma LossStep(s: System, e: Event, b: Sandbox)
    requires Enabled(s, e)
    ensures b in Apply(s, e).common.books.lost <==> b in s.common.books.lost || Loses(s, e, b)
  {
    if e.At? {
      SegmentFrame(s, e.i, e.segment);
    }
  }

  ghost predicate LostBefore(ss: seq<System>, es: seq<Event>, k: nat, b: Sandbox)
    requires |ss| > |es| >= k
  {
    exists n :: 0 <= n < k && Loses(ss[n], es[n], b)
  }

  lemma LostNext(ss: seq<System>, es: seq<Event>, k: nat, b: Sandbox)
    requires |ss| > |es| > k
    ensures LostBefore(ss, es, k + 1, b) <==> LostBefore(ss, es, k, b) || Loses(ss[k], es[k], b)
  {
    if n :| 0 <= n < k && Loses(ss[n], es[n], b) {
      assert 0 <= n < k + 1 && Loses(ss[n], es[n], b);
    }
  }

  /** A room is lost at some point of a run exactly if one of those segments took it before. */
  lemma {:induction false} LostExactlyBy(ss: seq<System>, es: seq<Event>, k: nat, b: Sandbox)
    requires IsRun(ss, es) && k <= |es|
    ensures b in ss[k].common.books.lost <==> LostBefore(ss, es, k, b)
  {
    if k > 0 {
      LostExactlyBy(ss, es, k - 1, b);
      LossStep(ss[k - 1], es[k - 1], b);
      LostNext(ss, es, k - 1, b);
    }
  }

  /** With no such segment in the run, a room always has exactly one owner until its destroy has ended. */
  lemma NeverLost(ss: seq<System>, es: seq<Event>, k: nat, b: Sandbox)
    requires IsRun(ss, es) && k <= |es| && b in ss[k].common.books.born
    requires forall n :: 0 <= n < k ==> !Loses(ss[n], es[n], b)
    ensures b in ss[k].common.books.settled <==> !exists p :: Held(ss[k], p) == Some(b)
    ensures forall p, q :: Held(ss[k], p) == Some(b) && Held(ss[k], q) == Some(b) ==> p == q
  {
    LinearOwnership(ss, es, k, b);
    LostExactlyBy(ss, es, k, b);
  }

  // ---- every room is settled once --------------------------------------------------------

  /** The room whose destroy ends in this step. */
  function Settles(s: System, e: Event): Option<Sandbox>
    requires Enabled(s, e)
  {
    match e
    case At(i, CleanupEnds) => Some(s.sessions[i].pump.kept.sandbox)
    case At(i, LateCheckoutEnds) => Some(s.sessions[i].pump.room)
    case At(i, DestroyEnds(_)) => Some(s.sessions[i].teardown.room)
    case Elsewhere(ExpiryEnds(t)) => Some(s.common.timers[t].kept.sandbox)
    case Elsewhere(SweepEnds) => Some(s.common.phase.busy.value.sandbox)
    case Elsewhere(SweepRaises) => Some(s.common.phase.busy.value.sandbox)
    case _ => None
  }

  lemma SettlesOwnRoom(s: System, e: Event, b: Sandbox)
    requires Owned(s) && Enabled(s, e) && Settles(s, e) == Some(b)
    ensures b !in s.common.books.settled && b !in s.common.books.lost
  {
    match e
    case At(i, CleanupEnds) => assert Held(s, InPump(i)) == Some(b);
    case At(i, LateCheckoutEnds) => assert Held(s, InPump(i)) == Some(b);
    case At(i, DestroyEnds(_)) => assert Held(s, InTeardown(i)) == Some(b);
    case Elsewhere(ExpiryEnds(t)) => assert Held(s, InExpiry(t)) == Some(b);
    case Elsewhere(SweepEnds) => assert Held(s, InSweep) == Some(b);
    case Elsewhere(SweepRaises) => assert Held(s, InSweep) == Some(b);
    case _ =>
  }

  lemma SettleStep(s: System, e: Event, b: Sandbox)
    requires Enabled(s, e)
    ensures b in Apply(s, e).common.books.settled <==> b in s.common.books.settled || Settles(s, e) == Some(b)
  {
    if e.At? {
      SegmentFrame(s, e.i, e.segment);
      SegmentSettles(s, e.i, e.segment, b);
    } else if e.Elsewhere? {
      ChoreSettles(s, e.chore, b);
    }
  }

  lemma SegmentSettles(s: System, i: nat, g: Segment, b: Sandbox)
    requires Enabled(s, At(i, g))
    ensures b in CommonAfter(s.common, s.sessions[i], g).books.settled <==>
      b in s.common.books.settled || Settles(s, At(i, g)) == Some(b)
  {
  }

  lemma ChoreSettles(s: System, h: Chore, b: Sandbox)
    requires Enabled(s, Elsewhere(h))
    ensures b in ChoreStep(s, h).books.settled <==> b in s.common.books.settled || Settles(s, Elsewhere(h)) == Some(b)
  {
  }

  ghost predicate SettledAt(ss: seq<System>, es: seq<Event>, n: nat, b: Sandbox)
    requires IsRun(ss, es) && n < |es|
  {
    Settles(ss[n], es[n]) == Some(b)
  }

  ghost predicate SettledBefore(ss: seq<System>, es: seq<Event>, k: nat, b: Sandbox)
    requires IsRun(ss, es) && k <= |es|
  {
    exists n :: 0 <= n < k && SettledAt(ss, es, n, b)
  }

  ghost predicate SettledAtMostOnce(ss: seq<System>, es: seq<Event>, k: nat, b: Sandbox)
    requires IsRun(ss, es) && k <= |es|
  {
    forall m, n :: 0 <= m < k && 0 <= n < k && SettledAt(ss, es, m, b) && SettledAt(ss, es, n, b) ==> m == n
  }

  lemma SettledNext(ss: seq<System>, es: seq<Event>, k: nat, b: Sandbox)
    requires IsRun(ss, es) && k < |es|
    ensures SettledBefore(ss, es, k + 1, b) <==> SettledBefore(ss, es, k, b) || SettledAt(ss, es, k, b)
    ensures SettledAtMostOnce(ss, es, k, b) && !(SettledBefore(ss, es, k, b) && SettledAt(ss, es, k, b)) ==>
      SettledAtMostOnce(ss, es, k + 1, b)
  {
    if n :| 0 <= n < k && SettledAt(ss, es, n, b) {
      assert 0 <= n < k + 1 && SettledAt(ss, es, n, b);
    }
  }

  lemma SettleNext(ss: seq<System>, es: seq<Event>, k: nat, b: Sandbox)
    requires IsRun(ss, es) && k < |es|
    ensures b in ss[k + 1].common.books.settled <==> b in ss[k].common.books.settled || SettledAt(ss, es, k, b)
    ensures SettledAt(ss, es, k, b) ==> b !in ss[k].common.books.settled
  {
    InvAt(ss, es, k);
    SettleStep(ss[k], es[k], b);
    if SettledAt(ss, es, k, b) {
      SettlesOwnRoom(ss[k], es[k], b);
    }
  }

  /** A room counts as settled exactly if the destroy of it ended in some step of the run, and no two steps do that. */
  lemma {:induction false} TornDownExactlyOnce(ss: seq<System>, es: seq<Event>, k: nat, b: Sandbox)
    requires IsRun(ss, es) && k <= |es|
    ensures b in ss[k].common.books.settled <==> SettledBefore(ss, es, k, b)
    ensures SettledAtMostOnce(ss, es, k, b)
  {
    if k > 0 {
      TornDownExactlyOnce(ss, es, k - 1, b);
      TornDownNext(ss, es, k - 1, b);
    }
  }

  lemma TornDownNext(ss: seq<System>, es: seq<Event>, k: nat, b: Sandbox)
    requires IsRun(ss, es) && k < |es|
    requires b in ss[k].common.books.settled <==> SettledBefore(ss, es, k, b)
    requires SettledAtMostOnce(ss, es, k, b)
    ensures b in ss[k + 1].common.books.settled <==> SettledBefore(ss, es, k + 1, b)
    ensures SettledAtMostOnce(ss, es, k + 1, b)
  {
    SettleNext(ss, es, k, b);
    SettledNext(ss, es, k, b);
  }

  predicate IsAt(e: Event, i: nat) {
    e.At? && e.i == i
  }

  /** Between its own segments a session only sees the drain's force-closes and their cancellations. */
  lemma OtherStep(s: System, e: Event, i: nat)
    requires Enabled(s, e) && i in s.sessions && !IsAt(e, i)
    ensures i in Apply(s, e).sessions
    ensures OnlyForced(s.sessions[i], Apply(s, e).sessions[i])
  {
    if e.At? {
      SegmentFrame(s, e.i, e.segment);
    } else if e.GraceEnds? || e.ForceTimesOut? {
      DrainStepsForce(s, e, i);
    }
  }

  predicate OnlyForced(x: Session, y: Session) {
    y == x.(force := y.force, teardownCancel := y.teardownCancel)
  }

  lemma DrainStepsForce(s: System, e: Event, i: nat)
    requires Enabled(s, e) && i in s.sessions && (e.GraceEnds? || e.ForceTimesOut?)
    ensures i in Apply(s, e).sessions && OnlyForced(s.sessions[i], Apply(s, e).sessions[i])
  {
    if e.GraceEnds? {
      assert OnlyForced(s.sessions[i], GraceEnd(s).sessions[i]);
    } else {
      assert OnlyForced(s.sessions[i], ForceTimeout(s).sessions[i]);
    }
  }

  /** At its own segments it changes as the segment says. */
  lemma OwnStep(s: System, e: Event, i: nat)
    requires Enabled(s, e) && i in s.sessions && IsAt(e, i)
    ensures i in Apply(s, e).sessions && Apply(s, e).sessions[i] == SessionAfter(s, s.sessions[i], e.segment)
  {
    SegmentFrame(s, e.i, e.segment);
  }

  // ---- one teardown per session ------------------------------------------------------

  predicate KeepsTrigger(x: Session, y: Session) {
    && (!x.teardown.NoTeardown? ==> !y.teardown.NoTeardown? && y.teardown.first == x.teardown.first)
    && (x.teardown.Over() ==> y.teardown == x.teardown)
  }

  lemma SegmentKeepsTrigger(s: System, x: Session, g: Segment)
    requires SegmentEnabled(x, g, true)
    ensures KeepsTrigger(x, SessionAfter(s, x, g))
  {
    if g.HangsUp? {
      HangUpFrame(x);
    }
  }

  lemma TriggerStep(s: System, e: Event, i: nat)
    requires Enabled(s, e) && i in s.sessions
    ensures i in Apply(s, e).sessions && KeepsTrigger(s.sessions[i], Apply(s, e).sessions[i])
  {
    if IsAt(e, i) {
      OwnStep(s, e, i);
      SegmentKeepsTrigger(s, s.sessions[i], e.segment);
    } else {
      OtherStep(s, e, i);
    }
  }

  /** The first trigger creates the one teardown task; nothing later replaces it, restarts it or changes its terms. */
  lemma {:induction false} FirstTriggerIsFinal(ss: seq<System>, es: seq<Event>, j: nat, k: nat, i: nat)
    requires IsRun(ss, es) && j <= k <= |es|
    requires i in ss[j].sessions && !ss[j].sessions[i].teardown.NoTeardown?
    ensures i in ss[k].sessions && !ss[k].sessions[i].teardown.NoTeardown?
    ensures ss[k].sessions[i].teardown.first == ss[j].sessions[i].teardown.first
    ensures ss[j].sessions[i].teardown.Over() ==> ss[k].sessions[i].teardown == ss[j].sessions[i].teardown
  {
    TriggerKept(ss, es, j, k, i);
  }

  lemma {:induction false} TriggerKept(ss: seq<System>, es: seq<Event>, j: nat, k: nat, i: nat)
    requires IsRun(ss, es) && j <= k <= |es| && i in ss[j].sessions
    ensures i in ss[k].sessions && KeepsTrigger(ss[j].sessions[i], ss[k].sessions[i])
  {
    if j < k {
      TriggerKept(ss, es, j, k - 1, i);
      TriggerStep(ss[k - 1], es[k - 1], i);
      KeptOn(ss[j].sessions[i], ss[k - 1].sessions[i], ss[k].sessions[i]);
    }
  }

  lemma KeptOn(x: Session, y: Session, z: Session)
    requires KeepsTrigger(x, y) && KeepsTrigger(y, z)
    ensures KeepsTrigger(x, z)
  {
  }

  /** The four paths that ask for a teardown, by the segment that asks. */
  function Asks(g: Segment): Option<Trigger> {
    match g
    case StreamEnds => Some(ShellExit)
    case HangsUp => Some(HangUp)
    case IdleFires => Some(IdleReaper)
    case ForceStarts => Some(ForcedClose)
    case _ => None
  }

  predicate AsksAt(e: Event, i: nat) {
    e.At? && e.i == i && Asks(e.segment).Some?
  }

  /** Step `n` was the first to ask for session `i`'s teardown. */
  ghost predicate FirstToAsk(es: seq<Event>, n: nat, i: nat)
    requires n < |es|
  {
    AsksAt(es[n], i) && forall m :: 0 <= m < n ==> !AsksAt(es[m], i)
  }

  /** The teardown was created by the path that asked, or was left as it was as far as its terms go. */
  predicate Answers(before: Teardown, asked: Option<Trigger>, after: Teardown) {
    if !before.NoTeardown? then !after.NoTeardown? && after.first == before.first
    else if asked.Some? then after == Requested(asked.value)
    else after.NoTeardown?
  }

  lemma PumpSegmentAsks(s: System, x: Session, g: Segment)
    requires SegmentEnabled(x, g, true) && IsPumpSegment(g)
    ensures Answers(x.teardown, Asks(g), SessionAfter(s, x, g).teardown)
  {
  }

  lemma SegmentAsks(s: System, x: Session, g: Segment)
    requires SegmentEnabled(x, g, true)
    ensures Answers(x.teardown, Asks(g), SessionAfter(s, x, g).teardown)
  {
    if g.HangsUp? {
      HangUpFrame(x);
    } else if IsPumpSegment(g) {
      PumpSegmentAsks(s, x, g);
    }
  }

  /** What the event asks of session `i`. */
  function AskedOf(e: Event, i: nat): Option<Trigger> {
    if AsksAt(e, i) then Asks(e.segment) else None
  }

  lemma AskStep(s: System, e: Event, i: nat)
    requires Enabled(s, e) && i in s.sessions
    ensures i in Apply(s, e).sessions
    ensures Answers(s.sessions[i].teardown, AskedOf(e, i), Apply(s, e).sessions[i].teardown)
  {
    if IsAt(e, i) {
      OwnStep(s, e, i);
      SegmentAsks(s, s.sessions[i], e.segment);
    } else {
      OtherStep(s, e, i);
    }
  }

  lemma NewSessionStep(s: System, e: Event, i: nat)
    requires Enabled(s, e) && i !in s.sessions && i in Apply(s, e).sessions
    ensures Apply(s, e).sessions[i] == NewSession(Apply(s, e).sessions[i].user) && !IsAt(e, i)
  {
    if e.At? {
      SegmentFrame(s, e.i, e.segment);
    }
  }

  ghost predicate AbsentUntil(ss: seq<System>, es: seq<Event>, k: nat, i: nat)
    requires |ss| > |es| >= k
  {
    forall n :: 0 <= n < k ==> i !in ss[n].sessions && !IsAt(es[n], i)
  }

  lemma AbsentStep(s: System, e: Event, i: nat)
    requires Enabled(s, e) && i !in Apply(s, e).sessions
    ensures i !in s.sessions && !IsAt(e, i)
  {
    if i in s.sessions {
      if IsAt(e, i) {
        OwnStep(s, e, i);
      } else {
        OtherStep(s, e, i);
      }
    }
  }

  lemma AbsentNext(ss: seq<System>, es: seq<Event>, k: nat, i: nat)
    requires IsRun(ss, es) && k < |es| && i !in ss[k + 1].sessions
    ensures i !in ss[k].sessions && !IsAt(es[k], i)
  {
    AbsentStep(ss[k], es[k], i);
  }

  /** No segment of a session runs before the session is there. */
  lemma {:induction false} AbsentBefore(ss: seq<System>, es: seq<Event>, k: nat, i: nat)
    requires IsRun(ss, es) && k <= |es| && i !in ss[k].sessions
    ensures AbsentUntil(ss, es, k, i)
  {
    if k > 0 {
      AbsentNext(ss, es, k - 1, i);
      AbsentBefore(ss, es, k - 1, i);
    }
  }

  /** Among the first `k` events somebody asked exactly if there is a teardown, and the first to ask decided it. */
  ghost predicate DecidedBy(t: Teardown, es: seq<Event>, k: nat, i: nat)
    requires k <= |es|
  {
    && (t.NoTeardown? <==> forall n :: 0 <= n < k ==> !AsksAt(es[n], i))
    && (forall n :: 0 <= n < k && FirstToAsk(es, n, i) ==> !t.NoTeardown? && t.first == Asks(es[n].segment).value)
  }

  lemma DecidedStep(t: Teardown, u: Teardown, es: seq<Event>, k: nat, i: nat)
    requires k < |es| && DecidedBy(t, es, k, i) && Answers(t, AskedOf(es[k], i), u)
    ensures DecidedBy(u, es, k + 1, i)
  {
    if n :| 0 <= n < k && AsksAt(es[n], i) {
      assert !t.NoTeardown?;
    }
  }

  /**
   A session has a teardown exactly if one of the four paths has asked for one, and the path that
   asked first is the one on whose terms it runs.
   */
  lemma {:induction false} FirstToAskDecides(ss: seq<System>, es: seq<Event>, k: nat, i: nat)
    requires IsRun(ss, es) && k <= |es| && i in ss[k].sessions
    ensures DecidedBy(ss[k].sessions[i].teardown, es, k, i)
  {
    if k > 0 {
      if i in ss[k - 1].sessions {
        FirstToAskDecides(ss, es, k - 1, i);
        AskStep(ss[k - 1], es[k - 1], i);
        DecidedStep(ss[k - 1].sessions[i].teardown, ss[k].sessions[i].teardown, es, k - 1, i);
      } else {
        NobodyAsked(ss, es, k, i);
      }
    }
  }

  lemma NobodyAsked(ss: seq<System>, es: seq<Event>, k: nat, i: nat)
    requires IsRun(ss, es) && 0 < k <= |es| && i in ss[k].sessions && i !in ss[k - 1].sessions
    ensures DecidedBy(ss[k].sessions[i].teardown, es, k, i)
  {
    NewSessionStep(ss[k - 1], es[k - 1], i);
    AbsentBefore(ss, es, k - 1, i);
  }

  lemma SegmentStatus(s: System, x: Session, g: Segment)
    requires SegmentEnabled(x, g, true)
    ensures SessionAfter(s, x, g).status == if g.DestroyEnds? then Some(g.status) else x.status
  {
    if g.HangsUp? {
      HangUpFrame(x);
    }
  }

  lemma StatusStep(s: System, e: Event, i: nat)
    requires Enabled(s, e) && i in Apply(s, e).sessions
    ensures Apply(s, e).sessions[i].status ==
      if e.At? && e.i == i && e.segment.DestroyEnds? then Some(e.segment.status)
      else if i in s.sessions then s.sessions[i].status else None
  {
    if i in s.sessions {
      if IsAt(e, i) {
        OwnStep(s, e, i);
        SegmentStatus(s, s.sessions[i], e.segment);
      } else {
        OtherStep(s, e, i);
      }
    } else {
      NewSessionStep(s, e, i);
    }
  }

  ghost predicate RecordedIn(status: Option<int>, es: seq<Event>, k: nat, i: nat)
    requires k <= |es|
  {
    && (status.Some? ==> Happened(es, k, i, DestroyEnds(status.value)))
    && (status.None? ==> !exists c :: Happened(es, k, i, DestroyEnds(c)))
  }

  lemma RecordedNext(before: Option<int>, after: Option<int>, es: seq<Event>, k: nat, i: nat)
    requires k < |es| && RecordedIn(before, es, k, i)
    requires after == if IsAt(es[k], i) && es[k].segment.DestroyEnds? then Some(es[k].segment.status) else before
    ensures RecordedIn(after, es, k + 1, i)
  {
    forall c
      ensures Happened(es, k + 1, i, DestroyEnds(c)) <==>
        Happened(es, k, i, DestroyEnds(c)) || es[k] == At(i, DestroyEnds(c))
    {
      HappenedNext(es, k, i, DestroyEnds(c));
    }
  }

  /** A session's status is the one its destroy ended with, and there is one exactly once a destroy ended. */
  lemma {:induction false} StatusIsRecorded(ss: seq<System>, es: seq<Event>, k: nat, i: nat)
    requires IsRun(ss, es) && k <= |es| && i in ss[k].sessions
    ensures RecordedIn(ss[k].sessions[i].status, es, k, i)
  {
    if k > 0 {
      StatusStep(ss[k - 1], es[k - 1], i);
      if i in ss[k - 1].sessions {
        StatusIsRecorded(ss, es, k - 1, i);
        RecordedNext(ss[k - 1].sessions[i].status, ss[k].sessions[i].status, es, k - 1, i);
      } else {
        AbsentBefore(ss, es, k - 1, i);
        RecordedNext(None, ss[k].sessions[i].status, es, k - 1, i);
      }
    }
  }

  /** A teardown that ran to its end over a published room and left no status. */
  predicate LeftNoStatus(x: Session) {
    x.teardown.Finished? && x.published.Some? && x.status.None?
  }

  lemma PumpSegmentPause(s: System, x: Session, g: Segment)
    requires SessionOk(x) && SegmentEnabled(x, g, true) && IsPumpSegment(g)
    ensures LeftNoStatus(SessionAfter(s, x, g)) <==> LeftNoStatus(x)
    ensures SessionAfter(s, x, g).pauseFailed == x.pauseFailed
  {
  }

  lemma SegmentPause(s: System, x: Session, g: Segment)
    requires SessionOk(x) && SegmentEnabled(x, g, true)
    ensures LeftNoStatus(SessionAfter(s, x, g)) <==> LeftNoStatus(x) || g.PauseReturns?
    ensures SessionAfter(s, x, g).pauseFailed <==> x.pauseFailed || g.PauseFails?
  {
    if g.HangsUp? {
      HangUpFrame(x);
    } else if IsPumpSegment(g) {
      PumpSegmentPause(s, x, g);
    }
  }

  lemma PauseStep(s: System, e: Event, i: nat)
    requires Control(s) && Enabled(s, e) && i in s.sessions
    ensures i in Apply(s, e).sessions
    ensures var x, y := s.sessions[i], Apply(s, e).sessions[i];
      && (LeftNoStatus(y) <==> LeftNoStatus(x) || e == At(i, PauseReturns))
      && (y.pauseFailed <==> x.pauseFailed || e == At(i, PauseFails))
  {
    if IsAt(e, i) {
      OwnStep(s, e, i);
      SegmentPause(s, s.sessions[i], e.segment);
    } else {
      OtherStep(s, e, i);
    }
  }

  /** Segment `g` of session `i` is among the first `k` events. */
  ghost predicate Happened(es: seq<Event>, k: nat, i: nat, g: Segment)
    requires k <= |es|
  {
    exists n :: 0 <= n < k && es[n] == At(i, g)
  }

  lemma HappenedNext(es: seq<Event>, k: nat, i: nat, g: Segment)
    requires k < |es|
    ensures Happened(es, k + 1, i, g) <==> Happened(es, k, i, g) || es[k] == At(i, g)
  {
    if Happened(es, k, i, g) {
      var n :| 0 <= n < k && es[n] == At(i, g);
      assert es[n] == At(i, g);
    }
  }

  /** What the session's fields say about pausing is what happened. */
  lemma {:induction false} PausesAreRecorded(ss: seq<System>, es: seq<Event>, k: nat, i: nat)
    requires IsRun(ss, es) && k <= |es| && i in ss[k].sessions
    ensures LeftNoStatus(ss[k].sessions[i]) <==> Happened(es, k, i, PauseReturns)
    ensures ss[k].sessions[i].pauseFailed <==> Happened(es, k, i, PauseFails)
  {
    if k > 0 {
      HappenedNext(es, k - 1, i, PauseReturns);
      HappenedNext(es, k - 1, i, PauseFails);
      if i in ss[k - 1].sessions {
        ControlAt(ss, es, k - 1);
        PauseStep(ss[k - 1], es[k - 1], i);
        PausesAreRecorded(ss, es, k - 1, i);
      } else {
        NewSessionStep(ss[k - 1], es[k - 1], i);
        AbsentBefore(ss, es, k - 1, i);
      }
    }
  }

  /**
   A teardown that ran to its end over a published room completed a pause exactly if hang-up
   came first, the keep window is on, the room can be paused, and no pause of it raised; and
   otherwise its destroy ended.
   */
  lemma OutcomeFollowsFirstTrigger(ss: seq<System>, es: seq<Event>, k: nat, i: nat)
    requires IsRun(ss, es) && k <= |es| && i in ss[k].sessions
    requires ss[k].sessions[i].teardown.Finished? && ss[k].sessions[i].published.Some?
    ensures var x := ss[k].sessions[i];
      Happened(es, k, i, PauseReturns) <==>
        && x.teardown.first == HangUp && ss[k].keepEnabled && x.published.value.canPause
        && !Happened(es, k, i, PauseFails)
    ensures Happened(es, k, i, PauseReturns) <==> !exists c :: Happened(es, k, i, DestroyEnds(c))
  {
    InvAt(ss, es, k);
    PausesAreRecorded(ss, es, k, i);
    StatusIsRecorded(ss, es, k, i);
  }

  /** The room a completed pause stores is the one its session published, and hang-up asked for it. */
  lemma PauseIsOfPublishedRoom(ss: seq<System>, es: seq<Event>, k: nat, i: nat)
    requires IsRun(ss, es) && k < |es| && es[k] == At(i, PauseReturns)
    ensures var x, c := ss[k].sessions[i], ss[k + 1].common;
      && x.teardown.Pausing? && x.teardown.first == HangUp && ss[k].keepEnabled
      && x.published == Some(x.teardown.room) && x.teardown.room.canPause
      && x.user in c.registry && c.registry[x.user].sandbox == x.teardown.room
  {
    InvAt(ss, es, k);
    SegmentFrame(ss[k], i, PauseReturns);
  }

  /** The goodbye carries a shell status only if the pump began the teardown, and then the one checkout returned. */
  lemma GoodbyeOnlyForOwnTeardown(ss: seq<System>, es: seq<Event>, k: nat, i: nat)
    requires IsRun(ss, es) && k <= |es| && i in ss[k].sessions && ss[k].sessions[i].reported.Some?
    ensures ss[k].sessions[i].teardown == Finished(ShellExit)
    ensures ss[k].sessions[i].status == ss[k].sessions[i].reported
    ensures Happened(es, k, i, DestroyEnds(ss[k].sessions[i].reported.value))
  {
    ControlAt(ss, es, k);
    assert SessionOk(ss[k].sessions[i]);
    StatusIsRecorded(ss, es, k, i);
  }

  // ---- the room slot, and rooms that open late ---------------------------------------

  /** Once the teardown body has run its first segment, the slot is empty at every later suspension point. */
  lemma SlotStaysEmpty(ss: seq<System>, es: seq<Event>, k: nat, i: nat)
    requires IsRun(ss, es) && k <= |es| && i in ss[k].sessions && ss[k].sessions[i].teardown.BodyStarted()
    ensures ss[k].sessions[i].slot == None
  {
    ControlAt(ss, es, k);
    assert SessionOk(ss[k].sessions[i]);
  }

  /** Where a room is that opened after its session's teardown was requested. */
  ghost predicate WithLateBranch(s: System, i: nat, b: Sandbox) {
    && b in s.common.books.born
    && (|| (i in s.sessions && s.sessions[i].pump == LateCheckout(b))
        || b in s.common.books.settled
        || (b in s.common.books.lost && s.common.books.lost[b] == LateCheckoutWasCancelled))
  }

  /** What is settled stays settled, and what is lost stays lost for the same reason. */
  ghost predicate BooksGrow(c: Common, d: Common, b: Sandbox) {
    && (b in c.books.born ==> b in d.books.born)
    && (b in c.books.settled ==> b in d.books.settled)
    && (b in c.books.lost ==> b in d.books.lost && d.books.lost[b] == c.books.lost[b])
  }

  lemma SegmentBooks(c: Common, x: Session, g: Segment, b: Sandbox)
    requires SegmentEnabled(x, g, true)
    requires b in c.books.lost ==> PumpHolds(x.pump) != Some(b) && TeardownHolds(x.teardown) != Some(b)
    requires b in c.books.lost && x.user in c.registry ==> c.registry[x.user].sandbox != b
    ensures BooksGrow(c, CommonAfter(c, x, g), b)
  {
  }

  lemma ChoreBooks(s: System, h: Chore, b: Sandbox)
    requires ChoreEnabled(s, h)
    ensures BooksGrow(s.common, ChoreStep(s, h), b)
  {
  }

  lemma BooksStep(s: System, e: Event, b: Sandbox)
    requires Owned(s) && Enabled(s, e)
    ensures BooksGrow(s.common, Apply(s, e).common, b)
  {
    if e.At? {
      var x := s.sessions[e.i];
      assert Held(s, InTeardown(e.i)) == TeardownHolds(x.teardown);
      assert Held(s, InPump(e.i)) == PumpHolds(x.pump);
      assert x.user in s.common.registry ==> Held(s, InRegistry(x.user)) == Some(s.common.registry[x.user].sandbox);
      SegmentBooks(s.common, x, e.segment, b);
      SegmentFrame(s, e.i, e.segment);
    } else if e.Elsewhere? {
      ChoreBooks(s, e.chore, b);
    }
  }

  /** A pump in a late checkout leaves it only by the destroy ending or by a cancellation. */
  lemma LatePumpStep(s: System, x: Session, g: Segment)
    requires SegmentEnabled(x, g, true) && x.pump.LateCheckout?
    ensures var b := x.pump.room; var c := CommonAfter(s.common, x, g);
      || SessionAfter(s, x, g).pump == x.pump
      || b in c.books.settled
      || (b in c.books.lost && c.books.lost[b] == LateCheckoutWasCancelled)
  {
    if g.HangsUp? {
      HangUpFrame(x);
    }
  }

  lemma LateRoomStep(s: System, e: Event, i: nat, b: Sandbox)
    requires Owned(s) && Enabled(s, e) && WithLateBranch(s, i, b)
    ensures WithLateBranch(Apply(s, e), i, b)
  {
    BooksStep(s, e, b);
    if i in s.sessions && s.sessions[i].pump == LateCheckout(b) && e.At? {
      SegmentFrame(s, e.i, e.segment);
      if e.i == i {
        LatePumpStep(s, s.sessions[i], e.segment);
      }
    }
  }

  /** The room this step hands to a session's pump: a new one from `open`, or a kept one from `resume`. */
  function Arrival(s: System, e: Event): Option<Sandbox> {
    if !e.At? || e.i !in s.sessions then None
    else if e.segment.OpenReturns? then Some(Sandbox(s.common.books.nextRoom, e.segment.canPause))
    else if e.segment.ResumeReturns? && s.sessions[e.i].pump.Resuming? then Some(s.sessions[e.i].pump.kept.sandbox)
    else None
  }

  lemma ArrivesLate(s: System, e: Event, b: Sandbox)
    requires Owned(s) && Enabled(s, e) && Arrival(s, e) == Some(b) && !s.sessions[e.i].teardown.NoTeardown?
    ensures WithLateBranch(Apply(s, e), e.i, b)
  {
    assert e.segment.ResumeReturns? ==> Held(s, InPump(e.i)) == Some(b);
    SegmentFrame(s, e.i, e.segment);
  }

  /**
   The late-open branch alone takes a room that was opened or resumed after its session's teardown was
   requested: it is never in a slot or with a teardown, in any continuation.
   */
  lemma {:induction false} LateRoomBelongsToPump(ss: seq<System>, es: seq<Event>, j: nat, k: nat, b: Sandbox)
    requires IsRun(ss, es) && j < k <= |es| && Arrival(ss[j], es[j]) == Some(b)
    requires !ss[j].sessions[es[j].i].teardown.NoTeardown?
    ensures WithLateBranch(ss[k], es[j].i, b)
  {
    if j + 1 < k {
      LateRoomBelongsToPump(ss, es, j, k - 1, b);
      InvAt(ss, es, k - 1);
      LateRoomStep(ss[k - 1], es[k - 1], es[j].i, b);
    } else {
      InvAt(ss, es, j);
      ArrivesLate(ss[j], es[j], b);
    }
  }

  // ---- leaving the registry of active sessions ----------------------------------------

  /** `_empty` is set exactly when no session is active, and a session is active exactly until it releases. */
  lemma DrainSignal(ss: seq<System>, es: seq<Event>, k: nat)
    requires IsRun(ss, es) && k <= |es|
    ensures ss[k].empty == (ss[k].active == {})
    ensures forall i :: i in ss[k].active <==> i in ss[k].sessions && ss[k].sessions[i].releases == 0
    ensures forall i :: i in ss[k].sessions ==> ss[k].sessions[i].releases <= 1
  {
    ControlAt(ss, es, k);
    assert forall i :: i in ss[k].sessions ==> SessionOk(ss[k].sessions[i]);
  }

  lemma LeftStep(s: System, e: Event, i: nat)
    requires Control(s) && Enabled(s, e) && i in s.sessions && i !in s.active
    ensures i in Apply(s, e).sessions && i !in Apply(s, e).active
  {
    TriggerStep(s, e, i);
    ControlStep(s, e);
  }

  /** A session that left never comes back. */
  lemma {:induction false} LeavesOnce(ss: seq<System>, es: seq<Event>, j: nat, k: nat, i: nat)
    requires IsRun(ss, es) && j <= k <= |es| && i in ss[j].sessions && i !in ss[j].active
    ensures i in ss[k].sessions && i !in ss[k].active
  {
    if j < k {
      LeavesOnce(ss, es, j, k - 1, i);
      ControlAt(ss, es, k - 1);
      LeftStep(ss[k - 1], es[k - 1], i);
    }
  }

  ghost predicate DealtWith(c: Common, user: User, b: Sandbox) {
    b in c.books.settled || (user in c.registry && c.registry[user].sandbox == b)
  }

  lemma ReleaseDealsWith(s: System, x: Session, g: Segment)
    requires SessionOk(x) && SegmentEnabled(x, g, true) && x.published.Some?
    requires SessionAfter(s, x, g).releases > x.releases && !g.TeardownCancelled?
    ensures DealtWith(CommonAfter(s.common, x, g), x.user, x.published.value)
  {
    if g.HangsUp? {
      HangUpFrame(x);
    }
  }

  lemma CancelledLoses(s: System, x: Session, g: Segment)
    requires SessionOk(x) && SegmentEnabled(x, g, true) && x.published.Some? && g.TeardownCancelled?
    requires SessionAfter(s, x, g).releases > x.releases
    ensures x.published.value in CommonAfter(s.common, x, g).books.lost
  {
  }

  lemma LostIsNotDealtWith(s: System, user: User, b: Sandbox)
    requires Owned(s) && b in s.common.books.lost
    ensures !DealtWith(s.common, user, b)
  {
    if user in s.common.registry {
      assert Held(s, InRegistry(user)) == Some(s.common.registry[user].sandbox);
    }
  }

  lemma OwnedAt(ss: seq<System>, es: seq<Event>, k: nat)
    requires IsRun(ss, es) && k <= |es|
    ensures Owned(ss[k])
  {
    InvAt(ss, es, k);
  }

  /** Only a segment of its own takes a session out of the active set, and only by releasing. */
  lemma LeavingStep(s: System, e: Event, i: nat)
    requires Control(s) && Enabled(s, e) && i in s.active && i !in Apply(s, e).active
    ensures IsAt(e, i) && i in s.sessions && Apply(s, e).common == CommonAfter(s.common, s.sessions[i], e.segment)
    ensures SessionAfter(s, s.sessions[i], e.segment).releases > s.sessions[i].releases
  {
    if e.At? {
      SegmentFrame(s, e.i, e.segment);
    }
  }

  /**
   At the moment a session leaves, the room it had published has had its destroy end or is in
   the registry under the session's username, exactly if the leaving is not a cancelled teardown.
   */
  lemma LeavingMeansDealtWith(ss: seq<System>, es: seq<Event>, k: nat, i: nat)
    requires IsRun(ss, es) && k < |es| && i in ss[k].active && i !in ss[k + 1].active
    requires i in ss[k].sessions && ss[k].sessions[i].published.Some?
    ensures DealtWith(ss[k + 1].common, ss[k].sessions[i].user, ss[k].sessions[i].published.value) <==>
      es[k] != At(i, TeardownCancelled)
  {
    var x := ss[k].sessions[i];
    ControlAt(ss, es, k);
    LeavingStep(ss[k], es[k], i);
    if es[k] == At(i, TeardownCancelled) {
      CancelledLoses(ss[k], x, es[k].segment);
      OwnedAt(ss, es, k + 1);
      LostIsNotDealtWith(ss[k + 1], x.user, x.published.value);
    } else {
      ReleaseDealsWith(ss[k], x, es[k].segment);
    }
  }

  // ---- kept rooms -------------------------------------------------------------------

  /** Each handle is consumed at most once, by reconnect, expiry or the sweep, and never again once overwritten. */
  lemma ConsumedAtMostOnce(ss: seq<System>, es: seq<Event>, k: nat)
    requires IsRun(ss, es) && k <= |es|
    ensures var c := ss[k].common;
      && (forall m, n :: 0 <= m < n < |c.books.log| ==> c.books.log[m].kept != c.books.log[n].kept)
      && (forall n :: 0 <= n < |c.books.log| ==>
            !Registered(c, c.books.log[n].kept) && c.books.log[n].kept !in c.books.evicted)
  {
    InvAt(ss, es, k);
    var c := ss[k].common;
    forall n | 0 <= n < |c.books.log|
      ensures c.books.log[n].kept !in c.books.evicted
    {
      assert Consumed(c, c.books.log[n].kept);
    }
  }

  /** Every handle ever issued is still registered with its timer pending, or was consumed, or was overwritten. */
  lemma EveryHandleAccounted(ss: seq<System>, es: seq<Event>, k: nat, t: nat)
    requires IsRun(ss, es) && k <= |es| && t < |ss[k].common.timers|
    ensures var c := ss[k].common; var h := c.timers[t].kept;
      || (Registered(c, h) && TimerPending(c, h))
      || Consumed(c, h)
      || h in c.books.evicted
  {
    InvAt(ss, es, k);
  }

  predicate Overwrites(s: System, e: Event) {
    e.At? && e.segment.PauseReturns? && e.i in s.sessions && s.sessions[e.i].user in s.common.registry
  }

  lemma OverwriteStep(s: System, e: Event)
    requires Enabled(s, e)
    ensures Apply(s, e).common.books.evicted == {} <==> s.common.books.evicted == {} && !Overwrites(s, e)
  {
    if e.At? {
      SegmentFrame(s, e.i, e.segment);
    }
  }

  /** An entry is overwritten only by a pause completing under a username that still has one. */
  lemma {:induction false} NoOverwriteNoEviction(ss: seq<System>, es: seq<Event>, k: nat)
    requires IsRun(ss, es) && k <= |es|
    ensures ss[k].common.books.evicted == {} <==> forall n :: 0 <= n < k ==> !Overwrites(ss[n], es[n])
  {
    if k > 0 {
      NoOverwriteNoEviction(ss, es, k - 1);
      OverwriteStep(ss[k - 1], es[k - 1]);
    }
  }

  /** Reconnect, expiry or the sweep took the handle, or a later pause overwrote it. */
  ghost predicate Spent(c: Common, h: Kept) {
    Consumed(c, h) || h in c.books.evicted
  }

  /** The log and the evictions of `c` are still part of those of `d`. */
  predicate LogGrows(c: Common, d: Common) {
    c.books.log <= d.books.log && c.books.evicted <= d.books.evicted
  }

  lemma SegmentLog(c: Common, x: Session, g: Segment)
    requires SegmentEnabled(x, g, true)
    ensures LogGrows(c, CommonAfter(c, x, g))
  {
  }

  lemma StepLog(s: System, e: Event)
    requires Enabled(s, e)
    ensures LogGrows(s.common, Apply(s, e).common)
  {
    if e.At? {
      SegmentFrame(s, e.i, e.segment);
      SegmentLog(s.common, s.sessions[e.i], e.segment);
    }
  }

  lemma SpentStays(c: Common, d: Common, h: Kept)
    requires LogGrows(c, d) && Spent(c, h)
    ensures Spent(d, h)
  {
    if n :| 0 <= n < |c.books.log| && c.books.log[n].kept == h {
      assert d.books.log[n].kept == h;
    }
  }

  lemma SpentIsUnregistered(ss: seq<System>, es: seq<Event>, k: nat, h: Kept)
    requires IsRun(ss, es) && k <= |es| && Spent(ss[k].common, h)
    ensures !Registered(ss[k].common, h)
  {
    InvAt(ss, es, k);
  }

  /** A handle once consumed or overwritten is never registered again: nobody can claim or destroy it a second time. */
  lemma {:induction false} SpentForGood(ss: seq<System>, es: seq<Event>, j: nat, k: nat, h: Kept)
    requires IsRun(ss, es) && j <= k <= |es| && Spent(ss[j].common, h)
    ensures Spent(ss[k].common, h) && !Registered(ss[k].common, h)
  {
    if j < k {
      SpentForGood(ss, es, j, k - 1, h);
      StepLog(ss[k - 1], es[k - 1]);
      SpentStays(ss[k - 1].common, ss[k].common, h);
    }
    SpentIsUnregistered(ss, es, k, h);
  }

  /**
   A timer whose handle was spent at any earlier time is stale for good: whenever it wakes, the
   registry and every room stay where they are, whoever was kept under its username since.
   */
  lemma StaleTimerIsHarmless(ss: seq<System>, es: seq<Event>, j: nat, k: nat, t: nat)
    requires IsRun(ss, es) && j <= k < |es| && es[k] == Elsewhere(ExpiryWakes(t))
    requires Spent(ss[j].common, ss[k].common.timers[t].kept)
    ensures ss[k + 1].common.registry == ss[k].common.registry
    ensures ss[k + 1].common.timers[t].phase == TimerEnded
    ensures forall p :: Held(ss[k + 1], p) == Held(ss[k], p)
  {
    SpentForGood(ss, es, j, k, ss[k].common.timers[t].kept);
    InvAt(ss, es, k);
    ChoreTransfers(ss[k], es[k].chore);
  }

  // ---- shutdown ------------------------------------------------------------------------

  /**
   If shutdown reaches `backend.close()` and no force-close timed out, no session is active,
   every slot is empty, the registry is empty, and a room not yet settled is with an expiry
   timer's destroy or with a pump (late checkout, or a resume or its cleanup in flight).
   */
  lemma ShutdownGuarantee(ss: seq<System>, es: seq<Event>, k: nat)
    requires IsRun(ss, es) && k <= |es| && ss[k].common.phase == Closed(false)
    ensures ss[k].active == {} && ss[k].common.registry == map[]
    ensures forall i :: i in ss[k].sessions ==> ss[k].sessions[i].slot == None && ss[k].sessions[i].teardown.Released()
    ensures forall p :: Held(ss[k], p).Some? ==> p.InExpiry? || p.InPump?
  {
    InvAt(ss, es, k);
    forall i | i in ss[k].sessions
      ensures ss[k].sessions[i].slot == None && ss[k].sessions[i].teardown.Released()
    {
      assert i !in ss[k].active;
      assert SessionOk(ss[k].sessions[i]);
    }
  }

  /** Then a room is still undestroyed only if it was lost to one of the segments above, or one of those has it. */
  lemma UndestroyedAtClose(ss: seq<System>, es: seq<Event>, k: nat, b: Sandbox)
    requires IsRun(ss, es) && k <= |es| && ss[k].common.phase == Closed(false)
    requires b in ss[k].common.books.born && b !in ss[k].common.books.settled
    ensures LostBefore(ss, es, k, b)
            || exists p: Place :: (p.InExpiry? || p.InPump?) && Held(ss[k], p) == Some(b)
  {
    LinearOwnership(ss, es, k, b);
    LostExactlyBy(ss, es, k, b);
    ShutdownGuarantee(ss, es, k);
  }

  // ---- runs by their last state ---------------------------------------------------------

  /** A run, by its last state. */
  ghost predicate Reaches(s: System) {
    exists ss, es :: IsRun(ss, es) && ss[|es|] == s
  }

  lemma Extend(s: System, e: Event)
    requires Reaches(s) && Enabled(s, e)
    ensures Reaches(Apply(s, e))
  {
    var ss, es :| IsRun(ss, es) && ss[|es|] == s;
    var t := Apply(s, e);
    ExtendRun(ss, es, e, t);
    assert (ss + [t])[|es + [e]|] == t;
  }

  lemma ExtendRun(ss: seq<System>, es: seq<Event>, e: Event, t: System)
    requires IsRun(ss, es) && Enabled(ss[|es|], e) && t == Apply(ss[|es|], e)
    ensures IsRun(ss + [t], es + [e])
  {
    var tt, ff := ss + [t], es + [e];
    assert tt[0] == ss[0];
    forall k | 0 <= k < |ff|
      ensures Enabled(tt[k], ff[k]) && tt[k + 1] == Apply(tt[k], ff[k])
    {
      if k < |es| {
        assert Enabled(ss[k], es[k]) && ss[k + 1] == Apply(ss[k], es[k]);
      }
    }
  }

  lemma InitReached(keep: bool, idle: bool)
    ensures Reaches(Init(keep, idle))
  {
    assert IsRun([Init(keep, idle)], []);
  }
}
