/**
 Linear ownership: every room a backend ever handed over is at exactly one
 place that will deal with it, or has had a destroy call end, or is lost.
 */
module Ownership {
  import opened Wrappers
  import opened RoomSessions
  import opened Lifecycle
  import opened SessionInvariants

  /** The parties that can hold a room. */
  datatype Place =
    | InSlot(i: nat)          // a session's room slot
    | InTeardown(i: nat)      // a teardown task's local
    | InPump(i: nat)          // a pump resuming, cleaning up, or destroying a late room
    | InRegistry(user: User)
    | InExpiry(t: nat)        // an expiry task in destroy_kept
    | InSweep                 // the shutdown sweep in destroy_kept

  function TeardownHolds(t: Teardown): Option<Sandbox> {
    match t
    case Pausing(_, b) => Some(b)
    case Destroying(_, b) => Some(b)
    case _ => None
  }

  function PumpHolds(p: Pump): Option<Sandbox> {
    match p
    case Resuming(k) => Some(k.sandbox)
    case Cleaning(k) => Some(k.sandbox)
    case LateCheckout(b) => Some(b)
    case _ => None
  }

  function Held(s: System, p: Place): Option<Sandbox> {
    match p
    case InSlot(i) => if i in s.sessions then s.sessions[i].slot else None
    case InTeardown(i) => if i in s.sessions then TeardownHolds(s.sessions[i].teardown) else None
    case InPump(i) => if i in s.sessions then PumpHolds(s.sessions[i].pump) else None
    case InRegistry(user) => if user in s.common.registry then Some(s.common.registry[user].sandbox) else None
    case InExpiry(t) =>
      if t < |s.common.timers| && s.common.timers[t].phase.Deleting?
      then Some(s.common.timers[t].kept.sandbox) else None
    case InSweep =>
      if s.common.phase.Sweeping? && s.common.phase.busy.Some?
      then Some(s.common.phase.busy.value.sandbox) else None
  }

  ghost predicate Accounted(s: System, b: Sandbox) {
    b in s.common.books.settled || b in s.common.books.lost || exists p :: Held(s, p) == Some(b)
  }

  ghost predicate Owned(s: System) {
    && (forall p, b :: Held(s, p) == Some(b) ==>
          b in s.common.books.born && b !in s.common.books.settled && b !in s.common.books.lost)
    && (forall p, q, b :: Held(s, p) == Some(b) && Held(s, q) == Some(b) ==> p == q)
    && (forall b :: b in s.common.books.born ==> Accounted(s, b))
    && (forall b :: b in s.common.books.settled ==> b in s.common.books.born && b !in s.common.books.lost)
    && (forall b :: b in s.common.books.lost ==> b in s.common.books.born)
    && (forall b :: b in s.common.books.born ==> b.id < s.common.books.nextRoom)
  }

  // ---- one transfer at a time ---------------------------------------------------

  datatype Source = Birth | From(p: Place)
  datatype Target = To(p: Place) | Done | Gone

  datatype Transfer = Stay | Move(room: Sandbox, source: Source, target: Target)

  /** `t` differs from `s`, as far as rooms are concerned, by the one transfer `m`. */
  ghost predicate Transfers(s: System, t: System, m: Transfer) {
    match m
    case Stay =>
      && (forall p :: Held(t, p) == Held(s, p))
      && t.common.books.born == s.common.books.born && t.common.books.settled == s.common.books.settled
      && t.common.books.lost == s.common.books.lost && t.common.books.nextRoom == s.common.books.nextRoom
    case Move(b, source, target) =>
      && (forall p :: Held(t, p) ==
            if target == To(p) then Some(b) else if source == From(p) then None else Held(s, p))
      && (if source.Birth?
          then b.id == s.common.books.nextRoom && t.common.books.nextRoom == s.common.books.nextRoom + 1
               && t.common.books.born == s.common.books.born + {b}
          else Held(s, source.p) == Some(b) && t.common.books.nextRoom == s.common.books.nextRoom
               && t.common.books.born == s.common.books.born)
      && (target.To? ==> Held(s, target.p) == None)
      && t.common.books.settled == (if target.Done? then s.common.books.settled + {b} else s.common.books.settled)
      && t.common.books.lost.Keys == (if target.Gone? then s.common.books.lost.Keys + {b} else s.common.books.lost.Keys)
  }

  lemma TransferKeepsOwned(s: System, t: System, m: Transfer)
    requires Owned(s) && Transfers(s, t, m)
    ensures Owned(t)
  {
    forall b | b in t.common.books.born
      ensures Accounted(t, b)
    {
      if m.Move? && b == m.room {
        if m.target.To? {
          assert Held(t, m.target.p) == Some(b);
        }
      } else {
        assert Accounted(s, b);
        if p :| Held(s, p) == Some(b) {
          assert Held(t, p) == Some(b);
        }
      }
    }
  }

  // ---- which transfer each segment makes -------------------------------------------

  function SegmentTransfer(s: System, i: nat, g: Segment): Transfer
    requires i in s.sessions && SegmentEnabled(s.sessions[i], g, true) && !g.PauseReturns?
  {
    var x := s.sessions[i];
    match g
    case PumpStarts =>
      if x.user in s.common.registry
      then Move(s.common.registry[x.user].sandbox, From(InRegistry(x.user)), To(InPump(i))) else Stay
    case OpenReturns(canPause) =>
      Move(Sandbox(s.common.books.nextRoom, canPause), Birth,
           To(if x.teardown.NoTeardown? then InSlot(i) else InPump(i)))
    case ResumeReturns =>
      if x.teardown.NoTeardown? then Move(x.pump.kept.sandbox, From(InPump(i)), To(InSlot(i))) else Stay
    case CleanupEnds => Move(x.pump.kept.sandbox, From(InPump(i)), Done)
    case LateCheckoutEnds => Move(x.pump.room, From(InPump(i)), Done)
    case PumpCancelled =>
      (match PumpHolds(x.pump) case Some(b) => Move(b, From(InPump(i)), Gone) case None => Stay)
    case TeardownStarts =>
      (match x.slot case Some(b) => Move(b, From(InSlot(i)), To(InTeardown(i))) case None => Stay)
    case DestroyEnds(_) => Move(x.teardown.room, From(InTeardown(i)), Done)
    case TeardownCancelled =>
      (match TeardownHolds(x.teardown) case Some(b) => Move(b, From(InTeardown(i)), Gone) case None => Stay)
    case _ => Stay
  }

  predicate SessionOnly(s: System, t: System, i: nat, y: Session) {
    i in s.sessions && t.sessions == s.sessions[i := y]
    && t.common.registry == s.common.registry && t.common.timers == s.common.timers && t.common.phase == s.common.phase
  }

  /** `Held` once session `i` has become `y`. */
  function HeldSwapped(s: System, i: nat, y: Session, p: Place): Option<Sandbox> {
    match p
    case InSlot(j) => if j == i then y.slot else Held(s, p)
    case InTeardown(j) => if j == i then TeardownHolds(y.teardown) else Held(s, p)
    case InPump(j) => if j == i then PumpHolds(y.pump) else Held(s, p)
    case _ => Held(s, p)
  }

  lemma SwapHeld(s: System, t: System, i: nat, y: Session)
    requires SessionOnly(s, t, i, y)
    ensures forall p :: Held(t, p) == HeldSwapped(s, i, y, p)
  {
  }

  lemma SegmentSwap(s: System, i: nat, g: Segment)
    requires i in s.sessions && SegmentEnabled(s.sessions[i], g, true) && !g.PumpStarts? && !g.PauseReturns?
    ensures SessionOnly(s, SegmentStep(s, i, g), i, SessionAfter(s, s.sessions[i], g))
    ensures SegmentStep(s, i, g).common.books == CommonAfter(s.common, s.sessions[i], g).books
    ensures forall p :: Held(SegmentStep(s, i, g), p) == HeldSwapped(s, i, SessionAfter(s, s.sessions[i], g), p)
  {
    SegmentFrame(s, i, g);
    SwapHeld(s, SegmentStep(s, i, g), i, SessionAfter(s, s.sessions[i], g));
  }

  predicate SameHoldings(x: Session, y: Session) {
    y.slot == x.slot && TeardownHolds(y.teardown) == TeardownHolds(x.teardown) && PumpHolds(y.pump) == PumpHolds(x.pump)
  }

  predicate IsQuiet(g: Segment) {
    g.SessionStarted? || g.RoomFails? || g.StreamEnds? || g.PumpResumes? || g.HangsUp? || g.IdleFires?
    || g.WatchdogResumes? || g.PauseFails? || g.ForceStarts? || g.ForceReturns?
  }

  lemma QuietHoldings(s: System, x: Session, g: Segment)
    requires SegmentEnabled(x, g, true) && IsQuiet(g)
    ensures SameHoldings(x, SessionAfter(s, x, g)) && CommonAfter(s.common, x, g) == s.common
  {
    if g.HangsUp? {
      HangUpFrame(x);
    }
  }

  lemma QuietTransfers(s: System, i: nat, g: Segment)
    requires i in s.sessions && SegmentEnabled(s.sessions[i], g, true) && IsQuiet(g)
    ensures Transfers(s, SegmentStep(s, i, g), Stay)
  {
    SegmentSwap(s, i, g);
    QuietHoldings(s, s.sessions[i], g);
  }

  lemma ReconnectTransfers(s: System, i: nat, g: Segment)
    requires Control(s) && i in s.sessions && SegmentEnabled(s.sessions[i], g, true) && g.PumpStarts?
    ensures Transfers(s, SegmentStep(s, i, g), SegmentTransfer(s, i, g))
  {
    var x := s.sessions[i];
    SegmentFrame(s, i, g);
    SwapHeld(s.(common := CommonAfter(s.common, x, g)), SegmentStep(s, i, g), i, SessionAfter(s, x, g));
  }

  lemma OpenTransfers(s: System, i: nat, g: Segment)
    requires Control(s) && i in s.sessions && SegmentEnabled(s.sessions[i], g, true)
    requires g.OpenReturns?
    ensures Transfers(s, SegmentStep(s, i, g), SegmentTransfer(s, i, g))
  {
    SegmentSwap(s, i, g);
    assert SessionOk(s.sessions[i]);
  }

  lemma ResumeTransfers(s: System, i: nat, g: Segment)
    requires Control(s) && i in s.sessions && SegmentEnabled(s.sessions[i], g, true)
    requires g.ResumeReturns?
    ensures Transfers(s, SegmentStep(s, i, g), SegmentTransfer(s, i, g))
  {
    SegmentSwap(s, i, g);
    assert SessionOk(s.sessions[i]);
  }

  lemma PumpSettleTransfers(s: System, i: nat, g: Segment)
    requires Control(s) && i in s.sessions && SegmentEnabled(s.sessions[i], g, true)
    requires g.CleanupEnds? || g.LateCheckoutEnds?
    ensures Transfers(s, SegmentStep(s, i, g), SegmentTransfer(s, i, g))
  {
    SegmentSwap(s, i, g);
    assert SessionOk(s.sessions[i]);
  }

  lemma PumpCancelTransfers(s: System, i: nat, g: Segment)
    requires Control(s) && i in s.sessions && SegmentEnabled(s.sessions[i], g, true)
    requires g.PumpCancelled?
    ensures Transfers(s, SegmentStep(s, i, g), SegmentTransfer(s, i, g))
  {
    SegmentSwap(s, i, g);
    assert SessionOk(s.sessions[i]);
  }

  lemma TeardownStartTransfers(s: System, i: nat, g: Segment)
    requires Control(s) && i in s.sessions && SegmentEnabled(s.sessions[i], g, true)
    requires g.TeardownStarts?
    ensures Transfers(s, SegmentStep(s, i, g), SegmentTransfer(s, i, g))
  {
    SegmentSwap(s, i, g);
    assert SessionOk(s.sessions[i]);
  }

  lemma DestroyTransfers(s: System, i: nat, g: Segment)
    requires Control(s) && i in s.sessions && SegmentEnabled(s.sessions[i], g, true)
    requires g.DestroyEnds?
    ensures Transfers(s, SegmentStep(s, i, g), SegmentTransfer(s, i, g))
  {
    SegmentSwap(s, i, g);
    assert SessionOk(s.sessions[i]);
  }

  lemma TeardownCancelTransfers(s: System, i: nat, g: Segment)
    requires Control(s) && i in s.sessions && SegmentEnabled(s.sessions[i], g, true)
    requires g.TeardownCancelled?
    ensures Transfers(s, SegmentStep(s, i, g), SegmentTransfer(s, i, g))
  {
    SegmentSwap(s, i, g);
    assert SessionOk(s.sessions[i]);
  }

  lemma SegmentTransfers(s: System, i: nat, g: Segment)
    requires Control(s) && i in s.sessions && SegmentEnabled(s.sessions[i], g, true) && !g.PauseReturns?
    ensures Transfers(s, SegmentStep(s, i, g), SegmentTransfer(s, i, g))
  {
    if g.PumpStarts? {
      ReconnectTransfers(s, i, g);
    } else if g.OpenReturns? {
      OpenTransfers(s, i, g);
    } else if g.ResumeReturns? {
      ResumeTransfers(s, i, g);
    } else if g.CleanupEnds? || g.LateCheckoutEnds? {
      PumpSettleTransfers(s, i, g);
    } else if g.PumpCancelled? {
      PumpCancelTransfers(s, i, g);
    } else if g.TeardownStarts? {
      TeardownStartTransfers(s, i, g);
    } else if g.DestroyEnds? {
      DestroyTransfers(s, i, g);
    } else if g.TeardownCancelled? {
      TeardownCancelTransfers(s, i, g);
    } else {
      QuietTransfers(s, i, g);
    }
  }

  function EvictTransfer(c: Common, user: User): Transfer {
    if user in c.registry then Move(c.registry[user].sandbox, From(InRegistry(user)), Gone) else Stay
  }

  lemma EvictTransfers(s: System, user: User)
    ensures Transfers(s, s.(common := Evict(s.common, user)), EvictTransfer(s.common, user))
  {
  }

  /** A completed pause first drops an overwritten entry, then moves the room into the registry. */
  lemma PauseTransfers(s: System, i: nat)
    requires i in s.sessions && s.sessions[i].teardown.Pausing?
    ensures var x := s.sessions[i];
      Transfers(s.(common := Evict(s.common, x.user)), SegmentStep(s, i, PauseReturns),
                Move(x.teardown.room, From(InTeardown(i)), To(InRegistry(x.user))))
  {
    var x, y := s.sessions[i], OnPauseReturns(s.sessions[i]);
    SegmentFrame(s, i, PauseReturns);
    var evicted := s.(common := Evict(s.common, x.user));
    var released := evicted.(sessions := s.sessions[i := y]);
    SwapHeld(evicted, released, i, y);
    StoreHeld(released, x.user, x.teardown.room);
    SameHeld(released.(common := Keep(s.common, x.user, x.teardown.room)), SegmentStep(s, i, PauseReturns));
  }

  lemma StoreHeld(s: System, user: User, room: Sandbox)
    requires user !in s.common.registry
    ensures forall p :: Held(s.(common := Store(s.common, user, room)), p) ==
                        if p == InRegistry(user) then Some(room) else Held(s, p)
  {
  }

  lemma SameHeld(s: System, t: System)
    requires t.sessions == s.sessions && t.common == s.common
    ensures forall p :: Held(t, p) == Held(s, p)
  {
  }

  lemma SegmentOwned(s: System, i: nat, g: Segment)
    requires Control(s) && Owned(s) && i in s.sessions && SegmentEnabled(s.sessions[i], g, true)
    ensures Owned(SegmentStep(s, i, g))
  {
    var t := SegmentStep(s, i, g);
    if g.PauseReturns? {
      var x := s.sessions[i];
      var mid := s.(common := Evict(s.common, x.user));
      EvictTransfers(s, x.user);
      TransferKeepsOwned(s, mid, EvictTransfer(s.common, x.user));
      PauseTransfers(s, i);
      TransferKeepsOwned(mid, t, Move(x.teardown.room, From(InTeardown(i)), To(InRegistry(x.user))));
    } else {
      SegmentTransfers(s, i, g);
      TransferKeepsOwned(s, t, SegmentTransfer(s, i, g));
    }
  }

  function ChoreTransfer(s: System, h: Chore): Transfer
    requires ChoreEnabled(s, h)
  {
    var c := s.common;
    match h
    case ExpiryWakes(t) =>
      var timer := c.timers[t];
      if Lookup(c, timer.user) == Some(timer.kept)
      then Move(timer.kept.sandbox, From(InRegistry(timer.user)), To(InExpiry(t))) else Stay
    case ExpiryEnds(t) => Move(c.timers[t].kept.sandbox, From(InExpiry(t)), Done)
    case SweepNext =>
      var (user, kept) := c.phase.todo[0];
      if Lookup(c, user) == Some(kept) then Move(kept.sandbox, From(InRegistry(user)), To(InSweep)) else Stay
    case SweepEnds => Move(c.phase.busy.value.sandbox, From(InSweep), Done)
    case SweepRaises => Move(c.phase.busy.value.sandbox, From(InSweep), Done)
    case _ => Stay
  }

  lemma ExpiryTransfers(s: System, h: Chore)
    requires ChoreEnabled(s, h) && (h.ExpiryWakes? || h.ExpiryEnds?)
    ensures Transfers(s, s.(common := ChoreStep(s, h)), ChoreTransfer(s, h))
  {
  }

  lemma SweepTransfers(s: System, h: Chore)
    requires ChoreEnabled(s, h) && (h.SweepNext? || h.SweepEnds? || h.SweepRaises?)
    ensures Transfers(s, s.(common := ChoreStep(s, h)), ChoreTransfer(s, h))
  {
  }

  lemma PhaseTransfers(s: System, h: Chore)
    requires ChoreEnabled(s, h)
    requires !h.ExpiryWakes? && !h.ExpiryEnds? && !h.SweepNext? && !h.SweepEnds? && !h.SweepRaises?
    ensures Transfers(s, s.(common := ChoreStep(s, h)), Stay)
  {
  }

  lemma ChoreTransfers(s: System, h: Chore)
    requires ChoreEnabled(s, h)
    ensures Transfers(s, s.(common := ChoreStep(s, h)), ChoreTransfer(s, h))
  {
    if h.ExpiryWakes? || h.ExpiryEnds? {
      ExpiryTransfers(s, h);
    } else if h.SweepNext? || h.SweepEnds? || h.SweepRaises? {
      SweepTransfers(s, h);
    } else {
      PhaseTransfers(s, h);
    }
  }

  lemma ConnectTransfers(s: System, i: nat, user: User)
    requires i !in s.sessions
    ensures Transfers(s, Connect(s, i, user), Stay)
  {
  }

  lemma DrainTransfers(s: System, e: Event)
    requires Enabled(s, e) && (e.GraceEnds? || e.ForceTimesOut?)
    ensures Transfers(s, Apply(s, e), Stay)
  {
    if e.GraceEnds? {
      GraceTransfers(s);
    } else {
      TimeoutTransfers(s);
    }
  }

  lemma GraceTransfers(s: System)
    requires s.common.phase.Grace?
    ensures Transfers(s, GraceEnd(s), Stay)
  {
  }

  lemma TimeoutTransfers(s: System)
    requires s.common.phase.Forcing?
    ensures Transfers(s, ForceTimeout(s), Stay)
  {
  }

  lemma OwnedStep(s: System, e: Event)
    requires Control(s) && Owned(s) && Enabled(s, e)
    ensures Owned(Apply(s, e))
  {
    if e.At? {
      SegmentOwned(s, e.i, e.segment);
    } else if e.Elsewhere? {
      ChoreTransfers(s, e.chore);
      TransferKeepsOwned(s, Apply(s, e), ChoreTransfer(s, e.chore));
    } else {
      if e.Connects? {
        ConnectTransfers(s, e.i, e.user);
      } else {
        DrainTransfers(s, e);
      }
      TransferKeepsOwned(s, Apply(s, e), Stay);
    }
  }
}
