/**
 Every run of the server: any number of sessions, the kept-room registry with
 its expiry timers, and the shutdown path, interleaved segment by segment.

 `born`, `settled`, `lost` and `log` are history: they record which rooms ever
 came to exist, which had a destroy call run to its end, which nothing will
 ever collect and why, and who consumed each kept handle.
 */
module Lifecycle {
  import opened Wrappers
  import opened RoomSessions

  datatype TimerPhase = Sleeping | Deleting | TimerEnded
  datatype Timer = Timer(user: User, kept: Kept, phase: TimerPhase)

  datatype Consumer = Reconnect | Expiry | Sweep
  datatype Consumption = Consumption(kept: Kept, via: Consumer)

  /** Why a room is lost: no place in the program refers to it any more. */
  datatype Cause =
    | TeardownWasCancelled
    | ResumeWasCancelled
    | CleanupWasCancelled
    | LateCheckoutWasCancelled
    | EntryOverwritten

  datatype Phase =
    | Serving
    | Grace                                       // in wait_empty
    | Forcing(targets: set<nat>)                  // in gather over force_close
    | Closing(timedOut: bool)                     // in wait_closed
    | Sweeping(timedOut: bool, todo: seq<(User, Kept)>, busy: Option<Kept>)
    | Closed(timedOut: bool)                      // backend.close() reached
    | Aborted                                     // an exception left the shutdown block

  /** History, and the two identity counters. */
  datatype Books = Books(
    nextRoom: nat,
    nextKept: nat,
    born: set<Sandbox>,
    settled: set<Sandbox>,
    lost: map<Sandbox, Cause>,
    log: seq<Consumption>,
    evicted: set<Kept>)

  /** What the sessions share: the kept rooms, their timers, the shutdown path and the books. */
  datatype Common = Common(registry: map<User, Kept>, timers: seq<Timer>, phase: Phase, books: Books)

  datatype System = System(
    keepEnabled: bool,
    idleEnabled: bool,
    sessions: map<nat, Session>,
    active: set<nat>,
    empty: bool,
    common: Common)

  function Init(keepEnabled: bool, idleEnabled: bool): System {
    System(keepEnabled, idleEnabled, map[], {}, true, Common(map[], [], Serving, Books(0, 0, {}, {}, map[], [], {})))
  }

  /** The segments of one session's tasks and callbacks. */
  datatype Segment =
    | SessionStarted
    | PumpStarts
    | OpenReturns(canPause: bool)
    | ResumeReturns
    | RoomFails
    | CleanupEnds
    | LateCheckoutEnds
    | StreamEnds
    | PumpResumes(channelOpen: bool)
    | PumpCancelled
    | HangsUp
    | IdleFires
    | WatchdogResumes
    | TeardownStarts
    | PauseReturns
    | PauseFails
    | DestroyEnds(status: int)
    | TeardownCancelled
    | ForceStarts
    | ForceReturns

  /** The segments of expiry timers and of the shutdown path that touch no session. */
  datatype Chore =
    | ExpiryWakes(t: nat)
    | ExpiryEnds(t: nat)
    | ShutdownBegins
    | ForceRaises
    | AllForced
    | SweepBegins(order: seq<User>)
    | SweepNext
    | SweepEnds
    | SweepRaises
    | BackendCloses

  datatype Event =
    | Connects(i: nat, user: User)
    | At(i: nat, segment: Segment)
    | Elsewhere(chore: Chore)
    | GraceEnds
    | ForceTimesOut

  // ---- helpers on the shared state ---------------------------------------------

  /** `ActiveSessions.discard`. */
  function Discard(s: System, i: nat): System {
    var rest := s.active - {i};
    s.(active := rest, empty := if rest == {} then true else s.empty)
  }

  function Settle(c: Common, room: Sandbox): Common {
    c.(books := c.books.(settled := c.books.settled + {room}))
  }

  function Lose(c: Common, room: Sandbox, why: Cause): Common {
    c.(books := c.books.(lost := c.books.lost[room := why]))
  }

  /** A backend's open returned a room. */
  function Bear(c: Common, canPause: bool): Common {
    var room := Sandbox(c.books.nextRoom, canPause);
    c.(books := c.books.(born := c.books.born + {room}, nextRoom := c.books.nextRoom + 1))
  }

  function Lookup(c: Common, user: User): Option<Kept> {
    if user in c.registry then Some(c.registry[user]) else None
  }

  function Consume(c: Common, user: User, via: Consumer): Common
    requires user in c.registry
  {
    Common(c.registry - {user}, c.timers, c.phase,
           c.books.(log := c.books.log + [Consumption(c.registry[user], via)]))
  }

  /** What `keep` does to the entry it overwrites: the only reference to it is gone. */
  function Evict(c: Common, user: User): Common {
    if user in c.registry then
      var prior := c.registry[user];
      Common(c.registry - {user}, c.timers, c.phase,
             c.books.(lost := c.books.lost[prior.sandbox := EntryOverwritten], evicted := c.books.evicted + {prior}))
    else c
  }

  function Store(c: Common, user: User, room: Sandbox): Common {
    var kept := Kept(c.books.nextKept, room);
    Common(c.registry[user := kept], c.timers + [Timer(user, kept, Sleeping)], c.phase,
           c.books.(nextKept := c.books.nextKept + 1))
  }

  /** `keep` after `room.pause()` returned: overwrite the entry and start its timer. */
  function Keep(c: Common, user: User, room: Sandbox): Common {
    Store(Evict(c, user), user, room)
  }

  // ---- when each segment can run ---------------------------------------------

  predicate SegmentEnabled(x: Session, g: Segment, forcing: bool) {
    match g
    case SessionStarted => x.pump.NoPump?
    case PumpStarts => x.pump.Scheduled? && !x.pumpCancel
    case OpenReturns(_) => x.pump.Opening?
    case ResumeReturns => x.pump.Resuming?
    case RoomFails => x.pump.Opening? || x.pump.Resuming?
    case CleanupEnds => x.pump.Cleaning?
    case LateCheckoutEnds => x.pump.LateCheckout?
    case StreamEnds => x.pump.Reading?
    case PumpResumes(_) => x.pump.Awaiting? && x.teardown.Over()
    case PumpCancelled =>
      && x.pumpCancel
      && (x.pump.Scheduled? || x.pump.Opening? || x.pump.Resuming? || x.pump.Cleaning? || x.pump.LateCheckout?)
    case HangsUp => true
    case IdleFires => x.watchdog.Watching?
    case WatchdogResumes => x.watchdog.WatchAwaiting? && x.teardown.Over()
    case TeardownStarts => x.teardown.Requested? && !x.teardownCancel
    case PauseReturns => x.teardown.Pausing?
    case PauseFails => x.teardown.Pausing?
    case DestroyEnds(_) => x.teardown.Destroying?
    case TeardownCancelled => x.teardownCancel && x.teardown.Running()
    case ForceStarts => forcing && x.force.ForceScheduled?
    case ForceReturns => forcing && x.force.ForceAwaiting? && x.teardown.Finished?
  }

  predicate Forced(phase: Phase, i: nat) {
    phase.Forcing? && i in phase.targets
  }

  predicate ChoreEnabled(s: System, h: Chore) {
    var c := s.common;
    match h
    case ExpiryWakes(t) => t < |c.timers| && c.timers[t].phase.Sleeping?
    case ExpiryEnds(t) => t < |c.timers| && c.timers[t].phase.Deleting?
    case ShutdownBegins => c.phase.Serving?
    case ForceRaises =>
      c.phase.Forcing? && exists i :: i in c.phase.targets && i in s.sessions && !s.sessions[i].force.ForceReturned?
    case AllForced =>
      c.phase.Forcing? && forall i :: i in c.phase.targets && i in s.sessions ==> s.sessions[i].force.ForceReturned?
    case SweepBegins(order) =>
      && c.phase.Closing?
      && (forall u :: u in order ==> u in c.registry)
      && (forall u :: u in c.registry ==> u in order)
    case SweepNext => c.phase.Sweeping? && c.phase.busy.None? && c.phase.todo != []
    case SweepEnds => c.phase.Sweeping? && c.phase.busy.Some?
    case SweepRaises => c.phase.Sweeping? && c.phase.busy.Some?
    case BackendCloses => c.phase.Sweeping? && c.phase.busy.None? && c.phase.todo == []
  }

  predicate Enabled(s: System, e: Event) {
    match e
    case Connects(i, _) => s.common.phase.Serving? && i !in s.sessions
    case At(i, g) => i in s.sessions && SegmentEnabled(s.sessions[i], g, Forced(s.common.phase, i))
    case Elsewhere(h) => ChoreEnabled(s, h)
    case GraceEnds => s.common.phase.Grace?
    case ForceTimesOut => s.common.phase.Forcing?
  }

  // ---- what each segment does --------------------------------------------------

  function Connect(s: System, i: nat, user: User): System {
    s.(sessions := s.sessions[i := NewSession(user)], active := s.active + {i}, empty := false)
  }

  /** The session a segment runs in, afterwards. */
  function SessionAfter(s: System, x: Session, g: Segment): Session
    requires SegmentEnabled(x, g, true)
  {
    match g
    case SessionStarted => OnSessionStarted(x, s.idleEnabled)
    case PumpStarts => OnPumpStart(x, Lookup(s.common, x.user))
    case OpenReturns(canPause) => OnRoomArrives(x, Sandbox(s.common.books.nextRoom, canPause))
    case ResumeReturns => OnRoomArrives(x, x.pump.kept.sandbox)
    case RoomFails => OnRoomFails(x)
    case CleanupEnds => OnPumpEnds(x)
    case LateCheckoutEnds => OnPumpEnds(x)
    case StreamEnds => OnStreamEnds(x)
    case PumpResumes(channelOpen) => OnPumpResumes(x, channelOpen)
    case PumpCancelled => OnPumpEnds(x)
    case HangsUp => OnHangUp(x)
    case IdleFires => OnIdleFires(x)
    case WatchdogResumes => x.(watchdog := WatchEnded)
    case TeardownStarts => OnTeardownStart(x, s.keepEnabled)
    case PauseReturns => OnPauseReturns(x)
    case PauseFails => OnPauseFails(x)
    case DestroyEnds(status) => OnDestroyEnds(x, status)
    case TeardownCancelled => OnTeardownCancelled(x)
    case ForceStarts => OnForceStart(x)
    case ForceReturns => x.(force := ForceReturned)
  }

  /** What a cancellation thrown into the pump leaves behind. */
  function AbandonPump(c: Common, pump: Pump): Common {
    match pump
    case Resuming(k) => Lose(c, k.sandbox, ResumeWasCancelled)
    case Cleaning(k) => Lose(c, k.sandbox, CleanupWasCancelled)
    case LateCheckout(b) => Lose(c, b, LateCheckoutWasCancelled)
    case _ => c
  }

  function AbandonTeardown(c: Common, teardown: Teardown): Common {
    match teardown
    case Pausing(_, b) => Lose(c, b, TeardownWasCancelled)
    case Destroying(_, b) => Lose(c, b, TeardownWasCancelled)
    case _ => c
  }

  /** What a session's segment does outside the session. */
  function CommonAfter(c: Common, x: Session, g: Segment): Common
    requires SegmentEnabled(x, g, true)
  {
    match g
    case PumpStarts => if x.user in c.registry then Consume(c, x.user, Reconnect) else c
    case OpenReturns(canPause) => Bear(c, canPause)
    case CleanupEnds => Settle(c, x.pump.kept.sandbox)
    case LateCheckoutEnds => Settle(c, x.pump.room)
    case PumpCancelled => AbandonPump(c, x.pump)
    case PauseReturns => Keep(c, x.user, x.teardown.room)
    case DestroyEnds(_) => Settle(c, x.teardown.room)
    case TeardownCancelled => AbandonTeardown(c, x.teardown)
    case _ => c
  }

  /** A segment that ran `_release` also left the registry of active sessions. */
  function SegmentStep(s: System, i: nat, g: Segment): System
    requires i in s.sessions && SegmentEnabled(s.sessions[i], g, true)
  {
    var x := s.sessions[i];
    var y := SessionAfter(s, x, g);
    var t := s.(sessions := s.sessions[i := y], common := CommonAfter(s.common, x, g));
    if y.releases > x.releases then Discard(t, i) else t
  }

  function ExpiryWake(c: Common, t: nat): Common
    requires t < |c.timers|
  {
    var timer := c.timers[t];
    if Lookup(c, timer.user) == Some(timer.kept)
    then Consume(c, timer.user, Expiry).(timers := c.timers[t := timer.(phase := Deleting)])
    else c.(timers := c.timers[t := timer.(phase := TimerEnded)])
  }

  function ExpiryEnd(c: Common, t: nat): Common
    requires t < |c.timers|
  {
    var timer := c.timers[t];
    Settle(c, timer.kept.sandbox).(timers := c.timers[t := timer.(phase := TimerEnded)])
  }

  function GraceEnd(s: System): System {
    if s.active == {} then s.(common := s.common.(phase := Closing(false)))
    else s.(common := s.common.(phase := Forcing(s.active)),
            sessions := map i | i in s.sessions ::
              if i in s.active then s.sessions[i].(force := ForceScheduled) else s.sessions[i])
  }

  /** `wait_for` gives up: every force_close still awaiting a teardown cancels that teardown. */
  function ForceTimeout(s: System): System
    requires s.common.phase.Forcing?
  {
    s.(common := s.common.(phase := Closing(true)),
       sessions := map i | i in s.sessions ::
         var x := s.sessions[i];
         if i in s.common.phase.targets && x.force.ForceAwaiting? && !x.teardown.Over()
         then x.(teardownCancel := true) else x)
  }

  function SweepList(registry: map<User, Kept>, order: seq<User>): (todo: seq<(User, Kept)>)
    requires forall u :: u in order ==> u in registry
    ensures |todo| == |order|
    ensures forall n :: 0 <= n < |order| ==> todo[n] == (order[n], registry[order[n]])
  {
    if order == [] then [] else [(order[0], registry[order[0]])] + SweepList(registry, order[1..])
  }

  function SweepOne(c: Common): Common
    requires c.phase.Sweeping? && c.phase.todo != []
  {
    var (user, kept) := c.phase.todo[0];
    var rest := c.phase.(todo := c.phase.todo[1..]);
    if Lookup(c, user) == Some(kept)
    then Consume(c, user, Sweep).(phase := rest.(busy := Some(kept)))
    else c.(phase := rest)
  }

  function SweepEnd(c: Common): Common
    requires c.phase.Sweeping? && c.phase.busy.Some?
  {
    Settle(c, c.phase.busy.value.sandbox).(phase := c.phase.(busy := None))
  }

  function ChoreStep(s: System, h: Chore): Common
    requires ChoreEnabled(s, h)
  {
    var c := s.common;
    match h
    case ExpiryWakes(t) => ExpiryWake(c, t)
    case ExpiryEnds(t) => ExpiryEnd(c, t)
    case ShutdownBegins => c.(phase := if s.active == {} then Closing(false) else Grace)
    case ForceRaises => c.(phase := Aborted)
    case AllForced => c.(phase := Closing(false))
    case SweepBegins(order) => c.(phase := Sweeping(c.phase.timedOut, SweepList(c.registry, order), None))
    case SweepNext => SweepOne(c)
    case SweepEnds => SweepEnd(c)
    case SweepRaises => SweepEnd(c).(phase := Aborted)
    case BackendCloses => c.(phase := Closed(c.phase.timedOut))
  }

  function Apply(s: System, e: Event): System
    requires Enabled(s, e)
  {
    match e
    case Connects(i, user) => Connect(s, i, user)
    case At(i, g) => SegmentStep(s, i, g)
    case Elsewhere(h) => s.(common := ChoreStep(s, h))
    case GraceEnds => GraceEnd(s)
    case ForceTimesOut => ForceTimeout(s)
  }

  // ---- runs -----------------------------------------------------------------------

  /** A run: the states a server goes through and the segments between them. */
  ghost predicate IsRun(ss: seq<System>, es: seq<Event>) {
    && |ss| == |es| + 1
    && (exists keep, idle :: ss[0] == Init(keep, idle))
    && forall k :: 0 <= k < |es| ==> Enabled(ss[k], es[k]) && ss[k + 1] == Apply(ss[k], es[k])
  }
}
