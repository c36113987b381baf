/**
 The guest agent's session: one shell on a pty, the tasks that serve it, and
 the connections that attach to it one after another.

 The agent runs on a multi-threaded runtime, so a segment here is the work a
 task does between two points where it can be overtaken: one lock held, one
 message passed, one read or write returning.
 */
module GuestAgent {
  import opened Wrappers

  type Bytes = seq<bv8>

  const INPUT_QUEUE: nat := 64

  datatype Reader = Unspawned | Alive | Dead

  /** One connection pair, by the order of its attach. */
  datatype Conn = Conn(
    received: Bytes,       // what the data reader has read from the host
    pending: Bytes,        // read, but not yet through the input queue's door
    queued: Bytes,         // handed to the input queue
    dataReader: Reader,
    ctrlReader: Reader,
    begun: bool,           // the pump has started writing to it
    start: nat,            // where in the shell's output its block begins
    got: Bytes,            // the output bytes it was handed
    early: bool,           // its attach returned before the exit task's detach began
    lateData: bool,        // its data writer was installed after the exit task cleared that slot
    lateCtrl: bool)

  datatype Handle = DataReader(c: nat) | CtrlReader(c: nat)

  datatype Pump =
    | PumpIdle
    | Holding(chunk: Bytes)                        // read from the pty, waiting for the slot's lock
    | Sending(c: nat, chunk: Bytes, done: nat)     // in write_all, holding the lock
    | PumpDead

  /** Where the current `attach` call is; the new connection is the last one. */
  datatype Attach =
    | NoAttach
    | Admitted                                     // `serve` chose this session
    | Aborting(handles: seq<Handle>)
    | ClearingCtrl | InstallingData | InstallingCtrl | Spawning | Registering

  datatype Exit =
    | ShellRuns
    | Draining(code: int)                          // running flag cleared, in the grace sleep
    | Reporting(code: int)                         // pump aborted and awaited
    | Detaching                                    // about to take the readers
    | ExitAborting(handles: seq<Handle>)
    | ExitClearingCtrl
    | ExitDone
  {
    /** The exit task's `detach` has not begun. */
    predicate BeforeDetach() { ShellRuns? || Draining? || Reporting? || Detaching? }
    predicate PumpGone() { !ShellRuns? && !Draining? }
    predicate DataCleared() { ExitClearingCtrl? || ExitDone? }
  }

  datatype Slots = Slots(dataOut: Option<nat>, ctrlOut: Option<nat>, readers: seq<Handle>)

  datatype Input = Input(queue: seq<Bytes>, inFlight: Bytes, typed: Bytes, alive: bool)

  /** All output read from the pty so far, and how much of it is delivered or dropped. */
  datatype Output = Output(out: Bytes, pos: nat, pump: Pump)

  datatype Agent = Agent(
    conns: seq<Conn>,
    slots: Slots,
    input: Input,
    output: Output,
    attach: Attach,
    exit: Exit,
    exitLines: seq<(nat, int)>)

  function NewConn(): Conn {
    Conn([], [], [], Unspawned, Unspawned, false, 0, [], false, false, false)
  }

  function Started(): Agent {
    Agent([], Slots(None, None, []), Input([], [], [], true), Output([], 0, PumpIdle), NoAttach, ShellRuns, [])
  }

  datatype Event =
    // `serve` and `attach`
    | Admits | TakesReaders | AbortsReader | ClearsData | ClearsCtrl | InstallsData | InstallsCtrl | Spawns | Registers
    // a connection's readers, and the input task
    | ReaderReads(c: nat, chunk: Bytes) | ReaderSends(c: nat) | ReaderEnds(h: Handle)
    | InputTakes | InputWrites(n: nat) | InputBreaks
    // the output pump
    | PumpReads(chunk: Bytes) | PumpLocks | PumpWrites(n: nat) | PumpFinishes | PumpFails | PumpEnds
    // the exit task
    | ShellExits(code: int) | PumpStopped | ExitReports(ok: bool)
    | ExitTakes | ExitAborts | ExitClearsData | ExitClearsCtrl

  function Last(s: Agent): int { |s.conns| - 1 }

  predicate IsAlive(s: Agent, h: Handle) {
    h.c < |s.conns| && (if h.DataReader? then s.conns[h.c].dataReader.Alive? else s.conns[h.c].ctrlReader.Alive?)
  }

  predicate DataUnlocked(s: Agent) {
    !s.output.pump.Sending?
  }

  predicate Enabled(s: Agent, e: Event) {
    match e
    case Admits => s.attach.NoAttach? && (s.conns == [] || s.exit.ShellRuns?)
    case TakesReaders => s.attach.Admitted?
    case AbortsReader => s.attach.Aborting? && s.attach.handles != []
    case ClearsData => s.attach == Aborting([]) && DataUnlocked(s)
    case ClearsCtrl => s.attach.ClearingCtrl?
    case InstallsData => s.attach.InstallingData? && DataUnlocked(s) && s.conns != []
    case InstallsCtrl => s.attach.InstallingCtrl? && s.conns != []
    case Spawns => s.attach.Spawning? && s.conns != []
    case Registers => s.attach.Registering? && s.conns != []
    case ReaderReads(c, chunk) => IsAlive(s, DataReader(c)) && s.conns[c].pending == [] && chunk != []
    case ReaderSends(c) =>
      IsAlive(s, DataReader(c)) && s.conns[c].pending != [] && s.input.alive && |s.input.queue| < INPUT_QUEUE
    case ReaderEnds(h) => IsAlive(s, h)
    case InputTakes => s.input.alive && s.input.inFlight == [] && s.input.queue != []
    case InputWrites(n) => s.input.alive && 0 < n <= |s.input.inFlight|
    case InputBreaks => s.input.alive
    case PumpReads(chunk) => s.output.pump.PumpIdle? && chunk != []
    case PumpLocks => s.output.pump.Holding?
    case PumpWrites(n) =>
      && s.output.pump.Sending? && s.output.pump.c < |s.conns|
      && 0 < n <= |s.output.pump.chunk| - s.output.pump.done
    case PumpFinishes => s.output.pump.Sending? && s.output.pump.done == |s.output.pump.chunk|
    case PumpFails => s.output.pump.Sending?
    case PumpEnds => s.output.pump.PumpIdle?
    case ShellExits(_) => s.exit.ShellRuns?
    case PumpStopped => s.exit.Draining?
    case ExitReports(_) => s.exit.Reporting?
    case ExitTakes => s.exit.Detaching?
    case ExitAborts => s.exit.ExitAborting? && s.exit.handles != []
    case ExitClearsData => s.exit == ExitAborting([]) && DataUnlocked(s)
    case ExitClearsCtrl => s.exit.ExitClearingCtrl?
  }

  function SetConn(s: Agent, c: nat, x: Conn): Agent
    requires c < |s.conns|
  {
    s.(conns := s.conns[c := x])
  }

  /** A reader task has ended; a chunk it had not yet passed on is gone with it. */
  function Kill(s: Agent, h: Handle): Agent {
    if h.c >= |s.conns| then s
    else if h.DataReader? then SetConn(s, h.c, s.conns[h.c].(dataReader := Dead, pending := []))
    else SetConn(s, h.c, s.conns[h.c].(ctrlReader := Dead))
  }

  function AttachStep(s: Agent, e: Event): Agent
    requires Enabled(s, e)
  {
    match e
    case Admits => s.(attach := Admitted)
    case TakesReaders =>
      s.(conns := s.conns + [NewConn()], attach := Aborting(s.slots.readers), slots := s.slots.(readers := []))
    case AbortsReader => Kill(s, s.attach.handles[0]).(attach := Aborting(s.attach.handles[1..]))
    case ClearsData => s.(slots := s.slots.(dataOut := None), attach := ClearingCtrl)
    case ClearsCtrl => s.(slots := s.slots.(ctrlOut := None), attach := InstallingData)
    case InstallsData =>
      SetConn(s, Last(s), s.conns[Last(s)].(lateData := s.exit.DataCleared()))
        .(slots := s.slots.(dataOut := Some(Last(s))), attach := InstallingCtrl)
    case InstallsCtrl =>
      SetConn(s, Last(s), s.conns[Last(s)].(lateCtrl := s.exit.ExitDone?))
        .(slots := s.slots.(ctrlOut := Some(Last(s))), attach := Spawning)
    case Spawns =>
      SetConn(s, Last(s), s.conns[Last(s)].(dataReader := Alive, ctrlReader := Alive)).(attach := Registering)
    case Registers =>
      SetConn(s, Last(s), s.conns[Last(s)].(early := s.exit.BeforeDetach()))
        .(slots := s.slots.(readers := s.slots.readers + [DataReader(Last(s)), CtrlReader(Last(s))]),
          attach := NoAttach)
    case _ => s
  }

  function InputStep(s: Agent, e: Event): Agent
    requires Enabled(s, e)
  {
    match e
    case ReaderReads(c, chunk) =>
      SetConn(s, c, s.conns[c].(received := s.conns[c].received + chunk, pending := chunk))
    case ReaderSends(c) =>
      SetConn(s, c, s.conns[c].(queued := s.conns[c].queued + s.conns[c].pending, pending := []))
        .(input := s.input.(queue := s.input.queue + [s.conns[c].pending]))
    case ReaderEnds(h) => Kill(s, h)
    case InputTakes => s.(input := s.input.(queue := s.input.queue[1..], inFlight := s.input.queue[0]))
    case InputWrites(n) =>
      s.(input := s.input.(typed := s.input.typed + s.input.inFlight[..n], inFlight := s.input.inFlight[n..]))
    case InputBreaks => s.(input := s.input.(alive := false))
    case _ => s
  }

  function PumpStep(s: Agent, e: Event): Agent
    requires Enabled(s, e)
  {
    var o := s.output;
    match e
    case PumpReads(chunk) => s.(output := o.(out := o.out + chunk, pump := Holding(chunk)))
    case PumpLocks =>
      (match s.slots.dataOut
       case Some(c) =>
         if c >= |s.conns| then s else
           var x := s.conns[c];
           SetConn(s, c, if x.begun then x else x.(begun := true, start := o.pos))
             .(output := o.(pump := Sending(c, o.pump.chunk, 0)))
       case None => s.(output := o.(pos := o.pos + |o.pump.chunk|, pump := PumpIdle)))
    case PumpWrites(n) =>
      var p := o.pump;
      SetConn(s, p.c, s.conns[p.c].(got := s.conns[p.c].got + p.chunk[p.done..p.done + n]))
        .(output := o.(pump := p.(done := p.done + n)))
    case PumpFinishes => s.(output := o.(pos := o.pos + |o.pump.chunk|, pump := PumpIdle))
    case PumpFails =>
      s.(output := o.(pos := o.pos + |o.pump.chunk|, pump := PumpIdle), slots := s.slots.(dataOut := None))
    case PumpEnds => s.(output := o.(pump := PumpDead))
    case _ => s
  }

  function ExitStep(s: Agent, e: Event): Agent
    requires Enabled(s, e)
  {
    match e
    case ShellExits(code) => s.(exit := Draining(code))
    case PumpStopped => s.(exit := Reporting(s.exit.code), output := s.output.(pos := |s.output.out|, pump := PumpDead))
    case ExitReports(ok) =>
      s.(exit := Detaching,
         exitLines := if s.slots.ctrlOut.Some? && ok
                      then s.exitLines + [(s.slots.ctrlOut.value, s.exit.code)] else s.exitLines)
    case ExitTakes => s.(exit := ExitAborting(s.slots.readers), slots := s.slots.(readers := []))
    case ExitAborts => Kill(s, s.exit.handles[0]).(exit := ExitAborting(s.exit.handles[1..]))
    case ExitClearsData => s.(exit := ExitClearingCtrl, slots := s.slots.(dataOut := None))
    case ExitClearsCtrl => s.(exit := ExitDone, slots := s.slots.(ctrlOut := None))
    case _ => s
  }

  predicate IsAttach(e: Event) {
    e.Admits? || e.TakesReaders? || e.AbortsReader? || e.ClearsData? || e.ClearsCtrl? || e.InstallsData?
    || e.InstallsCtrl? || e.Spawns? || e.Registers?
  }

  predicate IsInput(e: Event) {
    e.ReaderReads? || e.ReaderSends? || e.ReaderEnds? || e.InputTakes? || e.InputWrites? || e.InputBreaks?
  }

  predicate IsPump(e: Event) {
    e.PumpReads? || e.PumpLocks? || e.PumpWrites? || e.PumpFinishes? || e.PumpFails? || e.PumpEnds?
  }

  function Apply(s: Agent, e: Event): Agent
    requires Enabled(s, e)
  {
    if IsAttach(e) then AttachStep(s, e)
    else if IsInput(e) then InputStep(s, e)
    else if IsPump(e) then PumpStep(s, e)
    else ExitStep(s, e)
  }

  ghost predicate IsRun(ss: seq<Agent>, es: seq<Event>) {
    && |ss| == |es| + 1
    && ss[0] == Started()
    && forall k :: 0 <= k < |es| ==> Enabled(ss[k], es[k]) && ss[k + 1] == Apply(ss[k], es[k])
  }

  /** A run, by its last state. */
  ghost predicate Reaches(s: Agent) {
    exists ss, es :: IsRun(ss, es) && ss[|es|] == s
  }

  lemma ExtendRun(ss: seq<Agent>, es: seq<Event>, e: Event, t: Agent)
    requires IsRun(ss, es) && Enabled(ss[|es|], e) && t == Apply(ss[|es|], e)
    ensures IsRun(ss + [t], es + [e])
  {
    var tt, ff := ss + [t], es + [e];
    assert tt[0] == ss[0];
    forall k | 0 <= k < |ff|
      ensures Enabled(tt[k], ff[k]) && tt[k + 1] == Apply(tt[k], ff[k])
    {
      if k < |es| {
        assert Enabled(ss[k], es[k]) && ss[k + 1] == Apply(ss[k], es[k]);
      }
    }
  }

  lemma Extend(s: Agent, e: Event)
    requires Reaches(s) && Enabled(s, e)
    ensures Reaches(Apply(s, e))
  {
    var ss, es :| IsRun(ss, es) && ss[|es|] == s;
    var t := Apply(s, e);
    ExtendRun(ss, es, e, t);
    assert (ss + [t])[|es + [e]|] == t;
  }
}
