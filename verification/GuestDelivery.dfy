/**
 What a guest session's tasks owe: every byte the shell writes reaches whoever is
 attached, the histories mean what happened, and the exit line is written.
 */
module GuestDelivery {
  import opened Wrappers
  import opened GuestAgent
  import opened GuestOutput
  import opened GuestInput
  import opened GuestRuns

  // ---- what is attached is delivered to ----------------------------------------------------

  /** The front of the output moved from `s` to `t`, and `c` was handed exactly what lies between. */
  ghost predicate Delivers(s: Agent, t: Agent, c: nat) {
    && c < |s.conns| <= |t.conns|
    && s.output.out <= t.output.out && Front(s.output) <= Front(t.output) <= |t.output.out|
    && t.conns[c].got == s.conns[c].got + t.output.out[Front(s.output)..Front(t.output)]
  }

  lemma PumpDelivers(s: Agent, e: Event, c: nat)
    requires OutputOk(s) && Enabled(s, e) && IsPump(e) && !e.PumpFails? && !e.PumpEnds?
    requires s.slots.dataOut == Some(c)
    ensures Delivers(s, PumpStep(s, e), c)
  {
    var o, t := s.output, PumpStep(s, e);
    if e.PumpWrites? {
      assert o.out[o.pos..] == o.pump.chunk;
      assert o.out[o.pos..][o.pump.done..o.pump.done + e.n] == o.out[Front(o)..Front(t.output)];
    }
  }

  predicate SameDelivery(s: Agent, t: Agent, c: nat) {
    c < |s.conns| <= |t.conns| && t.output == s.output && t.conns[c].got == s.conns[c].got
  }

  lemma OthersDeliver(s: Agent, e: Event, c: nat)
    requires Enabled(s, e) && !IsPump(e) && !e.PumpStopped? && c < |s.conns|
    ensures SameDelivery(s, Apply(s, e), c)
  {
    if IsAttach(e) {
      assert SameDelivery(s, AttachStep(s, e), c);
    } else if IsInput(e) {
      assert SameDelivery(s, InputStep(s, e), c);
    } else {
      assert SameDelivery(s, ExitStep(s, e), c);
    }
  }

  lemma SameDelivers(s: Agent, t: Agent, c: nat)
    requires OutputOk(s) && SameDelivery(s, t, c)
    ensures Delivers(s, t, c)
  {
  }

  /** By length: `c` was handed as many bytes as the front moved, behind what it had. */
  predicate Moves(s: Agent, t: Agent, c: nat) {
    && c < |s.conns| <= |t.conns| && Front(s.output) <= Front(t.output)
    && |t.conns[c].got| == |s.conns[c].got| + (Front(t.output) - Front(s.output))
    && s.conns[c].got <= t.conns[c].got
  }

  lemma DeliveryMoves(s: Agent, t: Agent, c: nat)
    requires Delivers(s, t, c)
    ensures Moves(s, t, c)
  {
  }

  lemma MovesOn(r: Agent, s: Agent, t: Agent, c: nat)
    requires Moves(r, s, c) && Moves(s, t, c)
    ensures Moves(r, t, c)
  {
  }

  lemma MovedIsDelivered(s: Agent, t: Agent, c: nat)
    requires OutputOk(s) && OutputOk(t) && Moves(s, t, c) && s.output.out <= t.output.out
    requires t.slots.dataOut == Some(c) && !t.output.pump.PumpDead?
    ensures Delivers(s, t, c)
  {
    var x, y := s.conns[c], t.conns[c];
    assert BlockOk(t.output, y);
    if y.begun {
      assert y.got == t.output.out[y.start..Front(t.output)];
      assert y.got == y.got[..|x.got|] + y.got[|x.got|..];
      assert y.got[|x.got|..] == t.output.out[Front(s.output)..Front(t.output)];
    }
  }

  lemma DeadStaysDead(s: Agent, e: Event)
    requires Enabled(s, e)
    ensures Apply(s, e).output.pump.PumpDead? <==> s.output.pump.PumpDead? || e.PumpEnds? || e.PumpStopped?
  {
    if IsAttach(e) {
      assert AttachStep(s, e).output == s.output;
    } else if IsInput(e) {
      assert InputStep(s, e).output == s.output;
    }
  }

  /** Connection `c` stays attached from `j` to `k`, and no write to it fails. */
  ghost predicate Attached(ss: seq<Agent>, es: seq<Event>, j: nat, k: nat, c: nat)
    requires |ss| > |es| >= k >= j
  {
    && (forall n :: j <= n <= k ==> ss[n].slots.dataOut == Some(c))
    && (forall n :: j <= n < k ==> !es[n].PumpFails?)
    && !ss[k].output.pump.PumpDead?
  }

  lemma DeliveryStep(ss: seq<Agent>, es: seq<Event>, k: nat, c: nat)
    requires IsRun(ss, es) && k < |es| && ss[k].slots.dataOut == Some(c)
    requires !es[k].PumpFails? && !ss[k + 1].output.pump.PumpDead?
    ensures Delivers(ss[k], ss[k + 1], c) && !ss[k].output.pump.PumpDead?
  {
    OutputAt(ss, es, k);
    DeadStaysDead(ss[k], es[k]);
    if IsPump(es[k]) {
      PumpDelivers(ss[k], es[k], c);
    } else {
      OthersDeliver(ss[k], es[k], c);
      SameDelivers(ss[k], ss[k + 1], c);
    }
  }

  lemma OutputAt(ss: seq<Agent>, es: seq<Event>, k: nat)
    requires IsRun(ss, es) && k <= |es|
    ensures OutputOk(ss[k])
  {
    InvAt(ss, es, k);
  }

  lemma {:induction false} AliveBefore(ss: seq<Agent>, es: seq<Event>, n: nat, k: nat)
    requires IsRun(ss, es) && n <= k <= |es| && !ss[k].output.pump.PumpDead?
    ensures !ss[n].output.pump.PumpDead?
  {
    if n < k {
      DeadStaysDead(ss[k - 1], es[k - 1]);
      AliveBefore(ss, es, n, k - 1);
    }
  }

  ghost predicate MovesAt(ss: seq<Agent>, n: nat, c: nat)
    requires n + 1 < |ss|
  {
    Moves(ss[n], ss[n + 1], c)
  }

  lemma {:induction false} MovesThrough(ss: seq<Agent>, j: nat, k: nat, c: nat)
    requires j < k < |ss| && forall n :: j <= n < k ==> MovesAt(ss, n, c)
    ensures Moves(ss[j], ss[k], c)
  {
    assert MovesAt(ss, k - 1, c);
    if j < k - 1 {
      MovesThrough(ss, j, k - 1, c);
      MovesOn(ss[j], ss[k - 1], ss[k], c);
    }
  }

  lemma AttachedMoves(ss: seq<Agent>, es: seq<Event>, j: nat, k: nat, c: nat)
    requires IsRun(ss, es) && j <= k <= |es| && Attached(ss, es, j, k, c)
    ensures Moves(ss[j], ss[k], c)
  {
    if j < k {
      forall n | j <= n < k
        ensures MovesAt(ss, n, c)
      {
        AliveBefore(ss, es, n + 1, k);
        MovesStep(ss, es, n, c);
      }
      MovesThrough(ss, j, k, c);
    } else {
      InRange(ss, es, j, c);
    }
  }

  lemma MovesStep(ss: seq<Agent>, es: seq<Event>, k: nat, c: nat)
    requires IsRun(ss, es) && k < |es| && ss[k].slots.dataOut == Some(c)
    requires !es[k].PumpFails? && !ss[k + 1].output.pump.PumpDead?
    ensures Moves(ss[k], ss[k + 1], c)
  {
    DeliveryStep(ss, es, k, c);
    DeliveryMoves(ss[k], ss[k + 1], c);
  }

  lemma InRange(ss: seq<Agent>, es: seq<Event>, k: nat, c: nat)
    requires IsRun(ss, es) && k <= |es| && ss[k].slots.dataOut == Some(c)
    ensures c < |ss[k].conns|
  {
    OutputAt(ss, es, k);
  }

  lemma {:induction false} OutGrows(ss: seq<Agent>, es: seq<Event>, j: nat, k: nat)
    requires IsRun(ss, es) && j <= k <= |es|
    ensures ss[j].output.out <= ss[k].output.out
  {
    if j < k {
      OutGrows(ss, es, j, k - 1);
      OutStep(ss[k - 1], es[k - 1]);
    }
  }

  /**
   As long as a connection stays attached, its writes succeed and the pump runs, it is handed
   exactly the shell's output that the pump gets through, from the first byte on.
   */
  lemma AttachedIsHandedAll(ss: seq<Agent>, es: seq<Event>, j: nat, k: nat, c: nat)
    requires IsRun(ss, es) && j <= k <= |es| && Attached(ss, es, j, k, c)
    ensures Delivers(ss[j], ss[k], c)
  {
    AttachedMoves(ss, es, j, k, c);
    OutGrows(ss, es, j, k);
    OutputAt(ss, es, j);
    OutputAt(ss, es, k);
    MovedIsDelivered(ss[j], ss[k], c);
  }

  // ---- what is displaced is left alone -----------------------------------------------------

  /** Both slots are empty from the moment `attach` clears them until it fills them again. */
  predicate Cleared(s: Agent) {
    && (s.attach.ClearingCtrl? || s.attach.InstallingData? ==> s.slots.dataOut == None)
    && (s.attach.InstallingData? || s.attach.InstallingCtrl? ==> s.slots.ctrlOut == None)
  }

  lemma ClearedStep(s: Agent, e: Event)
    requires Cleared(s) && Enabled(s, e)
    ensures Cleared(Apply(s, e))
  {
    if IsInput(e) {
      assert InputStep(s, e).slots == s.slots && InputStep(s, e).attach == s.attach;
    }
  }

  lemma {:induction false} ClearedAt(ss: seq<Agent>, es: seq<Event>, k: nat)
    requires IsRun(ss, es) && k <= |es|
    ensures Cleared(ss[k])
  {
    if k > 0 {
      ClearedAt(ss, es, k - 1);
      ClearedStep(ss[k - 1], es[k - 1]);
    }
  }

  /** The connection has been displaced: a later one is past the point where `attach` clears the slots. */
  predicate Displaced(s: Agent, c: nat) {
    && c < |s.conns| && (c < Last(s) - 1 || (c == Last(s) - 1 && !s.attach.Aborting?))
    && s.slots.dataOut != Some(c)
  }

  lemma DisplacedStep(s: Agent, e: Event, c: nat)
    requires OutputOk(s) && Enabled(s, e) && Displaced(s, c)
    ensures Displaced(Apply(s, e), c) && Apply(s, e).conns[c].got == s.conns[c].got
  {
    if IsAttach(e) {
      assert Displaced(AttachStep(s, e), c) && AttachStep(s, e).conns[c].got == s.conns[c].got;
    } else if IsInput(e) {
      assert Displaced(InputStep(s, e), c) && InputStep(s, e).conns[c].got == s.conns[c].got;
    } else if IsPump(e) {
      assert Displaced(PumpStep(s, e), c) && PumpStep(s, e).conns[c].got == s.conns[c].got;
    } else {
      assert Displaced(ExitStep(s, e), c) && ExitStep(s, e).conns[c].got == s.conns[c].got;
    }
  }

  lemma {:induction false} StaysDisplaced(ss: seq<Agent>, es: seq<Event>, j: nat, k: nat, c: nat)
    requires IsRun(ss, es) && j <= k <= |es| && Displaced(ss[j], c)
    ensures Displaced(ss[k], c) && ss[k].conns[c].got == ss[j].conns[c].got
  {
    if j < k {
      StaysDisplaced(ss, es, j, k - 1, c);
      OutputAt(ss, es, k - 1);
      DisplacedStep(ss[k - 1], es[k - 1], c);
    }
  }

  /** From the moment `attach` has cleared the data slot, the connection it displaces is handed nothing more, ever. */
  lemma DisplacedIsHandedNothing(ss: seq<Agent>, es: seq<Event>, j: nat, k: nat, c: nat)
    requires IsRun(ss, es) && j < k <= |es| && es[j].ClearsData? && c < Last(ss[j])
    ensures c < |ss[k].conns| && ss[k].conns[c].got == ss[j].conns[c].got
  {
    OutputAt(ss, es, j);
    ClearedAt(ss, es, j + 1);
    assert Displaced(ss[j + 1], c);
    StaysDisplaced(ss, es, j + 1, k, c);
  }

  // ---- the histories mean what happened ----------------------------------------------------

  /** Everything the pump read from the pty in the first `k` events. */
  function Written(es: seq<Event>, k: nat): Bytes
    requires k <= |es|
  {
    if k == 0 then []
    else Written(es, k - 1) + (if es[k - 1].PumpReads? then es[k - 1].chunk else [])
  }

  /** Everything connection `c`'s reader read from the host. */
  function Sent(es: seq<Event>, k: nat, c: nat): Bytes
    requires k <= |es|
  {
    if k == 0 then []
    else Sent(es, k - 1, c) + (if es[k - 1].ReaderReads? && es[k - 1].c == c then es[k - 1].chunk else [])
  }

  lemma OutStep(s: Agent, e: Event)
    requires Enabled(s, e)
    ensures Apply(s, e).output.out == s.output.out + (if e.PumpReads? then e.chunk else [])
  {
    if IsAttach(e) {
      assert AttachStep(s, e).output == s.output;
    } else if IsInput(e) {
      assert InputStep(s, e).output == s.output;
    }
  }

  lemma ReceivedStep(s: Agent, e: Event, c: nat)
    requires Enabled(s, e) && c < |s.conns|
    ensures c < |Apply(s, e).conns|
    ensures Apply(s, e).conns[c].received ==
      s.conns[c].received + (if e.ReaderReads? && e.c == c then e.chunk else [])
  {
    if IsAttach(e) {
      assert AttachStep(s, e).conns[c].received == s.conns[c].received;
    } else if IsPump(e) {
      assert PumpStep(s, e).conns[c].received == s.conns[c].received;
    } else if !IsInput(e) {
      assert ExitStep(s, e).conns[c].received == s.conns[c].received;
    }
  }

  lemma NewConnStep(s: Agent, e: Event, c: nat)
    requires Enabled(s, e) && |s.conns| <= c
    ensures c < |Apply(s, e).conns| ==> c == |s.conns| && e.TakesReaders? && Apply(s, e).conns[c] == NewConn()
    ensures !(e.ReaderReads? && e.c == c)
  {
    if IsAttach(e) {
      assert |AttachStep(s, e).conns| == |s.conns| || e.TakesReaders?;
    } else if IsInput(e) {
      assert |InputStep(s, e).conns| == |s.conns|;
    } else if IsPump(e) {
      assert |PumpStep(s, e).conns| == |s.conns|;
    } else {
      assert |ExitStep(s, e).conns| == |s.conns|;
    }
  }

  /** The output is what the pump read from the pty. */
  lemma {:induction false} OutputIsWritten(ss: seq<Agent>, es: seq<Event>, k: nat)
    requires IsRun(ss, es) && k <= |es|
    ensures ss[k].output.out == Written(es, k)
  {
    if k > 0 {
      OutputIsWritten(ss, es, k - 1);
      OutStep(ss[k - 1], es[k - 1]);
    }
  }

  /** Each connection's input is what its reader read from the host. */
  lemma {:induction false} InputIsSent(ss: seq<Agent>, es: seq<Event>, k: nat, c: nat)
    requires IsRun(ss, es) && k <= |es|
    ensures if c < |ss[k].conns| then ss[k].conns[c].received == Sent(es, k, c) else Sent(es, k, c) == []
  {
    if k > 0 {
      InputIsSent(ss, es, k - 1, c);
      if c < |ss[k - 1].conns| {
        ReceivedStep(ss[k - 1], es[k - 1], c);
      } else {
        NewConnStep(ss[k - 1], es[k - 1], c);
      }
    }
  }

  // ---- the exit line ------------------------------------------------------------------------

  /** The code the shell exited with, if it has. */
  function ShellCode(es: seq<Event>, k: nat): Option<int>
    requires k <= |es|
  {
    if k == 0 then None
    else if es[k - 1].ShellExits? then Some(es[k - 1].code) else ShellCode(es, k - 1)
  }

  lemma CodeNext(s: Agent, e: Event)
    requires Enabled(s, e)
    ensures e.ShellExits? ==> s.exit.ShellRuns? && ExitCode(Apply(s, e).exit) == Some(e.code)
    ensures !e.ShellExits? ==> Apply(s, e).exit.ShellRuns? == s.exit.ShellRuns?
    ensures !e.ShellExits? && ExitCode(Apply(s, e).exit).Some? ==> ExitCode(Apply(s, e).exit) == ExitCode(s.exit)
  {
    if IsAttach(e) {
      assert AttachStep(s, e).exit == s.exit;
    } else if IsInput(e) {
      assert InputStep(s, e).exit == s.exit;
    } else if IsPump(e) {
      assert PumpStep(s, e).exit == s.exit;
    }
  }

  /** The exit task knows the code the shell exited with until it has reported it. */
  lemma {:induction false} CodeIsKnown(ss: seq<Agent>, es: seq<Event>, k: nat)
    requires IsRun(ss, es) && k <= |es|
    ensures ss[k].exit.ShellRuns? <==> ShellCode(es, k).None?
    ensures ExitCode(ss[k].exit).Some? ==> ExitCode(ss[k].exit) == ShellCode(es, k)
  {
    if k > 0 {
      CodeIsKnown(ss, es, k - 1);
      CodeNext(ss[k - 1], es[k - 1]);
    }
  }

  /**
   When the exit task reports, the connection whose control writer is installed is written a line with
   the code the shell exited with, exactly if the write succeeds; and no other step writes a line.
   */
  lemma LineIsWritten(ss: seq<Agent>, es: seq<Event>, k: nat)
    requires IsRun(ss, es) && k < |es|
    ensures ss[k + 1].exitLines ==
      if es[k].ExitReports? && es[k].ok && ss[k].slots.ctrlOut.Some? && ShellCode(es, k).Some?
      then [(ss[k].slots.ctrlOut.value, ShellCode(es, k).value)] else ss[k].exitLines
    ensures es[k].ExitReports? ==> ShellCode(es, k).Some? && ss[k].exitLines == []
  {
    var s, e := ss[k], es[k];
    CodeIsKnown(ss, es, k);
    InvAt(ss, es, k);
    if IsAttach(e) {
      assert AttachStep(s, e).exitLines == s.exitLines;
    } else if IsInput(e) {
      assert InputStep(s, e).exitLines == s.exitLines;
    } else if IsPump(e) {
      assert PumpStep(s, e).exitLines == s.exitLines;
    }
  }

  // ---- no task of the session is stuck -------------------------------------------------------

  /** The next step of whatever is unfinished, apart from reads that wait for the other side. */
  predicate HasWork(s: Agent) {
    || !s.attach.NoAttach?
    || s.output.pump.Holding? || s.output.pump.Sending?
    || (s.input.alive && (s.input.inFlight != [] || s.input.queue != []))
    || (!s.exit.ShellRuns? && !s.exit.ExitDone?)
  }

  /** One step that can be taken: the pump's first, since others may wait for the lock it holds. */
  function Goes(s: Agent): Event
    requires s.output.pump.Sending? ==> s.output.pump.done <= |s.output.pump.chunk|
  {
    if s.output.pump.Holding? then PumpLocks
    else if s.output.pump.Sending? then
      if s.output.pump.done == |s.output.pump.chunk| then PumpFinishes
      else PumpWrites(|s.output.pump.chunk| - s.output.pump.done)
    else if s.input.alive && s.input.inFlight != [] then InputWrites(|s.input.inFlight|)
    else if s.input.alive && s.input.queue != [] then InputTakes
    else match s.attach
         case Admitted => TakesReaders
         case Aborting(handles) => if handles == [] then ClearsData else AbortsReader
         case ClearingCtrl => ClearsCtrl
         case InstallingData => InstallsData
         case InstallingCtrl => InstallsCtrl
         case Spawning => Spawns
         case Registering => Registers
         case NoAttach => ExitGoes(s.exit)
  }

  function ExitGoes(x: Exit): Event {
    match x
    case ExitAborting(handles) => if handles == [] then ExitClearsData else ExitAborts
    case ShellRuns => PumpEnds
    case Draining(_) => PumpStopped
    case Reporting(_) => ExitReports(true)
    case Detaching => ExitTakes
    case ExitClearingCtrl => ExitClearsCtrl
    case ExitDone => PumpEnds
  }

  lemma NothingIsStuck(ss: seq<Agent>, es: seq<Event>, k: nat)
    requires IsRun(ss, es) && k <= |es| && HasWork(ss[k])
    ensures ss[k].output.pump.Sending? ==> ss[k].output.pump.done <= |ss[k].output.pump.chunk|
    ensures Enabled(ss[k], Goes(ss[k]))
  {
    InvAt(ss, es, k);
  }

  function PumpWork(p: Pump): nat {
    match p
    case Holding(_) => 3
    case Sending(_, chunk, done) => if done < |chunk| then 2 else 1
    case _ => 0
  }

  function AttachWork(a: Attach): nat {
    match a
    case NoAttach => 0
    case Registering => 4
    case Spawning => 5
    case InstallingCtrl => 6
    case InstallingData => 7
    case ClearingCtrl => 8
    case Aborting(handles) => 9 + |handles|
    case Admitted => 10
  }

  function ExitWork(x: Exit): nat {
    match x
    case ShellRuns => 0
    case Draining(_) => 5
    case Reporting(_) => 4
    case Detaching => 3
    case ExitAborting(handles) => 2 + |handles|
    case ExitClearingCtrl => 1
    case ExitDone => 0
  }

  /** How much is left to do, if nothing new comes in. */
  function Work(s: Agent): nat {
    PumpWork(s.output.pump) + AttachWork(s.attach) + ExitWork(s.exit) + |s.slots.readers|
    + 2 * |s.input.queue| + (if s.input.inFlight != [] then 1 else 0)
  }

  lemma PumpWorks(s: Agent, e: Event)
    requires Enabled(s, e) && (e.PumpLocks? || e.PumpFinishes? || e.PumpFails?)
    requires s.slots.dataOut.Some? ==> s.slots.dataOut.value < |s.conns|
    requires s.output.pump.Holding? ==> s.output.pump.chunk != []
    ensures Work(PumpStep(s, e)) < Work(s)
  {
  }

  lemma WriteWorks(s: Agent, n: nat)
    requires Enabled(s, PumpWrites(n)) && n == |s.output.pump.chunk| - s.output.pump.done
    ensures Work(PumpStep(s, PumpWrites(n))) < Work(s)
  {
  }

  lemma InputWorks(s: Agent, e: Event)
    requires Enabled(s, e) && (e.InputTakes? || (e.InputWrites? && e.n == |s.input.inFlight|))
    ensures Work(InputStep(s, e)) < Work(s)
  {
  }

  lemma AttachWorks(s: Agent, e: Event)
    requires Enabled(s, e) && IsAttach(e) && !e.Admits?
    ensures Work(AttachStep(s, e)) < Work(s)
  {
  }

  lemma ExitWorks(s: Agent, e: Event)
    requires Enabled(s, e) && !IsAttach(e) && !IsInput(e) && !IsPump(e) && !e.ShellExits? && !s.output.pump.Holding?
    ensures Work(ExitStep(s, e)) < Work(s)
  {
  }

  lemma GoesDown(s: Agent)
    requires Reaches(s) && HasWork(s)
    ensures s.output.pump.Sending? ==> s.output.pump.done <= |s.output.pump.chunk|
    ensures Enabled(s, Goes(s)) && Work(Apply(s, Goes(s))) < Work(s)
  {
    var ss, es :| IsRun(ss, es) && ss[|es|] == s;
    NothingIsStuck(ss, es, |es|);
    OutputAt(ss, es, |es|);
    HoldsSomething(ss, es, |es|);
    var e := Goes(s);
    if e.PumpWrites? {
      WriteWorks(s, e.n);
    } else if IsPump(e) {
      PumpWorks(s, e);
    } else if IsInput(e) {
      InputWorks(s, e);
    } else if IsAttach(e) {
      AttachWorks(s, e);
    } else {
      ExitWorks(s, e);
    }
  }

  /** A chunk the pump holds is not empty. */
  lemma {:induction false} HoldsSomething(ss: seq<Agent>, es: seq<Event>, k: nat)
    requires IsRun(ss, es) && k <= |es|
    ensures ss[k].output.pump.Holding? ==> ss[k].output.pump.chunk != []
  {
    if k > 0 {
      HoldsSomething(ss, es, k - 1);
      HoldStep(ss[k - 1], es[k - 1]);
    }
  }

  lemma HoldStep(s: Agent, e: Event)
    requires Enabled(s, e) && (s.output.pump.Holding? ==> s.output.pump.chunk != [])
    ensures Apply(s, e).output.pump.Holding? ==> Apply(s, e).output.pump.chunk != []
  {
    if IsAttach(e) {
      assert AttachStep(s, e).output == s.output;
    } else if IsInput(e) {
      assert InputStep(s, e).output == s.output;
    }
  }

  /** From any state a run leads to, everything begun can be brought to its end: attach, output, input and exit. */
  lemma CanSettle(s: Agent) returns (t: Agent)
    requires Reaches(s)
    ensures Reaches(t) && !HasWork(t)
    decreases Work(s)
  {
    t := s;
    if HasWork(s) {
      GoesDown(s);
      Extend(s, Goes(s));
      t := CanSettle(Apply(s, Goes(s)));
    }
  }

  // ---- what can go wrong is covered ---------------------------------------------------------

  /** Any write to the attached connection may fail: it is given up, and the pump goes on. */
  lemma WriteMayFail(s: Agent) returns (t: Agent)
    requires Reaches(s) && s.output.pump.Sending?
    ensures Reaches(t) && t.slots.dataOut == None && t.output.pump.PumpIdle? && t.conns == s.conns
    ensures t.output.out == s.output.out && t.output.pos == s.output.pos + |s.output.pump.chunk|
  {
    t := Apply(s, PumpFails);
    Extend(s, PumpFails);
  }

  /** The pty may end between two reads. */
  lemma PtyMayEnd(s: Agent) returns (t: Agent)
    requires Reaches(s) && s.output.pump.PumpIdle?
    ensures Reaches(t) && t == s.(output := s.output.(pump := PumpDead))
  {
    t := Apply(s, PumpEnds);
    Extend(s, PumpEnds);
  }

  /** The pty may refuse input at any time, and the input task ends. */
  lemma PtyMayRefuse(s: Agent) returns (t: Agent)
    requires Reaches(s) && s.input.alive
    ensures Reaches(t) && t == s.(input := s.input.(alive := false))
  {
    t := Apply(s, InputBreaks);
    Extend(s, InputBreaks);
  }

  /** The host may close any channel it is read from. */
  lemma HostMayClose(s: Agent, h: Handle) returns (t: Agent)
    requires Reaches(s) && IsAlive(s, h)
    ensures Reaches(t) && !IsAlive(t, h) && t.slots == s.slots && t.input == s.input && t.output == s.output
  {
    t := Apply(s, ReaderEnds(h));
    Extend(s, ReaderEnds(h));
  }

  lemma DeadReaderAttach(s: Agent, e: Event, h: Handle)
    requires HandlesOk(s) && Enabled(s, e) && IsAttach(e) && Spawned(s, h.c) && !IsAlive(s, h)
    ensures Spawned(AttachStep(s, e), h.c) && !IsAlive(AttachStep(s, e), h)
  {
  }

  lemma DeadReaderStep(s: Agent, e: Event, h: Handle)
    requires HandlesOk(s) && Enabled(s, e) && Spawned(s, h.c) && !IsAlive(s, h)
    ensures Spawned(Apply(s, e), h.c) && !IsAlive(Apply(s, e), h)
  {
    if IsAttach(e) {
      DeadReaderAttach(s, e, h);
    } else if IsInput(e) {
      assert Spawned(InputStep(s, e), h.c) && !IsAlive(InputStep(s, e), h);
    } else if IsPump(e) {
      assert Spawned(PumpStep(s, e), h.c) && !IsAlive(PumpStep(s, e), h);
    } else {
      assert Spawned(ExitStep(s, e), h.c) && !IsAlive(ExitStep(s, e), h);
    }
  }

  /** A reader that has ended stays ended. */
  lemma {:induction false} EndedForGood(ss: seq<Agent>, es: seq<Event>, j: nat, k: nat, h: Handle)
    requires IsRun(ss, es) && j < k <= |es| && es[j] == ReaderEnds(h)
    ensures Spawned(ss[k], h.c) && !IsAlive(ss[k], h)
  {
    HandlesAt(ss, es, k - 1);
    if j < k - 1 {
      EndedForGood(ss, es, j, k - 1, h);
      DeadReaderStep(ss[k - 1], es[k - 1], h);
    } else {
      assert Enabled(ss[j], es[j]);
      KillReaders(ss[j], h);
    }
  }

  lemma HandlesAt(ss: seq<Agent>, es: seq<Event>, k: nat)
    requires IsRun(ss, es) && k <= |es|
    ensures HandlesOk(ss[k])
  {
    InvAt(ss, es, k);
  }

  lemma RefusedStep(s: Agent, e: Event)
    requires Enabled(s, e) && !s.input.alive
    ensures !Apply(s, e).input.alive && Apply(s, e).input.typed == s.input.typed
  {
    if IsAttach(e) {
      assert AttachStep(s, e).input == s.input;
    } else if IsPump(e) {
      assert PumpStep(s, e).input == s.input;
    } else if !IsInput(e) {
      assert ExitStep(s, e).input == s.input;
    }
  }

  /** Once the pty has refused input the shell is given nothing more. */
  lemma {:induction false} RefusedForGood(ss: seq<Agent>, es: seq<Event>, j: nat, k: nat)
    requires IsRun(ss, es) && j < k <= |es| && es[j].InputBreaks?
    ensures !ss[k].input.alive && ss[k].input.typed == ss[j].input.typed
  {
    if j < k - 1 {
      RefusedForGood(ss, es, j, k - 1);
      RefusedStep(ss[k - 1], es[k - 1]);
    }
  }

  lemma QueueStep(s: Agent, e: Event)
    requires Enabled(s, e) && |s.input.queue| <= 64
    ensures |Apply(s, e).input.queue| <= 64
  {
    if IsAttach(e) {
      assert AttachStep(s, e).input == s.input;
    } else if IsPump(e) {
      assert PumpStep(s, e).input == s.input;
    } else if !IsInput(e) {
      assert ExitStep(s, e).input == s.input;
    }
  }

  /** However much the host sends, no more than 64 chunks wait for the shell. */
  lemma {:induction false} QueueIsBounded(ss: seq<Agent>, es: seq<Event>, k: nat)
    requires IsRun(ss, es) && k <= |es|
    ensures |ss[k].input.queue| <= 64
  {
    if k > 0 {
      QueueIsBounded(ss, es, k - 1);
      QueueStep(ss[k - 1], es[k - 1]);
    }
  }
}
