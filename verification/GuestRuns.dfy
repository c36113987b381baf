/** The theorems about every run of one guest session. */
module GuestRuns {
  import opened Wrappers
  import opened GuestAgent
  import opened GuestOutput
  import opened GuestInput

  // ---- what the exit task has closed ---------------------------------------------------

  predicate PastDataInstall(a: Attach) {
    a.InstallingCtrl? || a.Spawning? || a.Registering? || a.NoAttach?
  }

  predicate PastCtrlInstall(a: Attach) {
    a.Spawning? || a.Registering? || a.NoAttach?
  }

  /** A running reader of an early connection is still in somebody's hands to be aborted. */
  ghost predicate EarlyReadersHeld(s: Agent) {
    !s.exit.BeforeDetach() ==>
      forall h :: IsAlive(s, h) && s.conns[h.c].early ==>
        (s.exit.ExitAborting? && h in s.exit.handles) || Aborts(s.attach, h)
  }

  /** A data writer is in its slot after the exit task cleared it exactly if it was installed after that. */
  ghost predicate LateData(s: Agent) {
    && (forall c :: 0 <= c < |s.conns| && s.conns[c].lateData ==>
          s.exit.DataCleared() && s.slots.dataOut == Some(c) && c == Last(s) && PastDataInstall(s.attach))
    && (s.exit.DataCleared() && s.slots.dataOut.Some? ==>
          s.slots.dataOut.value < |s.conns| && s.conns[s.slots.dataOut.value].lateData)
  }

  ghost predicate LateCtrl(s: Agent) {
    && (forall c :: 0 <= c < |s.conns| && s.conns[c].lateCtrl ==>
          s.exit.ExitDone? && s.slots.ctrlOut == Some(c) && c == Last(s) && PastCtrlInstall(s.attach))
    && (s.exit.ExitDone? && s.slots.ctrlOut.Some? ==>
          s.slots.ctrlOut.value < |s.conns| && s.conns[s.slots.ctrlOut.value].lateCtrl)
  }

  /** The connection being attached has not returned, and an early one was not late at anything. */
  ghost predicate EarlyOk(s: Agent) {
    && (s.conns == [] ==> s.attach.NoAttach? || s.attach.Admitted?)
    && (!s.attach.NoAttach? && !s.attach.Admitted? ==> !s.conns[Last(s)].early)
    && (forall c :: 0 <= c < |s.conns| && s.conns[c].early ==> !s.conns[c].lateData && !s.conns[c].lateCtrl)
  }

  ghost predicate LinesOk(s: Agent) {
    |s.exitLines| <= (if s.exit.ShellRuns? || s.exit.Draining? || s.exit.Reporting? then 0 else 1)
  }

  ghost predicate Inv(s: Agent) {
    && OutputOk(s) && InputOk(s) && EarlyReadersHeld(s) && LateData(s) && LateCtrl(s) && EarlyOk(s) && LinesOk(s)
  }

  lemma EarlyAttach(s: Agent, e: Event)
    requires Inv(s) && Enabled(s, e) && IsAttach(e)
    ensures EarlyReadersHeld(Apply(s, e))
  {
    var t := Apply(s, e);
    if e.AbortsReader? {
      KillReaders(s, s.attach.handles[0]);
      SameSpawned(Kill(s, s.attach.handles[0]), t);
    } else if e.Spawns? {
      EarlySpawn(s);
    } else if e.TakesReaders? {
      assert forall h :: IsAlive(t, h) ==> IsAlive(s, h);
    } else {
      SameSpawned(s, t);
    }
  }

  lemma EarlySpawn(s: Agent)
    requires Inv(s) && Enabled(s, Spawns)
    ensures EarlyReadersHeld(AttachStep(s, Spawns))
  {
    var t := AttachStep(s, Spawns);
    assert !Spawned(s, Last(s));
    forall h | IsAlive(t, h) && t.conns[h.c].early
      ensures IsAlive(s, h)
    {
    }
  }

  lemma EarlyInput(s: Agent, e: Event)
    requires Inv(s) && Enabled(s, e) && IsInput(e)
    ensures EarlyReadersHeld(InputStep(s, e))
  {
    if e.ReaderEnds? {
      KillReaders(s, e.h);
    } else {
      SameSpawned(s, InputStep(s, e));
    }
  }

  lemma EarlyPump(s: Agent, e: Event)
    requires Inv(s) && Enabled(s, e) && IsPump(e)
    ensures EarlyReadersHeld(PumpStep(s, e))
  {
    SameSpawned(s, PumpStep(s, e));
  }

  lemma EarlyExit(s: Agent, e: Event)
    requires Inv(s) && Enabled(s, e) && !IsAttach(e) && !IsInput(e) && !IsPump(e)
    ensures EarlyReadersHeld(ExitStep(s, e))
  {
    var t := ExitStep(s, e);
    if e.ExitAborts? {
      KillReaders(s, s.exit.handles[0]);
      SameSpawned(Kill(s, s.exit.handles[0]), t);
    } else {
      SameSpawned(s, t);
    }
  }

  /** The step leaves this connection's late and early marks, and the number of connections, alone. */
  predicate SameMarks(s: Agent, t: Agent) {
    && |t.conns| == |s.conns|
    && forall c :: 0 <= c < |s.conns| ==>
         t.conns[c].lateData == s.conns[c].lateData && t.conns[c].lateCtrl == s.conns[c].lateCtrl
         && t.conns[c].early == s.conns[c].early
  }

  /** Where attach and exit are, up to which readers they still have to abort. */
  predicate SamePlaces(s: Agent, t: Agent) {
    && t.slots == s.slots
    && (t.attach == s.attach || (t.attach.Aborting? && s.attach.Aborting?))
    && (t.exit == s.exit || (t.exit.ExitAborting? && s.exit.ExitAborting?))
  }

  lemma ReaderMarks(s: Agent, e: Event)
    requires Enabled(s, e) && IsInput(e)
    ensures SameMarks(s, InputStep(s, e)) && SamePlaces(s, InputStep(s, e))
  {
  }

  lemma InputMarks(s: Agent, e: Event)
    requires Enabled(s, e) && (IsInput(e) || e.AbortsReader? || e.ExitAborts?)
    ensures SameMarks(s, Apply(s, e)) && SamePlaces(s, Apply(s, e))
  {
    if IsInput(e) {
      ReaderMarks(s, e);
    } else if e.AbortsReader? {
      assert SameMarks(s, AttachStep(s, e)) && SamePlaces(s, AttachStep(s, e));
    } else {
      assert SameMarks(s, ExitStep(s, e)) && SamePlaces(s, ExitStep(s, e));
    }
  }

  lemma MarksKeep(s: Agent, t: Agent)
    requires LateData(s) && LateCtrl(s) && EarlyOk(s) && SameMarks(s, t) && SamePlaces(s, t)
    ensures LateData(t) && LateCtrl(t) && EarlyOk(t)
  {
  }

  lemma LateAttach(s: Agent, e: Event)
    requires Inv(s) && Enabled(s, e) && IsAttach(e) && !e.AbortsReader?
    ensures LateData(AttachStep(s, e)) && LateCtrl(AttachStep(s, e))
  {
    if e.Admits? || e.Spawns? || e.Registers? {
      LateSame(s, e);
    } else if e.TakesReaders? {
      LateTaken(s);
    }
  }

  lemma LateTaken(s: Agent)
    requires Inv(s) && Enabled(s, TakesReaders)
    ensures LateData(AttachStep(s, TakesReaders)) && LateCtrl(AttachStep(s, TakesReaders))
  {
  }

  lemma LateSame(s: Agent, e: Event)
    requires Inv(s) && Enabled(s, e) && (e.Admits? || e.Spawns? || e.Registers?)
    ensures LateData(AttachStep(s, e)) && LateCtrl(AttachStep(s, e))
  {
  }

  lemma EarlyOkAttach(s: Agent, e: Event)
    requires Inv(s) && Enabled(s, e) && IsAttach(e) && !e.AbortsReader?
    ensures EarlyOk(AttachStep(s, e))
  {
  }

  lemma LateOther(s: Agent, e: Event)
    requires Inv(s) && Enabled(s, e) && !IsAttach(e) && !IsInput(e) && !e.ExitAborts?
    ensures LateData(Apply(s, e)) && LateCtrl(Apply(s, e)) && EarlyOk(Apply(s, e))
  {
    if IsPump(e) {
      LatePump(s, e);
    } else {
      assert SameMarks(s, ExitStep(s, e));
    }
  }

  lemma LatePump(s: Agent, e: Event)
    requires Inv(s) && Enabled(s, e) && IsPump(e)
    ensures LateData(PumpStep(s, e)) && LateCtrl(PumpStep(s, e)) && EarlyOk(PumpStep(s, e))
  {
    assert SameMarks(s, PumpStep(s, e));
  }

  lemma LateStep(s: Agent, e: Event)
    requires Inv(s) && Enabled(s, e)
    ensures LateData(Apply(s, e)) && LateCtrl(Apply(s, e)) && EarlyOk(Apply(s, e))
  {
    if IsInput(e) || e.AbortsReader? || e.ExitAborts? {
      InputMarks(s, e);
      MarksKeep(s, Apply(s, e));
    } else if IsAttach(e) {
      LateAttach(s, e);
      EarlyOkAttach(s, e);
    } else {
      LateOther(s, e);
    }
  }

  lemma InvStep(s: Agent, e: Event)
    requires Inv(s) && Enabled(s, e)
    ensures Inv(Apply(s, e))
  {
    OutputStep(s, e);
    InputOkStep(s, e);
    LateStep(s, e);
    if IsAttach(e) {
      EarlyAttach(s, e);
    } else if IsInput(e) {
      EarlyInput(s, e);
    } else if IsPump(e) {
      EarlyPump(s, e);
    } else {
      EarlyExit(s, e);
    }
  }

  lemma {:induction false} InvAt(ss: seq<Agent>, es: seq<Event>, k: nat)
    requires IsRun(ss, es) && k <= |es|
    ensures Inv(ss[k])
  {
    if k > 0 {
      InvAt(ss, es, k - 1);
      InvStep(ss[k - 1], es[k - 1]);
    }
  }

  // ---- input -----------------------------------------------------------------------------

  /**
   Until the exit task's detach begins, what the pty has been given is a prefix of the
   connections' queued bytes joined in attach order, and those are prefixes of what each
   connection sent: two connections' input never interleaves.
   */
  lemma InputNeverInterleaves(ss: seq<Agent>, es: seq<Event>, k: nat)
    requires IsRun(ss, es) && k <= |es| && ss[k].exit.BeforeDetach()
    ensures ss[k].input.typed <= Joined(ss[k].conns)
    ensures forall c :: 0 <= c < |ss[k].conns| ==> ss[k].conns[c].queued <= ss[k].conns[c].received
  {
    InvAt(ss, es, k);
    assert forall c :: 0 <= c < |ss[k].conns| ==> ConnInputOk(ss[k].conns[c]);
  }

  /** While the pty takes input, nothing handed to the queue is missing: typed, in flight or queued. */
  lemma InputConserved(ss: seq<Agent>, es: seq<Event>, k: nat)
    requires IsRun(ss, es) && k <= |es| && ss[k].exit.BeforeDetach() && ss[k].input.alive
    ensures ss[k].input.typed + ss[k].input.inFlight + Flat(ss[k].input.queue) == Joined(ss[k].conns)
  {
    InvAt(ss, es, k);
    var i := ss[k].input;
    assert i.typed + i.inFlight + Flat(i.queue) == i.typed + InTransit(i);
  }

  /** A displaced connection's reader has ended by the time its successor's starts. */
  lemma OneReaderAtATime(ss: seq<Agent>, es: seq<Event>, k: nat, c: nat, d: nat)
    requires IsRun(ss, es) && k <= |es| && ss[k].exit.BeforeDetach()
    requires IsAlive(ss[k], DataReader(c)) && IsAlive(ss[k], DataReader(d))
    ensures c == d
  {
    InvAt(ss, es, k);
    assert OneReader(ss[k]);
    assert Spawned(ss[k], c) && Spawned(ss[k], d);
  }

  // ---- output ----------------------------------------------------------------------------

  /**
   Each connection is handed one contiguous block of the shell's output; blocks are disjoint and in
   attach order.  While the pump runs, the attached connection has been handed all since its block began.
   */
  lemma OutputBlocks(ss: seq<Agent>, es: seq<Event>, k: nat)
    requires IsRun(ss, es) && k <= |es|
    ensures var s := ss[k];
      && (forall c :: 0 <= c < |s.conns| && s.conns[c].begun ==>
            End(s.conns[c]) <= |s.output.out| && s.conns[c].got == s.output.out[s.conns[c].start..End(s.conns[c])])
      && (forall c :: 0 <= c < |s.conns| && !s.conns[c].begun ==> s.conns[c].got == [])
      && (forall c, d :: 0 <= c < d < |s.conns| && s.conns[c].begun && s.conns[d].begun ==>
            End(s.conns[c]) <= s.conns[d].start)
      && (forall c :: s.slots.dataOut == Some(c) && c < |s.conns| && s.conns[c].begun && !s.output.pump.PumpDead? ==>
            End(s.conns[c]) == Front(s.output))
  {
    InvAt(ss, es, k);
    assert forall c :: 0 <= c < |ss[k].conns| ==> BlockOk(ss[k].output, ss[k].conns[c]);
  }

  // ---- the exit line ----------------------------------------------------------------------

  /** No data byte is handed to `c` by this step. */
  ghost predicate Quiet(s: Agent, t: Agent) {
    && |s.conns| <= |t.conns|
    && forall c :: 0 <= c < |t.conns| ==> t.conns[c].got == (if c < |s.conns| then s.conns[c].got else [])
  }

  lemma QuietStep(s: Agent, e: Event)
    requires Enabled(s, e) && s.output.pump.PumpDead? && s.exit.PumpGone() && !s.exit.Reporting?
    ensures Quiet(s, Apply(s, e)) && Apply(s, e).exitLines == s.exitLines
  {
    if IsAttach(e) {
      assert Quiet(s, AttachStep(s, e));
    } else if IsInput(e) {
      assert Quiet(s, InputStep(s, e));
    } else {
      assert !IsPump(e);
      assert Quiet(s, ExitStep(s, e));
    }
  }

  /** An exit line means the pump is gone. */
  lemma LineMeansPumpGone(ss: seq<Agent>, es: seq<Event>, k: nat)
    requires IsRun(ss, es) && k <= |es|
    ensures |ss[k].exitLines| <= 1
    ensures ss[k].exitLines != [] ==> ss[k].output.pump.PumpDead? && ss[k].exit.PumpGone() && !ss[k].exit.Reporting?
  {
    InvAt(ss, es, k);
  }

  lemma QuietCompose(a: Agent, b: Agent, c: Agent)
    requires Quiet(a, b) && Quiet(b, c)
    ensures Quiet(a, c)
  {
  }

  /** A session writes at most one exit line, and after it no connection is handed another data byte. */
  lemma {:induction false} ExitLineComesLast(ss: seq<Agent>, es: seq<Event>, j: nat, k: nat)
    requires IsRun(ss, es) && j <= k <= |es| && ss[j].exitLines != []
    ensures |ss[k].exitLines| == 1 && ss[k].exitLines == ss[j].exitLines && Quiet(ss[j], ss[k])
  {
    LineMeansPumpGone(ss, es, j);
    if j < k {
      ExitLineComesLast(ss, es, j, k - 1);
      LineMeansPumpGone(ss, es, k - 1);
      QuietStep(ss[k - 1], es[k - 1]);
      QuietCompose(ss[j], ss[k - 1], ss[k]);
    }
  }

  function ExitCode(x: Exit): Option<int> {
    match x
    case Draining(code) => Some(code)
    case Reporting(code) => Some(code)
    case _ => None
  }

  lemma {:induction false} CodeCameFromShell(ss: seq<Agent>, es: seq<Event>, k: nat)
    requires IsRun(ss, es) && k <= |es|
    ensures ExitCode(ss[k].exit).Some? ==> exists n :: 0 <= n < k && es[n] == ShellExits(ExitCode(ss[k].exit).value)
    ensures forall m :: 0 <= m < |ss[k].exitLines| ==>
                          exists n :: 0 <= n < k && es[n] == ShellExits(ss[k].exitLines[m].1)
  {
    if k > 0 {
      CodeCameFromShell(ss, es, k - 1);
      CodeStep(ss[k - 1], es[k - 1]);
    }
  }

  lemma CodeStep(s: Agent, e: Event)
    requires Enabled(s, e)
    ensures var t := Apply(s, e);
      && (ExitCode(t.exit).Some? ==> ExitCode(t.exit) == ExitCode(s.exit) || e == ShellExits(ExitCode(t.exit).value))
      && (forall m :: 0 <= m < |t.exitLines| ==>
            (m < |s.exitLines| && t.exitLines[m] == s.exitLines[m]) || ExitCode(s.exit) == Some(t.exitLines[m].1))
  {
    if IsAttach(e) {
      assert AttachStep(s, e).exit == s.exit && AttachStep(s, e).exitLines == s.exitLines;
    } else if IsInput(e) {
      assert InputStep(s, e).exit == s.exit && InputStep(s, e).exitLines == s.exitLines;
    } else if IsPump(e) {
      assert PumpStep(s, e).exit == s.exit && PumpStep(s, e).exitLines == s.exitLines;
    }
  }

  // ---- the full close ----------------------------------------------------------------------

  /** Both halves of both channels are dropped. */
  predicate FullyClosed(s: Agent, c: nat) {
    && !IsAlive(s, DataReader(c)) && !IsAlive(s, CtrlReader(c))
    && s.slots.dataOut != Some(c) && s.slots.ctrlOut != Some(c)
  }

  /**
   Once the exit task is done and no attach is in the middle of aborting readers, every
   attachment whose attach returned before the exit task's detach began is fully closed.
   */
  lemma EarlyAttachmentsAreClosed(ss: seq<Agent>, es: seq<Event>, k: nat, c: nat)
    requires IsRun(ss, es) && k <= |es| && ss[k].exit.ExitDone? && !ss[k].attach.Aborting?
    requires c < |ss[k].conns| && ss[k].conns[c].early
    ensures FullyClosed(ss[k], c)
  {
    InvAt(ss, es, k);
  }

  /** A writer is still there at the end exactly if its attach installed it after the exit task cleared that slot. */
  lemma WritersLeftOpen(ss: seq<Agent>, es: seq<Event>, k: nat, c: nat)
    requires IsRun(ss, es) && k <= |es| && ss[k].exit.ExitDone? && c < |ss[k].conns|
    ensures ss[k].slots.dataOut == Some(c) <==> ss[k].conns[c].lateData
    ensures ss[k].slots.ctrlOut == Some(c) <==> ss[k].conns[c].lateCtrl
  {
    InvAt(ss, es, k);
  }

  // ---- readers that outlive their session ---------------------------------------------------------------

  predicate Busy(a: Attach) {
    !a.NoAttach? && !a.Admitted?
  }

  /** Only the last connection's attach can have missed the exit task's detach, and then its readers are registered. */
  ghost predicate LateReaders(s: Agent) {
    && (forall c :: 0 <= c < Last(s) ==> s.conns[c].early)
    && (Busy(s.attach) ==> s.conns != [] && !s.conns[Last(s)].early)
    && (s.attach.Admitted? && s.conns != [] ==> s.conns[Last(s)].early)
    && (s.exit.BeforeDetach() && s.attach.NoAttach? && s.conns != [] ==> s.conns[Last(s)].early)
    && (!s.exit.BeforeDetach() ==> s.slots.readers == LateHandles(s))
  }

  function LateHandles(s: Agent): seq<Handle> {
    if s.conns != [] && !Busy(s.attach) && !s.conns[Last(s)].early
    then [DataReader(Last(s)), CtrlReader(Last(s))] else []
  }

  lemma LateReadersAttach(s: Agent, e: Event)
    requires LateReaders(s) && Enabled(s, e) && IsAttach(e)
    ensures LateReaders(AttachStep(s, e))
  {
  }

  lemma LateReadersExit(s: Agent, e: Event)
    requires LateReaders(s) && Enabled(s, e) && !IsAttach(e) && !IsInput(e) && !IsPump(e)
    ensures LateReaders(ExitStep(s, e))
  {
  }

  lemma LateReadersSame(s: Agent, t: Agent)
    requires LateReaders(s) && |t.conns| == |s.conns|
    requires forall c :: 0 <= c < |s.conns| ==> t.conns[c].early == s.conns[c].early
    requires t.slots.readers == s.slots.readers
    requires t.attach == s.attach || (t.attach.Aborting? && s.attach.Aborting?)
    requires t.exit == s.exit || (t.exit.ExitAborting? && s.exit.ExitAborting?)
    ensures LateReaders(t)
  {
  }

  lemma {:induction false} LateReadersAt(ss: seq<Agent>, es: seq<Event>, k: nat)
    requires IsRun(ss, es) && k <= |es|
    ensures LateReaders(ss[k])
  {
    if k > 0 {
      var s, e := ss[k - 1], es[k - 1];
      LateReadersAt(ss, es, k - 1);
      LateReadersStep(s, e);
    }
  }

  lemma LateReadersStep(s: Agent, e: Event)
    requires LateReaders(s) && Enabled(s, e)
    ensures LateReaders(Apply(s, e))
  {
    if IsAttach(e) {
      LateReadersAttach(s, e);
    } else if IsInput(e) {
      ReaderMarks(s, e);
      LateReadersSame(s, InputStep(s, e));
    } else if IsPump(e) {
      LateReadersSame(s, PumpStep(s, e));
    } else {
      LateReadersExit(s, e);
    }
  }

  /**
   Once the exit task is done and no attach is under way, a connection's readers are still registered, until the next
   connection drops the session, exactly if its attach had not returned when the exit task's detach began.  All others
   have ended.
   */
  lemma ReadersLeftOpen(ss: seq<Agent>, es: seq<Event>, k: nat, c: nat)
    requires IsRun(ss, es) && k <= |es| && ss[k].exit.ExitDone? && ss[k].attach.NoAttach? && c < |ss[k].conns|
    ensures DataReader(c) in ss[k].slots.readers <==> !ss[k].conns[c].early
    ensures CtrlReader(c) in ss[k].slots.readers <==> !ss[k].conns[c].early
    ensures IsAlive(ss[k], DataReader(c)) || IsAlive(ss[k], CtrlReader(c)) ==> !ss[k].conns[c].early
  {
    LateReadersAt(ss, es, k);
    InvAt(ss, es, k);
  }
}
