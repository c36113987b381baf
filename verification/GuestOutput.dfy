/** Which bytes of the shell's output each connection is handed. */
module GuestOutput {
  import opened Wrappers
  import opened GuestAgent

  function InHand(p: Pump): Bytes {
    match p
    case Holding(chunk) => chunk
    case Sending(_, chunk, _) => chunk
    case _ => []
  }

  /** How much of the output is dealt with, counting the part of the current chunk already written. */
  function Front(o: Output): nat {
    if o.pump.Sending? then o.pos + o.pump.done else o.pos
  }

  function End(x: Conn): nat {
    x.start + |x.got|
  }

  ghost predicate PumpOk(s: Agent) {
    var o := s.output;
    && o.pos <= |o.out|
    && (!o.pump.PumpDead? ==> o.out[o.pos..] == InHand(o.pump))
    && (o.pump.Sending? ==>
          && o.pump.done <= |o.pump.chunk| && s.slots.dataOut == Some(o.pump.c)
          && o.pump.c < |s.conns| && s.conns[o.pump.c].begun)
  }

  /** A connection's bytes are one contiguous block of the output. */
  ghost predicate BlockOk(o: Output, x: Conn) {
    if x.begun then End(x) <= Front(o) <= |o.out| && x.got == o.out[x.start..End(x)] else x.got == []
  }

  /** The blocks follow one another, and the attached connection's block reaches the front. */
  ghost predicate BlocksOk(s: Agent) {
    && (forall c :: 0 <= c < |s.conns| ==> BlockOk(s.output, s.conns[c]))
    && (forall c, d :: 0 <= c < d < |s.conns| && s.conns[c].begun && s.conns[d].begun ==>
          End(s.conns[c]) <= s.conns[d].start)
    && (s.slots.dataOut.Some? ==>
          var c := s.slots.dataOut.value;
          && c < |s.conns|
          && (forall d :: c < d < |s.conns| ==> !s.conns[d].begun)
          && (s.conns[c].begun && !s.output.pump.PumpDead? ==> End(s.conns[c]) == Front(s.output)))
  }

  /** The connection being attached has not been installed yet. */
  predicate NotInstalled(a: Attach) {
    a.Aborting? || a.ClearingCtrl? || a.InstallingData?
  }

  ghost predicate OutputOk(s: Agent) {
    && PumpOk(s) && BlocksOk(s)
    && (NotInstalled(s.attach) ==> s.conns != [] && !s.conns[Last(s)].begun && s.slots.dataOut != Some(Last(s)))
    && (s.exit.PumpGone() ==> s.output.pump.PumpDead?)
  }

  /** Nothing the output invariant speaks about differs. */
  ghost predicate SameOutput(s: Agent, t: Agent) {
    && t.output == s.output && t.slots.dataOut == s.slots.dataOut && |t.conns| == |s.conns|
    && (forall c :: 0 <= c < |s.conns| ==>
          && t.conns[c].begun == s.conns[c].begun && t.conns[c].start == s.conns[c].start
          && t.conns[c].got == s.conns[c].got)
  }

  lemma SameOutputKeeps(s: Agent, t: Agent)
    requires OutputOk(s) && SameOutput(s, t)
    requires NotInstalled(t.attach) ==> NotInstalled(s.attach)
    requires t.exit.PumpGone() ==> s.exit.PumpGone()
    ensures OutputOk(t)
  {
    forall c | 0 <= c < |t.conns|
      ensures BlockOk(t.output, t.conns[c])
    {
      assert BlockOk(s.output, s.conns[c]);
    }
  }

  lemma NewConnOutput(s: Agent)
    requires OutputOk(s) && Enabled(s, TakesReaders)
    ensures OutputOk(AttachStep(s, TakesReaders))
  {
    var t := AttachStep(s, TakesReaders);
    forall c | 0 <= c < |t.conns|
      ensures BlockOk(t.output, t.conns[c])
    {
      if c < |s.conns| {
        assert BlockOk(s.output, s.conns[c]);
      }
    }
  }

  lemma SlotOutput(s: Agent, e: Event)
    requires OutputOk(s) && Enabled(s, e) && (e.ClearsData? || e.InstallsData?)
    ensures OutputOk(AttachStep(s, e))
  {
    var t := AttachStep(s, e);
    forall c | 0 <= c < |t.conns|
      ensures BlockOk(t.output, t.conns[c])
    {
      assert BlockOk(s.output, s.conns[c]);
    }
  }

  lemma AttachOutput(s: Agent, e: Event)
    requires OutputOk(s) && Enabled(s, e) && IsAttach(e)
    ensures OutputOk(AttachStep(s, e))
  {
    if e.TakesReaders? {
      NewConnOutput(s);
    } else if e.ClearsData? || e.InstallsData? {
      SlotOutput(s, e);
    } else {
      SameOutputKeeps(s, AttachStep(s, e));
    }
  }

  lemma PumpReadOutput(s: Agent, e: Event)
    requires OutputOk(s) && Enabled(s, e) && (e.PumpReads? || e.PumpEnds?)
    ensures OutputOk(PumpStep(s, e))
  {
    var t := PumpStep(s, e);
    forall c | 0 <= c < |t.conns|
      ensures BlockOk(t.output, t.conns[c])
    {
      assert BlockOk(s.output, s.conns[c]);
    }
  }

  lemma PumpLockOutput(s: Agent)
    requires OutputOk(s) && Enabled(s, PumpLocks)
    ensures OutputOk(PumpStep(s, PumpLocks))
  {
    var t := PumpStep(s, PumpLocks);
    forall c | 0 <= c < |t.conns|
      ensures BlockOk(t.output, t.conns[c])
    {
      assert BlockOk(s.output, s.conns[c]);
    }
  }

  lemma PumpWriteOutput(s: Agent, n: nat)
    requires OutputOk(s) && Enabled(s, PumpWrites(n))
    ensures OutputOk(PumpStep(s, PumpWrites(n)))
  {
    var o, t := s.output, PumpStep(s, PumpWrites(n));
    forall c | 0 <= c < |t.conns|
      ensures BlockOk(t.output, t.conns[c])
    {
      assert BlockOk(o, s.conns[c]);
    }
  }

  lemma PumpReleaseOutput(s: Agent, e: Event)
    requires OutputOk(s) && Enabled(s, e) && (e.PumpFinishes? || e.PumpFails?)
    ensures OutputOk(PumpStep(s, e))
  {
    var t := PumpStep(s, e);
    forall c | 0 <= c < |t.conns|
      ensures BlockOk(t.output, t.conns[c])
    {
      assert BlockOk(s.output, s.conns[c]);
    }
  }

  lemma ExitOutput(s: Agent, e: Event)
    requires OutputOk(s) && Enabled(s, e) && !IsAttach(e) && !IsInput(e) && !IsPump(e)
    ensures OutputOk(ExitStep(s, e))
  {
    if e.PumpStopped? || e.ExitClearsData? {
      PumpStoppedOutput(s, e);
    } else {
      SameOutputKeeps(s, ExitStep(s, e));
    }
  }

  lemma PumpStoppedOutput(s: Agent, e: Event)
    requires OutputOk(s) && Enabled(s, e) && (e.PumpStopped? || e.ExitClearsData?)
    ensures OutputOk(ExitStep(s, e))
  {
    var t := ExitStep(s, e);
    forall c | 0 <= c < |t.conns|
      ensures BlockOk(t.output, t.conns[c])
    {
      assert BlockOk(s.output, s.conns[c]);
    }
  }

  lemma OutputStep(s: Agent, e: Event)
    requires OutputOk(s) && Enabled(s, e)
    ensures OutputOk(Apply(s, e))
  {
    if IsAttach(e) {
      AttachOutput(s, e);
    } else if IsInput(e) {
      SameOutputKeeps(s, InputStep(s, e));
    } else if e.PumpReads? || e.PumpEnds? {
      PumpReadOutput(s, e);
    } else if e.PumpLocks? {
      PumpLockOutput(s);
    } else if e.PumpWrites? {
      PumpWriteOutput(s, e.n);
    } else if IsPump(e) {
      PumpReleaseOutput(s, e);
    } else {
      ExitOutput(s, e);
    }
  }
}
