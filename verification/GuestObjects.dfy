/**
 `Session` and `serve` as the accept loop runs them: one attach after another,
 each on the session that is live or on a new one.
 */
module GuestObjects {
  import opened Wrappers
  import opened GuestAgent
  import opened GuestRuns

  /** The readers of `handles` aborted and awaited, one after another. */
  function KillAll(s: Agent, handles: seq<Handle>): (t: Agent)
    ensures t.slots == s.slots && t.output == s.output && t.attach == s.attach && t.exit == s.exit
    ensures |t.conns| == |s.conns|
    decreases |handles|
  {
    if handles == [] then s else KillAll(Kill(s, handles[0]), handles[1..])
  }

  /** The readers whose handles were taken have ended, and no other reader has. */
  lemma {:induction false} KillAllEnds(s: Agent, handles: seq<Handle>, h: Handle)
    ensures IsAlive(KillAll(s, handles), h) <==> IsAlive(s, h) && h !in handles
    decreases |handles|
  {
    if handles != [] {
      KillAllEnds(Kill(s, handles[0]), handles[1..], h);
      assert h in handles <==> h == handles[0] || h in handles[1..];
    }
  }

  /** The whole of `attach`, when nothing overtakes it. */
  function Attached(s: Agent): Agent {
    var c := |s.conns|;
    var bare := KillAll(s.(conns := s.conns + [NewConn()], slots := Slots(None, None, [])), s.slots.readers);
    bare.(conns := bare.conns[c := bare.conns[c].(dataReader := Alive, ctrlReader := Alive,
                                                    early := s.exit.BeforeDetach(),
                                                    lateData := s.exit.DataCleared(), lateCtrl := s.exit.ExitDone?)],
          slots := Slots(Some(c), Some(c), [DataReader(c), CtrlReader(c)]))
  }

  lemma {:induction false} KillAllFrame(s: Agent, t: Agent, handles: seq<Handle>)
    requires t.conns == s.conns
    ensures KillAll(t, handles).conns == KillAll(s, handles).conns
    ensures KillAll(s, handles).input == s.input && KillAll(s, handles).exitLines == s.exitLines
    decreases |handles|
  {
    if handles != [] {
      KillAllFrame(Kill(s, handles[0]), Kill(t, handles[0]), handles[1..]);
    }
  }

  lemma {:induction false} AbortsRun(s: Agent)
    requires Reaches(s) && s.attach.Aborting?
    ensures Reaches(KillAll(s, s.attach.handles).(attach := Aborting([])))
    decreases if s.attach.Aborting? then |s.attach.handles| else 0
  {
    if s.attach.handles == [] {
      assert s == KillAll(s, []).(attach := Aborting([]));
    } else {
      var t := Apply(s, AbortsReader);
      Extend(s, AbortsReader);
      AbortsRun(t);
      KillAllFrame(Kill(s, s.attach.handles[0]), t, t.attach.handles);
      KillAllFrame(t, t, t.attach.handles);
      assert KillAll(t, t.attach.handles).(attach := Aborting([]))
          == KillAll(s, s.attach.handles).(attach := Aborting([]));
    }
  }

  /** The last connection has replaced the old one in both slots and has its readers. */
  lemma InstallRun(s: Agent)
    requires Reaches(s) && s.attach == Aborting([]) && DataUnlocked(s) && s.conns != []
    ensures Reaches(s.(
      conns := s.conns[Last(s) := s.conns[Last(s)].(dataReader := Alive, ctrlReader := Alive,
                                                    early := s.exit.BeforeDetach(),
                                                    lateData := s.exit.DataCleared(), lateCtrl := s.exit.ExitDone?)],
      slots := Slots(Some(Last(s)), Some(Last(s)), s.slots.readers + [DataReader(Last(s)), CtrlReader(Last(s))]),
      attach := NoAttach))
  {
    Extend(s, ClearsData);
    var s1 := Apply(s, ClearsData);
    Extend(s1, ClearsCtrl);
    var s2 := Apply(s1, ClearsCtrl);
    Extend(s2, InstallsData);
    InstallRest(s, Apply(s2, InstallsData));
  }

  lemma InstallRest(s: Agent, s3: Agent)
    requires Reaches(s3) && s3.attach.InstallingCtrl? && s.conns != []
    requires s3 == s.(conns := s.conns[Last(s) := s.conns[Last(s)].(lateData := s.exit.DataCleared())],
                      slots := Slots(Some(Last(s)), None, s.slots.readers), attach := InstallingCtrl)
    ensures Reaches(s.(
      conns := s.conns[Last(s) := s.conns[Last(s)].(dataReader := Alive, ctrlReader := Alive,
                                                    early := s.exit.BeforeDetach(),
                                                    lateData := s.exit.DataCleared(), lateCtrl := s.exit.ExitDone?)],
      slots := Slots(Some(Last(s)), Some(Last(s)), s.slots.readers + [DataReader(Last(s)), CtrlReader(Last(s))]),
      attach := NoAttach))
  {
    Extend(s3, InstallsCtrl);
    var s4 := Apply(s3, InstallsCtrl);
    Extend(s4, Spawns);
    var s5 := Apply(s4, Spawns);
    Extend(s5, Registers);
  }

  /** An attach that nothing overtakes is a run of its segments. */
  lemma AttachIsARun(s: Agent)
    requires Reaches(s) && s.attach.NoAttach? && (s.conns == [] || s.exit.ShellRuns?) && DataUnlocked(s)
    ensures Reaches(Attached(s))
  {
    Extend(s, Admits);
    var s1 := Apply(s, Admits);
    Extend(s1, TakesReaders);
    var s2 := Apply(s1, TakesReaders);
    AbortsRun(s2);
    var s3 := KillAll(s2, s2.attach.handles).(attach := Aborting([]));
    var bare := s.(conns := s.conns + [NewConn()], slots := Slots(None, None, []));
    KillAllFrame(bare, s2, s.slots.readers);
    KillAllFrame(s2, s2, s.slots.readers);
    assert s3.conns == KillAll(bare, s.slots.readers).conns;
    InstallRun(s3);
  }

  // ---- a connection that overtakes the exit task ------------------------------------------

  /** The shell exits and its exit task runs to the end. */
  lemma ExitRun(s: Agent, code: int) returns (t: Agent)
    requires Reaches(s) && s.exit.ShellRuns? && s.slots == Slots(None, None, [])
    ensures Reaches(t) && t.exit.ExitDone? && t.slots == s.slots && t.conns == s.conns && t.attach == s.attach
    ensures t.output.pump.PumpDead? && t.exitLines == s.exitLines
  {
    Extend(s, ShellExits(code));
    t := Apply(s, ShellExits(code));
    Extend(t, PumpStopped);
    t := Apply(t, PumpStopped);
    Extend(t, ExitReports(true));
    t := Apply(t, ExitReports(true));
    Extend(t, ExitTakes);
    t := Apply(t, ExitTakes);
    Extend(t, ExitClearsData);
    t := Apply(t, ExitClearsData);
    Extend(t, ExitClearsCtrl);
    t := Apply(t, ExitClearsCtrl);
  }

  /**
   An attach that `serve` admitted while the shell ran, overtaken by the whole exit task,
   leaves a connection whose four halves are all open although the session is over.
   */
  lemma OvertakenAttachStaysOpen() returns (t: Agent)
    ensures Reaches(t) && t.exit.ExitDone? && t.attach.NoAttach? && |t.conns| == 1
    ensures IsAlive(t, DataReader(0)) && IsAlive(t, CtrlReader(0))
    ensures t.slots.dataOut == Some(0) && t.slots.ctrlOut == Some(0) && t.exitLines == []
  {
    var s := Started();
    var none: seq<Event> := [];
    assert IsRun([s], none) && [s][|none|] == s;
    Extend(s, Admits);
    var s1 := Apply(s, Admits);
    Extend(s1, TakesReaders);
    var s2 := Apply(s1, TakesReaders);
    var s3 := ExitRun(s2, 0);
    InstallRun(s3);
    t := s3.(conns := s3.conns[0 := s3.conns[0].(dataReader := Alive, ctrlReader := Alive, early := false,
                                                 lateData := true, lateCtrl := true)],
             slots := Slots(Some(0), Some(0), [DataReader(0), CtrlReader(0)]), attach := NoAttach);
    assert s3.slots.readers + [DataReader(0), CtrlReader(0)] == [DataReader(0), CtrlReader(0)];
  }

  // ---- a session from beginning to end ----------------------------------------------------

  /** The shell writes a byte, and the pump turns to the attached connection with it. */
  lemma ByteIsRead(s: Agent, byte: bv8) returns (t: Agent)
    requires Reaches(s) && s.output == Output([], 0, PumpIdle) && s.slots.dataOut == Some(0)
    requires |s.conns| == 1 && !s.conns[0].begun
    ensures Reaches(t) && t == s.(output := Output([byte], 0, Sending(0, [byte], 0)),
                                  conns := [s.conns[0].(begun := true, start := 0)])
  {
    Extend(s, PumpReads([byte]));
    t := Apply(s, PumpReads([byte]));
    Extend(t, PumpLocks);
    t := Apply(t, PumpLocks);
    assert t.conns == [s.conns[0].(begun := true, start := 0)];
  }

  /** The connection is handed the byte. */
  lemma ByteGoesOut(s: Agent, byte: bv8) returns (t: Agent)
    requires Reaches(s) && s.output == Output([byte], 0, Sending(0, [byte], 0))
    requires |s.conns| == 1 && s.conns[0].got == []
    ensures Reaches(t) && t == s.(output := Output([byte], 1, PumpIdle), conns := [s.conns[0].(got := [byte])])
  {
    Extend(s, PumpWrites(1));
    t := Apply(s, PumpWrites(1));
    assert s.conns[0].got + [byte][0..1] == [byte];
    assert t.conns == [s.conns[0].(got := [byte])];
    Extend(t, PumpFinishes);
    t := Apply(t, PumpFinishes);
  }

  /** The host sends a byte, and it is queued for the shell. */
  lemma ByteIsQueued(s: Agent, byte: bv8) returns (t: Agent)
    requires Reaches(s) && s.input == Input([], [], [], true) && |s.conns| == 1
    requires s.conns[0].dataReader.Alive? && s.conns[0].received == [] == s.conns[0].pending == s.conns[0].queued
    ensures Reaches(t) && t == s.(input := Input([[byte]], [], [], true),
                                  conns := [s.conns[0].(received := [byte], queued := [byte])])
  {
    Extend(s, ReaderReads(0, [byte]));
    t := Apply(s, ReaderReads(0, [byte]));
    Extend(t, ReaderSends(0));
    t := Apply(t, ReaderSends(0));
    assert s.conns[0].received + [byte] == [byte] && s.conns[0].queued + [byte] == [byte];
    assert t.conns[0] == s.conns[0].(received := [byte], queued := [byte]);
    assert t.conns == [s.conns[0].(received := [byte], queued := [byte])];
  }

  /** The shell is given the byte. */
  lemma ByteGoesIn(s: Agent, byte: bv8) returns (t: Agent)
    requires Reaches(s) && s.input == Input([[byte]], [], [], true)
    ensures Reaches(t) && t == s.(input := Input([], [], [byte], true))
  {
    Extend(s, InputTakes);
    t := Apply(s, InputTakes);
    Extend(t, InputWrites(1));
    t := Apply(t, InputWrites(1));
  }

  /** The shell exits, its line is written and everything is closed. */
  lemma ShellGoes(s: Agent, code: int) returns (t: Agent)
    requires Reaches(s) && s.exit.ShellRuns? && s.exitLines == [] && s.output.pump.PumpIdle? && s.attach.NoAttach?
    requires s.slots == Slots(Some(0), Some(0), [DataReader(0), CtrlReader(0)]) && |s.conns| == 1
    ensures Reaches(t) && t.exit.ExitDone? && t.exitLines == [(0, code)] && |t.conns| == 1
    ensures t.input == s.input && t.conns[0].got == s.conns[0].got && FullyClosed(t, 0)
  {
    Extend(s, ShellExits(code));
    t := Apply(s, ShellExits(code));
    Extend(t, PumpStopped);
    t := Apply(t, PumpStopped);
    Extend(t, ExitReports(true));
    t := Apply(t, ExitReports(true));
    t := Closes(t);
  }

  lemma Closes(s: Agent) returns (t: Agent)
    requires Reaches(s) && s.exit.Detaching? && s.output.pump.PumpDead?
    requires s.slots.readers == [DataReader(0), CtrlReader(0)] && |s.conns| == 1
    ensures Reaches(t) && t.exit.ExitDone? && t.exitLines == s.exitLines && |t.conns| == 1
    ensures t.input == s.input && t.conns[0].got == s.conns[0].got && FullyClosed(t, 0)
  {
    Extend(s, ExitTakes);
    t := Apply(s, ExitTakes);
    Extend(t, ExitAborts);
    t := Apply(t, ExitAborts);
    Extend(t, ExitAborts);
    t := Apply(t, ExitAborts);
    Extend(t, ExitClearsData);
    t := Apply(t, ExitClearsData);
    Extend(t, ExitClearsCtrl);
    t := Apply(t, ExitClearsCtrl);
  }

  /** A connection attaches, hears and says a byte, and learns the exit code of the shell. */
  lemma OneWholeSession(heard: bv8, said: bv8, code: int) returns (t: Agent)
    ensures Reaches(t) && t.exit.ExitDone? && |t.conns| == 1 && t.conns[0].got == [heard]
    ensures t.input.typed == [said] && t.exitLines == [(0, code)] && FullyClosed(t, 0)
  {
    var s := Started();
    var none: seq<Event> := [];
    assert IsRun([s], none) && [s][|none|] == s;
    AttachIsARun(s);
    t := ByteIsRead(Attached(s), heard);
    t := ByteGoesOut(t, heard);
    t := ByteIsQueued(t, said);
    t := ByteGoesIn(t, said);
    t := ShellGoes(t, code);
  }

  // ---- the objects ---------------------------------------------------------------------------

  /** A session's shared slots and vectors; `rest` stands for the parts attach never touches. */
  class GuestSession {
    var conns: seq<Conn>
    var dataOut: Option<nat>
    var ctrlOut: Option<nat>
    var readers: seq<Handle>
    var running: bool
    ghost var rest: Agent

    ghost function View(): Agent
      reads this
    {
      rest.(conns := conns, slots := Slots(dataOut, ctrlOut, readers))
    }

    ghost predicate Valid()
      reads this
    {
      running == rest.exit.ShellRuns? && rest.attach.NoAttach?
    }

    constructor Start()
      ensures Valid() && View() == Started() && running
    {
      conns, dataOut, ctrlOut, readers, running := [], None, None, [], true;
      rest := Started();
    }

    /** `reader.abort()` and its await. */
    method Abort(h: Handle)
      modifies this`conns
      ensures View() == Kill(old(View()), h)
    {
      if h.c < |conns| {
        match h {
          case DataReader(c) => conns := conns[c := conns[c].(dataReader := Dead, pending := [])];
          case CtrlReader(c) => conns := conns[c := conns[c].(ctrlReader := Dead)];
        }
      }
    }

    /** `detach`: every registered reader aborted, then both writers dropped. */
    method Detach()
      modifies this`conns, this`readers, this`dataOut, this`ctrlOut
      ensures View() == KillAll(old(View()).(slots := Slots(None, None, [])), old(readers))
      ensures forall h :: IsAlive(View(), h) <==> IsAlive(old(View()), h) && h !in old(readers)
      ensures readers == [] && dataOut == None && ctrlOut == None
    {
      var taken := readers;
      readers := [];
      ghost var goal := KillAll(View(), taken);
      while taken != []
        invariant KillAll(View(), taken) == goal
        decreases |taken|
      {
        Abort(taken[0]);
        taken := taken[1..];
      }
      dataOut := None;
      ctrlOut := None;
      KillAllSlots(old(View()).(slots := old(View()).slots.(readers := [])), Slots(None, None, []), old(readers));
      forall h
        ensures IsAlive(View(), h) <==> IsAlive(old(View()), h) && h !in old(readers)
      {
        KillAllEnds(old(View()).(slots := Slots(None, None, [])), old(readers), h);
      }
    }

    method Attach()
      requires Valid()
      modifies this
      ensures Valid() && running == old(running)
      ensures running ==> View() == Attached(old(View()))
    {
      conns := conns + [NewConn()];
      var c := |conns| - 1;
      ghost var before := View().(slots := Slots(None, None, []));
      Detach();
      assert View().slots == Slots(None, None, []);
      dataOut := Some(c);
      ctrlOut := Some(c);
      conns := conns[c := conns[c].(dataReader := Alive, ctrlReader := Alive,
                                    early := true, lateData := false, lateCtrl := false)];
      readers := readers + [DataReader(c), CtrlReader(c)];
      assert readers == [DataReader(c), CtrlReader(c)];
      assert before == old(View()).(conns := old(conns) + [NewConn()], slots := Slots(None, None, []));
    }
  }

  lemma {:induction false} KillAllSlots(s: Agent, slots: Slots, handles: seq<Handle>)
    ensures KillAll(s.(slots := slots), handles) == KillAll(s, handles).(slots := slots)
    decreases |handles|
  {
    if handles != [] {
      assert Kill(s.(slots := slots), handles[0]) == Kill(s, handles[0]).(slots := slots);
      KillAllSlots(Kill(s, handles[0]), slots, handles[1..]);
    }
  }

  /** The session that is live gets the new connection while its shell runs; otherwise a new session does. */
  method Serve(live: GuestSession?) returns (session: GuestSession)
    requires live != null ==> live.Valid()
    modifies live
    ensures session.Valid()
    ensures live != null && old(live.running) ==> session == live && session.View() == Attached(old(live.View()))
    ensures live == null || !old(live.running) ==> fresh(session) && session.View() == Attached(Started())
    ensures live != null && !old(live.running) ==> live.View() == old(live.View())
  {
    if live != null && live.running {
      session := live;
    } else {
      session := new GuestSession.Start();
    }
    session.Attach();
  }
}
