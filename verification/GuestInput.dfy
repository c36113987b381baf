/** Which bytes of each connection's input reach the shell, and in what order. */
module GuestInput {
  import opened GuestAgent

  /** What the connections handed to the input queue, in attach order. */
  function Joined(conns: seq<Conn>): Bytes {
    if conns == [] then [] else Joined(conns[..|conns| - 1]) + conns[|conns| - 1].queued
  }

  function Flat(queue: seq<Bytes>): Bytes {
    if queue == [] then [] else queue[0] + Flat(queue[1..])
  }

  function InTransit(i: Input): Bytes {
    i.inFlight + Flat(i.queue)
  }

  predicate Aborts(a: Attach, h: Handle) {
    a.Aborting? && h in a.handles
  }

  predicate NotSpawned(a: Attach) {
    a.Aborting? || a.ClearingCtrl? || a.InstallingData? || a.InstallingCtrl? || a.Spawning?
  }

  predicate Spawned(s: Agent, c: nat) {
    c < |s.conns| && !s.conns[c].dataReader.Unspawned? && !s.conns[c].ctrlReader.Unspawned?
  }

  /** No reader of this connection exists yet. */
  predicate Untouched(x: Conn) {
    && x.dataReader.Unspawned? && x.ctrlReader.Unspawned? && !x.early
    && x.received == [] && x.pending == [] && x.queued == []
  }

  /** Every handle anyone holds is of a spawned reader; only the connection being attached has none yet. */
  ghost predicate HandlesOk(s: Agent) {
    && (forall h :: h in s.slots.readers ==> Spawned(s, h.c))
    && (s.attach.Aborting? ==> forall h :: h in s.attach.handles ==> Spawned(s, h.c))
    && (s.exit.ExitAborting? ==> forall h :: h in s.exit.handles ==> Spawned(s, h.c))
    && (NotSpawned(s.attach) || s.attach.Registering? ==> s.conns != [])
    && (forall c :: 0 <= c < |s.conns| ==> (!Spawned(s, c) <==> c == Last(s) && NotSpawned(s.attach)))
    && (forall c :: 0 <= c < |s.conns| && !Spawned(s, c) ==> Untouched(s.conns[c]))
  }

  /** Until the exit task's detach begins, a running reader is in the vector or in the hands of the current attach. */
  ghost predicate ReadersKnown(s: Agent) {
    && (forall h :: IsAlive(s, h) ==>
          h in s.slots.readers || Aborts(s.attach, h) || (s.attach.Registering? && h.c == Last(s)))
    && (NotSpawned(s.attach) || s.attach.Registering? ==> s.slots.readers == [])
  }

  /** A reader reads only while every later connection's readers do not exist yet. */
  ghost predicate OneReader(s: Agent) {
    forall c, d :: 0 <= c < d < |s.conns| && IsAlive(s, DataReader(c)) ==> !Spawned(s, d)
  }

  ghost predicate ConnInputOk(x: Conn) {
    if x.dataReader.Alive? then x.received == x.queued + x.pending else x.pending == [] && x.queued <= x.received
  }

  ghost predicate Conserved(s: Agent) {
    if s.input.alive then s.input.typed + InTransit(s.input) == Joined(s.conns) else s.input.typed <= Joined(s.conns)
  }

  ghost predicate InputOk(s: Agent) {
    && HandlesOk(s)
    && ConnsOk(s)
    && (s.exit.BeforeDetach() ==> ReadersKnown(s) && OneReader(s) && Conserved(s))
  }

  // ---- sums over connections -------------------------------------------------------

  lemma {:induction false} JoinedSame(a: seq<Conn>, b: seq<Conn>)
    requires |a| == |b| && forall c :: 0 <= c < |a| ==> a[c].queued == b[c].queued
    ensures Joined(a) == Joined(b)
  {
    if a != [] {
      JoinedSame(a[..|a| - 1], b[..|b| - 1]);
    }
  }

  lemma {:induction false} JoinedAppend(conns: seq<Conn>, c: nat, x: Conn, more: Bytes)
    requires c < |conns| && x.queued == conns[c].queued + more
    requires forall d :: c < d < |conns| ==> conns[d].queued == []
    ensures Joined(conns[c := x]) == Joined(conns) + more
  {
    var n := |conns| - 1;
    if c == n {
      assert conns[c := x][..n] == conns[..n];
    } else {
      assert conns[c := x][..n] == conns[..n][c := x];
      JoinedAppend(conns[..n], c, x, more);
    }
  }

  lemma {:induction false} FlatAppend(queue: seq<Bytes>, chunk: Bytes)
    ensures Flat(queue + [chunk]) == Flat(queue) + chunk
  {
    if queue == [] {
      assert queue + [chunk] == [chunk];
      assert Flat([chunk]) == chunk + Flat([]);
    } else {
      assert (queue + [chunk])[1..] == queue[1..] + [chunk];
      FlatAppend(queue[1..], chunk);
    }
  }

  // ---- every step -------------------------------------------------------------------

  lemma SendInput(s: Agent, c: nat)
    requires InputOk(s) && s.exit.BeforeDetach() && Enabled(s, ReaderSends(c))
    ensures Conserved(InputStep(s, ReaderSends(c)))
  {
    var x := s.conns[c];
    var t := InputStep(s, ReaderSends(c));
    forall d | c < d < |s.conns|
      ensures s.conns[d].queued == []
    {
      assert !Spawned(s, d);
    }
    JoinedAppend(s.conns, c, t.conns[c], x.pending);
    FlatAppend(s.input.queue, x.pending);
    assert s.input.typed + (s.input.inFlight + Flat(s.input.queue)) + x.pending
        == s.input.typed + (s.input.inFlight + (Flat(s.input.queue) + x.pending));
  }

  lemma TaskInput(s: Agent, e: Event)
    requires InputOk(s) && s.exit.BeforeDetach() && Enabled(s, e) && (e.InputTakes? || e.InputWrites? || e.InputBreaks?)
    ensures Conserved(InputStep(s, e))
  {
    match e
    case InputWrites(n) =>
      assert s.input.inFlight == s.input.inFlight[..n] + s.input.inFlight[n..];
      assert s.input.typed + InTransit(s.input)
          == (s.input.typed + s.input.inFlight[..n]) + (s.input.inFlight[n..] + Flat(s.input.queue));
    case _ =>
  }

  lemma OtherQueued(s: Agent, e: Event)
    requires Enabled(s, e) && !e.ReaderSends? && !e.TakesReaders?
    ensures |Apply(s, e).conns| == |s.conns|
    ensures forall c :: 0 <= c < |s.conns| ==> Apply(s, e).conns[c].queued == s.conns[c].queued
    ensures e.InputTakes? || e.InputWrites? || e.InputBreaks? || Apply(s, e).input == s.input
  {
    if IsAttach(e) {
      assert SameQueued(s, AttachStep(s, e));
    } else if IsInput(e) {
      assert SameQueued(s, InputStep(s, e));
    } else if IsPump(e) {
      assert SameQueued(s, PumpStep(s, e));
    } else {
      assert SameQueued(s, ExitStep(s, e));
    }
  }

  ghost predicate SameQueued(s: Agent, t: Agent) {
    |t.conns| == |s.conns| && forall c :: 0 <= c < |s.conns| ==> t.conns[c].queued == s.conns[c].queued
  }

  lemma ConservedStep(s: Agent, e: Event)
    requires InputOk(s) && s.exit.BeforeDetach() && Enabled(s, e)
    ensures Conserved(Apply(s, e))
  {
    var t := Apply(s, e);
    if e.ReaderSends? {
      SendInput(s, e.c);
    } else if e.InputTakes? || e.InputWrites? || e.InputBreaks? {
      TaskInput(s, e);
    } else if e.TakesReaders? {
      assert t.conns[..|t.conns| - 1] == s.conns;
    } else {
      OtherQueued(s, e);
      JoinedSame(s.conns, t.conns);
    }
  }

  lemma KillReaders(s: Agent, h: Handle)
    requires HandlesOk(s) && Spawned(s, h.c)
    ensures var t := Kill(s, h);
      && !IsAlive(t, h)
      && (forall g :: IsAlive(t, g) ==> IsAlive(s, g) && g != h)
      && (forall c :: Spawned(t, c) == Spawned(s, c))
      && HandlesOk(t)
  {
  }

  lemma SpawnReaders(s: Agent)
    requires HandlesOk(s) && Enabled(s, Spawns)
    ensures HandlesOk(AttachStep(s, Spawns))
    ensures ReadersKnown(s) ==> ReadersKnown(AttachStep(s, Spawns)) && OneReader(AttachStep(s, Spawns))
  {
    var t := AttachStep(s, Spawns);
    forall c | 0 <= c < |t.conns|
      ensures Spawned(t, c)
    {
      if c != Last(s) {
        assert Spawned(s, c);
      }
    }
    forall h | IsAlive(t, h) && h.c != Last(s)
      ensures IsAlive(s, h)
    {
    }
  }

  lemma SameSpawned(s: Agent, t: Agent)
    requires |t.conns| == |s.conns|
    requires forall c :: 0 <= c < |s.conns| ==>
      t.conns[c].dataReader == s.conns[c].dataReader && t.conns[c].ctrlReader == s.conns[c].ctrlReader
    ensures forall c :: Spawned(t, c) == Spawned(s, c)
    ensures forall h :: IsAlive(t, h) == IsAlive(s, h)
  {
  }

  lemma NewConnHandles(s: Agent)
    requires HandlesOk(s) && Enabled(s, TakesReaders)
    ensures HandlesOk(AttachStep(s, TakesReaders))
    ensures ReadersKnown(s) && OneReader(s) ==>
              ReadersKnown(AttachStep(s, TakesReaders)) && OneReader(AttachStep(s, TakesReaders))
  {
    var t := AttachStep(s, TakesReaders);
    assert forall c :: 0 <= c < |s.conns| ==> Spawned(t, c) == Spawned(s, c);
    assert !Spawned(t, Last(t));
    assert forall h :: IsAlive(t, h) ==> IsAlive(s, h);
  }

  lemma AbortHandles(s: Agent)
    requires HandlesOk(s) && Enabled(s, AbortsReader)
    ensures HandlesOk(AttachStep(s, AbortsReader))
    ensures ReadersKnown(s) && OneReader(s) ==>
              ReadersKnown(AttachStep(s, AbortsReader)) && OneReader(AttachStep(s, AbortsReader))
  {
    var mid, t := Kill(s, s.attach.handles[0]), AttachStep(s, AbortsReader);
    KillReaders(s, s.attach.handles[0]);
    SameSpawned(mid, t);
    assert forall h :: h in s.attach.handles && h != s.attach.handles[0] ==> h in t.attach.handles;
  }

  lemma SlotHandles(s: Agent, e: Event)
    requires HandlesOk(s) && Enabled(s, e)
    requires e.Admits? || e.ClearsData? || e.ClearsCtrl? || e.InstallsData? || e.InstallsCtrl? || e.Registers?
    ensures HandlesOk(AttachStep(s, e))
    ensures ReadersKnown(s) && OneReader(s) ==> ReadersKnown(AttachStep(s, e)) && OneReader(AttachStep(s, e))
  {
    SameSpawned(s, AttachStep(s, e));
  }

  lemma AttachHandles(s: Agent, e: Event)
    requires HandlesOk(s) && Enabled(s, e) && IsAttach(e)
    ensures HandlesOk(AttachStep(s, e))
    ensures ReadersKnown(s) && OneReader(s) ==> ReadersKnown(AttachStep(s, e)) && OneReader(AttachStep(s, e))
  {
    if e.AbortsReader? {
      AbortHandles(s);
    } else if e.Spawns? {
      SpawnReaders(s);
    } else if e.TakesReaders? {
      NewConnHandles(s);
    } else {
      SlotHandles(s, e);
    }
  }

  lemma ReaderHandles(s: Agent, e: Event)
    requires HandlesOk(s) && Enabled(s, e) && IsInput(e)
    ensures HandlesOk(InputStep(s, e))
    ensures ReadersKnown(s) && OneReader(s) ==> ReadersKnown(InputStep(s, e)) && OneReader(InputStep(s, e))
  {
    if e.ReaderEnds? {
      KillReaders(s, e.h);
    } else {
      SameSpawned(s, InputStep(s, e));
    }
  }

  lemma PumpHandles(s: Agent, e: Event)
    requires HandlesOk(s) && Enabled(s, e) && IsPump(e)
    ensures HandlesOk(PumpStep(s, e))
    ensures ReadersKnown(s) && OneReader(s) ==> ReadersKnown(PumpStep(s, e)) && OneReader(PumpStep(s, e))
  {
    SameSpawned(s, PumpStep(s, e));
  }

  lemma ExitHandles(s: Agent, e: Event)
    requires HandlesOk(s) && Enabled(s, e) && !IsAttach(e) && !IsInput(e) && !IsPump(e)
    ensures HandlesOk(ExitStep(s, e))
    ensures ExitStep(s, e).exit.BeforeDetach() && ReadersKnown(s) && OneReader(s) ==>
              ReadersKnown(ExitStep(s, e)) && OneReader(ExitStep(s, e))
  {
    if e.ExitAborts? {
      KillReaders(s, s.exit.handles[0]);
      SameSpawned(Kill(s, s.exit.handles[0]), ExitStep(s, e));
    } else {
      SameSpawned(s, ExitStep(s, e));
    }
  }

  ghost predicate ConnsOk(s: Agent) {
    forall c :: 0 <= c < |s.conns| ==> ConnInputOk(s.conns[c])
  }

  lemma AttachConns(s: Agent, e: Event)
    requires InputOk(s) && Enabled(s, e) && IsAttach(e)
    ensures ConnsOk(AttachStep(s, e))
  {
    if e.Spawns? {
      assert !Spawned(s, Last(s));
    }
  }

  lemma ConnsStep(s: Agent, e: Event)
    requires InputOk(s) && Enabled(s, e)
    ensures ConnsOk(Apply(s, e))
  {
    if IsAttach(e) {
      AttachConns(s, e);
    } else if IsInput(e) {
      assert ConnsOk(InputStep(s, e));
    } else if IsPump(e) {
      assert ConnsOk(PumpStep(s, e));
    } else {
      assert ConnsOk(ExitStep(s, e));
    }
  }

  lemma InputOkStep(s: Agent, e: Event)
    requires InputOk(s) && Enabled(s, e)
    ensures InputOk(Apply(s, e))
  {
    if IsAttach(e) {
      AttachHandles(s, e);
    } else if IsInput(e) {
      ReaderHandles(s, e);
    } else if IsPump(e) {
      PumpHandles(s, e);
    } else {
      ExitHandles(s, e);
    }
    ConnsStep(s, e);
    if s.exit.BeforeDetach() {
      ConservedStep(s, e);
    }
  }
}
