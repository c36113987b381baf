/** What the drain and the sweep have established by the time shutdown gets to each of its steps. */
module Shutdown {
  import opened Lifecycle
  import opened SessionInvariants

  /** Shutdown is past the drain, and no force-close ran out of time. */
  predicate Drained(phase: Phase) {
    (phase.Closing? || phase.Sweeping? || phase.Closed?) && !phase.timedOut
  }

  ghost predicate DrainOk(s: System) {
    var c := s.common;
    && (c.phase.Forcing? ==> s.active <= c.phase.targets && (forall i :: i in c.phase.targets ==> i in s.sessions))
    && (Drained(c.phase) ==> s.active == {})
    && (c.phase.Sweeping? && !c.phase.timedOut ==>
          forall u :: u in c.registry ==> (u, c.registry[u]) in c.phase.todo)
    && (c.phase.Closed? && !c.phase.timedOut ==> c.registry == map[])
  }

  /** Only a session that is still active can put a room into the registry. */
  lemma SegmentDrain(s: System, i: nat, g: Segment)
    requires Control(s) && DrainOk(s) && i in s.sessions && SegmentEnabled(s.sessions[i], g, true)
    ensures DrainOk(SegmentStep(s, i, g))
  {
    SegmentFrame(s, i, g);
    var c, d := s.common, SegmentStep(s, i, g).common;
    assert d.phase == c.phase;
    if Drained(c.phase) {
      assert i !in s.active;
      assert !g.PauseReturns?;
      assert forall u :: u in d.registry ==> u in c.registry && d.registry[u] == c.registry[u];
    }
  }

  lemma ChoreDrain(s: System, h: Chore)
    requires Control(s) && DrainOk(s) && ChoreEnabled(s, h)
    ensures DrainOk(s.(common := ChoreStep(s, h)))
  {
    var c, d := s.common, ChoreStep(s, h);
    match h
    case AllForced =>
      assert forall i :: i in s.sessions && s.sessions[i].force.ForceReturned? ==> s.sessions[i].teardown.Finished?;
    case SweepBegins(order) =>
      forall u | u in d.registry
        ensures (u, d.registry[u]) in d.phase.todo
      {
        var n :| 0 <= n < |order| && order[n] == u;
        assert d.phase.todo[n] == (u, c.registry[u]);
      }
    case SweepNext => SweepDrain(s);
    case _ =>
  }

  lemma SweepDrain(s: System)
    requires DrainOk(s) && ChoreEnabled(s, SweepNext)
    ensures DrainOk(s.(common := SweepOne(s.common)))
  {
    var c, d := s.common, SweepOne(s.common);
    forall u | u in d.registry && !c.phase.timedOut
      ensures (u, d.registry[u]) in d.phase.todo
    {
      assert (u, c.registry[u]) in c.phase.todo;
      assert c.phase.todo == [c.phase.todo[0]] + c.phase.todo[1..];
    }
  }

  lemma DrainStep(s: System, e: Event)
    requires Control(s) && DrainOk(s) && Enabled(s, e)
    ensures DrainOk(Apply(s, e))
  {
    match e
    case At(i, g) => SegmentDrain(s, i, g);
    case Elsewhere(h) => ChoreDrain(s, h);
    case _ =>
  }
}
