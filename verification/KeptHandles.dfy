/** What becomes of the handles `Room.pause` returns. */
module KeptHandles {
  import opened Wrappers
  import opened RoomSessions
  import opened Lifecycle
  import opened SessionInvariants

  ghost predicate Registered(c: Common, k: Kept) {
    exists u :: u in c.registry && c.registry[u] == k
  }

  ghost predicate Consumed(c: Common, k: Kept) {
    exists n :: 0 <= n < |c.books.log| && c.books.log[n].kept == k
  }

  /** The timer of handle `k` is still going to look for it. */
  predicate TimerPending(c: Common, k: Kept) {
    k.id < |c.timers| && c.timers[k.id].kept == k && c.timers[k.id].phase.Sleeping?
  }

  /** Every pause makes one handle and one timer, so handle number and timer index agree. */
  ghost predicate TimersOk(c: Common) {
    && |c.timers| == c.books.nextKept
    && (forall t :: 0 <= t < |c.timers| ==> c.timers[t].kept.id == t)
  }

  ghost predicate Issued(c: Common, k: Kept) {
    k.id < |c.timers| && c.timers[k.id].kept == k
  }

  ghost predicate HandlesOk(c: Common) {
    && TimersOk(c)
    && (forall u :: u in c.registry ==> TimerPending(c, c.registry[u]) && c.timers[c.registry[u].id].user == u)
    && (forall n :: 0 <= n < |c.books.log| ==> Issued(c, c.books.log[n].kept) && !Registered(c, c.books.log[n].kept))
    && (forall k :: k in c.books.evicted ==> Issued(c, k) && !Registered(c, k) && !Consumed(c, k))
    && (forall m, n :: 0 <= m < n < |c.books.log| ==> c.books.log[m].kept != c.books.log[n].kept)
    && (forall t :: 0 <= t < |c.timers| ==>
          var k := c.timers[t].kept; Registered(c, k) || Consumed(c, k) || k in c.books.evicted)
    && (forall t :: 0 <= t < |c.timers| && c.timers[t].phase.Deleting? ==> Consumed(c, c.timers[t].kept))
  }

  lemma ConsumeKeeps(c: Common, user: User, via: Consumer)
    requires HandlesOk(c) && user in c.registry
    ensures HandlesOk(Consume(c, user, via)) && Consumed(Consume(c, user, via), c.registry[user])
  {
    var d := Consume(c, user, via);
    assert d.books.log[|c.books.log|].kept == c.registry[user];
    forall k | Registered(c, k) && k != c.registry[user]
      ensures Registered(d, k)
    {
      var u :| u in c.registry && c.registry[u] == k;
      assert u in d.registry;
    }
    forall k | Consumed(c, k)
      ensures Consumed(d, k)
    {
      var n :| 0 <= n < |c.books.log| && c.books.log[n].kept == k;
      assert d.books.log[n].kept == k;
    }
    forall u | u in d.registry
      ensures d.registry[u] != c.registry[user]
    {
      assert TimerPending(c, c.registry[u]);
    }
    forall t | 0 <= t < |d.timers|
      ensures var k := d.timers[t].kept; Registered(d, k) || Consumed(d, k) || k in d.books.evicted
    {
      assert var k := c.timers[t].kept; Registered(c, k) || Consumed(c, k) || k in c.books.evicted;
    }
  }

  lemma EvictKeeps(c: Common, user: User)
    requires HandlesOk(c)
    ensures HandlesOk(Evict(c, user)) && user !in Evict(c, user).registry
  {
    if user in c.registry {
      var d := Evict(c, user);
      forall k | Registered(c, k) && k != c.registry[user]
        ensures Registered(d, k)
      {
        var u :| u in c.registry && c.registry[u] == k;
        assert u in d.registry;
      }
      forall k
        ensures Consumed(d, k) == Consumed(c, k)
      {
      }
      assert Registered(c, c.registry[user]);
      forall t | 0 <= t < |d.timers|
        ensures var k := d.timers[t].kept; Registered(d, k) || Consumed(d, k) || k in d.books.evicted
      {
        assert var k := c.timers[t].kept; Registered(c, k) || Consumed(c, k) || k in c.books.evicted;
      }
    }
  }

  lemma StoreKeeps(c: Common, user: User, room: Sandbox)
    requires HandlesOk(c) && user !in c.registry
    ensures HandlesOk(Store(c, user, room))
  {
    var d := Store(c, user, room);
    var kept := Kept(c.books.nextKept, room);
    assert d.registry[user] == kept;
    assert Registered(d, kept);
    forall k | Registered(c, k)
      ensures Registered(d, k)
    {
      var u :| u in c.registry && c.registry[u] == k;
      assert u in d.registry && d.registry[u] == k;
    }
    forall k
      ensures Consumed(d, k) == Consumed(c, k)
    {
    }
    forall t | 0 <= t < |d.timers|
      ensures var k := d.timers[t].kept; Registered(d, k) || Consumed(d, k) || k in d.books.evicted
    {
      if t < |c.timers| {
        assert var k := c.timers[t].kept; Registered(c, k) || Consumed(c, k) || k in c.books.evicted;
      }
    }
  }

  /** Registry, log, evictions and what the timers are for all unchanged. */
  predicate SameHandles(c: Common, d: Common) {
    && d.registry == c.registry && d.books.log == c.books.log && d.books.evicted == c.books.evicted
    && d.books.nextKept == c.books.nextKept && |d.timers| == |c.timers|
    && (forall t :: 0 <= t < |c.timers| ==>
          d.timers[t].kept == c.timers[t].kept && d.timers[t].user == c.timers[t].user)
  }

  lemma SameHandlesKeeps(c: Common, d: Common)
    requires HandlesOk(c) && SameHandles(c, d)
    requires forall t :: 0 <= t < |c.timers| ==>
      d.timers[t].phase == c.timers[t].phase || (d.timers[t].phase.TimerEnded? && !Registered(c, c.timers[t].kept))
        || (d.timers[t].phase.Deleting? && Consumed(c, c.timers[t].kept))
    ensures HandlesOk(d)
  {
    forall k
      ensures Registered(d, k) == Registered(c, k) && Consumed(d, k) == Consumed(c, k)
    {
    }
    forall u | u in d.registry
      ensures TimerPending(d, d.registry[u])
    {
      assert TimerPending(c, c.registry[u]);
      assert Registered(c, c.registry[u]);
    }
  }

  lemma ExpiryKeeps(c: Common, t: nat)
    requires HandlesOk(c) && t < |c.timers|
    ensures c.timers[t].phase.Sleeping? ==> HandlesOk(ExpiryWake(c, t))
    ensures c.timers[t].phase.Deleting? ==> HandlesOk(ExpiryEnd(c, t))
  {
    var timer := c.timers[t];
    if timer.phase.Sleeping? {
      if Lookup(c, timer.user) == Some(timer.kept) {
        ConsumeKeeps(c, timer.user, Expiry);
        SameHandlesKeeps(Consume(c, timer.user, Expiry), ExpiryWake(c, t));
      } else {
        SameHandlesKeeps(c, ExpiryWake(c, t));
      }
    } else if timer.phase.Deleting? {
      SameHandlesKeeps(c, ExpiryEnd(c, t));
    }
  }

  lemma SegmentHandles(c: Common, x: Session, g: Segment)
    requires HandlesOk(c) && SegmentEnabled(x, g, true)
    ensures HandlesOk(CommonAfter(c, x, g))
  {
    if g.PumpStarts? {
      if x.user in c.registry {
        ConsumeKeeps(c, x.user, Reconnect);
      }
    } else if g.PauseReturns? {
      EvictKeeps(c, x.user);
      StoreKeeps(Evict(c, x.user), x.user, x.teardown.room);
    } else {
      SameHandlesKeeps(c, CommonAfter(c, x, g));
    }
  }

  lemma ChoreHandles(s: System, h: Chore)
    requires HandlesOk(s.common) && ChoreEnabled(s, h)
    ensures HandlesOk(ChoreStep(s, h))
  {
    var c := s.common;
    match h
    case ExpiryWakes(t) => ExpiryKeeps(c, t);
    case ExpiryEnds(t) => ExpiryKeeps(c, t);
    case SweepNext =>
      var (user, kept) := c.phase.todo[0];
      if Lookup(c, user) == Some(kept) {
        ConsumeKeeps(c, user, Sweep);
        SameHandlesKeeps(Consume(c, user, Sweep), ChoreStep(s, h));
      } else {
        SameHandlesKeeps(c, ChoreStep(s, h));
      }
    case _ => SameHandlesKeeps(c, ChoreStep(s, h));
  }

  lemma HandlesStep(s: System, e: Event)
    requires HandlesOk(s.common) && Enabled(s, e)
    ensures HandlesOk(Apply(s, e).common)
  {
    match e
    case At(i, g) =>
      SegmentHandles(s.common, s.sessions[i], g);
      SegmentFrame(s, i, g);
    case Elsewhere(h) => ChoreHandles(s, h);
    case _ => DrainHandles(s, e);
  }

  lemma DrainHandles(s: System, e: Event)
    requires HandlesOk(s.common) && Enabled(s, e) && !e.At? && !e.Elsewhere?
    ensures HandlesOk(Apply(s, e).common)
  {
    SameHandlesKeeps(s.common, Apply(s, e).common);
  }
}
