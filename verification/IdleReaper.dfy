/**
 The idle watchdog: sleeping for what remains of the idle period refines
 looking at the clock at every instant.
 */
module IdleReaper {
  import opened Wrappers

  /** When the session was created and when it last saw traffic, in order. */
  ghost predicate IsTrace(acts: seq<real>) {
    acts != [] && forall i, j :: 0 <= i < j < |acts| ==> acts[i] <= acts[j]
  }

  /** How many activities have happened by time `now`. */
  function SeenBy(acts: seq<real>, now: real): (n: nat)
    ensures n <= |acts|
  {
    if acts == [] || acts[0] > now then 0 else 1 + SeenBy(acts[1..], now)
  }

  lemma {:induction false} SeenByIsPrefix(acts: seq<real>, now: real)
    requires forall i, j :: 0 <= i < j < |acts| ==> acts[i] <= acts[j]
    ensures forall i :: 0 <= i < |acts| ==> (i < SeenBy(acts, now) <==> acts[i] <= now)
  {
    if acts != [] {
      if acts[0] <= now {
        SeenByIsPrefix(acts[1..], now);
        forall i | 0 <= i < |acts|
          ensures i < SeenBy(acts, now) <==> acts[i] <= now
        {
          if i > 0 {
            assert acts[i] == acts[1..][i - 1];
          }
        }
      }
    }
  }

  /** `_last_activity` as it stands at time `now`. */
  function LastActivity(acts: seq<real>, now: real): real
    requires acts != [] && acts[0] <= now
  {
    acts[SeenBy(acts, now) - 1]
  }

  /** What the reaper is for: at `now` there has been no traffic for the whole idle period. */
  ghost predicate IdleAt(acts: seq<real>, idle: real, now: real)
    requires IsTrace(acts)
  {
    forall i :: 0 <= i < |acts| && acts[i] <= now ==> now - acts[i] >= idle
  }

  lemma LastActivityDecides(acts: seq<real>, idle: real, now: real)
    requires IsTrace(acts) && acts[0] <= now
    ensures IdleAt(acts, idle, now) <==> now - LastActivity(acts, now) >= idle
    ensures LastActivity(acts, now) <= now
    ensures forall u :: now <= u ==> LastActivity(acts, now) <= LastActivity(acts, u)
  {
    SeenByIsPrefix(acts, now);
    var n := SeenBy(acts, now);
    assert acts[n - 1] <= now;
    forall u | now <= u
      ensures LastActivity(acts, now) <= LastActivity(acts, u)
    {
      SeenByIsPrefix(acts, u);
      assert n - 1 < SeenBy(acts, u);
    }
  }

  /**
   The watchdog from `start` on, with the trace of activity and how much longer than asked
   each sleep lasts.  Returns when it requests teardown, or nothing if the reaper is off.
   */
  method IdleWatchdog(idle: real, acts: seq<real>, start: real, oversleep: nat -> real) returns (reaped: Option<real>)
    requires IsTrace(acts) && acts[0] <= start
    requires forall k :: oversleep(k) >= 0.0
    ensures reaped.None? <==> idle <= 0.0
    ensures reaped.Some? ==> reaped.value >= start && IdleAt(acts, idle, reaped.value)
    ensures reaped.Some? && (forall k :: oversleep(k) == 0.0) ==>
      forall u :: start <= u < reaped.value ==> !IdleAt(acts, idle, u)
  {
    if idle <= 0.0 {
      return None;
    }
    var now, k := start, 0;
    LastActivityDecides(acts, idle, now);
    while true
      invariant now >= start
      invariant (forall k :: oversleep(k) == 0.0) ==> forall u :: start <= u < now ==> !IdleAt(acts, idle, u)
      decreases |acts| - SeenBy(acts, now), if now - LastActivity(acts, now) >= idle then 0 else 1
    {
      LastActivityDecides(acts, idle, now);
      var remaining := idle - (now - LastActivity(acts, now));
      if remaining <= 0.0 {
        return Some(now);
      }
      var next := now + remaining + oversleep(k);
      NotIdleWhileSleeping(acts, idle, now, remaining);
      LastActivityDecides(acts, idle, next);
      SeenGrows(acts, now, next);
      now, k := next, k + 1;
    }
  }

  lemma NotIdleWhileSleeping(acts: seq<real>, idle: real, now: real, remaining: real)
    requires IsTrace(acts) && acts[0] <= now && remaining == idle - (now - LastActivity(acts, now)) > 0.0
    ensures forall u :: now <= u < now + remaining ==> !IdleAt(acts, idle, u)
  {
    LastActivityDecides(acts, idle, now);
    forall u | now <= u < now + remaining
      ensures !IdleAt(acts, idle, u)
    {
      LastActivityDecides(acts, idle, u);
    }
  }

  /** Either nothing new was seen since, or the count of seen activities grew. */
  lemma SeenGrows(acts: seq<real>, now: real, next: real)
    requires IsTrace(acts) && acts[0] <= now <= next
    ensures SeenBy(acts, now) <= SeenBy(acts, next)
  {
    SeenByIsPrefix(acts, now);
    SeenByIsPrefix(acts, next);
  }
}
