/**
 The input side of a session: chunks arriving from the client, the bounded
 queue, and the one feeder task that writes them into the room.
 */
module TypeAhead {
  import opened Wrappers

  type Chunk = seq<bv8>

  const INPUT_BACKLOG: nat := 512

  datatype Event =
    | Received(chunk: Chunk)   // data_received
    | Gets                     // the feeder's queue.get() returned
    | Writes                   // the room's write of the chunk in flight returned
    | Stops                    // _stop_feeder

  /** `queue`, the feeder's local, and what the room has been given so far. */
  datatype Input = Input(queue: seq<Chunk>, inFlight: Option<Chunk>, delivered: seq<Chunk>, feeding: bool)

  function Fresh(): Input {
    Input([], None, [], true)
  }

  predicate Enabled(x: Input, e: Event) {
    match e
    case Received(_) => true
    case Gets => x.feeding && x.inFlight.None? && x.queue != []
    case Writes => x.feeding && x.inFlight.Some?
    case Stops => true
  }

  function Step(x: Input, e: Event): Input
    requires Enabled(x, e)
  {
    match e
    case Received(chunk) => if |x.queue| < INPUT_BACKLOG then x.(queue := x.queue + [chunk]) else x
    case Gets => x.(queue := x.queue[1..], inFlight := Some(x.queue[0]))
    case Writes => x.(inFlight := None, delivered := x.delivered + [x.inFlight.value])
    case Stops => x.(feeding := false)
  }

  ghost predicate Plays(es: seq<Event>)
    decreases |es|, 0
  {
    es == [] || (Plays(es[..|es| - 1]) && Enabled(After(es[..|es| - 1]), es[|es| - 1]))
  }

  /** The input side after the events `es`. */
  ghost function After(es: seq<Event>): Input
    requires Plays(es)
    decreases |es|, 1
  {
    if es == [] then Fresh() else Step(After(es[..|es| - 1]), es[|es| - 1])
  }

  // ---- the same bookkeeping with counters only ----------------------------------------

  function Typed(es: seq<Event>): seq<Chunk> {
    if es == [] then []
    else Typed(es[..|es| - 1]) + (if es[|es| - 1].Received? then [es[|es| - 1].chunk] else [])
  }

  function Taken(es: seq<Event>): nat {
    if es == [] then 0 else Taken(es[..|es| - 1]) + (if es[|es| - 1].Gets? then 1 else 0)
  }

  /** The chunks received while fewer than `INPUT_BACKLOG` accepted ones were still to be taken. */
  function Accepted(es: seq<Event>): seq<Chunk> {
    if es == [] then [] else
      var before := es[..|es| - 1];
      var a := Accepted(before);
      match es[|es| - 1]
      case Received(chunk) => if |a| - Taken(before) < INPUT_BACKLOG then a + [chunk] else a
      case _ => a
  }

  function InFlight(x: Input): seq<Chunk> {
    if x.inFlight.Some? then [x.inFlight.value] else []
  }

  function Pending(x: Input): seq<Chunk> {
    x.delivered + InFlight(x) + x.queue
  }

  lemma StepKeepsOrder(x: Input, e: Event)
    requires Enabled(x, e)
    ensures Pending(Step(x, e)) ==
      if e.Received? && |x.queue| < INPUT_BACKLOG then Pending(x) + [e.chunk] else Pending(x)
  {
    match e
    case Gets => assert x.queue == [x.queue[0]] + x.queue[1..];
    case _ =>
  }

  /**
   At all times what the room was given, then the chunk being written, then the queue are the
   accepted chunks in order: nothing is reordered, duplicated or dropped once accepted.
   */
  lemma {:induction false} InOrder(es: seq<Event>)
    requires Plays(es)
    ensures Pending(After(es)) == Accepted(es) && |After(es).delivered + InFlight(After(es))| == Taken(es)
    ensures |After(es).queue| <= INPUT_BACKLOG
  {
    if es != [] {
      InOrder(es[..|es| - 1]);
      StepKeepsOrder(After(es[..|es| - 1]), es[|es| - 1]);
    }
  }

  /** Before the room opens nothing is taken, and then the first `INPUT_BACKLOG` chunks typed are kept. */
  lemma {:induction false} TypedBeforeOpenIsKept(es: seq<Event>)
    requires Plays(es) && forall k :: 0 <= k < |es| ==> es[k].Received?
    ensures |Typed(es)| == |es| && Taken(es) == 0
    ensures Accepted(es) == if |es| < 512 then Typed(es) else Typed(es)[..512]
  {
    if es != [] {
      TypedBeforeOpenIsKept(es[..|es| - 1]);
    }
  }

  /** One more step of the feeder, if there is anything to feed. */
  function Feeds(x: Input): Event {
    if x.inFlight.Some? then Writes else Gets
  }

  lemma FeedNext(es: seq<Event>)
    requires Plays(es) && After(es).feeding && (After(es).inFlight.Some? || After(es).queue != [])
    ensures Plays(es + [Feeds(After(es))])
    ensures After(es + [Feeds(After(es))]) == Step(After(es), Feeds(After(es)))
    ensures Accepted(es + [Feeds(After(es))]) == Accepted(es)
  {
    var all := es + [Feeds(After(es))];
    assert all[..|all| - 1] == es;
  }

  /** As long as the feeder runs, it can give the room everything accepted so far. */
  lemma CanDeliver(es: seq<Event>) returns (all: seq<Event>)
    requires Plays(es) && After(es).feeding
    ensures Plays(all) && es <= all && Accepted(all) == Accepted(es)
    ensures After(all).delivered == Accepted(es) && After(all).feeding
    decreases 2 * |After(es).queue| + |InFlight(After(es))|
  {
    if After(es).inFlight.None? && After(es).queue == [] {
      InOrder(es);
      all := es;
    } else {
      FeedNext(es);
      all := CanDeliver(es + [Feeds(After(es))]);
    }
  }

  /** How many accepted chunks the room has been given: those taken, but for one whose write has not returned. */
  ghost function Given(es: seq<Event>): (n: int)
    requires Plays(es)
  {
    Taken(es) - |InFlight(After(es))|
  }

  /**
   Whatever arrives after the feeder stops, the room is given nothing more: for good it has had the
   first accepted chunks in order, and the one whose write the stop interrupted is abandoned.
   */
  lemma {:induction false} NothingAfterStop(es: seq<Event>, fs: seq<Event>)
    requires Plays(es + [Stops] + fs) && Plays(es)
    ensures !After(es + [Stops] + fs).feeding && 0 <= Given(es) <= |Accepted(es)|
    ensures After(es + [Stops] + fs).delivered == After(es).delivered == Accepted(es)[..Given(es)]
    decreases |fs|
  {
    var all := es + [Stops] + fs;
    if fs == [] {
      assert all[..|all| - 1] == es;
      InOrder(es);
    } else {
      assert all[..|all| - 1] == es + [Stops] + fs[..|fs| - 1];
      NothingAfterStop(es, fs[..|fs| - 1]);
    }
  }

  /** The queue and the feeder as the session object holds them. */
  class InputQueue {
    var queue: seq<Chunk>
    var inFlight: Option<Chunk>
    var feeding: bool
    ghost var delivered: seq<Chunk>

    ghost function View(): Input
      reads this
    {
      Input(queue, inFlight, delivered, feeding)
    }

    constructor ()
      ensures View() == Fresh()
    {
      queue, inFlight, feeding, delivered := [], None, true, [];
    }

    /** `data_received`: the newest chunk is the one dropped when the backlog is full. */
    method DataReceived(chunk: Chunk) returns (dropped: bool)
      modifies this
      ensures View() == Step(old(View()), Event.Received(chunk))
      ensures dropped <==> |old(queue)| >= INPUT_BACKLOG
    {
      dropped := |queue| >= INPUT_BACKLOG;
      if !dropped {
        queue := queue + [chunk];
      }
    }

    method Get()
      requires Enabled(View(), Gets)
      modifies this
      ensures View() == Step(old(View()), Gets)
    {
      inFlight := Some(queue[0]);
      queue := queue[1..];
    }

    method WriteReturns()
      requires Enabled(View(), Writes)
      modifies this
      ensures View() == Step(old(View()), Writes)
    {
      delivered := delivered + [inFlight.value];
      inFlight := None;
    }

    method StopFeeder()
      modifies this
      ensures View() == Step(old(View()), Stops)
    {
      feeding := false;
    }
  }
}
