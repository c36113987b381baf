/**
 Instance directories, the processes recorded in them, and the sweep a
 starting keycard makes, over any run of starts, crashes and pid reuse.
 */
module Reaper {
  import opened Wrappers

  type Pid = nat
  type Name = string

  const FIRECRACKER: string := "firecracker"

  /** A live process: who it is, whatever its number, and the basename of its argv[0]. */
  datatype Process = Process(ident: nat, program: string)

  /** A recorded process: the number in the pid file, and which process it was written for. */
  datatype Record = Record(pid: Pid, ident: nat)

  /** An entry of the runtime directory. */
  datatype Entry = Stray | Instance(owner: Record, vmm: Option<Record>)

  datatype World = World(live: map<Pid, Process>, entries: map<Name, Entry>, nextIdent: nat)

  function Empty(): World {
    World(map[], map[], 0)
  }

  // ---- one sweep --------------------------------------------------------------------

  predicate PidIsAlive(live: map<Pid, Process>, r: Record) {
    r.pid in live
  }

  predicate ProcessIs(live: map<Pid, Process>, r: Option<Record>, program: string) {
    r.Some? && r.value.pid in live && live[r.value.pid].program == program
  }

  /** `instance_is_debris`. */
  predicate IsDebris(live: map<Pid, Process>, e: Entry) {
    e.Instance? && !PidIsAlive(live, e.owner) && !ProcessIs(live, e.vmm, FIRECRACKER)
  }

  function Kept(live: map<Pid, Process>, entries: map<Name, Entry>): map<Name, Entry> {
    map n | n in entries && !IsDebris(live, entries[n]) :: entries[n]
  }

  function Swept(w: World): World {
    w.(entries := Kept(w.live, w.entries))
  }

  function Debris(live: map<Pid, Process>, entries: map<Name, Entry>, listing: seq<Name>): seq<Name>
    requires forall n :: n in listing ==> n in entries
  {
    if listing == [] then []
    else Debris(live, entries, listing[..|listing| - 1])
         + (if IsDebris(live, entries[listing[|listing| - 1]]) then [listing[|listing| - 1]] else [])
  }

  class RuntimeDir {
    var entries: map<Name, Entry>

    constructor (entries: map<Name, Entry>)
      ensures this.entries == entries
    {
      this.entries := entries;
    }

    /** `reap_debris`; `listing` is what the sorted directory listing returned, or nothing if it failed. */
    method ReapDebris(live: map<Pid, Process>, listing: Option<seq<Name>>) returns (reaped: seq<Name>)
      requires listing.Some? ==> IsListing(listing.value, entries)
      modifies this
      ensures listing.None? ==> reaped == [] && entries == old(entries)
      ensures listing.Some? ==>
        reaped == Debris(live, old(entries), listing.value) && entries == Kept(live, old(entries))
    {
      match listing {
        case None => reaped := [];
        case Some(names) => reaped := ReapListed(live, names);
      }
    }

    method ReapListed(live: map<Pid, Process>, names: seq<Name>) returns (reaped: seq<Name>)
      requires IsListing(names, entries)
      modifies this
      ensures reaped == Debris(live, old(entries), names) && entries == Kept(live, old(entries))
    {
      reaped := [];
      ghost var before := entries;
      for i := 0 to |names|
        invariant entries == KeptOf(live, before, names[..i])
        invariant reaped == Debris(live, before, names[..i])
      {
        NextDebris(live, before, names, i);
        StillThere(live, before, names, i);
        var gone := Visit(live, names[i]);
        if gone {
          reaped := reaped + [names[i]];
        }
      }
      AllVisited(live, before, names);
    }

    method Visit(live: map<Pid, Process>, name: Name) returns (gone: bool)
      requires name in entries
      modifies this
      ensures gone <==> IsDebris(live, old(entries)[name])
      ensures entries == old(entries) - (if gone then {name} else {})
    {
      gone := IsDebris(live, entries[name]);
      if gone {
        entries := entries - {name};
      }
    }
  }

  /** What a directory listing returns: every entry once. */
  ghost predicate IsListing(names: seq<Name>, entries: map<Name, Entry>) {
    && (forall n :: n in names <==> n in entries)
    && (forall i, j :: 0 <= i < j < |names| ==> names[i] != names[j])
  }

  /** The entries left once the sweep has visited `visited`. */
  ghost function KeptOf(live: map<Pid, Process>, entries: map<Name, Entry>, visited: seq<Name>): map<Name, Entry> {
    map n | n in entries && !(n in visited && IsDebris(live, entries[n])) :: entries[n]
  }

  /** `a` is listed in front of `b`. */
  ghost predicate InFront(names: seq<Name>, a: Name, b: Name) {
    exists k, l :: 0 <= k < l < |names| && names[k] == a && names[l] == b
  }

  lemma InFrontStill(front: seq<Name>, last: Name, a: Name)
    ensures forall b :: InFront(front, a, b) ==> InFront(front + [last], a, b)
    ensures a in front ==> InFront(front + [last], a, last)
  {
    var names := front + [last];
    forall b | InFront(front, a, b)
      ensures InFront(names, a, b)
    {
      var k, l :| 0 <= k < l < |front| && front[k] == a && front[l] == b;
      assert names[k] == a && names[l] == b;
    }
    if a in front {
      var k :| 0 <= k < |front| && front[k] == a;
      assert names[k] == a && names[|front|] == last;
    }
  }

  /** `part` is listed in the order of `names`. */
  ghost predicate InOrderOf(names: seq<Name>, part: seq<Name>) {
    forall i, j :: 0 <= i < j < |part| ==> InFront(names, part[i], part[j])
  }

  lemma InOrderNext(front: seq<Name>, part: seq<Name>, last: Name)
    requires InOrderOf(front, part) && forall n :: n in part ==> n in front
    ensures InOrderOf(front + [last], part) && InOrderOf(front + [last], part + [last])
  {
    var more := part + [last];
    forall i, j | 0 <= i < j < |more|
      ensures InFront(front + [last], more[i], more[j])
    {
      assert more[i] == part[i] && part[i] in part;
      InFrontStill(front, last, part[i]);
      if j < |part| {
        assert InFront(front, part[i], part[j]);
      }
    }
    assert forall i :: 0 <= i < |part| ==> part[i] == more[i];
  }

  lemma {:induction false} DebrisInOrder(live: map<Pid, Process>, entries: map<Name, Entry>, names: seq<Name>)
    requires forall n :: n in names ==> n in entries
    ensures InOrderOf(names, Debris(live, entries, names))
  {
    if names != [] {
      var front, last := names[..|names| - 1], names[|names| - 1];
      DebrisInOrder(live, entries, front);
      DebrisListed(live, entries, front);
      InOrderNext(front, Debris(live, entries, front), last);
      assert names == front + [last];
    }
  }

  lemma {:induction false} DebrisListed(live: map<Pid, Process>, entries: map<Name, Entry>, names: seq<Name>)
    requires forall n :: n in names ==> n in entries
    ensures forall n :: n in Debris(live, entries, names) <==> n in names && n !in Kept(live, entries)
  {
    if names != [] {
      DebrisListed(live, entries, names[..|names| - 1]);
      assert names == names[..|names| - 1] + [names[|names| - 1]];
    }
  }

  /** What a sweep lists is exactly what it takes away, in the order of the directory listing. */
  lemma DebrisIsWhatGoes(live: map<Pid, Process>, entries: map<Name, Entry>, names: seq<Name>)
    requires forall n :: n in names ==> n in entries
    ensures var gone := Debris(live, entries, names);
      && (forall n :: n in gone <==> n in names && n !in Kept(live, entries))
      && InOrderOf(names, gone)
  {
    DebrisListed(live, entries, names);
    DebrisInOrder(live, entries, names);
  }

  lemma AllVisited(live: map<Pid, Process>, entries: map<Name, Entry>, names: seq<Name>)
    requires IsListing(names, entries)
    ensures names[..|names|] == names && KeptOf(live, entries, names) == Kept(live, entries)
  {
  }

  lemma StillThere(live: map<Pid, Process>, entries: map<Name, Entry>, names: seq<Name>, i: nat)
    requires IsListing(names, entries) && i < |names|
    ensures names[i] in KeptOf(live, entries, names[..i])
    ensures KeptOf(live, entries, names[..i])[names[i]] == entries[names[i]]
  {
    assert names[i] !in names[..i];
  }

  lemma NextDebris(live: map<Pid, Process>, entries: map<Name, Entry>, names: seq<Name>, i: nat)
    requires i < |names| && forall n :: n in names ==> n in entries
    ensures Debris(live, entries, names[..i + 1]) ==
      Debris(live, entries, names[..i]) + (if IsDebris(live, entries[names[i]]) then [names[i]] else [])
    ensures KeptOf(live, entries, names[..i + 1]) ==
      KeptOf(live, entries, names[..i]) - (if IsDebris(live, entries[names[i]]) then {names[i]} else {})
  {
    assert names[..i + 1][..i] == names[..i];
    assert names[..i + 1] == names[..i] + [names[i]];
  }

  // ---- runs ------------------------------------------------------------------------------

  datatype Event =
    | Starts(pid: Pid, program: string)                  // any process, on any number that is free
    | Dies(pid: Pid)
    | Creates(name: Name, keycard: Pid)                  // mkdir and the owner record
    | Spawns(name: Name, pid: Pid, program: string)      // the VMM and its record, for open or resume
    | Removes(name: Name)                                // destroy, destroy_kept or cleanup
    | Litters(name: Name)                                // an entry that is no directory
    | Sweeps                                             // a keycard starts up

  predicate Enabled(w: World, e: Event) {
    match e
    case Starts(pid, _) => pid !in w.live
    case Dies(pid) => pid in w.live
    case Creates(name, keycard) => keycard in w.live && name !in w.entries
    case Spawns(name, pid, _) => pid !in w.live && name in w.entries && w.entries[name].Instance?
    case Removes(name) => name in w.entries
    case Litters(name) => name !in w.entries
    case Sweeps => true
  }

  function Start(w: World, pid: Pid, program: string): World {
    w.(live := w.live[pid := Process(w.nextIdent, program)], nextIdent := w.nextIdent + 1)
  }

  function Apply(w: World, e: Event): World
    requires Enabled(w, e)
  {
    match e
    case Starts(pid, program) => Start(w, pid, program)
    case Dies(pid) => w.(live := w.live - {pid})
    case Creates(name, keycard) =>
      w.(entries := w.entries[name := Instance(Record(keycard, w.live[keycard].ident), None)])
    case Spawns(name, pid, program) =>
      Start(w, pid, program).(entries := w.entries[name := w.entries[name].(vmm := Some(Record(pid, w.nextIdent)))])
    case Removes(name) => w.(entries := w.entries - {name})
    case Litters(name) => w.(entries := w.entries[name := Stray])
    case Sweeps => Swept(w)
  }

  ghost predicate IsRun(ws: seq<World>, es: seq<Event>) {
    && |ws| == |es| + 1
    && ws[0] == Empty()
    && forall k :: 0 <= k < |es| ==> Enabled(ws[k], es[k]) && ws[k + 1] == Apply(ws[k], es[k])
  }

  /** The very process a record was written for is still running. */
  ghost predicate StillRuns(w: World, r: Record) {
    exists p :: p in w.live && w.live[p].ident == r.ident
  }

  ghost predicate RecordOk(w: World, r: Record) {
    r.ident < w.nextIdent && forall p :: p in w.live && w.live[p].ident == r.ident ==> p == r.pid
  }

  /** A record's process, as long as it runs, is found under the recorded number. */
  ghost predicate Inv(w: World) {
    && (forall p :: p in w.live ==> w.live[p].ident < w.nextIdent)
    && (forall p, q :: p in w.live && q in w.live && w.live[p].ident == w.live[q].ident ==> p == q)
    && (forall n :: n in w.entries && w.entries[n].Instance? ==>
          RecordOk(w, w.entries[n].owner) && (w.entries[n].vmm.Some? ==> RecordOk(w, w.entries[n].vmm.value)))
  }

  lemma InvStep(w: World, e: Event)
    requires Inv(w) && Enabled(w, e)
    ensures Inv(Apply(w, e))
  {
    var t := Apply(w, e);
    forall n, r | n in t.entries && t.entries[n].Instance? && (r == t.entries[n].owner || t.entries[n].vmm == Some(r))
      ensures RecordOk(t, r)
    {
      if n in w.entries && w.entries[n].Instance? && (r == w.entries[n].owner || w.entries[n].vmm == Some(r)) {
        assert RecordOk(w, r);
      }
    }
  }

  lemma {:induction false} InvAt(ws: seq<World>, es: seq<Event>, k: nat)
    requires IsRun(ws, es) && k <= |es|
    ensures Inv(ws[k])
  {
    if k > 0 {
      InvAt(ws, es, k - 1);
      InvStep(ws[k - 1], es[k - 1]);
    }
  }

  /** What is recorded in a directory is the very process that made it, and the VMM that was last started for it. */
  lemma RecordsAreTrue(ws: seq<World>, es: seq<Event>, k: nat, name: Name, pid: Pid, program: string)
    requires IsRun(ws, es) && k < |es| && (es[k] == Creates(name, pid) || es[k] == Spawns(name, pid, program))
    ensures name in ws[k + 1].entries && ws[k + 1].entries[name].Instance?
    ensures var e := ws[k + 1].entries[name];
      var made := if es[k].Creates? then Some(e.owner) else e.vmm;
      && made.Some? && made.value.pid == pid && StillRuns(ws[k + 1], made.value)
      && (es[k].Creates? ==> e.vmm.None?)
      && (es[k].Spawns? ==>
            name in ws[k].entries && ws[k].entries[name].Instance? && e.owner == ws[k].entries[name].owner)
      && (es[k].Spawns? ==> ws[k + 1].live[pid].program == program)
  {
    assert Enabled(ws[k], es[k]);
    assert ws[k + 1].live[pid] == ws[k + 1].live[pid];
  }

  /** However pids are reused, a sweep spares a directory whose creator still runs, or its VMM as `firecracker`. */
  lemma SweepSparesTheLiving(ws: seq<World>, es: seq<Event>, k: nat, name: Name)
    requires IsRun(ws, es) && k < |es| && es[k].Sweeps? && name in ws[k].entries && ws[k].entries[name].Instance?
    requires var e := ws[k].entries[name];
      || StillRuns(ws[k], e.owner)
      || (e.vmm.Some? && exists p :: p in ws[k].live && ws[k].live[p] == Process(e.vmm.value.ident, "firecracker"))
    ensures name in ws[k + 1].entries
  {
    InvAt(ws, es, k);
    var w, e := ws[k], ws[k].entries[name];
    if StillRuns(w, e.owner) {
      var p :| p in w.live && w.live[p].ident == e.owner.ident;
      assert RecordOk(w, e.owner);
    } else {
      var p :| p in w.live && w.live[p] == Process(e.vmm.value.ident, FIRECRACKER);
      assert RecordOk(w, e.vmm.value);
    }
  }

  /**
   A directory left by a crash, its creator and its VMM both gone (a paused room has stopped
   its VMM), survives the next sweep exactly if a recorded number has been taken again:
   the owner's by anything, the VMM's by another firecracker.
   */
  lemma CrashDebrisGoes(ws: seq<World>, es: seq<Event>, k: nat, name: Name)
    requires IsRun(ws, es) && k < |es| && es[k].Sweeps? && name in ws[k].entries && ws[k].entries[name].Instance?
    requires var e := ws[k].entries[name];
      !StillRuns(ws[k], e.owner) && (e.vmm.Some? ==> !StillRuns(ws[k], e.vmm.value))
    ensures name in ws[k + 1].entries <==>
      var w := ws[k]; var e := w.entries[name];
      || (e.owner.pid in w.live && w.live[e.owner.pid].ident != e.owner.ident)
      || (e.vmm.Some? && e.vmm.value.pid in w.live && w.live[e.vmm.value.pid].program == FIRECRACKER
          && w.live[e.vmm.value.pid].ident != e.vmm.value.ident)
  {
    var w, e := ws[k], ws[k].entries[name];
    assert e.owner.pid in w.live ==> w.live[e.owner.pid].ident != e.owner.ident;
  }

  /** Step `n` takes the entry away: its keycard removes it, or a sweep finds it to be debris. */
  predicate Takes(w: World, e: Event, name: Name) {
    e == Removes(name) || (e.Sweeps? && name in w.entries && IsDebris(w.live, w.entries[name]))
  }

  lemma EntryStep(w: World, e: Event, name: Name)
    requires Enabled(w, e) && name in w.entries
    ensures name in Apply(w, e).entries <==> !Takes(w, e, name)
    ensures name in Apply(w, e).entries && w.entries[name].Instance? ==>
      Apply(w, e).entries[name].Instance? && Apply(w, e).entries[name].owner == w.entries[name].owner
  {
  }

  /** Whatever starts, dies and is swept in between, a directory that is gone was removed by a keycard or was debris. */
  lemma {:induction false} GoneOnlyBy(ws: seq<World>, es: seq<Event>, j: nat, k: nat, name: Name)
    requires IsRun(ws, es) && j <= k <= |es| && name in ws[j].entries && name !in ws[k].entries
    ensures exists n :: j <= n < k && Takes(ws[n], es[n], name)
  {
    if name in ws[k - 1].entries {
      EntryStep(ws[k - 1], es[k - 1], name);
    } else {
      GoneOnlyBy(ws, es, j, k - 1, name);
    }
  }

  /** What is no instance directory is never swept. */
  lemma {:induction false} StraysStay(ws: seq<World>, es: seq<Event>, j: nat, k: nat, name: Name)
    requires IsRun(ws, es) && j < k <= |es| && es[j] == Litters(name)
    requires forall n :: j < n < k ==> es[n] != Removes(name)
    ensures name in ws[k].entries && ws[k].entries[name].Stray?
  {
    if j < k - 1 {
      StraysStay(ws, es, j, k - 1, name);
      assert Enabled(ws[k - 1], es[k - 1]);
    }
  }

  /**
   Through any run of starts, deaths and sweeps, with any reuse of numbers, a directory stays as
   long as the very process that made it runs and no keycard removes it.
   */
  lemma {:induction false} LivingRoomSurvives(ws: seq<World>, es: seq<Event>, j: nat, k: nat, name: Name, owner: Record)
    requires IsRun(ws, es) && j <= k <= |es|
    requires name in ws[j].entries && ws[j].entries[name].Instance? && ws[j].entries[name].owner == owner
    requires forall n :: j <= n < k ==> StillRuns(ws[n], owner) && es[n] != Removes(name)
    ensures name in ws[k].entries && ws[k].entries[name].Instance? && ws[k].entries[name].owner == owner
  {
    if j < k {
      LivingRoomSurvives(ws, es, j, k - 1, name, owner);
      EntryStep(ws[k - 1], es[k - 1], name);
      if es[k - 1].Sweeps? {
        SweepSparesTheLiving(ws, es, k - 1, name);
      }
    }
  }

  /** A VMM run from a binary of another name is not recognised: its orphaned directory goes while it runs. */
  lemma RenamedBinaryIsNotSpared() returns (ws: seq<World>, es: seq<Event>)
    ensures IsRun(ws, es) && |es| == 5 && es[4] == Sweeps && "room" in ws[4].entries
    ensures ws[4].entries["room"].Instance? && ws[4].entries["room"].vmm.Some?
    ensures StillRuns(ws[4], ws[4].entries["room"].vmm.value)
    ensures "room" !in ws[5].entries
  {
    es := [Starts(1, "keycard"), Creates("room", 1), Spawns("room", 2, "firecracker-v1.7"), Dies(1), Sweeps];
    var w1 := Apply(Empty(), es[0]);
    var w2 := Apply(w1, es[1]);
    var w3 := Apply(w2, es[2]);
    var w4 := Apply(w3, es[3]);
    ws := [Empty(), w1, w2, w3, w4, Apply(w4, es[4])];
  }

  /** A room is created, paused, resumed and destroyed, with a sweep in between that takes nothing of what is there. */
  lemma WholeLife() returns (ws: seq<World>, es: seq<Event>)
    ensures IsRun(ws, es) && |es| == 8 && es[6] == Sweeps && ws[7] == ws[6]
    ensures ws[6].entries.Keys == {"room", "notes"} && ws[8].entries == map["notes" := Stray]
    ensures ws[8].live == map[1 := Process(0, "keycard"), 3 := Process(2, "firecracker")]
  {
    es := [Starts(1, "keycard"), Creates("room", 1), Spawns("room", 2, "firecracker"), Dies(2),
           Spawns("room", 3, "firecracker"), Litters("notes"), Sweeps, Removes("room")];
    var w1 := Apply(Empty(), es[0]);
    var w2 := Apply(w1, es[1]);
    var w3 := Apply(w2, es[2]);
    var w4 := Apply(w3, es[3]);
    assert w4.live == map[1 := Process(0, "keycard")];
    var w5 := Apply(w4, es[4]);
    assert w5.live == map[1 := Process(0, "keycard"), 3 := Process(2, "firecracker")];
    var w6 := Apply(w5, es[5]);
    assert w6.entries.Keys == {"room", "notes"} && !IsDebris(w6.live, w6.entries["room"]);
    var w7 := Apply(w6, es[6]);
    assert w7.entries == w6.entries;
    ws := [Empty(), w1, w2, w3, w4, w5, w6, w7, Apply(w7, es[7])];
  }
}
