/**
 Building, resuming, pausing and destroying a microVM, with a failure at any
 step: which VMM processes and instance directories are left behind.
 */
module Firecracker {
  import opened Wrappers

  type Pid = nat
  type Name = string

  /** An instance directory: who is recorded in it and which images it holds. */
  datatype Dir = Dir(ownerRecorded: bool, vmm: Option<Pid>, rootfs: bool, snapshot: bool)

  /** How a VMM ends when `_stop` is called on it. */
  datatype Ending = AlreadyExited | OnTerm | OnKill

  /** The step that fails, if any; cancellations that hit a step are failures of their own kind. */
  datatype Fault =
    | NoFault
    | OwnerWrite        // writing owner.pid, after mkdir
    | Copy
    | BeforeExec        // console log, ruleset, exec
    | PidWrite          // writing vmm.pid
    | ReadyTimeout
    | ReadyCancelled    // a cancellation inside the readiness wait
    | Configure(call: nat)
    | StartAction       // InstanceStart
    | LoadSnapshot      // only in resume
    | Attach            // a vsock connection or the first resize

  const CONFIGURE_CALLS: nat := 4

  /** The failures that strike between a VMM coming to life and `open` or `resume` knowing of it. */
  predicate Orphans(fault: Fault) {
    fault.PidWrite? || fault.ReadyCancelled?
  }

  class Host {
    var dirs: map<Name, Dir>
    var running: set<Pid>
    var attached: set<Pid>      // VMMs a room object holds both guest channels of
    var frozen: set<Pid>        // VMMs whose guest is paused

    /** `_stop`. */
    method Stop(pid: Pid, how: Ending)
      modifies this`running
      ensures running == old(running) - {pid}
    {
      if pid !in running {
        return;
      }
      match how {
        case AlreadyExited => running := running - {pid};
        case OnTerm => running := running - {pid};
        case OnKill =>
          // SIGTERM was ignored for the whole grace period
          running := running - {pid};
      }
    }

    method RemoveDir(name: Name)
      modifies this`dirs
      ensures dirs == old(dirs) - {name}
    {
      dirs := dirs - {name};
    }

    /** `_spawn`: the VMM, or nothing if it raised. */
    method Spawn(name: Name, pid: Pid, fault: Fault, how: Ending) returns (vm: Option<Pid>)
      requires pid !in running
      modifies this`running, this`dirs
      ensures vm == if name in old(dirs) && !fault.BeforeExec? && !fault.ReadyTimeout? && !Orphans(fault)
                    then Some(pid) else None
      ensures running == if vm.Some? || (name in old(dirs) && Orphans(fault))
                         then old(running) + {pid} else old(running)
      ensures dirs == if name in old(dirs) && !fault.BeforeExec? && !fault.PidWrite?
                      then old(dirs)[name := old(dirs)[name].(vmm := Some(pid))] else old(dirs)
    {
      if name !in dirs || fault.BeforeExec? {
        return None;
      }
      running := running + {pid};
      if fault.PidWrite? {
        return None;
      }
      dirs := dirs[name := dirs[name].(vmm := Some(pid))];
      if fault.ReadyTimeout? {
        Stop(pid, how);
        return None;
      }
      if fault.ReadyCancelled? {
        return None;
      }
      vm := Some(pid);
    }

    /** `_configure`: the calls in order, until one is refused. */
    method ConfigureAll(fault: Fault) returns (ok: bool)
      ensures ok <==> !(fault.Configure? && fault.call < CONFIGURE_CALLS)
    {
      for i := 0 to CONFIGURE_CALLS
        invariant !(fault.Configure? && fault.call < i)
      {
        if fault == Configure(i) {
          return false;
        }
      }
      ok := true;
    }

    /** `_cleanup`. */
    method Cleanup(vm: Option<Pid>, name: Name, how: Ending)
      modifies this`running, this`dirs
      ensures running == (if vm.Some? then old(running) - {vm.value} else old(running)) && dirs == old(dirs) - {name}
    {
      match vm {
        case Some(pid) => Stop(pid, how);
        case None =>
      }
      RemoveDir(name);
    }

    /** The body of `open`'s try block: what `vm` holds when it ends, and whether it ended without raising. */
    method Build(name: Name, pid: Pid, fault: Fault, how: Ending) returns (vm: Option<Pid>, ok: bool)
      requires pid !in running && name in dirs
      modifies this`running, this`dirs
      ensures ok ==> vm == Some(pid) && Succeeds(fault)
      ensures Succeeds(fault) ==> ok
      ensures vm.Some? ==> vm.value == pid && running == old(running) + {pid} && !Orphans(fault)
      ensures vm.None? ==> running == if Orphans(fault) then old(running) + {pid} else old(running)
      ensures dirs - {name} == old(dirs) - {name} && name in dirs
      ensures ok ==> dirs[name] == old(dirs)[name].(rootfs := true, vmm := Some(pid))
    {
      vm := None;
      if fault.Copy? {
        return vm, false;
      }
      dirs := dirs[name := dirs[name].(rootfs := true)];
      vm := Spawn(name, pid, fault, how);
      if vm.None? {
        return vm, false;
      }
      var configured := ConfigureAll(fault);
      if !configured || fault.StartAction? || fault.Attach? {
        return vm, false;
      }
      ok := true;
    }

    /**
     `open` with a free instance name and process number.  On failure nothing is left, except
     exactly: the directory if its owner record could not be written, and the VMM process if
     the failure struck after exec and before `open` knew of it.
     */
    method Open(name: Name, pid: Pid, image: bool, fault: Fault, how: Ending) returns (r: Result<Pid>)
      requires pid !in running
      modifies this`running, this`dirs, this`attached
      ensures r.Ok? <==>
        && image && name !in old(dirs)
        && !fault.OwnerWrite? && !fault.Copy? && !fault.BeforeExec? && !fault.PidWrite?
        && !fault.ReadyTimeout? && !fault.ReadyCancelled? && !(fault.Configure? && fault.call < 4)
        && !fault.StartAction? && !fault.Attach?
      ensures r.Ok? ==> r.value == pid && running == old(running) + {pid}
      ensures r.Ok? ==> dirs == old(dirs)[name := Dir(true, Some(pid), true, false)]
      ensures attached == if r.Ok? then old(attached) + {pid} else old(attached)
      ensures r.Err? ==>
        running == if image && name !in old(dirs) && (fault.PidWrite? || fault.ReadyCancelled?)
                   then old(running) + {pid} else old(running)
      ensures r.Err? ==> (dirs == old(dirs) <==> !(image && name !in old(dirs) && fault.OwnerWrite?))
    {
      if !image || name in dirs {
        return Err;
      }
      dirs := dirs[name := Dir(false, None, false, false)];
      if fault.OwnerWrite? {
        return Err;
      }
      dirs := dirs[name := Dir(true, None, false, false)];
      var vm, ok := Build(name, pid, fault, how);
      if !ok {
        assert Orphans(fault) ==> pid in running;
        Cleanup(vm, name, how);
        assert dirs == old(dirs);
        assert !Orphans(fault) ==> running == old(running);
        return Err;
      }
      assert dirs == (dirs - {name})[name := dirs[name]];
      attached := attached + {pid};
      r := Ok(pid);
    }

    /** `resume`: on failure the directory stays, since the caller still holds the handle. */
    method Resume(name: Name, pid: Pid, fault: Fault, how: Ending) returns (r: Result<Pid>)
      requires pid !in running
      modifies this`running, this`dirs, this`attached
      ensures r.Ok? <==>
        && name in old(dirs)
        && !fault.BeforeExec? && !fault.PidWrite? && !fault.ReadyTimeout? && !fault.ReadyCancelled?
        && !fault.LoadSnapshot? && !fault.Attach?
      ensures r.Ok? ==> r.value == pid && running == old(running) + {pid}
      ensures r.Ok? ==> dirs == old(dirs)[name := old(dirs)[name].(vmm := Some(pid))]
      ensures r.Err? ==>
        running == if name in old(dirs) && (fault.PidWrite? || fault.ReadyCancelled?)
                   then old(running) + {pid} else old(running)
      ensures dirs.Keys == old(dirs).Keys && dirs - {name} == old(dirs) - {name}
      ensures attached == if r.Ok? then old(attached) + {pid} else old(attached)
    {
      var vm := Spawn(name, pid, fault, how);
      if vm.None? {
        return Err;
      }
      if fault.LoadSnapshot? || fault.Attach? {
        Stop(vm.value, how);
        return Err;
      }
      attached := attached + {pid};
      r := Ok(pid);
    }

    /** `destroy_kept`. */
    method DestroyKept(name: Name)
      modifies this`dirs
      ensures dirs == old(dirs) - {name}
    {
      RemoveDir(name);
    }

    /**
     The pump's reconnect: a resume, and the cleanup the session owes the handle if it fails.
     As long as these rooms refuse to be paused, no handle for it is ever registered.
     */
    method ResumeOrCleanUp(name: Name, pid: Pid, fault: Fault, how: Ending) returns (r: Result<Pid>)
      requires pid !in running
      modifies this`running, this`dirs, this`attached
      ensures r.Ok? ==> r.value == pid && running == old(running) + {pid} && name in dirs
      ensures r.Err? ==> dirs == old(dirs) - {name}
      ensures r.Err? ==>
        running == if name in old(dirs) && (fault.PidWrite? || fault.ReadyCancelled?)
                   then old(running) + {pid} else old(running)
    {
      r := Resume(name, pid, fault, how);
      if r.Err? {
        DestroyKept(name);
      }
    }

    /**
     `pause`, where `refused` is the API call that fails, if any.  The attachment is gone in every
     case; a refused snapshot leaves the VMM running with its guest frozen.

     No session calls this in the version modelled: rooms of this backend refuse to be paused, and
     the code is kept for handling snapshots of older versions.
     */
    method Pause(name: Name, pid: Pid, refused: Option<PauseCall>, how: Ending) returns (r: Result<Name>)
      requires name in dirs && pid in running && pid !in frozen
      modifies this
      ensures r.Ok? <==> refused.None?
      ensures attached == old(attached) - {pid}
      ensures running == if r.Ok? then old(running) - {pid} else old(running)
      ensures pid in frozen <==> refused == Some(CreateSnapshot)
      ensures frozen - {pid} == old(frozen)
      ensures r.Ok? ==> r.value == name && dirs == old(dirs)[name := old(dirs)[name].(snapshot := true)]
      ensures r.Err? ==> dirs == old(dirs)
    {
      attached := attached - {pid};
      if refused.Some? && refused.value.Freeze? {
        return Err;
      }
      frozen := frozen + {pid};
      if refused.Some? {
        return Err;
      }
      dirs := dirs[name := dirs[name].(snapshot := true)];
      Stop(pid, how);
      frozen := frozen - {pid};
      r := Ok(name);
    }

    /**
     A pause that raises and the checkout the session then makes: whatever was refused, the VMM,
     its directory and its attachment are gone; a pause that returns keeps the directory.  This
     is what a session would do if these rooms could be paused.
     */
    method PauseOrDestroy(name: Name, pid: Pid, refused: Option<PauseCall>, how: Ending)
      requires name in dirs && pid in running && pid !in frozen
      modifies this
      ensures running == old(running) - {pid} && attached == old(attached) - {pid}
      ensures name in dirs <==> refused.None?
      ensures dirs - {name} == old(dirs) - {name} && frozen == old(frozen)
    {
      var r := Pause(name, pid, refused, how);
      if r.Err? {
        Stop(pid, how);
        frozen := frozen - {pid};
        RemoveDir(name);
      }
    }
  }

  /** The two API calls of `pause`. */
  datatype PauseCall = Freeze | CreateSnapshot

  predicate Succeeds(fault: Fault) {
    fault.NoFault? || fault.OwnerWrite? || fault.LoadSnapshot? || (fault.Configure? && fault.call >= CONFIGURE_CALLS)
  }

  // ---- destroy calls that race ------------------------------------------------------------

  /** One call of `destroy`: not yet past the lock, tearing down, or returned. */
  datatype Call = Calling | TearingDown | Returned(status: int)

  datatype Race = Race(destroyed: bool, calls: seq<Call>, teardowns: nat, status: int)

  datatype Event = Calls | Enters(c: nat) | Completes(c: nat)

  predicate Enabled(r: Race, e: Event) {
    match e
    case Calls => true
    case Enters(c) => c < |r.calls| && r.calls[c].Calling?
    case Completes(c) => c < |r.calls| && r.calls[c].TearingDown?
  }

  function Apply(r: Race, e: Event): Race
    requires Enabled(r, e)
  {
    match e
    case Calls => r.(calls := r.calls + [Calling])
    case Enters(c) =>
      if r.destroyed then r.(calls := r.calls[c := Returned(0)])
      else r.(destroyed := true, calls := r.calls[c := TearingDown])
    case Completes(c) => r.(calls := r.calls[c := Returned(r.status)], teardowns := r.teardowns + 1)
  }

  ghost predicate IsRun(rs: seq<Race>, es: seq<Event>) {
    && |rs| == |es| + 1
    && rs[0] == Race(false, [], 0, rs[0].status)
    && forall k :: 0 <= k < |es| ==> Enabled(rs[k], es[k]) && rs[k + 1] == Apply(rs[k], es[k])
  }

  /** What a call has returned with, if it has returned. */
  predicate Reports(r: Race, c: nat, status: int) {
    c < |r.calls| && r.calls[c] == Returned(status)
  }

  ghost predicate RaceOk(r: Race, owner: Option<nat>) {
    match owner
    case None => !r.destroyed && r.teardowns == 0 && forall c :: 0 <= c < |r.calls| ==> r.calls[c].Calling?
    case Some(o) =>
      && r.destroyed && o < |r.calls|
      && (r.calls[o] == if r.teardowns == 0 then TearingDown else Returned(r.status))
      && r.teardowns <= 1
      && forall c :: 0 <= c < |r.calls| && c != o ==> r.calls[c].Calling? || r.calls[c] == Returned(0)
  }

  function OwnerAfter(r: Race, e: Event, owner: Option<nat>): Option<nat> {
    if e.Enters? && !r.destroyed then Some(e.c) else owner
  }

  lemma RaceStep(r: Race, e: Event, owner: Option<nat>)
    requires RaceOk(r, owner) && Enabled(r, e)
    ensures RaceOk(Apply(r, e), OwnerAfter(r, e, owner))
  {
  }

  lemma {:induction false} RaceAt(rs: seq<Race>, es: seq<Event>, k: nat) returns (owner: Option<nat>)
    requires IsRun(rs, es) && k <= |es|
    ensures RaceOk(rs[k], owner)
  {
    owner := None;
    if k > 0 {
      owner := RaceAt(rs, es, k - 1);
      RaceStep(rs[k - 1], es[k - 1], owner);
      owner := OwnerAfter(rs[k - 1], es[k - 1], owner);
    }
  }

  /** The one call that tears the room down has reported its status, and every other has reported 0. */
  ghost predicate OneReported(r: Race) {
    exists o :: Reports(r, o, r.status) && forall c :: 0 <= c < |r.calls| && c != o ==> Reports(r, c, 0)
  }

  /**
   However many destroy calls race, the room is torn down at most once; once every call returned it has been
   torn down exactly once, by one call that reports the status while all others report 0.
   */
  lemma TornDownOnce(rs: seq<Race>, es: seq<Event>, k: nat)
    requires IsRun(rs, es) && k <= |es|
    ensures rs[k].teardowns <= 1
    ensures rs[k].calls != [] && (forall c :: 0 <= c < |rs[k].calls| ==> rs[k].calls[c].Returned?) ==>
              rs[k].teardowns == 1 && OneReported(rs[k])
  {
    var owner := RaceAt(rs, es, k);
    if rs[k].calls != [] && forall c :: 0 <= c < |rs[k].calls| ==> rs[k].calls[c].Returned? {
      assert !rs[k].calls[0].Calling?;
      assert Reports(rs[k], owner.value, rs[k].status);
    }
  }

  ghost predicate Reaches(r: Race) {
    exists rs, es :: IsRun(rs, es) && rs[|es|] == r
  }

  lemma Extend(r: Race, e: Event)
    requires Reaches(r) && Enabled(r, e)
    ensures Reaches(Apply(r, e))
  {
    var rs, es :| IsRun(rs, es) && rs[|es|] == r;
    var t := Apply(r, e);
    var qs, fs := rs + [t], es + [e];
    forall k | 0 <= k < |fs|
      ensures Enabled(qs[k], fs[k]) && qs[k + 1] == Apply(qs[k], fs[k])
    {
      if k < |es| {
        assert Enabled(rs[k], es[k]) && rs[k + 1] == Apply(rs[k], es[k]);
      }
    }
    assert IsRun(qs, fs) && qs[|fs|] == t;
  }

  lemma MoreMayCall(r: Race, more: nat) returns (t: Race)
    requires Reaches(r)
    ensures Reaches(t) && t.status == r.status && |t.calls| == |r.calls| + more
    decreases more
  {
    t := r;
    if more > 0 {
      Extend(r, Calls);
      t := MoreMayCall(Apply(r, Calls), more - 1);
    }
  }

  /** Any number of calls may race for a room of any status. */
  lemma AnyNumberMayCall(calls: nat, status: int) returns (t: Race)
    ensures Reaches(t) && t.status == status && |t.calls| == calls
  {
    var start, none: seq<Event> := Race(false, [], 0, status), [];
    assert IsRun([start], none) && [start][|none|] == start;
    t := MoreMayCall(start, calls);
  }

  /** How many calls have not returned, weighted by how far they have to go. */
  function Left(calls: seq<Call>): nat {
    if calls == [] then 0
    else Left(calls[..|calls| - 1])
         + (match calls[|calls| - 1] case Calling => 2 case TearingDown => 1 case Returned(_) => 0)
  }

  lemma {:induction false} LeftAfter(calls: seq<Call>, c: nat, call: Call)
    requires c < |calls|
    requires if calls[c].Calling? then !call.Calling? else calls[c].TearingDown? && call.Returned?
    ensures Left(calls[c := call]) < Left(calls)
  {
    var n := |calls| - 1;
    if c < n {
      assert calls[c := call][..n] == calls[..n][c := call];
      LeftAfter(calls[..n], c, call);
    } else {
      assert calls[c := call][..n] == calls[..n];
    }
  }

  /** No call is stuck: from any state all that were made can return. */
  lemma AllCanReturn(r: Race) returns (t: Race)
    requires Reaches(r)
    ensures Reaches(t) && |t.calls| == |r.calls| && forall c :: 0 <= c < |t.calls| ==> t.calls[c].Returned?
    decreases Left(r.calls)
  {
    t := r;
    if c :| 0 <= c < |r.calls| && !r.calls[c].Returned? {
      var e := if r.calls[c].Calling? then Enters(c) else Completes(c);
      Extend(r, e);
      LeftAfter(r.calls, c, Apply(r, e).calls[c]);
      t := AllCanReturn(Apply(r, e));
    }
  }

  /** The room object; `exitStatus` is what the control channel had delivered when the grace for it ended. */
  class FirecrackerRoom {
    const name: Name
    const pid: Pid
    const exitStatus: Option<int>
    var destroyed: bool
    ghost var calls: seq<Call>
    ghost var teardowns: nat

    ghost function View(): Race
      reads this
    {
      Race(destroyed, calls, teardowns, if exitStatus.Some? then exitStatus.value else 0)
    }

    constructor (name: Name, pid: Pid, exitStatus: Option<int>)
      ensures this.name == name && this.pid == pid && this.exitStatus == exitStatus
      ensures View() == Race(false, [], 0, View().status)
    {
      this.name, this.pid, this.exitStatus := name, pid, exitStatus;
      destroyed, calls, teardowns := false, [], 0;
    }

    ghost method DestroyCalled()
      modifies this
      ensures View() == Apply(old(View()), Calls)
    {
      calls := calls + [Calling];
    }

    /** Under the lock: `mine` says that this call goes on to tear down; the others return 0. */
    method PassLock(ghost c: nat) returns (mine: bool)
      requires Enabled(View(), Enters(c))
      modifies this
      ensures View() == Apply(old(View()), Enters(c)) && mine == !old(destroyed)
    {
      mine := !destroyed;
      calls := calls[c := if mine then TearingDown else Returned(0)];
      destroyed := true;
    }

    /** The rest of the call that tears down. */
    method TearDown(ghost c: nat, host: Host, how: Ending) returns (status: int)
      requires Enabled(View(), Completes(c))
      modifies this, host`running, host`dirs, host`attached
      ensures View() == Apply(old(View()), Completes(c)) && status == View().status
      ensures host.running == old(host.running) - {pid} && host.dirs == old(host.dirs) - {name}
      ensures host.attached == old(host.attached) - {pid}
    {
      host.attached := host.attached - {pid};
      host.Stop(pid, how);
      host.RemoveDir(name);
      status := if exitStatus.Some? then exitStatus.value else 0;
      calls, teardowns := calls[c := Returned(status)], teardowns + 1;
    }
  }
}
