/**
 The routing backend: handles find their way back to the backend that made
 them, and no request after startup can meet a backend that is not there.
 */
module Routing {
  import opened Wrappers
  import C = Config

  /** A backend object, told apart by `ident`. */
  datatype Backend = Backend(ident: nat, canPause: bool)

  /** What backends hand out; `maker` is the backend object it came from. */
  datatype Room = Room(maker: nat, canPause: bool, ident: nat)
  datatype Kept = Kept(maker: nat, ident: nat)

  datatype RoutedKept = RoutedKept(backendName: string, inner: Kept)

  datatype RoutedRoom = RoutedRoom(backendName: string, inner: Room) {
    predicate CanPause() {
      inner.canPause
    }

    /** `pause`; the room underneath answered with `kept`. */
    function Pause(kept: Kept): RoutedKept {
      RoutedKept(backendName, kept)
    }
  }

  /** Known backend names, with whether rooms of that backend can be paused. */
  type Factories = map<string, bool>

  const FACTORIES: Factories := map["docker" := true, "firecracker" := false]

  /** The registry: its dictionary, in order of insertion, and how many objects were ever built. */
  datatype Router = Router(backends: map<string, Backend>, order: seq<string>, built: nat)

  function NoBackends(): Router {
    Router(map[], [], 0)
  }

  /** `_get`: the router afterwards, and the backend unless it raised; `ready` if the factory would return. */
  function Get(f: Factories, r: Router, name: string, ready: bool): (Router, Option<Backend>) {
    if name in r.backends then (r, Some(r.backends[name]))
    else if name !in f || !ready then (r, None)
    else
      var b := Backend(r.built, f[name]);
      (Router(r.backends[name := b], r.order + [name], r.built + 1), Some(b))
  }

  ghost function Set(names: seq<string>): set<string> {
    set n | n in names
  }

  lemma SetNext(names: seq<string>, i: nat)
    requires i < |names|
    ensures Set(names[..i + 1]) == Set(names[..i]) + {names[i]}
  {
    assert names[..i + 1] == names[..i] + [names[i]];
  }

  function NamesInUse(cfg: C.Config): set<string> {
    {cfg.backend} + set n | n in cfg.rooms.at && cfg.rooms.at[n].backend != "" :: cfg.rooms.at[n].backend
  }

  /** Different names have different objects, and the order lists each name once. */
  ghost predicate Wired(r: Router) {
    && (forall n :: n in r.backends ==> r.backends[n].ident < r.built)
    && (forall n, m :: n in r.backends && m in r.backends && n != m ==> r.backends[n].ident != r.backends[m].ident)
    && (forall n :: n in r.order <==> n in r.backends)
    && (forall i, j :: 0 <= i < j < |r.order| ==> r.order[i] != r.order[j])
    && r.built == |r.order|
  }

  /** What a finished constructor leaves. */
  ghost predicate Started(cfg: C.Config, r: Router) {
    Wired(r) && r.backends.Keys == NamesInUse(cfg)
  }

  /** Later routers keep every backend of earlier ones, object for object. */
  ghost predicate Extends(r: Router, s: Router) {
    s.built >= r.built && forall n :: n in r.backends ==> n in s.backends && s.backends[n] == r.backends[n]
  }

  lemma GetKeeps(f: Factories, r: Router, name: string, ready: bool)
    requires Wired(r)
    ensures Wired(Get(f, r, name, ready).0) && Extends(r, Get(f, r, name, ready).0)
    ensures Get(f, r, name, ready).1.None? <==> name !in r.backends && (name !in f || !ready)
    ensures Get(f, r, name, ready).0.built == r.built <==> name in r.backends || name !in f || !ready
    ensures forall b :: Get(f, r, name, ready).1 == Some(b) ==>
                          name in Get(f, r, name, ready).0.backends && Get(f, r, name, ready).0.backends[name] == b
  {
  }

  /** Every room of a configuration is opened on a backend the constructor builds. */
  lemma ResolvedNameIsInUse(cfg: C.Config, username: string)
    ensures C.Resolve(cfg, username).Some? ==> C.NameFor(cfg, C.Resolve(cfg, username).value) in NamesInUse(cfg)
  {
  }

  /** A configuration that loaded names no backend that does not exist. */
  lemma LoadedNamesAreKnown(cfg: C.Config)
    requires C.Routable(cfg)
    ensures NamesInUse(cfg) <= C.KNOWN_BACKENDS == FACTORIES.Keys
  {
  }

  class RoutingBackend {
    const config: C.Config
    const factories: Factories
    var backends: map<string, Backend>
    var order: seq<string>
    var built: nat

    function View(): Router
      reads this
    {
      Router(backends, order, built)
    }

    /** The constructor up to its loop. */
    constructor (config: C.Config, factories: Factories)
      ensures this.config == config && this.factories == factories && View() == NoBackends()
    {
      this.config := config;
      this.factories := factories;
      backends, order, built := map[], [], 0;
    }

    /**
     The constructor's loop; `names` lists the names in use, and `ready` the factories that return.
     It ends without raising exactly if all of them are known and ready, and has then built each once.
     */
    method BuildAll(names: seq<string>, ready: set<string>) returns (ok: bool)
      requires View() == NoBackends()
      requires forall n :: n in names <==> n in NamesInUse(config)
      modifies this
      ensures ok <==> forall n :: n in NamesInUse(config) ==> n in factories && n in ready
      ensures ok ==> Started(config, View())
      ensures ok ==> forall n :: n in backends ==> backends[n].canPause == factories[n]
    {
      for i := 0 to |names|
        invariant Wired(View()) && backends.Keys == Set(names[..i])
        invariant forall n :: n in backends ==> n in factories && n in ready && backends[n].canPause == factories[n]
      {
        var b := GetBackend(names[i], names[i] in ready);
        SetNext(names, i);
        if b.None? {
          assert names[i] in NamesInUse(config);
          return false;
        }
      }
      assert names[..|names|] == names;
      ok := true;
    }

    /** `_get`. */
    method GetBackend(name: string, ready: bool) returns (r: Option<Backend>)
      requires Wired(View())
      modifies this
      ensures (View(), r) == Get(factories, old(View()), name, ready)
      ensures Wired(View()) && Extends(old(View()), View())
    {
      GetKeeps(factories, View(), name, ready);
      if name in backends {
        return Some(backends[name]);
      }
      if name !in factories || !ready {
        return None;
      }
      var b := Backend(built, factories[name]);
      backends, order, built := backends[name := b], order + [name], built + 1;
      r := Some(b);
    }

    /** `open`; `opens` is what the backend asked does, nothing if it raises. */
    method Open(room: C.RoomConfig, ready: bool, opens: Backend -> Option<Room>) returns (r: Option<RoutedRoom>)
      requires Wired(View())
      requires forall b :: opens(b).Some? ==> opens(b).value.maker == b.ident
      modifies this
      ensures Wired(View()) && Extends(old(View()), View())
      ensures r.Some? ==> r.value.backendName == C.NameFor(config, room)
      ensures r.Some? ==> MadeBy(View(), r.value.backendName, r.value.inner.maker)
      ensures r.Some? ==> opens(View().backends[r.value.backendName]) == Some(r.value.inner)
      ensures Started(config, old(View())) && room in config.rooms.at.Values ==>
                View() == old(View()) && (r.None? <==> opens(backends[C.NameFor(config, room)]).None?)
    {
      var name := C.NameFor(config, room);
      var b := GetBackend(name, ready);
      if b.None? {
        return None;
      }
      var inner := opens(b.value);
      r := match inner case Some(x) => Some(RoutedRoom(name, x)) case None => None;
    }

    /** `resume`; the handle is any this router's rooms were paused into. */
    method Resume(kept: RoutedKept, ready: bool, resumes: (Backend, Kept) -> Option<Room>)
      returns (r: Option<RoutedRoom>)
      requires Wired(View()) && MadeBy(View(), kept.backendName, kept.inner.maker)
      requires forall b, k :: resumes(b, k).Some? ==> resumes(b, k).value.maker == b.ident
      modifies this
      ensures View() == old(View())
      ensures var b := backends[kept.backendName];
        && b.ident == kept.inner.maker
        && r == match resumes(b, kept.inner)
                case Some(x) => Some(RoutedRoom(kept.backendName, x))
                case None => None
      ensures r.Some? ==> MadeBy(View(), r.value.backendName, r.value.inner.maker)
    {
      var b := GetBackend(kept.backendName, ready);
      var inner := resumes(b.value, kept.inner);
      r := match inner case Some(x) => Some(RoutedRoom(kept.backendName, x)) case None => None;
    }

    /** `destroy_kept`: the backend asked, and the handle it is given. */
    method DestroyKept(kept: RoutedKept, ready: bool) returns (given: Option<Given>)
      requires Wired(View()) && MadeBy(View(), kept.backendName, kept.inner.maker)
      modifies this
      ensures View() == old(View())
      ensures given == Some(Given(backends[kept.backendName], kept.inner))
      ensures given.value.backend.ident == kept.inner.maker
    {
      var b := GetBackend(kept.backendName, ready);
      match b {
        case Some(backend) => given := Some(Given(backend, kept.inner));
        case None => given := None;
      }
    }

    /** `close`: the backends asked to close, whichever of them raise. */
    method Close(raising: set<nat>) returns (asked: seq<Backend>, unclean: seq<string>)
      requires Wired(View())
      ensures |asked| == built && forall n :: n in backends ==> backends[n] in asked
      ensures forall n :: n in unclean <==> n in backends && backends[n].ident in raising
    {
      asked, unclean := [], [];
      for i := 0 to |order|
        invariant |asked| == i
        invariant forall j :: 0 <= j < i ==> asked[j] == backends[order[j]]
        invariant forall n :: n in unclean <==> n in order[..i] && backends[n].ident in raising
      {
        asked := asked + [backends[order[i]]];
        if backends[order[i]].ident in raising {
          unclean := unclean + [order[i]];
        }
        assert order[..i + 1] == order[..i] + [order[i]];
      }
      assert order[..|order|] == order;
      forall n | n in backends
        ensures backends[n] in asked
      {
        var j :| 0 <= j < |order| && order[j] == n;
        assert asked[j] == backends[n];
      }
    }

    /** `rooms_without_keep`, before sorting. */
    method RoomsWithoutKeep() returns (names: seq<string>)
      requires Started(config, View()) && C.Named(config.rooms)
      ensures forall n :: n in names <==> n in WithoutKeep(config, View())
    {
      names := [];
      for i := 0 to |config.rooms.order|
        invariant forall n :: n in names <==> n in config.rooms.order[..i] && n in WithoutKeep(config, View())
      {
        var n := config.rooms.order[i];
        var room := config.rooms.at[n];
        assert C.NameFor(config, room) in NamesInUse(config);
        assert config.rooms.order[..i + 1] == config.rooms.order[..i] + [n];
        if !backends[C.NameFor(config, room)].canPause {
          names := names + [room.name];
        }
      }
    }
  }

  /** The backend registered under `name` is the object `maker`. */
  ghost predicate MadeBy(r: Router, name: string, maker: nat) {
    name in r.backends && r.backends[name].ident == maker
  }

  /** The rooms whose backend cannot pause. */
  ghost function WithoutKeep(cfg: C.Config, r: Router): set<string> {
    set n | n in cfg.rooms.at && C.NameFor(cfg, cfg.rooms.at[n]) in r.backends
            && !r.backends[C.NameFor(cfg, cfg.rooms.at[n])].canPause
  }

  // ---- runs -----------------------------------------------------------------------------

  /** An `open` or `resume` that is waiting for its backend. */
  datatype Pending = Pending(name: string, backend: Backend)

  /** A handle given to a backend, by `resume` or `destroy_kept`. */
  datatype Given = Given(backend: Backend, kept: Kept)

  /** The router, everything it ever handed out, the calls in flight and the handles backends were given. */
  datatype World = World(
    router: Router,
    pending: set<Pending>,
    rooms: set<RoutedRoom>,
    kepts: set<RoutedKept>,
    given: seq<Given>)

  /** Backend results carry a number of the backend's choice; rooms and handles may be used again and again. */
  datatype Event =
    | OpenStarts(username: string, ready: bool)
    | ResumeStarts(kept: RoutedKept, ready: bool)
    | Answers(call: Pending, ident: nat)
    | Pauses(room: RoutedRoom, ident: nat)
    | DestroysKept(kept: RoutedKept, ready: bool)

  predicate Enabled(cfg: C.Config, w: World, e: Event) {
    match e
    case OpenStarts(u, _) => C.Resolve(cfg, u).Some?
    case ResumeStarts(kept, _) => kept in w.kepts
    case Answers(call, _) => call in w.pending
    case Pauses(room, _) => room in w.rooms && room.CanPause()
    case DestroysKept(kept, _) => kept in w.kepts
  }

  function Apply(cfg: C.Config, f: Factories, w: World, e: Event): World
    requires Enabled(cfg, w, e)
  {
    match e
    case OpenStarts(u, ready) =>
      var name := C.NameFor(cfg, C.Resolve(cfg, u).value);
      var (r, b) := Get(f, w.router, name, ready);
      (match b
       case Some(x) => w.(router := r, pending := w.pending + {Pending(name, x)})
       case None => w)
    case ResumeStarts(kept, ready) =>
      var (r, b) := Get(f, w.router, kept.backendName, ready);
      (match b
       case Some(x) =>
         w.(router := r,
            pending := w.pending + {Pending(kept.backendName, x)},
            given := w.given + [Given(x, kept.inner)])
       case None => w)
    case Answers(call, ident) =>
      w.(rooms := w.rooms + {RoutedRoom(call.name, Room(call.backend.ident, call.backend.canPause, ident))})
    case Pauses(room, ident) => w.(kepts := w.kepts + {room.Pause(Kept(room.inner.maker, ident))})
    case DestroysKept(kept, ready) =>
      var (r, b) := Get(f, w.router, kept.backendName, ready);
      (match b
       case Some(x) => w.(router := r, given := w.given + [Given(x, kept.inner)])
       case None => w)
  }

  ghost predicate IsRun(cfg: C.Config, f: Factories, ws: seq<World>, es: seq<Event>) {
    && |ws| == |es| + 1
    && ws[0] == World(ws[0].router, {}, {}, {}, [])
    && Started(cfg, ws[0].router)
    && forall k :: 0 <= k < |es| ==> Enabled(cfg, ws[k], es[k]) && ws[k + 1] == Apply(cfg, f, ws[k], es[k])
  }

  ghost predicate WorldOk(w: World) {
    && Wired(w.router)
    && (forall p :: p in w.pending ==> p.name in w.router.backends && w.router.backends[p.name] == p.backend)
    && (forall r :: r in w.rooms ==> MadeBy(w.router, r.backendName, r.inner.maker)
                                     && w.router.backends[r.backendName].canPause == r.inner.canPause)
    && (forall k :: k in w.kepts ==> MadeBy(w.router, k.backendName, k.inner.maker)
                                     && w.router.backends[k.backendName].canPause)
    && (forall g :: g in w.given ==> g.backend.ident == g.kept.maker && g.backend.canPause)
  }

  /** On a started router no step builds anything. */
  lemma WorldStep(cfg: C.Config, f: Factories, w: World, e: Event)
    requires WorldOk(w) && NamesInUse(cfg) <= w.router.backends.Keys && Enabled(cfg, w, e)
    ensures WorldOk(Apply(cfg, f, w, e))
    ensures Apply(cfg, f, w, e).router == w.router
  {
    match e
    case OpenStarts(u, ready) => ResolvedNameIsInUse(cfg, u);
    case ResumeStarts(kept, ready) =>
    case Answers(call, ident) =>
    case Pauses(room, ident) =>
    case DestroysKept(kept, ready) =>
  }

  /**
   Through any number of pauses, resumes and destructions, in any interleaving, every backend is only
   given handles that same backend object made, and only by rooms that may be paused.
   */
  lemma {:induction false} HandlesGoHome(cfg: C.Config, f: Factories, ws: seq<World>, es: seq<Event>, k: nat)
    requires IsRun(cfg, f, ws, es) && k <= |es|
    ensures WorldOk(ws[k]) && ws[k].router == ws[0].router
    ensures forall g :: g in ws[k].given ==> g.backend.ident == g.kept.maker && g.backend.canPause
  {
    if k > 0 {
      HandlesGoHome(cfg, f, ws, es, k - 1);
      WorldStep(cfg, f, ws[k - 1], es[k - 1]);
    }
  }

  /**
   A resume or a destroy of a kept room gives its handle, then and there, to the backend object that
   made it; no other step gives a backend anything.
   */
  lemma HandleReachesItsMaker(cfg: C.Config, f: Factories, ws: seq<World>, es: seq<Event>, k: nat)
    requires IsRun(cfg, f, ws, es) && k < |es|
    ensures es[k].DestroysKept? || es[k].ResumeStarts? ==>
      && es[k].kept.backendName in ws[0].router.backends
      && ws[0].router.backends[es[k].kept.backendName].ident == es[k].kept.inner.maker
      && ws[k + 1].given == ws[k].given + [Given(ws[0].router.backends[es[k].kept.backendName], es[k].kept.inner)]
    ensures !es[k].DestroysKept? && !es[k].ResumeStarts? ==> ws[k + 1].given == ws[k].given
    ensures es[k].ResumeStarts? ==>
      Pending(es[k].kept.backendName, ws[0].router.backends[es[k].kept.backendName]) in ws[k + 1].pending
  {
    HandlesGoHome(cfg, f, ws, es, k);
    assert Enabled(cfg, ws[k], es[k]);
    if es[k].OpenStarts? {
      ResolvedNameIsInUse(cfg, es[k].username);
    }
  }

  /** An answered call hands out a room that the backend asked has made, and a pause a handle of that same backend. */
  lemma AnswersAreWrapped(cfg: C.Config, f: Factories, ws: seq<World>, es: seq<Event>, k: nat)
    requires IsRun(cfg, f, ws, es) && k < |es|
    ensures es[k].Answers? ==>
      && es[k].call.name in ws[0].router.backends
      && var asked := ws[0].router.backends[es[k].call.name];
         ws[k + 1].rooms ==
           ws[k].rooms + {RoutedRoom(es[k].call.name, Room(asked.ident, asked.canPause, es[k].ident))}
    ensures es[k].Pauses? ==>
      ws[k + 1].kepts ==
        ws[k].kepts + {RoutedKept(es[k].room.backendName, Kept(es[k].room.inner.maker, es[k].ident))}
  {
    HandlesGoHome(cfg, f, ws, es, k);
    assert Enabled(cfg, ws[k], es[k]);
  }

  /** With the backends there are, the rooms announced as not kept are exactly those on firecracker. */
  lemma FirecrackerIsNotKept(cfg: C.Config, r: Router, n: string)
    requires C.Routable(cfg) && Started(cfg, r) && n in cfg.rooms.at
    requires forall b :: b in r.backends ==> b in FACTORIES && r.backends[b].canPause == FACTORIES[b]
    ensures n in WithoutKeep(cfg, r) <==> C.NameFor(cfg, cfg.rooms.at[n]) == "firecracker"
  {
    assert C.NameFor(cfg, cfg.rooms.at[n]) in NamesInUse(cfg);
    LoadedNamesAreKnown(cfg);
  }

  /**
   With a configuration that loaded, every username resolves at every moment of every run, its room's
   backend is one the constructor built, and asking for it builds nothing and cannot raise.
   */
  lemma AlwaysRouted(cfg: C.Config, f: Factories, ws: seq<World>, es: seq<Event>, k: nat, username: string, ready: bool)
    requires IsRun(cfg, f, ws, es) && k <= |es| && C.Routable(cfg)
    ensures C.Resolve(cfg, username).Some?
    ensures var name := C.NameFor(cfg, C.Resolve(cfg, username).value);
      && name in FACTORIES
      && name in ws[0].router.backends
      && Get(f, ws[k].router, name, ready) == (ws[0].router, Some(ws[0].router.backends[name]))
  {
    HandlesGoHome(cfg, f, ws, es, k);
    ResolvedNameIsInUse(cfg, username);
    LoadedNamesAreKnown(cfg);
  }

  /** A backend whose rooms refuse to pause is never given a handle, whatever sessions do. */
  lemma UnpausableGetsNoHandle(cfg: C.Config, f: Factories, ws: seq<World>, es: seq<Event>, k: nat, name: string)
    requires IsRun(cfg, f, ws, es) && k <= |es|
    requires name in ws[0].router.backends && !ws[0].router.backends[name].canPause
    ensures forall g :: g in ws[k].given ==> g.backend != ws[0].router.backends[name]
    ensures forall h :: h in ws[k].kepts ==> h.backendName != name
  {
    HandlesGoHome(cfg, f, ws, es, k);
  }

  /**
   From the table to the backend object: in every state of every run, a client that asks for a room
   the table describes is sent to the object built at startup for the backend the table chose.
   */
  lemma TableDecidesBackend(
    cfg: C.Config, raw: seq<C.Entry>, f: Factories, ws: seq<World>, es: seq<Event>, k: nat, e: C.Entry)
    requires IsRun(cfg, f, ws, es) && k < |es| && C.AskedFor(cfg, raw)
    requires e in C.RoomsTable(raw) && C.Usable(e) && es[k].OpenStarts? && es[k].username == e.key
    ensures var name := C.ChosenBackend(raw, e);
      && name in ws[0].router.backends
      && ws[k + 1] == ws[k].(pending := ws[k].pending + {Pending(name, ws[0].router.backends[name])})
  {
    C.BackendChoice(cfg, raw, e);
    OpenIsRouted(cfg, f, ws, es, k);
  }

  lemma OpenIsRouted(cfg: C.Config, f: Factories, ws: seq<World>, es: seq<Event>, k: nat)
    requires IsRun(cfg, f, ws, es) && k < |es| && es[k].OpenStarts?
    ensures C.Resolve(cfg, es[k].username).Some?
    ensures var name := C.NameFor(cfg, C.Resolve(cfg, es[k].username).value);
      && name in ws[0].router.backends
      && ws[k + 1] == ws[k].(pending := ws[k].pending + {Pending(name, ws[0].router.backends[name])})
  {
    HandlesGoHome(cfg, f, ws, es, k);
    assert Enabled(cfg, ws[k], es[k]);
    ResolvedNameIsInUse(cfg, es[k].username);
  }

  /** The rooms announced at startup as not kept are exactly those whose rooms refuse to pause, ever after. */
  lemma AnnouncementHolds(
    cfg: C.Config, f: Factories, ws: seq<World>, es: seq<Event>, k: nat, n: string, room: RoutedRoom)
    requires IsRun(cfg, f, ws, es) && k <= |es|
    requires n in cfg.rooms.at && room in ws[k].rooms && room.backendName == C.NameFor(cfg, cfg.rooms.at[n])
    ensures room.CanPause() <==> n !in WithoutKeep(cfg, ws[0].router)
  {
    HandlesGoHome(cfg, f, ws, es, k);
  }

  ghost predicate Reaches(cfg: C.Config, f: Factories, r: Router, w: World) {
    exists ws: seq<World>, es :: IsRun(cfg, f, ws, es) && ws[0].router == r && ws[|es|] == w
  }

  lemma Extend(cfg: C.Config, f: Factories, r: Router, w: World, e: Event)
    requires Reaches(cfg, f, r, w) && Enabled(cfg, w, e)
    ensures Reaches(cfg, f, r, Apply(cfg, f, w, e))
  {
    var ws: seq<World>, es :| IsRun(cfg, f, ws, es) && ws[0].router == r && ws[|es|] == w;
    var t := Apply(cfg, f, w, e);
    var vs, fs := ws + [t], es + [e];
    forall k | 0 <= k < |fs|
      ensures Enabled(cfg, vs[k], fs[k]) && vs[k + 1] == Apply(cfg, f, vs[k], fs[k])
    {
      if k < |es| {
        assert Enabled(cfg, ws[k], es[k]) && ws[k + 1] == Apply(cfg, f, ws[k], es[k]);
      }
    }
    assert IsRun(cfg, f, vs, fs) && vs[0].router == r && vs[|fs|] == t;
  }

  /** Any user's room comes into being on the backend its configuration names. */
  lemma RoomIsMade(cfg: C.Config, f: Factories, r: Router, username: string, ident: nat) returns (w: World)
    requires C.Routable(cfg) && Started(cfg, r)
    ensures C.Resolve(cfg, username).Some?
    ensures var name := C.NameFor(cfg, C.Resolve(cfg, username).value);
      && name in r.backends
      && w.rooms == {RoutedRoom(name, Room(r.backends[name].ident, r.backends[name].canPause, ident))}
    ensures Reaches(cfg, f, r, w) && w.router == r && w.given == []
  {
    ResolvedNameIsInUse(cfg, username);
    var name := C.NameFor(cfg, C.Resolve(cfg, username).value);
    var none: seq<Event> := [];
    w := World(r, {}, {}, {}, []);
    assert IsRun(cfg, f, [w], none) && [w][0].router == r && [w][|none|] == w;
    Extend(cfg, f, r, w, OpenStarts(username, false));
    w := Apply(cfg, f, w, OpenStarts(username, false));
    Extend(cfg, f, r, w, Answers(Pending(name, r.backends[name]), ident));
    w := Apply(cfg, f, w, Answers(Pending(name, r.backends[name]), ident));
  }

  /** A room that can be paused is kept and resumed, and kept and destroyed: both times its maker gets the handle. */
  lemma RoomIsKept(cfg: C.Config, f: Factories, r: Router, room: RoutedRoom, w: World, ident: nat) returns (t: World)
    requires Reaches(cfg, f, r, w) && Wired(r) && w.router == r && room in w.rooms && room.CanPause()
    requires MadeBy(r, room.backendName, room.inner.maker)
    ensures var maker := r.backends[room.backendName];
      && t.given == w.given + [Given(maker, Kept(maker.ident, ident)), Given(maker, Kept(maker.ident, ident))]
      && Pending(room.backendName, maker) in t.pending
    ensures Reaches(cfg, f, r, t)
  {
    var kept := RoutedKept(room.backendName, Kept(room.inner.maker, ident));
    Extend(cfg, f, r, w, Pauses(room, ident));
    t := Apply(cfg, f, w, Pauses(room, ident));
    Extend(cfg, f, r, t, ResumeStarts(kept, false));
    t := Apply(cfg, f, t, ResumeStarts(kept, false));
    Extend(cfg, f, r, t, DestroysKept(kept, false));
    t := Apply(cfg, f, t, DestroysKept(kept, false));
  }
}
