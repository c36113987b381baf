/**
 Loading the configuration: which tables load, which rooms come out of them,
 and why resolving a username can never fail afterwards.
 */
module Config {
  import opened Wrappers

  /** A TOML value, with what `str()` and `int()` make of it; `int()` may raise. */
  datatype Value =
    | Scalar(isText: bool, text: string, number: Option<int>)
    | Table(text: string, entries: seq<Entry>)

  /** One key of a table; tables keep the order of the file. */
  datatype Entry = Entry(key: string, value: Value)

  datatype RoomConfig = RoomConfig(
    name: string,
    image: string,
    memory: string,
    cpus: int,
    pidsLimit: int,
    network: string,
    backend: string,
    rootfs: string)

  /** A Python dictionary of rooms: the mapping, and the order of insertion. */
  datatype Rooms = Rooms(order: seq<string>, at: map<string, RoomConfig>)

  datatype Config = Config(defaultRoom: string, backend: string, rooms: Rooms)

  const KNOWN_BACKENDS: set<string> := {"docker", "firecracker"}
  const DEFAULT_BACKEND: string := "docker"
  const DEFAULT_ROOM: string := "ubuntu"

  // ---- reading values -------------------------------------------------------------------

  function Find(entries: seq<Entry>, key: string): Option<Value> {
    if entries == [] then None
    else if entries[0].key == key then Some(entries[0].value)
    else Find(entries[1..], key)
  }

  function TextOr(entries: seq<Entry>, key: string, otherwise: string): string {
    match Find(entries, key)
    case Some(v) => v.text
    case None => otherwise
  }

  function NumberOr(entries: seq<Entry>, key: string, otherwise: int): Option<int> {
    match Find(entries, key)
    case Some(Scalar(_, _, n)) => n
    case Some(Table(_, _)) => None
    case None => Some(otherwise)
  }

  /** `_valid_backend`. */
  function ValidBackend(name: string): (r: string)
    ensures r == "" || r in KNOWN_BACKENDS
    ensures r == name <==> name == "" || name in KNOWN_BACKENDS
    ensures r != name ==> r == "docker"
  {
    if name == "" || name in KNOWN_BACKENDS then name else DEFAULT_BACKEND
  }

  /** The entries of the `rooms` table; none if there is no such table. */
  function RoomsTable(raw: seq<Entry>): seq<Entry> {
    match Find(raw, "rooms")
    case Some(Table(_, entries)) => entries
    case _ => []
  }

  // ---- what a rooms table means -------------------------------------------------------

  /** An entry that describes a room: a table with an image that is a string. */
  predicate Usable(e: Entry) {
    && e.value.Table?
    && Find(e.value.entries, "image").Some?
    && Find(e.value.entries, "image").value.Scalar?
    && Find(e.value.entries, "image").value.isText
  }

  /** A usable entry that makes `load` raise: one of its numbers is not a number. */
  predicate Broken(e: Entry) {
    Usable(e) && (NumberOr(e.value.entries, "cpus", 0).None? || NumberOr(e.value.entries, "pids_limit", 512).None?)
  }

  function RoomOf(e: Entry): RoomConfig
    requires Usable(e) && !Broken(e)
  {
    var t := e.value.entries;
    RoomConfig(e.key, TextOr(t, "image", ""), TextOr(t, "memory", ""),
               NumberOr(t, "cpus", 0).value, NumberOr(t, "pids_limit", 512).value,
               TextOr(t, "network", ""), ValidBackend(TextOr(t, "backend", "")), TextOr(t, "rootfs", ""))
  }

  /** The names of the usable entries, in the order of the file. */
  function UsableKeys(entries: seq<Entry>): seq<string> {
    if entries == [] then []
    else UsableKeys(entries[..|entries| - 1])
         + (if Usable(entries[|entries| - 1]) then [entries[|entries| - 1].key] else [])
  }

  ghost predicate DistinctKeys(entries: seq<Entry>) {
    forall i, j :: 0 <= i < j < |entries| ==> entries[i].key != entries[j].key
  }

  /** `rooms` holds exactly the usable entries, in order. */
  ghost predicate DescribedBy(rooms: Rooms, entries: seq<Entry>) {
    && rooms.order == UsableKeys(entries)
    && (forall e :: e in entries ==> !Broken(e))
    && (forall e :: e in entries && Usable(e) ==> e.key in rooms.at && rooms.at[e.key] == RoomOf(e))
    && (forall n :: n in rooms.at ==> exists e :: e in entries && Usable(e) && e.key == n)
  }

  lemma {:induction false} UsableKeysAre(entries: seq<Entry>)
    ensures forall n :: n in UsableKeys(entries) <==> exists e :: e in entries && Usable(e) && e.key == n
  {
    if entries != [] {
      var last := entries[|entries| - 1];
      UsableKeysAre(entries[..|entries| - 1]);
      assert entries == entries[..|entries| - 1] + [last];
    }
  }

  lemma UsableKeysNext(before: seq<Entry>, e: Entry)
    ensures UsableKeys(before + [e]) == UsableKeys(before) + (if Usable(e) then [e.key] else [])
  {
    var all := before + [e];
    assert all[..|all| - 1] == before && all[|all| - 1] == e;
  }

  lemma DescribedWith(rooms: Rooms, before: seq<Entry>, e: Entry)
    requires DescribedBy(rooms, before) && Usable(e) && !Broken(e) && forall o :: o in before ==> o.key != e.key
    ensures DescribedBy(Rooms(rooms.order + [e.key], rooms.at[e.key := RoomOf(e)]), before + [e])
  {
    UsableKeysNext(before, e);
    var all, at := before + [e], rooms.at[e.key := RoomOf(e)];
    assert all[|before|] == e;
    forall o | o in all && Usable(o)
      ensures o.key in at && at[o.key] == RoomOf(o)
    {
      assert o == e || o in before;
    }
  }

  lemma DescribedNext(rooms: Rooms, before: seq<Entry>, e: Entry)
    requires DescribedBy(rooms, before) && !Broken(e) && forall o :: o in before ==> o.key != e.key
    ensures !Usable(e) ==> DescribedBy(rooms, before + [e])
    ensures Usable(e) ==> DescribedBy(Rooms(rooms.order + [e.key], rooms.at[e.key := RoomOf(e)]), before + [e])
  {
    UsableKeysNext(before, e);
    assert forall o :: o in before + [e] <==> o in before || o == e;
    if Usable(e) {
      DescribedWith(rooms, before, e);
    }
  }

  /** The entry is a table whose image is a string. */
  predicate HasImage(e: Entry) {
    match e.value
    case Scalar(_, _, _) => false
    case Table(_, t) =>
      match Find(t, "image")
      case Some(Scalar(isText, _, _)) => isText
      case _ => false
  }

  /** The key is set to something that is no number. */
  predicate NoNumber(t: seq<Entry>, key: string) {
    match Find(t, key)
    case None => false
    case Some(Table(_, _)) => true
    case Some(Scalar(_, _, n)) => n.None?
  }

  lemma UsableMeans(e: Entry)
    ensures Usable(e) <==> HasImage(e)
    ensures Broken(e) <==> HasImage(e) && (NoNumber(e.value.entries, "cpus") || NoNumber(e.value.entries, "pids_limit"))
  {
  }

  /** `_parse_rooms`, on the entries of the table. */
  method ParseRooms(entries: seq<Entry>) returns (r: Result<Rooms>)
    requires DistinctKeys(entries)
    ensures r.Err? <==> exists e :: e in entries && Broken(e)
    ensures r.Ok? ==> DescribedBy(r.value, entries)
    ensures r.Ok? ==> forall n :: n in r.value.at <==> exists e :: e in entries && e.key == n && HasImage(e)
  {
    var rooms := Rooms([], map[]);
    for i := 0 to |entries|
      invariant DescribedBy(rooms, entries[..i])
    {
      var e := entries[i];
      assert e in entries && entries[..i + 1] == entries[..i] + [e];
      if Usable(e) && Broken(e) {
        return Err;
      }
      DescribedNext(rooms, entries[..i], e);
      if Usable(e) {
        rooms := Rooms(rooms.order + [e.key], rooms.at[e.key := RoomOf(e)]);
      }
    }
    assert entries[..|entries|] == entries;
    forall e
      ensures Usable(e) <==> HasImage(e)
    {
      UsableMeans(e);
    }
    r := Ok(rooms);
  }

  // ---- the built-in rooms ---------------------------------------------------------------

  function Builtin(name: string, image: string): RoomConfig {
    RoomConfig(name, image, "", 0, 512, "", "", "")
  }

  function BuiltinRooms(): Rooms {
    Rooms(["ubuntu", "python", "node"],
          map["ubuntu" := Builtin("ubuntu", "ubuntu:24.04"),
              "python" := Builtin("python", "python:3.12-slim"),
              "node" := Builtin("node", "node:22-slim")])
  }

  // ---- load -----------------------------------------------------------------------------

  /** `_valid_backend(str(raw["backend"])) or DEFAULT_BACKEND`. */
  function TopBackend(raw: seq<Entry>): (r: string)
    ensures r in KNOWN_BACKENDS
  {
    var named := ValidBackend(TextOr(raw, "backend", DEFAULT_BACKEND));
    if named == "" then DEFAULT_BACKEND else named
  }

  /** The configuration `cfg` is what the table `raw` asks for. */
  ghost predicate AskedFor(cfg: Config, raw: seq<Entry>) {
    var entries := RoomsTable(raw);
    var wanted := TextOr(raw, "default_room", DEFAULT_ROOM);
    && Settled(cfg.rooms, entries)
    && cfg.rooms.order != []
    && cfg.defaultRoom == (if wanted in cfg.rooms.at then wanted else cfg.rooms.order[0])
    && cfg.backend == TopBackend(raw)
  }

  /** What the rest of the server relies on. */
  ghost predicate Routable(cfg: Config) {
    && Named(cfg.rooms)
    && cfg.defaultRoom in cfg.rooms.at
    && cfg.backend in KNOWN_BACKENDS
  }

  /** Every room is filed under its own name and names no unknown backend, and there is at least one. */
  ghost predicate Named(rooms: Rooms) {
    && rooms.order != []
    && (forall n :: n in rooms.at <==> n in rooms.order)
    && (forall n :: n in rooms.at ==> rooms.at[n].name == n)
    && (forall n :: n in rooms.at ==> rooms.at[n].backend == "" || rooms.at[n].backend in KNOWN_BACKENDS)
  }

  lemma BuiltinRoomsAreNamed()
    ensures Named(BuiltinRooms())
  {
    var rooms := BuiltinRooms();
    assert rooms.order[0] == "ubuntu" && rooms.order[1] == "python" && rooms.order[2] == "node";
    assert rooms.at.Keys == {"ubuntu", "python", "node"};
  }

  lemma SomeUsable(entries: seq<Entry>)
    ensures UsableKeys(entries) != [] <==> exists e :: e in entries && Usable(e)
  {
    UsableKeysAre(entries);
    if UsableKeys(entries) != [] {
      assert UsableKeys(entries)[0] in UsableKeys(entries);
    }
    forall e | e in entries && Usable(e)
      ensures e.key in UsableKeys(entries)
    {
    }
  }

  lemma ParsedRoomsAreNamed(rooms: Rooms, entries: seq<Entry>)
    requires DescribedBy(rooms, entries) && rooms.order != []
    ensures Named(rooms)
  {
    UsableKeysAre(entries);
    forall n | n in rooms.at
      ensures rooms.at[n].name == n
      ensures rooms.at[n].backend == "" || rooms.at[n].backend in KNOWN_BACKENDS
    {
      var e :| e in entries && Usable(e) && e.key == n;
      assert rooms.at[n] == RoomOf(e);
    }
  }

  /** The rooms a table ends up with. */
  method SettleRooms(entries: seq<Entry>) returns (r: Result<Rooms>)
    requires DistinctKeys(entries)
    ensures r.Err? <==> exists e :: e in entries && Broken(e)
    ensures r.Ok? ==> Settled(r.value, entries) && Named(r.value)
  {
    r := ParseRooms(entries);
    if r.Ok? {
      SomeUsable(entries);
      if r.value.order == [] {
        r := Ok(BuiltinRooms());
        BuiltinRoomsAreNamed();
      } else {
        ParsedRoomsAreNamed(r.value, entries);
      }
    }
  }

  ghost predicate Settled(rooms: Rooms, entries: seq<Entry>) {
    if exists e :: e in entries && Usable(e) then DescribedBy(rooms, entries) else rooms == BuiltinRooms()
  }

  /** `load`; `raw` is the parsed file, or nothing if there is no file.  Also: the rooms warned about. */
  method Load(raw: Option<seq<Entry>>) returns (r: Result<Config>, warned: seq<string>)
    requires raw.Some? ==> DistinctKeys(RoomsTable(raw.value))
    ensures r.Err? <==> raw.Some? && exists e :: e in RoomsTable(raw.value) && Broken(e)
    ensures r.Ok? ==> Routable(r.value)
    ensures r.Ok? ==> if raw.Some? then AskedFor(r.value, raw.value)
                      else r.value == Config(DEFAULT_ROOM, DEFAULT_BACKEND, BuiltinRooms())
    ensures if r.Ok? && raw.Some? then Lists(warned, r.value, RoomsTable(raw.value)) else warned == []
  {
    if raw.None? {
      BuiltinRoomsAreNamed();
      assert "ubuntu" in BuiltinRooms().at;
      return Ok(Config(DEFAULT_ROOM, DEFAULT_BACKEND, BuiltinRooms())), [];
    }
    r := LoadTable(raw.value);
    warned := [];
    if r.Ok? {
      warned := WarnIgnoredRoomKeys(r.value, RoomsTable(raw.value));
    }
  }

  /** `load` for a file, up to the warnings. */
  method LoadTable(table: seq<Entry>) returns (r: Result<Config>)
    requires DistinctKeys(RoomsTable(table))
    ensures r.Err? <==> exists e :: e in RoomsTable(table) && Broken(e)
    ensures r.Ok? ==> Routable(r.value) && AskedFor(r.value, table)
  {
    var defaultRoom := DEFAULT_ROOM;
    var backend := DEFAULT_BACKEND;
    if Find(table, "default_room").Some? {
      defaultRoom := TextOr(table, "default_room", "");
    }
    if Find(table, "backend").Some? {
      backend := ValidBackend(TextOr(table, "backend", ""));
      if backend == "" {
        backend := DEFAULT_BACKEND;
      }
    }
    assert defaultRoom == TextOr(table, "default_room", DEFAULT_ROOM) && backend == TopBackend(table);
    var settled := SettleRooms(RoomsTable(table));
    if settled.Err? {
      return Err;
    }
    var rooms := settled.value;
    assert rooms.order[0] in rooms.order;
    if defaultRoom !in rooms.at {
      defaultRoom := rooms.order[0];
    }
    r := Ok(Config(defaultRoom, backend, rooms));
  }

  // ---- resolve --------------------------------------------------------------------------

  /** `Config.resolve`. */
  function Resolve(cfg: Config, username: string): Option<RoomConfig> {
    if username in cfg.rooms.at then Some(cfg.rooms.at[username])
    else if cfg.defaultRoom in cfg.rooms.at then Some(cfg.rooms.at[cfg.defaultRoom])
    else None
  }

  /** The backend a room is opened on: its own, or the server's. */
  function NameFor(cfg: Config, room: RoomConfig): string {
    if room.backend != "" then room.backend else cfg.backend
  }

  /** Without a file there are three rooms, and any other username gets `ubuntu`. */
  lemma ZeroConfig(username: string)
    ensures var cfg := Config(DEFAULT_ROOM, DEFAULT_BACKEND, BuiltinRooms());
      && Resolve(cfg, username).Some?
      && var room := Resolve(cfg, username).value;
         && room.image == (if username == "python" then "python:3.12-slim"
                           else if username == "node" then "node:22-slim" else "ubuntu:24.04")
         && room.name == (if username in {"python", "node"} then username else "ubuntu")
         && NameFor(cfg, room) == "docker"
  {
    assert BuiltinRooms().at.Keys == {"ubuntu", "python", "node"};
  }

  /**
   For every table that loads, every username resolves: to the usable entry of its own name if
   there is one, and otherwise to one room that is the same for every such username.
   */
  lemma ResolveIsTotal(cfg: Config, raw: seq<Entry>, username: string)
    requires AskedFor(cfg, raw) && Routable(cfg)
    ensures Resolve(cfg, username).Some?
    ensures NameFor(cfg, Resolve(cfg, username).value) in KNOWN_BACKENDS
    ensures forall e :: e in RoomsTable(raw) && Usable(e) && e.key == username ==>
                          !Broken(e) && Resolve(cfg, username) == Some(RoomOf(e))
    ensures username !in cfg.rooms.at ==> Resolve(cfg, username) == Resolve(cfg, cfg.defaultRoom)
  {
    if username in cfg.rooms.at {
      assert Resolve(cfg, username) == Some(cfg.rooms.at[username]);
    } else {
      assert Resolve(cfg, username) == Some(cfg.rooms.at[cfg.defaultRoom]);
    }
  }

  /** What a table says about the backend of one of its rooms: the room's key, then the server's, then docker. */
  function ChosenBackend(raw: seq<Entry>, e: Entry): string
    requires e.value.Table?
  {
    var own, server := TextOr(e.value.entries, "backend", ""), TextOr(raw, "backend", "");
    if own in KNOWN_BACKENDS then own
    else if own == "" && server in KNOWN_BACKENDS then server
    else "docker"
  }

  /** A room that came out of a table is opened on the backend the table chose for it. */
  lemma BackendChoice(cfg: Config, raw: seq<Entry>, e: Entry)
    requires AskedFor(cfg, raw) && e in RoomsTable(raw) && Usable(e)
    ensures !Broken(e) && Resolve(cfg, e.key) == Some(RoomOf(e))
    ensures NameFor(cfg, RoomOf(e)) == ChosenBackend(raw, e)
  {
  }

  /** A room that sets nothing but its image is as the built-in ones are. */
  lemma PlainRoom(e: Entry)
    requires e.value.Table? && |e.value.entries| == 1 && e.value.entries[0].key == "image"
    requires e.value.entries[0].value.Scalar? && e.value.entries[0].value.isText
    ensures Usable(e) && !Broken(e) && RoomOf(e) == Builtin(e.key, e.value.entries[0].value.text)
  {
    var t := e.value.entries;
    assert t[1..] == [];
    assert forall key :: key != "image" ==> Find(t, key) == Find(t[1..], key) == None;
  }

  // ---- writing a configuration down -------------------------------------------------------

  function Text(s: string): Value {
    Scalar(true, s, None)
  }

  function Number(n: int): Value {
    Scalar(false, "", Some(n))
  }

  function RenderedRoom(r: RoomConfig): Entry {
    Entry(r.name, Table("",
      [Entry("image", Text(r.image)), Entry("memory", Text(r.memory)), Entry("cpus", Number(r.cpus)),
       Entry("pids_limit", Number(r.pidsLimit)), Entry("network", Text(r.network)),
       Entry("backend", Text(r.backend)), Entry("rootfs", Text(r.rootfs))]))
  }

  function RenderedRooms(at: map<string, RoomConfig>, order: seq<string>): seq<Entry>
    requires forall n :: n in order ==> n in at
  {
    if order == [] then []
    else RenderedRooms(at, order[..|order| - 1]) + [RenderedRoom(at[order[|order| - 1]])]
  }

  function Rendered(cfg: Config): seq<Entry>
    requires forall n :: n in cfg.rooms.order ==> n in cfg.rooms.at
  {
    [Entry("default_room", Text(cfg.defaultRoom)), Entry("backend", Text(cfg.backend)),
     Entry("rooms", Table("", RenderedRooms(cfg.rooms.at, cfg.rooms.order)))]
  }

  /** The key at position `i` is found if no earlier entry has it. */
  lemma {:induction false} FindsAt(entries: seq<Entry>, i: nat)
    requires i < |entries| && forall j :: 0 <= j < i ==> entries[j].key != entries[i].key
    ensures Find(entries, entries[i].key) == Some(entries[i].value)
  {
    if i > 0 {
      FindsAt(entries[1..], i - 1);
    }
  }

  lemma RoomReadsBack(r: RoomConfig)
    requires r.backend == "" || r.backend in KNOWN_BACKENDS
    ensures var e := RenderedRoom(r); e.key == r.name && Usable(e) && !Broken(e) && RoomOf(e) == r
  {
    var t := RenderedRoom(r).value.entries;
    FindsAt(t, 0);
    FindsAt(t, 1);
    FindsAt(t, 2);
    FindsAt(t, 3);
    FindsAt(t, 4);
    FindsAt(t, 5);
    FindsAt(t, 6);
  }

  /** Some entry reads as the room called `n`. */
  ghost predicate ReadsAs(entries: seq<Entry>, n: string, room: RoomConfig) {
    exists e :: e in entries && e.key == n && Usable(e) && !Broken(e) && RoomOf(e) == room
  }

  ghost predicate Renderable(at: map<string, RoomConfig>, order: seq<string>) {
    forall n :: n in order ==> n in at && at[n].name == n && ValidBackend(at[n].backend) == at[n].backend
  }

  lemma ReadsOn(entries: seq<Entry>, more: seq<Entry>, n: string, room: RoomConfig)
    requires ReadsAs(entries, n, room)
    ensures ReadsAs(entries + more, n, room)
  {
    var e :| e in entries && e.key == n && Usable(e) && !Broken(e) && RoomOf(e) == room;
    assert e in entries + more;
  }

  lemma LastReads(entries: seq<Entry>, r: RoomConfig)
    requires ValidBackend(r.backend) == r.backend
    ensures ReadsAs(entries + [RenderedRoom(r)], r.name, r)
    ensures UsableKeys(entries + [RenderedRoom(r)]) == UsableKeys(entries) + [r.name]
  {
    var e, all := RenderedRoom(r), entries + [RenderedRoom(r)];
    RoomReadsBack(r);
    assert e in all && all[|all| - 1] == e && all[..|all| - 1] == entries;
  }

  lemma {:induction false} RoomsReadBack(at: map<string, RoomConfig>, order: seq<string>)
    requires Renderable(at, order)
    ensures UsableKeys(RenderedRooms(at, order)) == order
    ensures forall n :: n in order ==> ReadsAs(RenderedRooms(at, order), n, at[n])
  {
    if order != [] {
      var last, front := order[|order| - 1], order[..|order| - 1];
      assert order == front + [last];
      RoomsReadBack(at, front);
      LastReads(RenderedRooms(at, front), at[last]);
      forall n | n in front
        ensures ReadsAs(RenderedRooms(at, order), n, at[n])
      {
        ReadsOn(RenderedRooms(at, front), [RenderedRoom(at[last])], n, at[n]);
      }
    }
  }

  lemma RenderedTable(cfg: Config)
    requires forall n :: n in cfg.rooms.order ==> n in cfg.rooms.at
    ensures var raw := Rendered(cfg);
      && RoomsTable(raw) == RenderedRooms(cfg.rooms.at, cfg.rooms.order)
      && TextOr(raw, "default_room", DEFAULT_ROOM) == cfg.defaultRoom
      && TextOr(raw, "backend", DEFAULT_BACKEND) == cfg.backend
  {
    FindsAt(Rendered(cfg), 0);
    FindsAt(Rendered(cfg), 1);
    FindsAt(Rendered(cfg), 2);
  }

  lemma ReadingDecides(parsed: Rooms, entries: seq<Entry>, n: string, room: RoomConfig)
    requires DescribedBy(parsed, entries) && ReadsAs(entries, n, room)
    ensures n in parsed.at && parsed.at[n] == room
  {
  }

  lemma ParsedKeys(parsed: Rooms, entries: seq<Entry>)
    requires DescribedBy(parsed, entries)
    ensures forall n :: n in parsed.at <==> n in parsed.order
  {
    UsableKeysAre(entries);
  }

  lemma SameMap(a: map<string, RoomConfig>, b: map<string, RoomConfig>)
    requires forall n :: n in a <==> n in b
    requires forall n :: n in b ==> a[n] == b[n]
    ensures a == b
  {
  }

  /** Order and readings of the entries pin the parsed rooms down. */
  lemma Pinned(parsed: Rooms, rooms: Rooms, entries: seq<Entry>)
    requires DescribedBy(parsed, entries) && parsed.order == rooms.order
    requires forall n :: n in rooms.at <==> n in rooms.order
    requires forall n :: n in rooms.at ==> ReadsAs(entries, n, rooms.at[n])
    ensures parsed == rooms
  {
    ParsedKeys(parsed, entries);
    forall n | n in rooms.at
      ensures n in parsed.at && parsed.at[n] == rooms.at[n]
    {
      ReadingDecides(parsed, entries, n, rooms.at[n]);
    }
    SameMap(parsed.at, rooms.at);
  }

  lemma SameRooms(loaded: Rooms, rooms: Rooms)
    requires Named(rooms) && Settled(loaded, RenderedRooms(rooms.at, rooms.order))
    ensures loaded == rooms
  {
    RoomsReadBack(rooms.at, rooms.order);
    SomeUsable(RenderedRooms(rooms.at, rooms.order));
    Pinned(loaded, rooms, RenderedRooms(rooms.at, rooms.order));
  }

  /** Every routable configuration, written down as a table, loads back as itself. */
  lemma LoadsBack(cfg: Config, loaded: Config)
    requires Routable(cfg) && AskedFor(loaded, Rendered(cfg))
    ensures loaded == cfg
  {
    RenderedTable(cfg);
    SameRooms(loaded.rooms, cfg.rooms);
  }

  // ---- warnings about keys a backend ignores ---------------------------------------------

  /** The entry is warned about: it sets `pids_limit`, and the room of its name runs on firecracker. */
  predicate Warned(cfg: Config, e: Entry) {
    && e.value.Table? && Find(e.value.entries, "pids_limit").Some?
    && e.key in cfg.rooms.at
    && NameFor(cfg, cfg.rooms.at[e.key]) == "firecracker"
  }

  ghost predicate Lists(names: seq<string>, cfg: Config, entries: seq<Entry>) {
    forall n :: n in names <==> exists e :: e in entries && e.key == n && Warned(cfg, e)
  }

  method WarnIgnoredRoomKeys(cfg: Config, entries: seq<Entry>) returns (warned: seq<string>)
    ensures Lists(warned, cfg, entries)
  {
    warned := [];
    for i := 0 to |entries|
      invariant Lists(warned, cfg, entries[..i])
    {
      var e := entries[i];
      assert entries[..i + 1] == entries[..i] + [e];
      if Warned(cfg, e) {
        warned := warned + [e.key];
      }
    }
    assert entries[..|entries|] == entries;
  }

  /**
   A warning is about a limit the configuration dropped with its whole entry exactly when every
   entry of the table was skipped, the entry has the name of a built-in room and the server-level
   backend is firecracker.
   */
  lemma WarnedThoughSkipped(cfg: Config, raw: seq<Entry>, e: Entry)
    requires AskedFor(cfg, raw) && DistinctKeys(RoomsTable(raw)) && e in RoomsTable(raw)
    ensures Warned(cfg, e) && !Usable(e) <==>
            && (forall o :: o in RoomsTable(raw) ==> !Usable(o))
            && e.value.Table? && Find(e.value.entries, "pids_limit").Some?
            && e.key in BuiltinRooms().at
            && TopBackend(raw) == "firecracker"
  {
    var entries := RoomsTable(raw);
    if exists o :: o in entries && Usable(o) {
      assert e.key in cfg.rooms.at ==> Usable(e);
    }
  }

  /** Such a table: it caps a room that has no image, and is warned about the built-in `ubuntu`. */
  lemma WarnedAboutBuiltin(cfg: Config)
    requires AskedFor(cfg, SkippedUbuntu())
    ensures cfg.rooms == BuiltinRooms()
    ensures Warned(cfg, RoomsTable(SkippedUbuntu())[0]) && !Usable(RoomsTable(SkippedUbuntu())[0])
  {
    var entries := RoomsTable(SkippedUbuntu());
    assert entries == [Entry("ubuntu", Table("", [Entry("pids_limit", Scalar(false, "64", Some(64)))]))];
    var t := entries[0].value.entries;
    assert Find(t, "image") == Find(t[1..], "image") == None;
    assert Find(t, "pids_limit").Some?;
  }

  function SkippedUbuntu(): seq<Entry> {
    [Entry("backend", Scalar(true, "firecracker", None)),
     Entry("rooms", Table("", [Entry("ubuntu", Table("", [Entry("pids_limit", Scalar(false, "64", Some(64)))]))]))]
  }
}
