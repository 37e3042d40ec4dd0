/** Loading the configuration and keeping it up to date (src/settings.cpp), from parsed nodes
    with optional keys. */
module Settings {
  import opened Pakets
  import opened Records
  import opened Routing

  /** The program arguments that loading reads. */
  datatype Args = Args(mcsman: bool, distributed: bool, domain: string, drop: bool, defaultPort: uint16,
                       defaultDir: string, status: string, login: string)

  datatype RecordNode =
    | DropNode
    | MapNode(address: Option<string>, port: Option<uint16>, status: Option<string>, login: Option<string>,
              vars: map<string, string>, fml: Option<FmlNode>)

  datatype FmlNode = FmlFlag(allowed: bool) | FmlDrop | FmlRecord(node: RecordNode)

  type Mapping = n: RecordNode | n.MapNode? witness MapNode(None, None, None, None, map[], None)

  datatype MainNode = MainNode(distributed: Option<bool>, domain: Option<string>,
                               defaultServer: Option<Mapping>, servers: map<string, RecordNode>)

  /** The working directory: its main file, and for each sub-directory the server file in it. */
  datatype Tree = Tree(main: MainNode, dirs: map<string, Option<RecordNode>>)

  const DEFAULT_DIR: string := "default"

  function DefaultRecord(a: Args): BasicRecord {
    BasicRecord("", a.defaultPort, "", "", false, false, map[])
  }

  function DefaultConf(a: Args): Conf {
    Conf(a.distributed, a.domain,
         ServerRecord(BasicRecord("", a.defaultPort, "./" + a.defaultDir + "/" + a.status,
                                  "./" + a.defaultDir + "/" + a.login, a.drop, false, map[]), None),
         map[])
  }

  /** conf_record_mcsman. */
  function McsmanRecord(a: Args, name: string): ServerRecord {
    ServerRecord(BasicRecord(name + "-mcs", a.defaultPort, "./" + name + "/" + a.status,
                             "./" + name + "/" + a.login, false, true, map["name" := name]), None)
  }

  predicate Managed(a: Args, name: string) {
    a.mcsman && name != DEFAULT_DIR
  }

  // ---------- overlays ----------

  /** fill_record: keys that are there replace, the port falls back to the default port. */
  function Filled(a: Args, node: RecordNode, r: BasicRecord): BasicRecord {
    match node
    case DropNode => r.(drop := true)
    case MapNode(address, port, status, login, vars, _) =>
      BasicRecord(Or(address, r.address), Or(port, a.defaultPort), Or(status, r.status), Or(login, r.login),
                  false, r.mcsman, r.vars + vars)
  }

  function FmlOf(a: Args, f: FmlNode): Option<BasicRecord> {
    match f
    case FmlFlag(allowed) => if allowed then None else Some(DefaultRecord(a))
    case FmlDrop => Some(DefaultRecord(a).(drop := true))
    case FmlRecord(node) => Some(Filled(a, node, DefaultRecord(a)))
  }

  /** operator>> on a server record. */
  function Applied(a: Args, node: RecordNode, r: ServerRecord): ServerRecord {
    ServerRecord(Filled(a, node, r.basic),
                 if node.MapNode? && node.fml.Some? then FmlOf(a, node.fml.value) else r.fml)
  }

  // ---------- overlays, key by key ----------

  /** r is what the keys of n make of base: those that are set have their value, the others keep
      base's, but a port that is not set is the default port and the record is not dropped. */
  predicate IsOver(a: Args, n: Mapping, base: BasicRecord, r: BasicRecord) {
    && r.address == (if n.address.Some? then n.address.value else base.address)
    && r.port == (if n.port.Some? then n.port.value else a.defaultPort)
    && r.status == (if n.status.Some? then n.status.value else base.status)
    && r.login == (if n.login.Some? then n.login.value else base.login)
    && !r.drop && r.mcsman == base.mcsman
    && (forall k <- n.vars :: k in r.vars && r.vars[k] == n.vars[k])
    && (forall k <- base.vars :: k in r.vars && (k !in n.vars ==> r.vars[k] == base.vars[k]))
    && (forall k <- r.vars :: k in n.vars || k in base.vars)
  }

  lemma FilledIs(a: Args, n: Mapping, base: BasicRecord)
    ensures IsOver(a, n, base, Filled(a, n, base))
  {
  }

  /** The keys decide it: no other record is so. */
  lemma IsOverOnce(a: Args, n: Mapping, base: BasicRecord, r: BasicRecord)
    requires IsOver(a, n, base, r)
    ensures r == Filled(a, n, base)
  {
    assert r.vars == base.vars + n.vars;
  }

  /** An `fml` key: `true` for none, `false` for an empty record, `drop` for one that is dropped, or
      the keys over an empty one. */
  predicate IsFml(a: Args, f: FmlNode, fml: Option<BasicRecord>) {
    var empty := BasicRecord("", a.defaultPort, "", "", false, false, map[]);
    match f
    case FmlFlag(true) => fml == None
    case FmlFlag(false) => fml == Some(empty)
    case FmlDrop => fml == Some(empty.(drop := true))
    case FmlRecord(DropNode) => fml == Some(empty.(drop := true))
    case FmlRecord(n) => fml.Some? && IsOver(a, n, empty, fml.value)
  }

  lemma FmlIs(a: Args, f: FmlNode)
    ensures IsFml(a, f, FmlOf(a, f))
  {
  }

  /** A whole node over a record: `drop` only drops it, and keeps its fml record. */
  predicate IsApplied(a: Args, node: RecordNode, base: ServerRecord, r: ServerRecord) {
    match node
    case DropNode => r == base.(basic := base.basic.(drop := true))
    case MapNode(_, _, _, _, _, fml) =>
      && IsOver(a, node, base.basic, r.basic)
      && (fml.None? ==> r.fml == base.fml)
      && (fml.Some? ==> IsFml(a, fml.value, r.fml))
  }

  lemma AppliedIs(a: Args, node: RecordNode, base: ServerRecord)
    ensures IsApplied(a, node, base, Applied(a, node, base))
  {
    hide FmlOf, IsFml, IsOver;
    if node.MapNode? {
      FilledIs(a, node, base.basic);
      if node.fml.Some? {
        FmlIs(a, node.fml.value);
      }
    }
  }

  // ---------- what a node sets ----------

  /** What a node leaves of a record, field by field, is what it does not set otherwise. */
  predicate SetsNothing(a: Args, node: RecordNode, r: ServerRecord) {
    match node
    case DropNode => r.basic.drop
    case MapNode(address, port, status, login, vars, fml) =>
      && !r.basic.drop && Or(port, a.defaultPort) == r.basic.port
      && (address.Some? ==> address.value == r.basic.address)
      && (status.Some? ==> status.value == r.basic.status)
      && (login.Some? ==> login.value == r.basic.login)
      && (forall k <- vars :: k in r.basic.vars && r.basic.vars[k] == vars[k])
      && (fml.Some? ==> FmlOf(a, fml.value) == r.fml)
  }

  /** The condition for a rewritten file to be taken up in place: every key of the old file is
      in the new one or had the value that was there before. A dropped record hides them all, so
      then none may have been set. */
  predicate KeysKept(a: Args, was: RecordNode, now: RecordNode, r: ServerRecord) {
    match (was, now)
    case (DropNode, _) => true
    case (MapNode(address, port, status, login, vars, fml), DropNode) =>
      && Or(port, a.defaultPort) == r.basic.port
      && (address.Some? ==> address.value == r.basic.address)
      && (status.Some? ==> status.value == r.basic.status)
      && (login.Some? ==> login.value == r.basic.login)
      && (forall k <- vars :: k in r.basic.vars && r.basic.vars[k] == vars[k])
      && (fml.Some? ==> FmlOf(a, fml.value) == r.fml)
    case (MapNode(address, _, status, login, vars, fml), MapNode(address', _, status', login', vars', fml')) =>
      && (address.Some? && address'.None? ==> address.value == r.basic.address)
      && (status.Some? && status'.None? ==> status.value == r.basic.status)
      && (login.Some? && login'.None? ==> login.value == r.basic.login)
      && (forall k <- vars :: k in vars' || (k in r.basic.vars && r.basic.vars[k] == vars[k]))
      && (fml.Some? && fml'.None? ==> FmlOf(a, fml.value) == r.fml)
  }

  lemma SetsNothingExactly(a: Args, node: RecordNode, r: ServerRecord)
    ensures Applied(a, node, r) == r <==> SetsNothing(a, node, r)
  {
    hide FmlOf;
    match node
    case DropNode =>
    case MapNode(_, _, _, _, vars, _) => VarsKept(r.basic.vars, vars, map[]);
  }

  /** Two overlays in a row are the second alone for exactly the kept variables. */
  lemma VarsKept(base: map<string, string>, was: map<string, string>, now: map<string, string>)
    ensures base + was + now == base + now <==>
              forall k <- was :: k in now || (k in base && base[k] == was[k])
  {
    if base + was + now == base + now {
      forall k <- was ensures k in now || (k in base && base[k] == was[k]) {
        if k !in now {
          assert (base + was + now)[k] == was[k];
          assert k in base + now;
        }
      }
    }
    assert base + map[] == base;
    assert base + was + map[] == base + was;
  }

  /** Overlaying a new file on a record that has the old one on it is overlaying it on the bare
      record exactly when the keys are kept. */
  lemma RewriteExactly(a: Args, was: RecordNode, now: RecordNode, r: ServerRecord)
    ensures Applied(a, now, Applied(a, was, r)) == Applied(a, now, r) <==> KeysKept(a, was, now, r)
  {
    hide FmlOf;
    if was.MapNode? {
      VarsKept(r.basic.vars, was.vars, if now.MapNode? then now.vars else map[]);
      assert r.basic.vars + map[] == r.basic.vars;
      assert r.basic.vars + was.vars + map[] == r.basic.vars + was.vars;
    }
  }

  /** So rewriting a file with what it holds already changes nothing. */
  lemma OverlayIdempotent(a: Args, node: RecordNode, r: ServerRecord)
    ensures Applied(a, node, Applied(a, node, r)) == Applied(a, node, r)
  {
    RewriteExactly(a, node, node, r);
  }

  // ---------- a full load ----------

  /** The main file's servers, each over a default record. */
  function MainServers(a: Args, servers: map<string, RecordNode>): (r: map<string, ServerRecord>)
    ensures r.Keys == servers.Keys
  {
    map n | n in servers :: Applied(a, servers[n], ServerRecord(DefaultRecord(a), None))
  }

  predicate WellFormed(main: MainNode) {
    main.domain.Some? ==> Normalized(main.domain.value).Some?
  }

  /** load of the main file over the default settings. */
  function MainConf(a: Args, main: MainNode): Conf
    requires WellFormed(main)
  {
    var d := DefaultConf(a);
    Conf(Or(main.distributed, d.distributed),
         if main.domain.Some? then Normalized(main.domain.value).value else d.domain,
         if main.defaultServer.Some? then Applied(a, main.defaultServer.value, d.defaultServer) else d.defaultServer,
         MainServers(a, main.servers))
  }

  /** The record of a name before its own file: mcsman's if it manages the directory, else the
      main file's. */
  function Base(a: Args, main: map<string, ServerRecord>, name: string, isDir: bool): Option<ServerRecord> {
    if isDir && Managed(a, name) then Some(McsmanRecord(a, name))
    else if name in main then Some(main[name]) else None
  }

  function Bare(a: Args, base: Option<ServerRecord>): ServerRecord {
    Or(base, ServerRecord(DefaultRecord(a), None))
  }

  /** The record of a name in the end. */
  function FullEntry(a: Args, distributed: bool, main: map<string, ServerRecord>,
                     dirs: map<string, Option<RecordNode>>, name: string): Option<ServerRecord> {
    var base := Base(a, main, name, name in dirs);
    if distributed && name in dirs && dirs[name].Some?
    then Some(Applied(a, dirs[name].value, Bare(a, base)))
    else base
  }

  function FullServers(a: Args, distributed: bool, main: map<string, ServerRecord>,
                       dirs: map<string, Option<RecordNode>>): map<string, ServerRecord> {
    map n | n in main.Keys + dirs.Keys && FullEntry(a, distributed, main, dirs, n).Some?
         :: FullEntry(a, distributed, main, dirs, n).value
  }

  /** What load_all_conf makes of the tree. */
  function Full(a: Args, t: Tree): Conf
    requires WellFormed(t.main)
  {
    var c := MainConf(a, t.main);
    c.(servers := FullServers(a, c.distributed, c.servers, t.dirs))
  }

  function Lookup(m: map<string, ServerRecord>, name: string): Option<ServerRecord> {
    if name in m then Some(m[name]) else None
  }

  lemma FullLookup(a: Args, distributed: bool, main: map<string, ServerRecord>,
                   dirs: map<string, Option<RecordNode>>, name: string)
    ensures Lookup(FullServers(a, distributed, main, dirs), name) == FullEntry(a, distributed, main, dirs, name)
  {
    hide Applied, McsmanRecord;
  }

  lemma SameServers(m: map<string, ServerRecord>, n: map<string, ServerRecord>)
    requires forall k :: Lookup(m, k) == Lookup(n, k)
    ensures m == n
  {
    forall k ensures (k in m <==> k in n) && (k in m ==> m[k] == n[k]) {
      assert Lookup(m, k) == Lookup(n, k);
    }
    assert m.Keys == n.Keys;
  }

  // ---------- following the directory ----------

  /** The inotify events the watcher acts on, each with the name of its directory. */
  datatype Change =
    | MainWritten
    | FileCreated(name: string)
    | FileWritten(name: string)
    | FileDeleted(name: string)
    | DirCreated(name: string)
    | DirDeleted(name: string)

  /** node >> the record of the name, which is the default record when there is none. */
  function Overlaid(a: Args, servers: map<string, ServerRecord>, name: string,
                    node: RecordNode): map<string, ServerRecord> {
    servers[name := Applied(a, node, Bare(a, Lookup(servers, name)))]
  }

  function FileOf(t: Tree, name: string): Option<RecordNode> {
    if name in t.dirs then t.dirs[name] else None
  }

  /** One event, with the directory as it is when the event is handled. `before` is the
      configuration in force when the batch was read. */
  function Follow(a: Args, c: Conf, before: Conf, e: Change, t: Tree): Conf
    requires WellFormed(t.main)
  {
    match e
    case MainWritten => Full(a, t)
    case FileCreated(name) => Reread(a, c, name, t)
    case FileWritten(name) => Reread(a, c, name, t)
    case FileDeleted(name) =>
      var rest := c.servers - {name};
      c.(servers := if before.distributed && Managed(a, name) then rest[name := McsmanRecord(a, name)] else rest)
    case DirCreated(name) =>
      if Managed(a, name) then c.(servers := c.servers[name := McsmanRecord(a, name)]) else c
    case DirDeleted(name) =>
      if a.mcsman then c.(servers := c.servers - {name}) else c
  }

  function Reread(a: Args, c: Conf, name: string, t: Tree): Conf {
    if c.distributed && FileOf(t, name).Some?
    then c.(servers := Overlaid(a, c.servers, name, FileOf(t, name).value))
    else c
  }

  /** The two trees are the same but for one directory. */
  predicate OnlyAt(t: Tree, u: Tree, name: string) {
    t.main == u.main && t.dirs - {name} == u.dirs - {name}
  }

  predicate InMain(t: Tree, name: string) {
    name in t.main.servers
  }

  /** The configuration for a changed directory differs from the one before at that name only. */
  lemma FullDiffersAt(a: Args, t: Tree, u: Tree, name: string, servers: map<string, ServerRecord>)
    requires WellFormed(t.main) && OnlyAt(t, u, name)
    requires forall k :: k != name ==> Lookup(servers, k) == Lookup(Full(a, t).servers, k)
    ensures var c := MainConf(a, t.main);
            Full(a, u) == c.(servers := servers) <==>
              Lookup(servers, name) == FullEntry(a, c.distributed, c.servers, u.dirs, name)
  {
    hide Applied, McsmanRecord, FullEntry, FullServers;
    var c := MainConf(a, t.main);
    FullLookup(a, c.distributed, c.servers, u.dirs, name);
    if Lookup(servers, name) == FullEntry(a, c.distributed, c.servers, u.dirs, name) {
      forall k ensures Lookup(servers, k) == Lookup(Full(a, u).servers, k) {
        FullLookup(a, c.distributed, c.servers, u.dirs, k);
        FullLookup(a, c.distributed, c.servers, t.dirs, k);
        if k != name {
          assert k in t.dirs - {name} <==> k in t.dirs;
          assert k in u.dirs - {name} <==> k in u.dirs;
          assert k in t.dirs ==> t.dirs[k] == (t.dirs - {name})[k] == u.dirs[k];
          SameDirSameEntry(a, c.distributed, c.servers, t.dirs, u.dirs, k);
        }
      }
      SameServers(servers, Full(a, u).servers);
    }
  }

  lemma SameDirSameEntry(a: Args, distributed: bool, main: map<string, ServerRecord>,
                         dirs: map<string, Option<RecordNode>>, dirs': map<string, Option<RecordNode>>, k: string)
    requires k in dirs <==> k in dirs'
    requires k in dirs ==> dirs[k] == dirs'[k]
    ensures FullEntry(a, distributed, main, dirs, k) == FullEntry(a, distributed, main, dirs', k)
  {
  }

  // ---------- following agrees with loading again ----------

  /** A server file appears: always. */
  lemma CreationAgrees(a: Args, t: Tree, u: Tree, name: string)
    requires WellFormed(t.main) && OnlyAt(t, u, name)
    requires name in t.dirs && t.dirs[name].None? && name in u.dirs && u.dirs[name].Some?
    ensures Follow(a, Full(a, t), Full(a, t), FileCreated(name), u) == Full(a, u)
  {
    var c := MainConf(a, t.main);
    FullLookup(a, c.distributed, c.servers, t.dirs, name);
    FullDiffersAt(a, t, u, name, Follow(a, Full(a, t), Full(a, t), FileCreated(name), u).servers);
  }

  /** A server file is rewritten: exactly when files are not read at all, or the keys of the
      old file are kept. */
  lemma RewriteAgrees(a: Args, t: Tree, u: Tree, name: string)
    requires WellFormed(t.main) && OnlyAt(t, u, name)
    requires name in t.dirs && t.dirs[name].Some? && name in u.dirs && u.dirs[name].Some?
    ensures var c := MainConf(a, t.main);
            Follow(a, Full(a, t), Full(a, t), FileWritten(name), u) == Full(a, u) <==>
              !c.distributed
                   || KeysKept(a, t.dirs[name].value, u.dirs[name].value, Bare(a, Base(a, c.servers, name, true)))
  {
    hide Applied, KeysKept;
    var c := MainConf(a, t.main);
    FullLookup(a, c.distributed, c.servers, t.dirs, name);
    FullDiffersAt(a, t, u, name, Follow(a, Full(a, t), Full(a, t), FileWritten(name), u).servers);
    RewriteExactly(a, t.dirs[name].value, u.dirs[name].value, Bare(a, Base(a, c.servers, name, true)));
  }

  /** A server file goes: with distributed files exactly when mcsman manages the directory or the
      main file does not name it, and without them exactly when neither does. */
  lemma DeletionAgrees(a: Args, t: Tree, u: Tree, name: string)
    requires WellFormed(t.main) && OnlyAt(t, u, name)
    requires name in t.dirs && t.dirs[name].Some? && name in u.dirs && u.dirs[name].None?
    ensures Follow(a, Full(a, t), Full(a, t), FileDeleted(name), u) == Full(a, u) <==>
              if MainConf(a, t.main).distributed then Managed(a, name) || !InMain(t, name)
                   else !Managed(a, name) && !InMain(t, name)
  {
    hide Applied;
    var c := MainConf(a, t.main);
    FullLookup(a, c.distributed, c.servers, t.dirs, name);
    FullDiffersAt(a, t, u, name, Follow(a, Full(a, t), Full(a, t), FileDeleted(name), u).servers);
  }

  /** For one: without mcsman, deleting lobby's own file also takes away the record that the
      main file gives it, until the next full load. */
  lemma MainRecordLost(a: Args, node: RecordNode)
    requires !a.mcsman
    ensures var main := MainNode(None, None, None, map["lobby" := node]);
            var t, u := Tree(main, map["lobby" := Some(node)]), Tree(main, map["lobby" := None]);
            && "lobby" !in Follow(a, Full(a, t), Full(a, t), FileDeleted("lobby"), u).servers
            && "lobby" in Full(a, u).servers
  {
    hide Applied;
    var main := MainNode(None, None, None, map["lobby" := node]);
    var c := MainConf(a, main);
    FullLookup(a, c.distributed, c.servers, map["lobby" := None], "lobby");
  }

  /** A directory appears: exactly when a file it brings along is not read, or sets nothing. */
  lemma DirCreationAgrees(a: Args, t: Tree, u: Tree, name: string)
    requires WellFormed(t.main) && OnlyAt(t, u, name) && name !in t.dirs && name in u.dirs
    ensures var c := MainConf(a, t.main); var base := Base(a, c.servers, name, true);
            Follow(a, Full(a, t), Full(a, t), DirCreated(name), u) == Full(a, u) <==>
              !c.distributed || u.dirs[name].None?
                   || (base.Some? && SetsNothing(a, u.dirs[name].value, base.value))
  {
    hide Applied, SetsNothing;
    var c := MainConf(a, t.main);
    FullLookup(a, c.distributed, c.servers, t.dirs, name);
    FullDiffersAt(a, t, u, name, Follow(a, Full(a, t), Full(a, t), DirCreated(name), u).servers);
    var base := Base(a, c.servers, name, true);
    if base.Some? && u.dirs[name].Some? {
      SetsNothingExactly(a, u.dirs[name].value, base.value);
    }
  }

  /** A directory goes: under mcsman exactly when the main file does not name it, otherwise
      exactly when its file was not read or set nothing. */
  lemma DirDeletionAgrees(a: Args, t: Tree, u: Tree, name: string)
    requires WellFormed(t.main) && OnlyAt(t, u, name) && name in t.dirs && name !in u.dirs
    ensures var c := MainConf(a, t.main);
            Follow(a, Full(a, t), Full(a, t), DirDeleted(name), u) == Full(a, u) <==>
              if a.mcsman then !InMain(t, name)
                   else !c.distributed || t.dirs[name].None?
                        || (InMain(t, name) && SetsNothing(a, t.dirs[name].value, c.servers[name]))
  {
    hide Applied, SetsNothing;
    var c := MainConf(a, t.main);
    FullLookup(a, c.distributed, c.servers, t.dirs, name);
    FullDiffersAt(a, t, u, name, Follow(a, Full(a, t), Full(a, t), DirDeleted(name), u).servers);
    if InMain(t, name) && t.dirs[name].Some? {
      SetsNothingExactly(a, t.dirs[name].value, c.servers[name]);
    }
  }

  // ---------- trees at which they do not agree ----------

  /** The tree with distributed files and nothing in the main file. */
  function Lobby(dirs: map<string, Option<RecordNode>>): Tree {
    Tree(MainNode(Some(true), None, None, map[]), dirs)
  }

  function At(address: Option<string>): RecordNode {
    MapNode(address, None, None, None, map[], None)
  }

  /** A rewritten file that drops its address leaves the old one in force. */
  lemma AddressLeftBehind(a: Args)
    requires !a.mcsman
    ensures var t, u := Lobby(map["lobby" := Some(At(Some("b")))]), Lobby(map["lobby" := Some(At(None))]);
            var followed := Follow(a, Full(a, t), Full(a, t), FileWritten("lobby"), u).servers;
            && "lobby" in followed && followed["lobby"].basic.address == "b"
            && "lobby" in Full(a, u).servers && Full(a, u).servers["lobby"].basic.address == ""
  {
    var t, u := Lobby(map["lobby" := Some(At(Some("b")))]), Lobby(map["lobby" := Some(At(None))]);
    var c := MainConf(a, t.main);
    FullLookup(a, c.distributed, c.servers, t.dirs, "lobby");
    FullLookup(a, c.distributed, c.servers, u.dirs, "lobby");
  }

  /** A directory that arrives with a file in it is not read. */
  lemma FileUnseen(a: Args)
    requires !a.mcsman
    ensures var t, u := Lobby(map[]), Lobby(map["lobby" := Some(At(Some("b")))]);
            && "lobby" !in Follow(a, Full(a, t), Full(a, t), DirCreated("lobby"), u).servers
            && "lobby" in Full(a, u).servers
  {
    hide Applied;
    var t, u := Lobby(map[]), Lobby(map["lobby" := Some(At(Some("b")))]);
    var c := MainConf(a, t.main);
    FullLookup(a, c.distributed, c.servers, t.dirs, "lobby");
    FullLookup(a, c.distributed, c.servers, u.dirs, "lobby");
  }

  /** A directory that goes, without mcsman, leaves its record behind. */
  lemma RecordLeftBehind(a: Args)
    requires !a.mcsman
    ensures var t, u := Lobby(map["lobby" := Some(At(Some("b")))]), Lobby(map[]);
            && "lobby" in Follow(a, Full(a, t), Full(a, t), DirDeleted("lobby"), u).servers
            && "lobby" !in Full(a, u).servers
  {
    hide Applied;
    var t, u := Lobby(map["lobby" := Some(At(Some("b")))]), Lobby(map[]);
    var c := MainConf(a, t.main);
    FullLookup(a, c.distributed, c.servers, t.dirs, "lobby");
    FullLookup(a, c.distributed, c.servers, u.dirs, "lobby");
  }

  // ---------- batches ----------

  /** A batch, from its last event to its first. */
  function FollowAll(a: Args, c: Conf, before: Conf, events: seq<Change>, t: Tree): Conf
    requires WellFormed(t.main)
  {
    if events == [] then c else Follow(a, FollowAll(a, c, before, events[1..], t), before, events[0], t)
  }

  /** What one event makes of one name's record. */
  function EntryStep(a: Args, t: Tree, e: Change, name: string, entry: Option<ServerRecord>): Option<ServerRecord>
    requires WellFormed(t.main)
  {
    var c := MainConf(a, t.main);
    match e
    case MainWritten => FullEntry(a, c.distributed, c.servers, t.dirs, name)
    case FileCreated(n) => if n == name then EntryReread(a, t, name, entry) else entry
    case FileWritten(n) => if n == name then EntryReread(a, t, name, entry) else entry
    case FileDeleted(n) =>
      if n != name then entry
      else if c.distributed && Managed(a, name) then Some(McsmanRecord(a, name)) else None
    case DirCreated(n) => if n == name && Managed(a, name) then Some(McsmanRecord(a, name)) else entry
    case DirDeleted(n) => if n == name && a.mcsman then None else entry
  }

  function EntryReread(a: Args, t: Tree, name: string, entry: Option<ServerRecord>): Option<ServerRecord>
    requires WellFormed(t.main)
  {
    if MainConf(a, t.main).distributed && FileOf(t, name).Some?
    then Some(Applied(a, FileOf(t, name).value, Bare(a, entry)))
    else entry
  }

  function EntryAll(a: Args, t: Tree, events: seq<Change>, name: string,
                    entry: Option<ServerRecord>): Option<ServerRecord>
    requires WellFormed(t.main)
  {
    if events == [] then entry else EntryStep(a, t, events[0], name, EntryAll(a, t, events[1..], name, entry))
  }

  predicate SameMain(c: Conf, main: Conf) {
    c == main.(servers := c.servers)
  }

  lemma FollowEntry(a: Args, c: Conf, before: Conf, e: Change, t: Tree, name: string)
    requires WellFormed(t.main) && SameMain(c, MainConf(a, t.main)) && SameMain(before, MainConf(a, t.main))
    ensures SameMain(Follow(a, c, before, e, t), MainConf(a, t.main))
    ensures Lookup(Follow(a, c, before, e, t).servers, name) == EntryStep(a, t, e, name, Lookup(c.servers, name))
  {
    hide Applied, McsmanRecord, FullEntry, FullServers, MainConf;
    var main := MainConf(a, t.main);
    if e.MainWritten? {
      FullLookup(a, main.distributed, main.servers, t.dirs, name);
    }
  }

  lemma {:induction false} FollowAllEntry(a: Args, c: Conf, before: Conf, events: seq<Change>, t: Tree, name: string)
    requires WellFormed(t.main) && SameMain(c, MainConf(a, t.main)) && SameMain(before, MainConf(a, t.main))
    ensures SameMain(FollowAll(a, c, before, events, t), MainConf(a, t.main))
    ensures Lookup(FollowAll(a, c, before, events, t).servers, name)
         == EntryAll(a, t, events, name, Lookup(c.servers, name))
  {
    hide Follow, EntryStep, MainConf, Lookup, SameMain;
    if events != [] {
      FollowAllEntry(a, c, before, events[1..], t, name);
      FollowEntry(a, FollowAll(a, c, before, events[1..], t), before, events[0], t, name);
    }
  }

  /** Following a batch is loading everything again if and only if it is for each name. */
  lemma BatchByName(a: Args, t: Tree, u: Tree, events: seq<Change>)
    requires WellFormed(t.main) && t.main == u.main
    ensures FollowAll(a, Full(a, t), Full(a, t), events, u) == Full(a, u) <==>
              forall name :: EntryAll(a, u, events, name, Lookup(Full(a, t).servers, name))
                          == Lookup(Full(a, u).servers, name)
  {
    hide Lookup, FullServers, EntryAll, FollowAll, MainConf;
    var c, d := Full(a, t), Full(a, u);
    var f := FollowAll(a, c, c, events, u);
    forall name ensures Lookup(f.servers, name) == EntryAll(a, u, events, name, Lookup(c.servers, name)) {
      FollowAllEntry(a, c, c, events, u, name);
    }
    FollowAllEntry(a, c, c, events, u, "");
    if forall name :: EntryAll(a, u, events, name, Lookup(c.servers, name)) == Lookup(d.servers, name) {
      forall name ensures Lookup(f.servers, name) == Lookup(d.servers, name) {
        assert EntryAll(a, u, events, name, Lookup(c.servers, name)) == Lookup(d.servers, name);
      }
      SameServers(f.servers, d.servers);
    }
  }

  predicate Rereads(e: Change) {
    e.FileCreated? || e.FileWritten?
  }

  predicate Named(events: seq<Change>, name: string) {
    FileCreated(name) in events || FileWritten(name) in events
  }

  /** Reading a file any number of times is reading it once. */
  lemma {:induction false} RereadEntry(a: Args, t: Tree, events: seq<Change>, name: string, entry: Option<ServerRecord>)
    requires WellFormed(t.main) && forall e <- events :: Rereads(e)
    ensures EntryAll(a, t, events, name, entry)
         == if Named(events, name) then EntryReread(a, t, name, entry) else entry
  {
    hide Applied, MainConf;
    if events != [] {
      var e, rest := events[0], events[1..];
      assert events == [e] + rest;
      RereadEntry(a, t, rest, name, entry);
      assert Rereads(e);
      assert Named(events, name) <==> Named(rest, name) || e == FileCreated(name) || e == FileWritten(name);
      if FileOf(t, name).Some? {
        OverlayIdempotent(a, FileOf(t, name).value, Bare(a, entry));
      }
    }
  }

  /** A batch of created and rewritten server files, however often each is reported, agrees with
      a full load if and only if files are not read or each rewritten one keeps its keys. */
  lemma RereadsAgree(a: Args, t: Tree, u: Tree, events: seq<Change>)
    requires WellFormed(t.main) && t.main == u.main && t.dirs.Keys == u.dirs.Keys
    requires forall e <- events :: Rereads(e)
    requires forall name <- u.dirs :: if Named(events, name) then u.dirs[name].Some? else t.dirs[name] == u.dirs[name]
    ensures var c := MainConf(a, t.main);
            FollowAll(a, Full(a, t), Full(a, t), events, u) == Full(a, u) <==>
              !c.distributed
              || forall name <- t.dirs :: Named(events, name) && t.dirs[name].Some? ==>
                   KeysKept(a, t.dirs[name].value, u.dirs[name].value, Bare(a, Base(a, c.servers, name, true)))
  {
    hide Applied, KeysKept, MainConf, Named, Base, EntryAll, FullServers, Lookup, FollowAll;
    var c := MainConf(a, t.main);
    BatchByName(a, t, u, events);
    forall name
      ensures EntryAll(a, u, events, name, Lookup(Full(a, t).servers, name)) == Lookup(Full(a, u).servers, name) <==>
                !c.distributed || name !in t.dirs || !Named(events, name) || t.dirs[name].None?
                || KeysKept(a, t.dirs[name].value, u.dirs[name].value, Bare(a, Base(a, c.servers, name, true)))
    {
      RereadAgrees(a, t, u, events, name);
    }
  }

  lemma RereadAgrees(a: Args, t: Tree, u: Tree, events: seq<Change>, name: string)
    requires WellFormed(t.main) && t.main == u.main && t.dirs.Keys == u.dirs.Keys
    requires forall e <- events :: Rereads(e)
    requires name in u.dirs ==> if Named(events, name) then u.dirs[name].Some? else t.dirs[name] == u.dirs[name]
    ensures var c := MainConf(a, t.main);
            EntryAll(a, u, events, name, Lookup(Full(a, t).servers, name)) == Lookup(Full(a, u).servers, name) <==>
              !c.distributed || name !in t.dirs || !Named(events, name) || t.dirs[name].None?
              || KeysKept(a, t.dirs[name].value, u.dirs[name].value, Bare(a, Base(a, c.servers, name, true)))
  {
    hide Applied, KeysKept, MainConf, Named, Base, EntryAll, FullServers, Lookup;
    var c := MainConf(a, t.main);
    FullLookup(a, c.distributed, c.servers, t.dirs, name);
    FullLookup(a, c.distributed, c.servers, u.dirs, name);
    RereadEntry(a, u, events, name, FullEntry(a, c.distributed, c.servers, t.dirs, name));
    if name in t.dirs && name in u.dirs && t.dirs[name].Some? && u.dirs[name].Some? {
      RewriteExactly(a, t.dirs[name].value, u.dirs[name].value, Bare(a, Base(a, c.servers, name, true)));
    }
  }

  // ---------- which batches agree, from events and trees ----------

  /** The event makes a record for the name, or none, whatever there was. */
  predicate Sets(a: Args, e: Change, name: string) {
    match e
    case MainWritten => true
    case FileDeleted(n) => n == name
    case DirCreated(n) => n == name && Managed(a, name)
    case DirDeleted(n) => n == name && a.mcsman
    case _ => false
  }

  /** The place of the first such event, or the end of the batch. */
  function FirstSetting(a: Args, events: seq<Change>, name: string): (k: nat)
    ensures k <= |events| && (k < |events| ==> Sets(a, events[k], name))
    ensures forall i :: 0 <= i < k ==> !Sets(a, events[i], name)
  {
    if events == [] || Sets(a, events[0], name) then 0 else 1 + FirstSetting(a, events[1..], name)
  }

  /** Handled backwards, only the first setting event counts, and whether the file is read after
      it, which is before it in the batch. */
  lemma {:induction false} EntryClosed(a: Args, t: Tree, events: seq<Change>, name: string, entry: Option<ServerRecord>)
    requires WellFormed(t.main)
    ensures var k := FirstSetting(a, events, name);
            var start := if k < |events| then EntryStep(a, t, events[k], name, None) else entry;
            EntryAll(a, t, events, name, entry)
              == if Named(events[..k], name) then EntryReread(a, t, name, start) else start
  {
    hide Applied, MainConf, FullEntry, McsmanRecord;
    if events != [] {
      var e, rest := events[0], events[1..];
      var k := FirstSetting(a, events, name);
      if Sets(a, e, name) {
        assert events[..0] == [];
        assert EntryStep(a, t, e, name, EntryAll(a, t, rest, name, entry)) == EntryStep(a, t, e, name, None);
      } else {
        EntryClosed(a, t, rest, name, entry);
        assert events[..k] == [e] + rest[..k - 1];
        NamedFirst(e, rest[..k - 1], name);
        if FileOf(t, name).Some? {
          var start := if k < |events| then EntryStep(a, t, events[k], name, None) else entry;
          OverlayIdempotent(a, FileOf(t, name).value, Bare(a, start));
        }
      }
    }
  }

  lemma NamedFirst(e: Change, rest: seq<Change>, name: string)
    ensures Named([e] + rest, name) <==> Named(rest, name) || e == FileCreated(name) || e == FileWritten(name)
  {
    assert forall x: Change :: x in [e] + rest <==> x == e || x in rest;
  }

  /** A node that hides the difference of two records: each key in which they differ is set. */
  predicate Hides(a: Args, node: RecordNode, r: ServerRecord, r': ServerRecord) {
    && r.basic.mcsman == r'.basic.mcsman
    && match node
       case DropNode => r.basic.(drop := true) == r'.basic.(drop := true) && r.fml == r'.fml
       case MapNode(address, _, status, login, vars, fml) =>
         && (address.None? ==> r.basic.address == r'.basic.address)
         && (status.None? ==> r.basic.status == r'.basic.status)
         && (login.None? ==> r.basic.login == r'.basic.login)
         && r.basic.vars - vars.Keys == r'.basic.vars - vars.Keys
         && (fml.None? ==> r.fml == r'.fml)
  }

  lemma VarsHidden(base: map<string, string>, base': map<string, string>, vars: map<string, string>)
    ensures base + vars == base' + vars <==> base - vars.Keys == base' - vars.Keys
  {
    if base + vars == base' + vars {
      forall k ensures (k in base - vars.Keys <==> k in base' - vars.Keys)
                    && (k in base - vars.Keys ==> (base - vars.Keys)[k] == (base' - vars.Keys)[k]) {
        if k !in vars {
          assert k in base <==> k in base + vars;
          assert k in base' <==> k in base' + vars;
          assert k in base ==> (base + vars)[k] == base[k];
          assert k in base' ==> (base' + vars)[k] == base'[k];
        }
      }
    }
    if base - vars.Keys == base' - vars.Keys {
      forall k ensures (k in base + vars <==> k in base' + vars)
                    && (k in base + vars ==> (base + vars)[k] == (base' + vars)[k]) {
        if k !in vars {
          assert k in base <==> k in base - vars.Keys;
          assert k in base' <==> k in base' - vars.Keys;
          assert k in base ==> (base - vars.Keys)[k] == base[k];
          assert k in base' ==> (base' - vars.Keys)[k] == base'[k];
        }
      }
      assert base + vars == base' + vars;
    }
  }

  lemma HidesExactly(a: Args, node: RecordNode, r: ServerRecord, r': ServerRecord)
    ensures Applied(a, node, r) == Applied(a, node, r') <==> Hides(a, node, r, r')
  {
    hide FmlOf;
    if node.MapNode? {
      VarsHidden(r.basic.vars, r'.basic.vars, node.vars);
    }
  }

  /** The file of the name is there and read. */
  predicate FileRead(a: Args, t: Tree, name: string)
    requires WellFormed(t.main)
  {
    MainConf(a, t.main).distributed && name in t.dirs && t.dirs[name].Some?
  }

  function MainRecord(a: Args, t: Tree, name: string): Option<ServerRecord>
    requires WellFormed(t.main)
  {
    Lookup(MainConf(a, t.main).servers, name)
  }

  /** The main file's record of the name, if any, is hidden by the file. */
  predicate MainHidden(a: Args, u: Tree, name: string)
    requires WellFormed(u.main) && FileRead(a, u, name)
  {
    !InMain(u, name) || Hides(a, u.dirs[name].value, Bare(a, None), MainRecord(a, u, name).value)
  }

  /** Whether the batch leaves the name as a full load would, for the first event that sets it
      (`e`, None if there is none) and whether its file is named before that. */
  predicate NameAgrees(a: Args, t: Tree, u: Tree, e: Option<Change>, reread: bool, name: string)
    requires WellFormed(t.main) && t.main == u.main
  {
    var c := MainConf(a, t.main);
    var managed, there, read := Managed(a, name), name in u.dirs, FileRead(a, u, name);
    match e
    case Some(MainWritten) => true
    case Some(FileDeleted(_)) =>
      if read && reread then managed || MainHidden(a, u, name)
      else if read then managed && SetsNothing(a, u.dirs[name].value, McsmanRecord(a, name))
      else if managed && there then c.distributed
      else !InMain(u, name) && !(managed && c.distributed)
    case Some(DirCreated(_)) =>
      if read then reread || SetsNothing(a, u.dirs[name].value, McsmanRecord(a, name)) else there
    case Some(DirDeleted(_)) =>
      if read then reread && !managed && MainHidden(a, u, name)
      else !(managed && there) && !InMain(u, name)
    case _ =>
      var before := FullEntry(a, c.distributed, c.servers, t.dirs, name);
      if read && reread
      then Hides(a, u.dirs[name].value, Bare(a, before), Bare(a, Base(a, c.servers, name, true)))
      else before == FullEntry(a, c.distributed, c.servers, u.dirs, name)
  }

  function FirstOf(a: Args, events: seq<Change>, name: string): Option<Change> {
    var k := FirstSetting(a, events, name);
    if k < |events| then Some(events[k]) else None
  }

  /** A record of the main file is never mcsman's. */
  lemma MainNotManaged(a: Args, t: Tree, name: string)
    requires WellFormed(t.main)
    ensures MainRecord(a, t, name).Some? <==> InMain(t, name)
    ensures InMain(t, name) ==> MainRecord(a, t, name) != Some(McsmanRecord(a, name))
    ensures InMain(t, name) ==> !MainRecord(a, t, name).value.basic.mcsman
  {
  }

  /** A record that was not there cannot stand for mcsman's, not even under a file. */
  lemma ManagedShows(a: Args, node: RecordNode, name: string)
    ensures Applied(a, node, Bare(a, None)) != Applied(a, node, McsmanRecord(a, name))
  {
    HidesExactly(a, node, Bare(a, None), McsmanRecord(a, name));
  }

  /** What stands after the first setting event is what a full load makes of the name. */
  lemma StartAgrees(a: Args, u: Tree, e: Change, reread: bool, name: string)
    requires WellFormed(u.main) && Sets(a, e, name)
    ensures var start := EntryStep(a, u, e, name, None);
            var c := MainConf(a, u.main);
            ((if reread then EntryReread(a, u, name, start) else start)
              == FullEntry(a, c.distributed, c.servers, u.dirs, name)) <==>
              NameAgrees(a, u, u, Some(e), reread, name)
  {
    hide Applied, Hides, SetsNothing, McsmanRecord, MainConf;
    MainNotManaged(a, u, name);
    if FileRead(a, u, name) {
      var node := u.dirs[name].value;
      var c := MainConf(a, u.main);
      ManagedShows(a, node, name);
      SetsNothingExactly(a, node, McsmanRecord(a, name));
      OverlayIdempotent(a, node, Bare(a, Base(a, c.servers, name, true)));
      HidesExactly(a, node, Bare(a, None), Bare(a, MainRecord(a, u, name)));
    }
  }

  lemma NameAgreesExactly(a: Args, t: Tree, u: Tree, events: seq<Change>, name: string)
    requires WellFormed(t.main) && t.main == u.main
    ensures EntryAll(a, u, events, name, Lookup(Full(a, t).servers, name)) == Lookup(Full(a, u).servers, name) <==>
              NameAgrees(a, t, u, FirstOf(a, events, name),
                         Named(events[..FirstSetting(a, events, name)], name), name)
  {
    hide Applied, Hides, SetsNothing, McsmanRecord, MainConf, FullEntry, FullServers, EntryAll, EntryStep, Named,
         MainHidden;
    var c := MainConf(a, t.main);
    FullLookup(a, c.distributed, c.servers, t.dirs, name);
    FullLookup(a, c.distributed, c.servers, u.dirs, name);
    var entry := FullEntry(a, c.distributed, c.servers, t.dirs, name);
    EntryClosed(a, u, events, name, entry);
    var k := FirstSetting(a, events, name);
    var reread := Named(events[..k], name);
    if k < |events| {
      StartAgrees(a, u, events[k], reread, name);
    } else {
      NotSetAgrees(a, t, u, reread, name);
    }
  }

  lemma NotSetAgrees(a: Args, t: Tree, u: Tree, reread: bool, name: string)
    requires WellFormed(t.main) && t.main == u.main
    ensures var c := MainConf(a, t.main);
            var before := FullEntry(a, c.distributed, c.servers, t.dirs, name);
            ((if reread then EntryReread(a, u, name, before) else before)
              == FullEntry(a, c.distributed, c.servers, u.dirs, name)) <==>
              NameAgrees(a, t, u, None, reread, name)
  {
    hide Applied, Hides, SetsNothing, McsmanRecord, MainConf;
    if FileRead(a, u, name) {
      var c := MainConf(a, t.main);
      var before := FullEntry(a, c.distributed, c.servers, t.dirs, name);
      HidesExactly(a, u.dirs[name].value, Bare(a, before), Bare(a, Base(a, c.servers, name, true)));
    }
  }

  /** Following a batch is loading everything again if and only if each name meets the condition
      for the first event of the batch that sets it. */
  lemma BatchAgreesExactly(a: Args, t: Tree, u: Tree, events: seq<Change>)
    requires WellFormed(t.main) && t.main == u.main
    ensures FollowAll(a, Full(a, t), Full(a, t), events, u) == Full(a, u) <==>
              forall name :: NameAgrees(a, t, u, FirstOf(a, events, name),
                                        Named(events[..FirstSetting(a, events, name)], name), name)
  {
    hide NameAgrees, Lookup, EntryAll, FullServers, FollowAll, FirstOf, FirstSetting, Named;
    BatchByName(a, t, u, events);
    forall name
      ensures EntryAll(a, u, events, name, Lookup(Full(a, t).servers, name)) == Lookup(Full(a, u).servers, name) <==>
                NameAgrees(a, t, u, FirstOf(a, events, name),
                           Named(events[..FirstSetting(a, events, name)], name), name)
    {
      NameAgreesExactly(a, t, u, events, name);
    }
  }

  /** So a batch that starts with the main file always agrees. */
  lemma MainFirstAgrees(a: Args, t: Tree, u: Tree, events: seq<Change>)
    requires WellFormed(t.main) && t.main == u.main && events != [] && events[0].MainWritten?
    ensures FollowAll(a, Full(a, t), Full(a, t), events, u) == Full(a, u)
  {
    hide Full, FollowAll, MainConf, FullEntry;
    BatchAgreesExactly(a, t, u, events);
    forall name
      ensures NameAgrees(a, t, u, FirstOf(a, events, name),
                         Named(events[..FirstSetting(a, events, name)], name), name)
    {
      assert FirstOf(a, events, name) == Some(MainWritten);
    }
  }

  /** Deleting a directory with its file, in one batch: handled backwards, the file's event brings
      mcsman's record back for a directory that is gone. */
  lemma DeletedComesBack(a: Args, node: RecordNode)
    requires a.mcsman
    ensures var t, u := Lobby(map["lobby" := Some(node)]), Lobby(map[]);
            var c := Full(a, t);
            && "lobby" in FollowAll(a, c, c, [FileDeleted("lobby"), DirDeleted("lobby")], u).servers
            && "lobby" !in Full(a, u).servers
  {
    hide Applied, Follow, MainConf;
    var t, u := Lobby(map["lobby" := Some(node)]), Lobby(map[]);
    var events := [FileDeleted("lobby"), DirDeleted("lobby")];
    var c := MainConf(a, t.main);
    assert c.distributed && c.servers == map[] by { LobbyConf(a, t.dirs); }
    FollowAllEntry(a, Full(a, t), Full(a, t), events, u, "lobby");
    assert events[1..] == [DirDeleted("lobby")];
    FullLookup(a, c.distributed, c.servers, u.dirs, "lobby");
  }

  lemma LobbyConf(a: Args, dirs: map<string, Option<RecordNode>>)
    ensures MainConf(a, Lobby(dirs).main).distributed && MainConf(a, Lobby(dirs).main).servers == map[]
  {
  }

  // ---------- in place ----------

  method OverlayVars(base: map<string, string>, vars: map<string, string>) returns (r: map<string, string>)
    ensures r == base + vars
  {
    r := base;
    var todo := vars.Keys;
    while todo != {}
      invariant todo <= vars.Keys
      invariant r.Keys == base.Keys + (vars.Keys - todo)
      invariant forall k <- r :: if k in vars - todo then r[k] == vars[k] else k in base && r[k] == base[k]
    {
      var key :| key in todo;
      r := r[key := vars[key]];
      todo := todo - {key};
    }
  }

  /** fill_record, with the variables visited in any order. */
  method FillRecord(a: Args, node: RecordNode, r: BasicRecord) returns (record: BasicRecord)
    ensures record == Filled(a, node, r)
    ensures if node.DropNode? then record == r.(drop := true) else IsOver(a, node, r, record)
  {
    record := r;
    if node.DropNode? {
      record := record.(drop := true);
      return;
    }
    record := record.(drop := false);
    if node.address.Some? { record := record.(address := node.address.value); }
    record := record.(port := if node.port.Some? then node.port.value else a.defaultPort);
    if node.status.Some? { record := record.(status := node.status.value); }
    if node.login.Some? { record := record.(login := node.login.value); }
    var vars := OverlayVars(record.vars, node.vars);
    record := record.(vars := vars);
    FilledIs(a, node, r);
  }

  method ApplyNode(a: Args, node: RecordNode, r: ServerRecord) returns (record: ServerRecord)
    ensures record == Applied(a, node, r) && IsApplied(a, node, r, record)
  {
    AppliedIs(a, node, r);
    hide IsApplied;
    var basic := FillRecord(a, node, r.basic);
    record := ServerRecord(basic, r.fml);
    if node.MapNode? && node.fml.Some? {
      match node.fml.value {
        case FmlFlag(allowed) =>
          record := record.(fml := if allowed then None else Some(DefaultRecord(a)));
        case FmlDrop =>
          record := record.(fml := Some(DefaultRecord(a).(drop := true)));
        case FmlRecord(n) =>
          var fml := FillRecord(a, n, DefaultRecord(a));
          record := record.(fml := Some(fml));
      }
    }
  }

  /** The servers of the main file, visited in any order. */
  method LoadServers(a: Args, nodes: map<string, RecordNode>) returns (servers: map<string, ServerRecord>)
    ensures servers == MainServers(a, nodes)
  {
    hide Applied, Filled, DefaultRecord;
    servers := map[];
    var todo := nodes.Keys;
    while todo != {}
      invariant todo <= nodes.Keys
      invariant servers.Keys == nodes.Keys - todo
      invariant forall n <- servers :: servers[n] == MainServers(a, nodes)[n]
    {
      var name :| name in todo;
      var server := ApplyNode(a, nodes[name], ServerRecord(DefaultRecord(a), None));
      servers := servers[name := server];
      todo := todo - {name};
    }
  }

  /** A settings object that is loaded and then follows the directory. */
  class Store {
    const a: Args
    var distributed: bool
    var domain: string
    var defaultServer: ServerRecord
    var servers: map<string, ServerRecord>

    ghost function View(): Conf
      reads this
    {
      Conf(distributed, domain, defaultServer, servers)
    }

    constructor (a: Args)
      ensures this.a == a && View() == DefaultConf(a)
    {
      this.a := a;
      var d := DefaultConf(a);
      distributed, domain, defaultServer, servers := d.distributed, d.domain, d.defaultServer, d.servers;
    }

    method Reset()
      modifies this
      ensures View() == DefaultConf(a)
    {
      var d := DefaultConf(a);
      distributed, domain, defaultServer, servers := d.distributed, d.domain, d.defaultServer, d.servers;
    }

    /** operator>> on settings, onto the defaults. */
    method Load(main: MainNode)
      requires WellFormed(main) && View() == DefaultConf(a)
      modifies this
      ensures View() == MainConf(a, main)
      ensures distributed == if main.distributed.Some? then main.distributed.value else old(distributed)
      ensures main.domain.None? ==> domain == old(domain)
      ensures main.domain.Some? ==> Normalized(main.domain.value) == Some(domain)
      ensures main.defaultServer.None? ==> defaultServer == old(defaultServer)
      ensures main.defaultServer.Some? ==>
                IsApplied(a, main.defaultServer.value, old(defaultServer), defaultServer)
    {
      hide Applied, IsApplied, MainServers, Normalized;
      if main.distributed.Some? {
        distributed := main.distributed.value;
      }
      if main.domain.Some? {
        var ok, name := CheckDomain(main.domain.value);
        domain := name;
      }
      if main.defaultServer.Some? {
        defaultServer := ApplyNode(a, main.defaultServer.value, defaultServer);
      }
      servers := LoadServers(a, main.servers);
    }

    /** The body of the loop over the sub-directories. */
    method LoadDir(name: string, file: Option<RecordNode>)
      modifies this`servers
      ensures servers == DirLoaded(a, distributed, old(servers), name, file)
    {
      if a.mcsman && name != DEFAULT_DIR {
        servers := servers[name := McsmanRecord(a, name)];
      }
      if file.Some? && distributed {
        if name in servers {
          var record := ApplyNode(a, file.value, servers[name]);
          servers := servers[name := record];
        } else {
          var record := ApplyNode(a, file.value, ServerRecord(DefaultRecord(a), None));
          servers := servers[name := record];
        }
      }
    }

    /** load_all_conf: whatever order the sub-directories are listed in, the result is Full. */
    method LoadAll(t: Tree, order: seq<string>)
      requires WellFormed(t.main)
      requires (forall n :: n in order <==> n in t.dirs) && forall i, j :: 0 <= i < j < |order| ==> order[i] != order[j]
      modifies this
      ensures View() == Full(a, t)
    {
      hide FullServers, Applied, MainServers, DirLoaded, Listed, DefaultConf;
      Reset();
      Load(t.main);
      ghost var main := servers;
      NothingLoaded(a, distributed, main);
      for i := 0 to |order|
        invariant View() == MainConf(a, t.main).(servers := servers)
        invariant servers == FullServers(a, distributed, main, Listed(t.dirs, order[..i]))
      {
        LoadDir(order[i], t.dirs[order[i]]);
        ListedMore(t.dirs, order, i);
        DirStep(a, distributed, main, Listed(t.dirs, order[..i]), order[i], t.dirs[order[i]]);
      }
      assert order[..|order|] == order;
      ListedAll(t.dirs, order);
    }

    method Overlay(name: string, node: RecordNode)
      modifies this`servers
      ensures servers == Overlaid(a, old(servers), name, node)
    {
      if name in servers {
        var record := ApplyNode(a, node, servers[name]);
        servers := servers[name := record];
      } else {
        var record := ApplyNode(a, node, ServerRecord(DefaultRecord(a), None));
        servers := servers[name := record];
      }
    }

    /** One event of the watcher. */
    method OnChange(before: Conf, e: Change, t: Tree, order: seq<string>)
      requires WellFormed(t.main)
      requires (forall n :: n in order <==> n in t.dirs) && forall i, j :: 0 <= i < j < |order| ==> order[i] != order[j]
      modifies this
      ensures View() == Follow(a, old(View()), before, e, t)
    {
      hide Full, Applied;
      match e {
        case MainWritten =>
          LoadAll(t, order);
        case FileCreated(name) =>
          if distributed && FileOf(t, name).Some? {
            Overlay(name, FileOf(t, name).value);
          }
        case FileWritten(name) =>
          if distributed && FileOf(t, name).Some? {
            Overlay(name, FileOf(t, name).value);
          }
        case FileDeleted(name) =>
          servers := servers - {name};
          if before.distributed {
            if a.mcsman && name != DEFAULT_DIR {
              servers := servers[name := McsmanRecord(a, name)];
            }
          }
        case DirCreated(name) =>
          if a.mcsman && name != DEFAULT_DIR {
            servers := servers[name := McsmanRecord(a, name)];
          }
        case DirDeleted(name) =>
          if a.mcsman {
            servers := servers - {name};
          }
      }
    }

    /** A batch is handled from its last event to its first. */
    method OnBatch(events: seq<Change>, t: Tree, order: seq<string>)
      requires WellFormed(t.main)
      requires (forall n :: n in order <==> n in t.dirs) && forall i, j :: 0 <= i < j < |order| ==> order[i] != order[j]
      modifies this
      ensures View() == FollowAll(a, old(View()), old(View()), events, t)
    {
      hide Follow;
      var before := Conf(distributed, domain, defaultServer, servers);
      var i := |events|;
      assert events[i..] == [];
      while i > 0
        invariant 0 <= i <= |events|
        invariant View() == FollowAll(a, before, before, events[i..], t)
      {
        i := i - 1;
        assert events[i..][1..] == events[i + 1..];
        OnChange(before, events[i], t, order);
      }
      assert events[0..] == events;
    }
  }

  /** mcsman's record first, then the directory's own file. */
  function DirLoaded(a: Args, distributed: bool, servers: map<string, ServerRecord>, name: string,
                     file: Option<RecordNode>): map<string, ServerRecord> {
    var s := if Managed(a, name) then servers[name := McsmanRecord(a, name)] else servers;
    if file.Some? && distributed then Overlaid(a, s, name, file.value) else s
  }

  function Listed(dirs: map<string, Option<RecordNode>>, names: seq<string>): map<string, Option<RecordNode>> {
    map n | n in dirs && n in names :: dirs[n]
  }

  lemma ListedMore(dirs: map<string, Option<RecordNode>>, order: seq<string>, i: nat)
    requires i < |order| && order[i] in dirs && order[i] !in order[..i]
    ensures Listed(dirs, order[..i + 1]) == Listed(dirs, order[..i])[order[i] := dirs[order[i]]]
    ensures order[i] !in Listed(dirs, order[..i])
  {
    assert order[..i + 1] == order[..i] + [order[i]];
  }

  lemma ListedAll(dirs: map<string, Option<RecordNode>>, order: seq<string>)
    requires forall n :: n in order <==> n in dirs
    ensures Listed(dirs, order) == dirs
  {
  }

  lemma NothingLoaded(a: Args, distributed: bool, main: map<string, ServerRecord>)
    ensures forall order: seq<string>, dirs ::
              order == [] ==> FullServers(a, distributed, main, Listed(dirs, order)) == main
  {
    hide Applied, McsmanRecord;
    assert FullServers(a, distributed, main, map[]) == main;
    forall order: seq<string>, dirs | order == []
      ensures FullServers(a, distributed, main, Listed(dirs, order)) == main
    {
      assert Listed(dirs, order) == map[];
    }
  }

  /** One more directory changes the entry of its own name and no other. */
  lemma DirStep(a: Args, distributed: bool, main: map<string, ServerRecord>, dirs: map<string, Option<RecordNode>>,
                name: string, file: Option<RecordNode>)
    requires name !in dirs
    ensures DirLoaded(a, distributed, FullServers(a, distributed, main, dirs), name, file)
         == FullServers(a, distributed, main, dirs[name := file])
  {
    hide Applied, McsmanRecord, FullServers;
    var s, more := FullServers(a, distributed, main, dirs), dirs[name := file];
    forall k ensures Lookup(DirLoaded(a, distributed, s, name, file), k)
                  == Lookup(FullServers(a, distributed, main, more), k)
    {
      FullLookup(a, distributed, main, dirs, k);
      FullLookup(a, distributed, main, more, k);
      FullLookup(a, distributed, main, dirs, name);
      if k != name {
        SameDirSameEntry(a, distributed, main, dirs, more, k);
      }
    }
    SameServers(DirLoaded(a, distributed, s, name, file), FullServers(a, distributed, main, more));
  }
}
