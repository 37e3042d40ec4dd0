/** What loading makes of each key of the files, from the nodes and the program arguments: which
    value ends up in which record, and which record then serves an address. */
module Loaded {
  import opened Records
  import opened Routing
  import opened Settings

  // ---------- the default server and the domain ----------

  /** The default server of a full load: each key of the main file's `default` section that is set,
      and for each other key what the arguments say; but a section that sets no port means the
      default port, and one that is there at all means a record that is not dropped. */
  lemma DefaultServerLoaded(a: Args, t: Tree)
    requires WellFormed(t.main)
    ensures var r, d := Full(a, t).defaultServer, t.main.defaultServer;
            var status, login := "./" + a.defaultDir + "/" + a.status, "./" + a.defaultDir + "/" + a.login;
            && (d.None? ==>
                  r == ServerRecord(BasicRecord("", a.defaultPort, status, login, a.drop, false, map[]), None))
            && (d.Some? ==>
                  && r.basic.address == (if d.value.address.Some? then d.value.address.value else "")
                  && r.basic.port == (if d.value.port.Some? then d.value.port.value else a.defaultPort)
                  && r.basic.status == (if d.value.status.Some? then d.value.status.value else status)
                  && r.basic.login == (if d.value.login.Some? then d.value.login.value else login)
                  && !r.basic.drop && !r.basic.mcsman && r.basic.vars == d.value.vars
                  && (d.value.fml.None? ==> r.fml == None)
                  && (d.value.fml.Some? ==> IsFml(a, d.value.fml.value, r.fml)))
  {
    hide IsFml, FmlOf, FullServers, MainServers, Normalized;
    if t.main.defaultServer.Some? {
      AppliedIs(a, t.main.defaultServer.value, DefaultConf(a).defaultServer);
      assert map[] + t.main.defaultServer.value.vars == t.main.defaultServer.value.vars;
    }
  }

  /** The domain of a full load: the main file's behind a dot, without a dot at its end, or the
      arguments' as it is. */
  lemma DomainLoaded(a: Args, t: Tree)
    requires WellFormed(t.main)
    ensures var c, d := Full(a, t), t.main.domain;
            && (d.None? ==> c.domain == a.domain)
            && (d == Some("") || d == Some(".") ==> c.domain == "")
            && (d.Some? && d.value != "" && d.value != "." ==>
                  c.domain == "." + if d.value[|d.value| - 1] == '.' then d.value[..|d.value| - 1] else d.value)
    ensures var c, d := Full(a, t), t.main.distributed;
            c.distributed == if d.Some? then d.value else a.distributed
  {
    hide FullServers, MainServers, Applied;
    if t.main.domain.Some? {
      DomainSpelled(t.main.domain.value);
    }
  }

  // ---------- the servers ----------

  /** The record of each name in a full load. A directory that is not "default" has mcsman's record
      under `--mcsman`; otherwise the main file's keys over an empty record, if it names it. A
      directory's own file goes over that when files are read. */
  lemma ServerLoaded(a: Args, t: Tree, name: string)
    requires WellFormed(t.main)
    ensures var c := Full(a, t);
            var empty := ServerRecord(BasicRecord("", a.defaultPort, "", "", false, false, map[]), None);
            var managed := name in t.dirs && a.mcsman && name != "default";
            var named := name in t.main.servers;
            var own := name in t.dirs && t.dirs[name].Some? && c.distributed;
            && (name in c.servers <==> managed || named || own)
            && (managed && !own ==>
                  c.servers[name] == ServerRecord(BasicRecord(name + "-mcs", a.defaultPort,
                                                              "./" + name + "/" + a.status,
                                                              "./" + name + "/" + a.login,
                                                              false, true, map["name" := name]), None))
            && (managed && own ==>
                  IsApplied(a, t.dirs[name].value,
                            ServerRecord(BasicRecord(name + "-mcs", a.defaultPort, "./" + name + "/" + a.status,
                                                     "./" + name + "/" + a.login, false, true,
                                                     map["name" := name]), None), c.servers[name]))
            && (!managed && named && !own ==> IsApplied(a, t.main.servers[name], empty, c.servers[name]))
            && (!managed && named && own ==>
                  exists m :: IsApplied(a, t.main.servers[name], empty, m)
                           && IsApplied(a, t.dirs[name].value, m, c.servers[name]))
            && (!managed && !named && own ==> IsApplied(a, t.dirs[name].value, empty, c.servers[name]))
  {
    hide Applied, IsApplied, FullServers, Normalized, DefaultConf;
    var c := MainConf(a, t.main);
    FullLookup(a, c.distributed, c.servers, t.dirs, name);
    var empty := ServerRecord(BasicRecord("", a.defaultPort, "", "", false, false, map[]), None);
    if name in t.main.servers {
      AppliedIs(a, t.main.servers[name], empty);
    }
    if name in t.dirs && t.dirs[name].Some? {
      AppliedIs(a, t.dirs[name].value, Bare(a, Base(a, c.servers, name, true)));
    }
  }

  // ---------- end to end ----------

  /** An address under no name that was loaded is served as the main file's default section and the
      arguments say; with a marker behind a NUL, as its `fml` key says, if it has one. */
  lemma UnknownServed(a: Args, t: Tree, n: string, d: string, marker: string)
    requires WellFormed(t.main) && t.main.domain == Some(d) && n != "" && NUL !in n
    requires n !in t.main.servers && n !in t.dirs
    requires var x := n + Full(a, t).domain; x[|x| - 1] != '.'
    ensures var s, r := t.main.defaultServer, Record(Full(a, t), n + Full(a, t).domain);
            && r.address == (if s.Some? && s.value.address.Some? then s.value.address.value else "")
            && r.port == (if s.Some? && s.value.port.Some? then s.value.port.value else a.defaultPort)
            && r.status == (if s.Some? && s.value.status.Some? then s.value.status.value
                            else "./" + a.defaultDir + "/" + a.status)
            && r.login == (if s.Some? && s.value.login.Some? then s.value.login.value
                           else "./" + a.defaultDir + "/" + a.login)
            && r.drop == (s.None? && a.drop) && !r.mcsman
            && r.vars == (if s.Some? then s.value.vars else map[])
    ensures var s, x := t.main.defaultServer, n + Full(a, t).domain;
            var r := Record(Full(a, t), x + [NUL] + marker);
            if s.Some? && s.value.fml.Some? && s.value.fml.value != FmlFlag(true)
            then IsFml(a, s.value.fml.value, Some(r)) else r == Record(Full(a, t), x)
  {
    hide Full, IsFml, Record, IsOver, Normalized;
    DefaultServerLoaded(a, t);
    DomainOf(a, t, d);
    ServerLoaded(a, t, n);
    RecordSpelled(Full(a, t), n, d, marker);
    if t.main.defaultServer.Some? && t.main.defaultServer.value.fml.Some? {
      FmlThere(a, t.main.defaultServer.value.fml.value, Full(a, t).defaultServer.fml);
    }
  }

  lemma DomainOf(a: Args, t: Tree, d: string)
    requires WellFormed(t.main) && t.main.domain == Some(d)
    ensures Normalized(d) == Some(Full(a, t).domain)
  {
    hide FullServers, MainServers, Applied;
  }

  lemma FmlThere(a: Args, f: FmlNode, fml: Option<BasicRecord>)
    requires IsFml(a, f, fml)
    ensures fml.Some? <==> f != FmlFlag(true)
  {
  }
}
