/** Which record a handshake address selects: check_domain (src/settings.cpp:465-482) and
    portal::record (src/client.cpp:110-136). */
module Routing {
  import opened Records

  // ---------- check_domain ----------

  predicate DomainChar(c: char) {
    c == '.' || IsAlnum(c) || c == '_' || c == '-'
  }

  /** What check_domain leaves in its argument; None is config_exception. */
  function Normalized(d: string): (r: Option<string>) {
    if d == "" then Some("")
    else if d == "." then Some("")
    else if d[0] == '.' then None
    else if exists i :: 0 <= i < |d| && !DomainChar(d[i]) then None
    else if d[|d| - 1] == '.' then Some("." + d[..|d| - 1])
    else Some("." + d)
  }

  method CheckDomain(d: string) returns (ok: bool, name: string)
    ensures ok == Normalized(d).Some?
    ensures ok ==> Normalized(d) == Some(name)
  {
    ok, name := true, d;
    if name != "" {
      if name == "." {
        name := "";
      } else {
        if name[0] == '.' {
          return false, name;
        }
        for i := 0 to |name|
          invariant name == d
          invariant forall k :: 0 <= k < i ==> DomainChar(d[k])
        {
          var c := name[i];
          if c != '.' && !IsAlnum(c) && c != '_' && c != '-' {
            return false, name;
          }
        }
        if name[|name| - 1] == '.' {
          name := name[..|name| - 1];
        }
        name := "." + name;
      }
    }
  }

  // ---------- the name a handshake asks for ----------

  /** The characters before the first NUL. */
  function CString(s: string): (r: string)
    ensures r <= s && NUL !in r
    ensures NUL !in s ==> r == s
    ensures NUL in s ==> |r| < |s| && s[|r|] == NUL
  {
    if s == "" || s[0] == NUL then "" else [s[0]] + CString(s[1..])
  }

  /** strcmp(name.c_str() + at, domain.c_str()) == 0. One past the terminator lies the
      terminator of the string before pop_back, so the text there is empty. */
  predicate SuffixIs(name: string, at: nat, domain: string) {
    if at <= |name| then name[at..] == domain else domain == ""
  }

  function Resized(name: string, size: nat): string {
    if size <= |name| then name[..size] else name + seq(size - |name|, _ => NUL)
  }

  /** server_name after record(): the length taken before a trailing dot is popped is the one
      used to cut the domain off (src/client.cpp:112-121). */
  function RouteName(address: string, domain: string): string {
    var full := CString(address);
    var size := |full|;
    var name := if size > 0 && full[size - 1] == '.' then full[..size - 1] else full;
    if size > |domain| && SuffixIs(name, size - |domain|, domain)
    then Resized(name, size - |domain|)
    else name
  }

  function Entry(conf: Conf, name: string): ServerRecord {
    if name in conf.servers then conf.servers[name] else conf.defaultServer
  }

  function Pick(r: ServerRecord, fml: bool): BasicRecord {
    if fml && r.fml.Some? then r.fml.value else r.basic
  }

  function Record(conf: Conf, address: string): BasicRecord {
    Pick(Entry(conf, RouteName(address, conf.domain)), |CString(address)| != |address|)
  }

  datatype Route = Route(name: string, record: BasicRecord)

  // ---------- laws ----------

  lemma {:induction false} CStringStops(s: string, tail: string)
    requires NUL !in s
    ensures CString(s + [NUL] + tail) == s
  {
    if s == "" {
      assert (s + [NUL] + tail)[0] == NUL;
    } else {
      assert (s + [NUL] + tail)[1..] == s[1..] + [NUL] + tail;
      CStringStops(s[1..], tail);
    }
  }

  lemma NormalizedShape(d: string)
    requires Normalized(d).Some?
    ensures var nd := Normalized(d).value;
            NUL !in nd && (nd == "" || (|nd| > 1 && nd[0] == '.'))
  {
    if |d| > 0 && d != "." {
      assert forall i :: 0 <= i < |d| ==> DomainChar(d[i]);
    }
  }

  /** A name under an accepted domain is cut back to itself exactly when the address does not
      end in a dot. */
  lemma RoutesName(n: string, d: string)
    requires Normalized(d).Some? && n != "" && NUL !in n
    ensures var nd := Normalized(d).value; var a := n + nd;
            RouteName(a, nd) == n <==> a[|a| - 1] != '.'
  {
    NormalizedShape(d);
    var nd := Normalized(d).value;
    var a := n + nd;
    assert CString(a) == a;
    if a[|a| - 1] != '.' {
      assert a[|n|..] == nd && a[..|n|] == n;
    } else if nd == "" {
      assert RouteName(a, nd) == a[..|a| - 1] + [NUL];
      assert RouteName(a, nd)[|a| - 1] == NUL;
    } else {
      var cut := a[..|a| - 1];
      assert |cut[|n|..]| == |nd| - 1;
      assert RouteName(a, nd) == cut;
      assert |cut| == |n| + |nd| - 1 > |n|;
    }
  }

  /** So the entry of n serves `n.domain`, and the default entry serves names without one. */
  lemma RoutesToEntry(conf: Conf, n: string, d: string)
    requires Normalized(d) == Some(conf.domain) && n != "" && NUL !in n
    requires (n + conf.domain)[|n + conf.domain| - 1] != '.'
    ensures Record(conf, n + conf.domain)
         == (if n in conf.servers then conf.servers[n].basic else conf.defaultServer.basic)
  {
    NormalizedShape(d);
    RoutesName(n, d);
  }

  /** An FML marker behind a NUL changes only which half of the same entry is picked. */
  lemma MarkerPicksFml(conf: Conf, a: string, marker: string)
    requires NUL !in a
    ensures RouteName(a + [NUL] + marker, conf.domain) == RouteName(a, conf.domain)
    ensures Record(conf, a) == Entry(conf, RouteName(a, conf.domain)).basic
    ensures Record(conf, a + [NUL] + marker) == Pick(Entry(conf, RouteName(a, conf.domain)), true)
  {
    hide SuffixIs, Resized;
    CStringStops(a, marker);
    assert CString(a) == a;
  }

  /** The rooted form `n.domain.` does not reach the entry of n: with a domain the suffix is
      kept, without one the popped dot comes back as a NUL. */
  lemma RootedAddress(n: string, d: string)
    requires Normalized(d).Some? && n != "" && NUL !in n
    ensures var nd := Normalized(d).value;
            RouteName(n + nd + ".", nd) == if nd == "" then n + [NUL] else n + nd
  {
    NormalizedShape(d);
    var nd := Normalized(d).value;
    var a := n + nd + ".";
    assert CString(a) == a;
    var cut := a[..|a| - 1];
    assert cut == n + nd;
    if nd != "" {
      assert |cut[|n| + 1..]| == |nd| - 1;
    }
  }

  // ---------- spelled out ----------

  /** The characters of a domain. */
  const DOMAIN_CHARS: string := DIGITS + UPPER + LOWER + "._-"

  lemma DomainChars(c: char)
    ensures DomainChar(c) <==> c in DOMAIN_CHARS
  {
    AlnumExactly(c);
    hide IsAlnum;
    assert c in "._-" <==> c == '.' || c == '_' || c == '-';
  }

  /** Which domains are accepted, and that each becomes itself behind a dot, with or without a dot
      at its end. */
  lemma DomainSpelled(d: string)
    ensures Normalized(d).Some? <==>
              d == "" || d == "." || (d[0] != '.' && forall c <- d :: c in DOMAIN_CHARS)
    ensures d == "" || d == "." ==> Normalized(d) == Some("")
    ensures d != "" && d != "." && d[|d| - 1] != '.' && Normalized(d).Some? ==>
              Normalized(d) == Some("." + d) && Normalized(d + ".") == Some("." + d)
  {
    hide IsAlnum;
    if d != "" && d != "." {
      forall i | 0 <= i < |d| ensures DomainChar(d[i]) <==> d[i] in DOMAIN_CHARS {
        DomainChars(d[i]);
      }
      if d[0] != '.' && forall c <- d :: c in DOMAIN_CHARS {
        forall i | 0 <= i < |d| ensures DomainChar(d[i]) {
          assert d[i] in d;
        }
      }
      if d[0] != '.' && d[|d| - 1] != '.' && Normalized(d).Some? {
        var e := d + ".";
        forall i | 0 <= i < |e| ensures DomainChar(e[i]) {
        }
        assert e[..|e| - 1] == d && e[0] == d[0];
      }
    }
  }

  /** An address that is not under the domain is looked up as it is. */
  lemma ForeignName(a: string, domain: string)
    requires NUL !in a && a != "" && a[|a| - 1] != '.'
    requires |a| <= |domain| || a[|a| - |domain|..] != domain
    ensures RouteName(a, domain) == a
  {
    assert CString(a) == a;
  }

  /** Which of its two records an entry serves: the fml record for an address with a marker, if it
      has one, and the basic record otherwise. */
  lemma RecordSpelled(conf: Conf, n: string, d: string, marker: string)
    requires Normalized(d) == Some(conf.domain) && n != "" && NUL !in n
    requires (n + conf.domain)[|n + conf.domain| - 1] != '.'
    ensures var entry := if n in conf.servers then conf.servers[n] else conf.defaultServer;
            && Record(conf, n + conf.domain) == entry.basic
            && Record(conf, n + conf.domain + [NUL] + marker)
               == if entry.fml.Some? then entry.fml.value else entry.basic
  {
    hide Normalized, RouteName;
    RoutesToEntry(conf, n, d);
    NormalizedShape(d);
    RoutesName(n, d);
    MarkerPicksFml(conf, n + conf.domain, marker);
  }
}
