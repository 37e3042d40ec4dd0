/** The options as users write them: what each of them sets, and to what. */
module Options {
  import opened Records
  import opened Arguments

  // ---------- one argument ----------

  lemma OneItem(levels: string -> Option<Level>, f: Fields, i: Item)
    requires Spelled(i)
    ensures Parsed(levels, f, Render(i)) == Effect(levels, f, i)
  {
    hide First, Effect, Render;
    var args := Render(i);
    ItemRead(levels, f, i, []);
    assert args + [] == args;
    assert args[|args|..] == [];
  }

  lemma OneSetting(levels: string -> Option<Level>, f: Fields, o: Opt, value: string)
    requires Valued(o)
    ensures Parsed(levels, f, ["--" + Name(o) + "=" + value]) == WithValue(levels, f, o, value)
  {
    hide Parsed, WithValue;
    OneItem(levels, f, Setting(o, value, true));
  }

  /** The options that take the names of the configuration file and of the default directory. The
      other spelling, with the text as the next argument, means the same (SpellingIrrelevant). */
  lemma ConfOptions(levels: string -> Option<Level>, f: Fields, v: string)
    ensures Parsed(levels, f, ["--" + "confname" + "=" + v]) == Outcome(Done, f.(texts := f.texts.(confname := v)))
    ensures Parsed(levels, f, ["--" + "default-dir" + "=" + v]) == Outcome(Done, f.(texts := f.texts.(defaultDir := v)))
  {
    hide Parsed;
    OneSetting(levels, f, Confname, v);
    OneSetting(levels, f, DefaultDir, v);
  }

  /** Those that take the names of the files of texts. */
  lemma TextOptions(levels: string -> Option<Level>, f: Fields, v: string)
    ensures Parsed(levels, f, ["--" + "status" + "=" + v]) == Outcome(Done, f.(texts := f.texts.(status := v)))
    ensures Parsed(levels, f, ["--" + "login" + "=" + v]) == Outcome(Done, f.(texts := f.texts.(login := v)))
  {
    hide Parsed;
    OneSetting(levels, f, Status, v);
    OneSetting(levels, f, Login, v);
  }

  /** And those that take a host or domain. */
  lemma HostOptions(levels: string -> Option<Level>, f: Fields, v: string)
    ensures Parsed(levels, f, ["--" + "domain" + "=" + v]) == Outcome(Done, f.(texts := f.texts.(domain := v)))
    ensures Parsed(levels, f, ["--" + "address" + "=" + v]) == Outcome(Done, f.(texts := f.texts.(address := v)))
  {
    hide Parsed;
    OneSetting(levels, f, Domain, v);
    OneSetting(levels, f, Address, v);
  }

  /** The options that take a port. */
  lemma PortOptions(levels: string -> Option<Level>, f: Fields, n: nat)
    requires n <= 0x7FFF_FFFF
    ensures Parsed(levels, f, ["--" + "port" + "=" + Decimal(n)])
         == if n <= 65535 then Outcome(Done, f.(numbers := f.numbers.(port := n))) else Outcome(Rejected, f)
    ensures Parsed(levels, f, ["--" + "default-port" + "=" + Decimal(n)])
         == if n <= 65535 then Outcome(Done, f.(numbers := f.numbers.(defaultPort := n))) else Outcome(Rejected, f)
  {
    hide Parsed, Atoi, Decimal, Low;
    LowSmall(n);
    NumeralTaken(n, USHORT_MAX);
    OneSetting(levels, f, Port, Decimal(n));
    OneSetting(levels, f, DefaultPort, Decimal(n));
  }

  /** Those that take another number. `--timeout` sets the packet size. */
  lemma NumberOptions(levels: string -> Option<Level>, f: Fields, n: nat)
    requires n <= 0x7FFF_FFFF
    ensures Parsed(levels, f, ["--" + "max-packet-size" + "=" + Decimal(n)])
         == Outcome(Done, f.(numbers := f.numbers.(maxPacketSize := n)))
    ensures Parsed(levels, f, ["--" + "timeout" + "=" + Decimal(n)])
         == Outcome(Done, f.(numbers := f.numbers.(maxPacketSize := n)))
    ensures Parsed(levels, f, ["--" + "threads" + "=" + Decimal(n)])
         == Outcome(Done, f.(numbers := f.numbers.(threads := n)))
  {
    hide Parsed, Atoi, Decimal, Low;
    LowSmall(n);
    NumeralTaken(n, INT_MAX);
    NumeralTaken(n, UINT_MAX);
    OneSetting(levels, f, MaxPacketSize, Decimal(n));
    OneSetting(levels, f, Timeout, Decimal(n));
    OneSetting(levels, f, Threads, Decimal(n));
  }

  /** `--verb` takes one of the level names that the logger knows. */
  lemma VerbOption(levels: string -> Option<Level>, f: Fields, v: string)
    ensures Parsed(levels, f, ["--" + "verb" + "=" + v])
         == if levels(v).Some? then Outcome(Done, f.(verb := levels(v).value)) else Outcome(Rejected, f)
  {
    hide Parsed;
    OneSetting(levels, f, Verb, v);
  }

  lemma OneSwitch(levels: string -> Option<Level>, f: Fields, o: Opt)
    requires !Valued(o)
    ensures Parsed(levels, f, ["--" + Name(o)]) == Outcome(Done, WithSwitch(f, o))
  {
    hide Parsed, WithSwitch, Name;
    OneItem(levels, f, Switch(o, ""));
    assert "--" + Name(o) + "" == "--" + Name(o);
  }

  lemma OneLetter(levels: string -> Option<Level>, f: Fields, c: char)
    requires Lettered(c).Some?
    ensures Parsed(levels, f, [['-', c]]) == Outcome(Done, WithSwitch(f, Lettered(c).value))
  {
    hide Parsed, WithSwitch;
    assert [c][0] == c && [c][1..] == "";
    assert WithLetters(f, [c]) == WithLetters(WithSwitch(f, Lettered(c).value), "");
    OneItem(levels, f, Letters([c]));
    assert "-" + [c] == ['-', c];
  }

  /** The switches for what is served, by name and by letter. */
  lemma ServerSwitches(levels: string -> Option<Level>, f: Fields)
    ensures Parsed(levels, f, ["--" + "mcsman"]) == Parsed(levels, f, [['-', 'm']])
         == Outcome(Done, f.(switches := f.switches.(mcsman := true)))
    ensures Parsed(levels, f, ["--" + "install"]) == Parsed(levels, f, [['-', 'i']])
         == Outcome(Done, f.(switches := f.switches.(install := true)))
    ensures Parsed(levels, f, ["--" + "distributed"]) == Parsed(levels, f, [['-', 'd']])
         == Outcome(Done, f.(switches := f.switches.(distributed := true)))
  {
    hide Parsed;
    OneSwitch(levels, f, Mcsman);
    OneLetter(levels, f, 'm');
    OneSwitch(levels, f, Install);
    OneLetter(levels, f, 'i');
    OneSwitch(levels, f, Distributed);
    OneLetter(levels, f, 'd');
  }

  /** Those that only ask for something. */
  lemma AskingSwitches(levels: string -> Option<Level>, f: Fields)
    ensures Parsed(levels, f, ["--" + "version"]) == Parsed(levels, f, [['-', 'v']])
         == Outcome(Done, f.(switches := f.switches.(version := true)))
    ensures Parsed(levels, f, ["--" + "help"]) == Parsed(levels, f, [['-', 'h']])
         == Outcome(Done, f.(switches := f.switches.(help := true)))
  {
    hide Parsed;
    OneSwitch(levels, f, Version);
    OneLetter(levels, f, 'v');
    OneSwitch(levels, f, Help);
    OneLetter(levels, f, 'h');
  }

  /** And those for the program, of which the last has no letter. */
  lemma ProgramSwitches(levels: string -> Option<Level>, f: Fields)
    ensures Parsed(levels, f, ["--" + "cli"]) == Parsed(levels, f, [['-', 'c']])
         == Outcome(Done, f.(switches := f.switches.(cli := true)))
    ensures Parsed(levels, f, ["--" + "no-dns-cache"]) == Outcome(Done, f.(switches := f.switches.(noDnsCache := true)))
  {
    hide Parsed;
    OneSwitch(levels, f, Cli);
    OneLetter(levels, f, 'c');
    OneSwitch(levels, f, NoDnsCache);
  }

  // ---------- all names ----------

  const SETTINGS: seq<string> :=
    ["confname", "status", "login", "default-dir", "domain", "address", "port", "default-port",
     "max-packet-size", "timeout", "threads", "verb"]

  const SWITCHES: seq<string> :=
    ["mcsman", "install", "distributed", "version", "help", "cli", "no-dns-cache"]

  lemma NameListed(o: Opt)
    ensures if Valued(o) then Name(o) in SETTINGS else Name(o) in SWITCHES
  {
    assert SETTINGS[0] == "confname" && SETTINGS[1] == "status" && SETTINGS[2] == "login";
  }

  lemma SettingNamed(s: string) returns (o: Opt)
    requires s in SETTINGS
    ensures Valued(o) && Name(o) == s
  {
    var opts := [Confname, Status, Login, DefaultDir, Domain, Address, Port, DefaultPort,
                 MaxPacketSize, Timeout, Threads, Verb];
    var i :| 0 <= i < |SETTINGS| && SETTINGS[i] == s;
    o := opts[i];
  }

  /** Everything else: an unknown name is refused, a setting without its value is reported missing,
      and an argument without a dash is kept. */
  lemma OtherArguments(levels: string -> Option<Level>, f: Fields, s: string)
    ensures !("-" <= s) ==> Parsed(levels, f, [s]) == Outcome(Done, f.(other := f.other + [s]))
    ensures Before(s) !in SETTINGS && Before(s) !in SWITCHES ==> Parsed(levels, f, ["--" + s]) == Outcome(Rejected, f)
    ensures s in SETTINGS ==> Parsed(levels, f, ["--" + s]) == Outcome(Missing, f)
  {
    hide Before, WithValue, WithSwitch, Chosen, Name, IsArgName, WithLetters;
    assert ("--" + s)[2..] == s && "--" <= "--" + s;
    if Before(s) !in SETTINGS && Before(s) !in SWITCHES {
      if Chosen(s).Some? {
        var o := Chosen(s).value;
        ChosenNamed(s);
        PlainName(o);
        IsArgNameExactly(s, Name(o));
        NameListed(o);
        assert false;
      }
    }
    if s in SETTINGS {
      var o := SettingNamed(s);
      OptionRead(o, "");
      assert "--" + Name(o) + "" == "--" + s;
    }
  }

  // ---------- numerals ----------

  /** A digit behind a numeral. */
  lemma {:induction false} NumeralGrows(s: string, n: nat)
    requires (forall c <- s :: c in DIGITS) && n < 10
    ensures Scan("", 0) == 0 && Scan(s + [DIGITS[n]], 0) == 10 * Scan(s, 0) + n
  {
    Records.Letters(n);
    forall c <- s ensures IsDigit(c) {
      DigitsOnly(c);
    }
    var last := [DIGITS[n]];
    ScanSplits(s, last, 0);
    assert last[1..] == "";
  }

  lemma DigitsOnly(c: char)
    ensures IsDigit(c) <==> c in DIGITS
  {
    if IsDigit(c) {
      Records.Letters(c as int - '0' as int);
    }
    forall i | 0 <= i < 10 && DIGITS[i] == c ensures IsDigit(c) {
      Records.Letters(i);
    }
  }

  /** What atoi reads: white space, then a sign or none, then digits; what follows is ignored. */
  lemma NumeralRead(space: string, digits: string, rest: string)
    requires (forall c <- space :: IsSpace(c)) && (forall c <- digits :: c in DIGITS)
    requires rest != "" ==> rest[0] !in DIGITS
    requires digits == "" ==> rest == "" || (!IsSpace(rest[0]) && rest[0] != '-' && rest[0] != '+')
    ensures var n: int := Scan(digits, 0);
            && Signed(SkipSpace(space + (digits + rest))) == n
            && Signed(SkipSpace(space + ("+" + (digits + rest)))) == n
            && Signed(SkipSpace(space + ("-" + (digits + rest)))) == -n
  {
    hide IsSpace, IsDigit;
    var t := digits + rest;
    ScanStops(digits, rest);
    SignNoSpace();
    if t != "" && digits != "" {
      assert t[0] == digits[0] && digits[0] in digits;
    }
    SkipsSpace(space, t);
    SkipsSpace(space, "+" + t);
    SkipsSpace(space, "-" + t);
    assert ("+" + t)[1..] == t && ("-" + t)[1..] == t;
  }

  /** And what becomes of it: the int that is the same modulo 2^32. */
  lemma WordKept(x: int)
    ensures ToInt(x) % 0x1_0000_0000 == x % 0x1_0000_0000 && -0x8000_0000 <= ToInt(x) <= 0x7FFF_FFFF
  {
    var w := x % WORD;
    assert (w - WORD) % WORD == w;
  }

  lemma SignNoSpace()
    ensures !IsSpace('+') && !IsSpace('-') && '+' !in DIGITS && '-' !in DIGITS
    ensures forall c <- DIGITS :: !IsSpace(c)
  {
  }

  lemma ScanStops(digits: string, rest: string)
    requires (forall c <- digits :: c in DIGITS) && (rest != "" ==> rest[0] !in DIGITS)
    ensures Scan(digits + rest, 0) == Scan(digits, 0)
  {
    forall c <- digits ensures IsDigit(c) {
      DigitsOnly(c);
    }
    if rest != "" {
      DigitsOnly(rest[0]);
    }
    ScanSplits(digits, rest, 0);
  }

  lemma {:induction false} SkipsSpace(space: string, t: string)
    requires (forall c <- space :: IsSpace(c)) && (t != "" ==> !IsSpace(t[0]))
    ensures SkipSpace(space + t) == t
  {
    hide IsSpace;
    if space == "" {
      assert space + t == t;
    } else {
      assert space[0] in space && (space + t)[1..] == space[1..] + t;
      SkipsSpace(space[1..], t);
    }
  }

  // ---------- a command line ----------

  lemma Then(levels: string -> Option<Level>, f: Fields, i: Item, rest: seq<string>)
    requires Spelled(i) && Effect(levels, f, i).kind.Done?
    ensures Parsed(levels, f, Render(i) + rest) == Parsed(levels, Effect(levels, f, i).fields, rest)
  {
    hide First, Effect, Render, Spelled;
    ItemRead(levels, f, i, rest);
    assert (Render(i) + rest)[|Render(i)|..] == rest;
  }

  lemma LetterThen(levels: string -> Option<Level>, f: Fields, rest: seq<string>)
    ensures Parsed(levels, f, ["-m"] + rest) == Parsed(levels, f.(switches := f.switches.(mcsman := true)), rest)
  {
    hide Parsed;
    assert "m"[0] == 'm' && "m"[1..] == "" && "-" + "m" == "-m";
    Then(levels, f, Letters("m"), rest);
  }

  lemma ConfnameThen(levels: string -> Option<Level>, f: Fields, rest: seq<string>)
    ensures Parsed(levels, f, ["--confname=lol.yml"] + rest)
         == Parsed(levels, f.(texts := f.texts.(confname := "lol.yml")), rest)
  {
    hide Parsed;
    assert "--" + "confname" + "=" + "lol.yml" == "--confname=lol.yml";
    Then(levels, f, Setting(Confname, "lol.yml", true), rest);
  }

  lemma DirectoryThen(levels: string -> Option<Level>, f: Fields, rest: seq<string>)
    ensures Parsed(levels, f, ["--default-dir", "kek"] + rest)
         == Parsed(levels, f.(texts := f.texts.(defaultDir := "kek")), rest)
  {
    hide Parsed;
    assert "--" + "default-dir" == "--default-dir";
    Then(levels, f, Setting(DefaultDir, "kek", false), rest);
  }

  lemma PortArgument(levels: string -> Option<Level>, f: Fields)
    ensures Parsed(levels, f, ["--port=255"]) == Outcome(Done, f.(numbers := f.numbers.(port := 255)))
  {
    hide Parsed, Decimal;
    Decimal255();
    PortOptions(levels, f, 255);
    assert "--" + "port" + "=" + "255" == "--port=255";
  }

  lemma Decimal255()
    ensures Decimal(255) == "255"
  {
    assert Decimal(2) == "2" && Decimal(25) == "25";
  }

  /** `-m --confname=lol.yml --default-dir kek --port=255`. */
  lemma SampleArguments(levels: string -> Option<Level>, f: Fields)
    ensures Parsed(levels, f, ["-m"] + (["--confname=lol.yml"] + (["--default-dir", "kek"] + ["--port=255"])))
         == Outcome(Done, f.(switches := f.switches.(mcsman := true),
                             texts := f.texts.(confname := "lol.yml", defaultDir := "kek"),
                             numbers := f.numbers.(port := 255)))
  {
    hide Parsed;
    var g := f.(switches := f.switches.(mcsman := true));
    var h := g.(texts := g.texts.(confname := "lol.yml"));
    LetterThen(levels, f, ["--confname=lol.yml"] + (["--default-dir", "kek"] + ["--port=255"]));
    ConfnameThen(levels, g, ["--default-dir", "kek"] + ["--port=255"]);
    DirectoryThen(levels, h, ["--port=255"]);
    PortArgument(levels, h.(texts := h.texts.(defaultDir := "kek")));
  }
}
