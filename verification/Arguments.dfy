/** Program arguments (src/prog_args.cpp). */
module Arguments {
  import opened Records

  datatype Level = Silent | Fatal | Error | Warning | Info | Verbose | Debug

  /** The values of the fields of arguments_t. */
  datatype Fields = Fields(texts: Texts, switches: Switches, numbers: Numbers, verb: Level, other: seq<string>)

  datatype Texts = Texts(
    confname: string, status: string, login: string, defaultDir: string, domain: string, address: string)

  datatype Switches = Switches(
    mcsman: bool, install: bool, distributed: bool, drop: bool,
    version: bool, help: bool, cli: bool, noDnsCache: bool)

  datatype Numbers = Numbers(port: int, defaultPort: int, maxPacketSize: int, timeout: int, threads: int)

  datatype Opt =
    | Confname | Status | Login | DefaultDir | Domain | Mcsman | Install | Distributed
    | Address | Port | DefaultPort | MaxPacketSize | Timeout | Version | Help | Cli | NoDnsCache | Threads | Verb

  /** How parsing ends: at the end of the list, with an argument that is refused, or with an
      option that requires a value as the last argument. */
  datatype Kind = Done | Rejected | Missing

  datatype Outcome = Outcome(kind: Kind, fields: Fields)

  // ---------- numbers ----------

  const WORD: int := 0x1_0000_0000
  const INT_MAX: int := 0x7FFF_FFFF
  const LONG_MAX: int := 0x7FFF_FFFF_FFFF_FFFF
  const USHORT_MAX: int := 0xFFFF
  const UINT_MAX: int := 0xFFFF_FFFF

  predicate IsDigit(c: char) {
    '0' <= c <= '9'
  }

  function SkipSpace(s: string): string {
    if s != "" && IsSpace(s[0]) then SkipSpace(s[1..]) else s
  }

  function Digit(c: char): (r: nat)
    requires IsDigit(c)
    ensures r <= 9
  {
    (c as int) - ('0' as int)
  }

  function Scan(s: string, sum: nat): nat {
    if s != "" && IsDigit(s[0]) then Scan(s[1..], 10 * sum + Digit(s[0])) else sum
  }

  function Signed(t: string): int {
    if t != "" && t[0] == '-' then
      var n: int := Scan(t[1..], 0);
      -n
    else
      Scan(if t != "" && t[0] == '+' then t[1..] else t, 0)
  }

  /** The number at the start of a text, clamped to a 64-bit long. */
  function Strtol(s: string): int {
    var x := Signed(SkipSpace(s));
    if x > LONG_MAX then LONG_MAX else if x < -LONG_MAX - 1 then -LONG_MAX - 1 else x
  }

  /** The low 32 bits as a signed int. */
  function ToInt(x: int): int {
    var w := x % WORD;
    if w <= INT_MAX then w else w - WORD
  }

  /** std::atoi, which keeps the low 32 bits of what strtol reads. */
  function Atoi(s: string): int {
    ToInt(Strtol(s))
  }

  /** assert_arg_range. */
  function InRange(x: int, max: int): Option<int> {
    if x < 0 || x > max then None else Some(x)
  }

  function Decimal(n: nat): (s: string)
    ensures s != "" && forall c <- s :: IsDigit(c)
  {
    (if n < 10 then "" else Decimal(n / 10)) + [('0' as int + n % 10) as char]
  }

  lemma {:induction false} ScanSplits(a: string, b: string, sum: nat)
    requires forall c <- a :: IsDigit(c)
    ensures Scan(a + b, sum) == Scan(b, Scan(a, sum))
  {
    if a == "" {
      assert a + b == b;
    } else {
      assert (a + b)[1..] == a[1..] + b;
      ScanSplits(a[1..], b, 10 * sum + Digit(a[0]));
    }
  }

  lemma {:induction false} ScanDecimal(n: nat)
    ensures Scan(Decimal(n), 0) == n
  {
    if n < 10 {
      assert Decimal(n)[1..] == "";
    } else {
      var last := [('0' as int + n % 10) as char];
      ScanDecimal(n / 10);
      ScanSplits(Decimal(n / 10), last, 0);
      assert last[1..] == "";
    }
  }

  function Low(n: nat): nat {
    n % WORD
  }

  lemma LowSmall(n: nat)
    ensures n <= INT_MAX ==> Low(n) == n
  {
  }

  /** What the range check makes of a decimal numeral: the low 32 bits are all it sees. */
  lemma NumeralTaken(n: nat, max: nat)
    ensures InRange(Atoi(Decimal(n)), max)
         == if n <= LONG_MAX && Low(n) <= INT_MAX && Low(n) <= max then Some(Low(n)) else None
  {
    ScanDecimal(n);
    var s := Decimal(n);
    assert s[0] in s;
    assert SkipSpace(s) == s;
    assert Strtol(s) == if n > LONG_MAX then LONG_MAX else n;
    assert ToInt(LONG_MAX) == -1;
  }

  /** The check refuses exactly the numbers over the maximum unless one of them wraps into the
      range (or, for `threads`, the maximum itself is out of reach of an int). */
  lemma RangeCheckExactly(n: nat, max: nat)
    ensures InRange(Atoi(Decimal(n)), max) == (if n <= max then Some(n) else None)
       <==> if n <= max then n <= INT_MAX
            else n > LONG_MAX || Low(n) > INT_MAX || Low(n) > max
  {
    hide Atoi, Decimal, Low;
    NumeralTaken(n, max);
    LowSmall(n);
  }

  /** For one, `--port=4294967376` listens on port 80. */
  lemma PortWraps()
    ensures InRange(Atoi(Decimal(4294967376)), USHORT_MAX) == Some(80)
  {
    NumeralTaken(4294967376, USHORT_MAX);
  }

  // ---------- names and values ----------

  function Name(o: Opt): string {
    match o
    case Confname => "confname"
    case Status => "status"
    case Login => "login"
    case DefaultDir => "default-dir"
    case Domain => "domain"
    case Mcsman => "mcsman"
    case Install => "install"
    case Distributed => "distributed"
    case Address => "address"
    case Port => "port"
    case DefaultPort => "default-port"
    case MaxPacketSize => "max-packet-size"
    case Timeout => "timeout"
    case Version => "version"
    case Help => "help"
    case Cli => "cli"
    case NoDnsCache => "no-dns-cache"
    case Threads => "threads"
    case Verb => "verb"
  }

  predicate Valued(o: Opt) {
    !(o.Mcsman? || o.Install? || o.Distributed? || o.Version? || o.Help? || o.Cli? || o.NoDnsCache?)
  }

  /** is_arg_name. */
  predicate IsArgName(arg: string, name: string) {
    arg == name || (name <= arg && |arg| > |name| && arg[|name|] == '=')
  }

  /** The text before the first '='. */
  function Before(s: string): (r: string)
    ensures r <= s && '=' !in r
    ensures '=' !in s ==> r == s
    ensures '=' in s ==> |r| < |s| && s[|r|] == '='
  {
    if s == "" || s[0] == '=' then "" else [s[0]] + Before(s[1..])
  }

  function After(s: string): string
    requires '=' in s
  {
    s[|Before(s)| + 1..]
  }

  lemma {:induction false} BeforeIs(name: string, rest: string)
    requires '=' !in name && (rest == "" || rest[0] == '=')
    ensures Before(name + rest) == name
  {
    if name == "" {
      assert name + rest == rest;
    } else {
      assert (name + rest)[1..] == name[1..] + rest;
      BeforeIs(name[1..], rest);
    }
  }

  lemma IsArgNameExactly(arg: string, name: string)
    requires '=' !in name
    ensures IsArgName(arg, name) <==> Before(arg) == name
  {
    if IsArgName(arg, name) {
      BeforeIs(name, arg[|name|..]);
      assert name + arg[|name|..] == arg;
    }
  }

  lemma PlainName(o: Opt)
    ensures '=' !in Name(o)
  {
  }

  lemma NamesDiffer(o: Opt, p: Opt)
    requires o != p
    ensures Name(o) != Name(p)
  {
    var n, m := Name(o), Name(p);
    assert |n| != |m| || n[0] != m[0] || n[1] != m[1];
  }

  /** No argument is two options, so the order of the branches does not matter. */
  lemma OneOption(arg: string, o: Opt, p: Opt)
    requires IsArgName(arg, Name(o)) && IsArgName(arg, Name(p))
    ensures o == p
  {
    hide Name;
    PlainName(o);
    PlainName(p);
    IsArgNameExactly(arg, Name(o));
    IsArgNameExactly(arg, Name(p));
    if o != p {
      NamesDiffer(o, p);
    }
  }

  ghost function Chosen(arg: string): Option<Opt> {
    if exists o :: IsArgName(arg, Name(o)) then
      var o :| IsArgName(arg, Name(o));
      Some(o)
    else
      None
  }

  lemma ChosenIs(arg: string, o: Opt)
    requires IsArgName(arg, Name(o))
    ensures Chosen(arg) == Some(o)
  {
    hide Name, IsArgName;
    var p := Chosen(arg).value;
    OneOption(arg, o, p);
  }

  // ---------- the meaning of a list ----------

  function WithNumber(f: Fields, o: Opt, x: int): Fields {
    match o
    case Port => f.(numbers := f.numbers.(port := x))
    case DefaultPort => f.(numbers := f.numbers.(defaultPort := x))
    case MaxPacketSize => f.(numbers := f.numbers.(maxPacketSize := x))
    case Timeout => f.(numbers := f.numbers.(maxPacketSize := x))
    case Threads => f.(numbers := f.numbers.(threads := x))
    case _ => f
  }

  function MaxOf(o: Opt): nat {
    match o
    case Port => USHORT_MAX
    case DefaultPort => USHORT_MAX
    case Threads => UINT_MAX
    case _ => INT_MAX
  }

  function WithText(f: Fields, o: Opt, value: string): Fields {
    match o
    case Confname => f.(texts := f.texts.(confname := value))
    case Status => f.(texts := f.texts.(status := value))
    case Login => f.(texts := f.texts.(login := value))
    case DefaultDir => f.(texts := f.texts.(defaultDir := value))
    case Domain => f.(texts := f.texts.(domain := value))
    case Address => f.(texts := f.texts.(address := value))
    case _ => f
  }

  function WithSwitch(f: Fields, o: Opt): Fields {
    match o
    case Mcsman => f.(switches := f.switches.(mcsman := true))
    case Install => f.(switches := f.switches.(install := true))
    case Distributed => f.(switches := f.switches.(distributed := true))
    case Version => f.(switches := f.switches.(version := true))
    case Help => f.(switches := f.switches.(help := true))
    case Cli => f.(switches := f.switches.(cli := true))
    case NoDnsCache => f.(switches := f.switches.(noDnsCache := true))
    case _ => f
  }

  predicate Numeric(o: Opt) {
    o.Port? || o.DefaultPort? || o.MaxPacketSize? || o.Timeout? || o.Threads?
  }

  function WithValue(levels: string -> Option<Level>, f: Fields, o: Opt, value: string): (r: Outcome)
    ensures !r.kind.Missing?
  {
    if o.Verb? then
      match levels(value) { case Some(l) => Outcome(Done, f.(verb := l)) case None => Outcome(Rejected, f) }
    else if Numeric(o) then
      match InRange(Atoi(value), MaxOf(o)) {
        case Some(x) => Outcome(Done, WithNumber(f, o, x))
        case None => Outcome(Rejected, f)
      }
    else
      Outcome(Done, WithText(f, o, value))
  }

  function Lettered(c: char): Option<Opt> {
    match c
    case 'i' => Some(Install)
    case 'm' => Some(Mcsman)
    case 'd' => Some(Distributed)
    case 'v' => Some(Version)
    case 'h' => Some(Help)
    case 'c' => Some(Cli)
    case _ => None
  }

  function WithLetters(f: Fields, letters: string): (r: Outcome)
    ensures !r.kind.Missing?
    decreases letters
  {
    if letters == "" then Outcome(Done, f)
    else match Lettered(letters[0])
      case Some(o) => WithLetters(WithSwitch(f, o), letters[1..])
      case None => Outcome(Rejected, f)
  }

  /** One argument, with the value it takes from the next one if it needs it. */
  ghost function First(levels: string -> Option<Level>, f: Fields, args: seq<string>): (r: (Outcome, nat))
    requires args != []
    ensures r.0.kind.Done? ==> 1 <= r.1 <= |args|
    ensures r.0.kind.Missing? ==> |args| == 1
  {
    if "--" <= args[0] then
      match Chosen(args[0][2..])
      case None => (Outcome(Rejected, f), 1)
      case Some(o) =>
        if !Valued(o) then (Outcome(Done, WithSwitch(f, o)), 1)
        else if '=' in args[0] then (WithValue(levels, f, o, After(args[0])), 1)
        else if |args| > 1 then (WithValue(levels, f, o, args[1]), 2)
        else (Outcome(Missing, f), 1)
    else if "-" <= args[0] then (WithLetters(f, args[0][1..]), 1)
    else (Outcome(Done, f.(other := f.other + [args[0]])), 1)
  }

  ghost function Parsed(levels: string -> Option<Level>, f: Fields, args: seq<string>): (r: Outcome)
    ensures r.kind.Missing? ==> args != []
    decreases |args|
  {
    if args == [] then Outcome(Done, f)
    else
      var r := First(levels, f, args);
      if r.0.kind.Done? then Parsed(levels, r.0.fields, args[r.1..]) else r.0
  }

  /** Parsing a concatenation goes on where the first part ended; an option that the first part
      left without a value takes the head of the second. */
  lemma {:induction false} Composes(levels: string -> Option<Level>, f: Fields, a: seq<string>, b: seq<string>)
    ensures var r := Parsed(levels, f, a);
            Parsed(levels, f, a + b) == (
              match r.kind
              case Done => Parsed(levels, r.fields, b)
              case Rejected => r
              case Missing => if b == [] then r else Parsed(levels, r.fields, [a[|a| - 1]] + b))
    decreases |a|
  {
    hide First;
    if a == [] {
      assert a + b == b;
    } else {
      var r := First(levels, f, a);
      FirstKeeps(levels, f, a, b);
      if r.0.kind.Done? {
        assert (a + b)[r.1..] == a[r.1..] + b;
        Composes(levels, r.0.fields, a[r.1..], b);
        if Parsed(levels, f, a).kind.Missing? {
          assert a[r.1..][|a[r.1..]| - 1] == a[|a| - 1];
        }
      } else if r.0.kind.Missing? {
        assert a == [a[0]];
        assert b == [] ==> a + b == a;
      }
    }
  }

  lemma FirstKeeps(levels: string -> Option<Level>, f: Fields, a: seq<string>, b: seq<string>)
    requires a != []
    ensures var r := First(levels, f, a); if r.0.kind.Missing? then r.0.fields == f else First(levels, f, a + b) == r
  {
    hide WithValue, WithLetters, Chosen, WithSwitch;
    assert (a + b)[0] == a[0];
    assert |a| > 1 ==> (a + b)[1] == a[1];
  }

  function SwitchedBy(f: Fields, i: bool, m: bool, d: bool, v: bool, h: bool, c: bool): Fields {
    var w := f.switches;
    f.(switches := w.(install := w.install || i, mcsman := w.mcsman || m, distributed := w.distributed || d,
                      version := w.version || v, help := w.help || h, cli := w.cli || c))
  }

  /** Switches that are on already or that a letter turns on. */
  function Switched(f: Fields, s: string): Fields {
    SwitchedBy(f, 'i' in s, 'm' in s, 'd' in s, 'v' in s, 'h' in s, 'c' in s)
  }

  lemma {:induction false} SwitchedNone(f: Fields)
    ensures Switched(f, "") == f
  {
  }

  lemma {:induction false} SwitchOne(f: Fields, x: char)
    requires Lettered(x).Some?
    ensures WithSwitch(f, Lettered(x).value)
         == SwitchedBy(f, x == 'i', x == 'm', x == 'd', x == 'v', x == 'h', x == 'c')
  {
  }

  lemma {:induction false} SwitchTwo(f: Fields, i: bool, m: bool, d: bool, v: bool, h: bool, c: bool,
                  i': bool, m': bool, d': bool, v': bool, h': bool, c': bool)
    ensures SwitchedBy(SwitchedBy(f, i, m, d, v, h, c), i', m', d', v', h', c')
         == SwitchedBy(f, i || i', m || m', d || d', v || v', h || h', c || c')
  {
  }

  lemma LetterSwitches(f: Fields, x: char, s: string)
    requires Lettered(x).Some?
    ensures Switched(WithSwitch(f, Lettered(x).value), s) == Switched(f, [x] + s)
  {
    hide SwitchedBy, WithSwitch, Lettered;
    SwitchOne(f, x);
    SwitchTwo(f, x == 'i', x == 'm', x == 'd', x == 'v', x == 'h', x == 'c',
              'i' in s, 'm' in s, 'd' in s, 'v' in s, 'h' in s, 'c' in s);
  }

  /** Letters are taken up to the first unknown one; if there is none, each has switched on
      its option, whatever their order. */
  lemma {:induction false} LettersExactly(f: Fields, letters: string)
    ensures WithLetters(f, letters).kind == if forall c <- letters :: c in "imdvhc" then Done else Rejected
    ensures WithLetters(f, letters).kind.Done? ==> WithLetters(f, letters).fields == Switched(f, letters)
    decreases letters
  {
    hide Switched, WithSwitch;
    if letters == "" {
      SwitchedNone(f);
    } else {
      var c, rest := letters[0], letters[1..];
      assert letters == [c] + rest;
      assert c in letters;
      if Lettered(c).Some? {
        LetterSwitches(f, c, rest);
        LettersExactly(WithSwitch(f, Lettered(c).value), rest);
      }
    }
  }

  /** No argument changes `drop` or `timeout`: one branch is dead and the other sets the packet
      size instead. */
  lemma {:induction false} NeverSet(levels: string -> Option<Level>, f: Fields, args: seq<string>)
    ensures Parsed(levels, f, args).fields.switches.drop == f.switches.drop
    ensures Parsed(levels, f, args).fields.numbers.timeout == f.numbers.timeout
    decreases |args|
  {
    hide First;
    if args != [] {
      var r := First(levels, f, args);
      FirstNeverSets(levels, f, args);
      if r.0.kind.Done? {
        NeverSet(levels, r.0.fields, args[r.1..]);
      }
    }
  }

  lemma {:induction false} FirstNeverSets(levels: string -> Option<Level>, f: Fields, args: seq<string>)
    requires args != []
    ensures First(levels, f, args).0.fields.switches.drop == f.switches.drop
    ensures First(levels, f, args).0.fields.numbers.timeout == f.numbers.timeout
  {
    hide Chosen, After, WithValue, WithSwitch, WithLetters;
    if "--" <= args[0] {
      var o := Chosen(args[0][2..]);
      if o.Some? {
        SwitchNeverSets(f, o.value);
        ValueNeverSets(levels, f, o.value,
                       if '=' in args[0] then After(args[0]) else if |args| > 1 then args[1] else "");
      }
    } else if "-" <= args[0] {
      LettersNeverSet(f, args[0][1..]);
    }
  }

  lemma {:induction false} SwitchNeverSets(f: Fields, o: Opt)
    ensures WithSwitch(f, o).switches.drop == f.switches.drop && WithSwitch(f, o).numbers.timeout == f.numbers.timeout
  {
    match o
    case Mcsman =>
    case Install =>
    case Distributed =>
    case Version =>
    case Help =>
    case Cli =>
    case NoDnsCache =>
    case _ =>
  }

  lemma {:induction false} NumberNeverSets(f: Fields, o: Opt, x: int)
    ensures WithNumber(f, o, x).switches.drop == f.switches.drop
    ensures WithNumber(f, o, x).numbers.timeout == f.numbers.timeout
  {
    match o
    case Port =>
    case DefaultPort =>
    case MaxPacketSize =>
    case Timeout =>
    case Threads =>
    case _ =>
  }

  lemma {:induction false} TextNeverSets(f: Fields, o: Opt, value: string)
    ensures WithText(f, o, value).switches.drop == f.switches.drop
    ensures WithText(f, o, value).numbers.timeout == f.numbers.timeout
  {
    match o
    case Confname =>
    case Status =>
    case Login =>
    case DefaultDir =>
    case Domain =>
    case Address =>
    case _ =>
  }

  lemma {:induction false} ValueNeverSets(levels: string -> Option<Level>, f: Fields, o: Opt, value: string)
    ensures WithValue(levels, f, o, value).fields.switches.drop == f.switches.drop
    ensures WithValue(levels, f, o, value).fields.numbers.timeout == f.numbers.timeout
  {
    hide InRange, Atoi, WithNumber, WithText;
    TextNeverSets(f, o, value);
    var x := InRange(Atoi(value), MaxOf(o));
    if x.Some? {
      NumberNeverSets(f, o, x.value);
    }
  }

  lemma {:induction false} LettersNeverSet(f: Fields, letters: string)
    ensures WithLetters(f, letters).fields.switches.drop == f.switches.drop
    ensures WithLetters(f, letters).fields.numbers.timeout == f.numbers.timeout
    decreases letters
  {
    hide WithSwitch, Lettered;
    if letters != "" && Lettered(letters[0]).Some? {
      SwitchNeverSets(f, Lettered(letters[0]).value);
      LettersNeverSet(WithSwitch(f, Lettered(letters[0]).value), letters[1..]);
    }
  }

  /** The two options that set the same field. */
  predicate Clash(o: Opt, p: Opt) {
    (o.MaxPacketSize? && p.Timeout?) || (o.Timeout? && p.MaxPacketSize?)
  }

  lemma {:induction false} TextsCommute(f: Fields, o: Opt, p: Opt, v: string, w: string)
    requires o != p
    ensures WithText(WithText(f, o, v), p, w) == WithText(WithText(f, p, w), o, v)
  {
    match o
    case Confname =>
    case Status =>
    case Login =>
    case DefaultDir =>
    case Domain =>
    case Address =>
    case _ =>
  }

  lemma {:induction false} NumbersCommute(f: Fields, o: Opt, p: Opt, x: int, y: int)
    requires o != p && Numeric(o) && Numeric(p)
    ensures WithNumber(WithNumber(f, o, x), p, y) == WithNumber(WithNumber(f, p, y), o, x) <==> !Clash(o, p) || x == y
  {
    match o
    case Port =>
    case DefaultPort =>
    case MaxPacketSize =>
    case Timeout =>
    case Threads =>
  }

  lemma {:induction false} SortsCommute(f: Fields, o: Opt, p: Opt, v: string, y: int, l: Level)
    ensures WithText(WithNumber(f, p, y), o, v) == WithNumber(WithText(f, o, v), p, y)
    ensures WithText(f.(verb := l), o, v) == WithText(f, o, v).(verb := l)
    ensures WithNumber(f.(verb := l), p, y) == WithNumber(f, p, y).(verb := l)
  {
  }

  /** Settings of different options can be given in either order, except that `max-packet-size`
      and `timeout` overwrite each other unless they say the same. */
  lemma {:induction false} SettingsCommute(levels: string -> Option<Level>, f: Fields,
                                           o: Opt, v: string, p: Opt, w: string)
    requires o != p && Valued(o) && Valued(p)
    requires WithValue(levels, f, o, v).kind.Done? && WithValue(levels, f, p, w).kind.Done?
    ensures var a := WithValue(levels, WithValue(levels, f, o, v).fields, p, w);
            var b := WithValue(levels, WithValue(levels, f, p, w).fields, o, v);
            a.kind.Done? && b.kind.Done? && (a.fields == b.fields <==> !Clash(o, p) || Atoi(v) == Atoi(w))
  {
    hide Atoi, WithText, WithNumber;
    if Numeric(o) && Numeric(p) {
      NumbersCommute(f, o, p, Atoi(v), Atoi(w));
    } else if Numeric(o) {
      SortsCommute(f, p, o, w, Atoi(v), Or(levels(w), Info));
    } else if Numeric(p) {
      SortsCommute(f, o, p, v, Atoi(w), Or(levels(v), Info));
    } else {
      TextsCommute(f, o, p, v, w);
      SortsCommute(f, o, p, v, 0, Or(levels(w), Info));
      SortsCommute(f, p, o, w, 0, Or(levels(v), Info));
    }
  }

  // ---------- spellings ----------

  /** What a user may mean, with the spelling: a setting as one argument or two, a switch
      with or without a text after '=', which is ignored. */
  datatype Item =
    | Setting(opt: Opt, value: string, joined: bool)
    | Switch(opt: Opt, tail: string)
    | Letters(letters: string)
    | Free(text: string)

  predicate Spelled(i: Item) {
    match i
    case Setting(o, _, _) => Valued(o)
    case Switch(o, tail) => !Valued(o) && (tail == "" || tail[0] == '=')
    case Letters(s) => !("-" <= s)
    case Free(s) => !("-" <= s)
  }

  function Render(i: Item): (r: seq<string>)
    ensures r != []
  {
    match i
    case Setting(o, value, true) => ["--" + Name(o) + "=" + value]
    case Setting(o, value, false) => ["--" + Name(o), value]
    case Switch(o, tail) => ["--" + Name(o) + tail]
    case Letters(s) => ["-" + s]
    case Free(s) => [s]
  }

  function Rendered(items: seq<Item>): seq<string>
    decreases |items|
  {
    if items == [] then [] else Render(items[0]) + Rendered(items[1..])
  }

  predicate AllSpelled(items: seq<Item>) {
    forall i <- items :: Spelled(i)
  }

  function Effect(levels: string -> Option<Level>, f: Fields, i: Item): Outcome {
    match i
    case Setting(o, value, _) => WithValue(levels, f, o, value)
    case Switch(o, _) => Outcome(Done, WithSwitch(f, o))
    case Letters(s) => WithLetters(f, s)
    case Free(s) => Outcome(Done, f.(other := f.other + [s]))
  }

  function Effects(levels: string -> Option<Level>, f: Fields, items: seq<Item>): Outcome
    decreases |items|
  {
    if items == [] then Outcome(Done, f)
    else
      var r := Effect(levels, f, items[0]);
      if r.kind.Done? then Effects(levels, r.fields, items[1..]) else r
  }

  /** "--" and a name, followed by nothing or by '=' and a text. */
  lemma OptionRead(o: Opt, tail: string)
    requires tail == "" || tail[0] == '='
    ensures var arg := "--" + Name(o) + tail;
            && "--" <= arg && Chosen(arg[2..]) == Some(o)
            && ('=' in arg <==> tail != "")
            && (tail != "" ==> After(arg) == tail[1..])
  {
    hide Name, Chosen;
    var arg := "--" + Name(o) + tail;
    PlainName(o);
    assert arg[2..] == Name(o) + tail;
    ChosenIs(arg[2..], o);
    var name := "--" + Name(o);
    assert '=' !in name;
    BeforeIs(name, tail);
    if tail != "" {
      assert arg[|name|] == '=';
    }
  }

  lemma ItemRead(levels: string -> Option<Level>, f: Fields, i: Item, rest: seq<string>)
    requires Spelled(i)
    ensures First(levels, f, Render(i) + rest) == (Effect(levels, f, i), |Render(i)|)
  {
    hide WithValue, WithLetters, WithSwitch, Chosen, Name, After;
    var args := Render(i) + rest;
    match i
    case Setting(o, value, true) =>
      OptionRead(o, "=" + value);
      assert args[0] == "--" + Name(o) + ("=" + value);
    case Setting(o, value, false) =>
      OptionRead(o, "");
      assert args[0] == "--" + Name(o) + "";
      assert args[1] == value;
    case Switch(o, tail) =>
      OptionRead(o, tail);
    case Letters(s) =>
      assert args[0] == "-" + s && args[0][1..] == s;
    case Free(s) =>
  }

  /** A spelled list is parsed item by item to what the items mean. */
  lemma {:induction false} ItemsRead(levels: string -> Option<Level>, f: Fields, items: seq<Item>)
    requires AllSpelled(items)
    ensures Parsed(levels, f, Rendered(items)) == Effects(levels, f, items)
    decreases |items|
  {
    hide First, Effect, Render, Spelled;
    if items != [] {
      var rest := Rendered(items[1..]);
      ItemRead(levels, f, items[0], rest);
      assert Rendered(items)[|Render(items[0])|..] == rest;
      var r := Effect(levels, f, items[0]);
      if r.kind.Done? {
        ItemsRead(levels, r.fields, items[1..]);
      }
    }
  }

  function Respelled(items: seq<Item>, joined: seq<bool>): (r: seq<Item>)
    requires |joined| == |items|
    ensures |r| == |items|
  {
    seq(|items|, k requires 0 <= k < |items| =>
      if items[k].Setting? then items[k].(joined := joined[k]) else items[k])
  }

  /** So it makes no difference which settings are given as `--name=value` and which as
      `--name value`. */
  lemma SpellingIrrelevant(levels: string -> Option<Level>, f: Fields, items: seq<Item>, joined: seq<bool>)
    requires AllSpelled(items) && |joined| == |items|
    ensures Parsed(levels, f, Rendered(Respelled(items, joined))) == Parsed(levels, f, Rendered(items))
  {
    hide Parsed, Rendered, Effects;
    ItemsRead(levels, f, items);
    forall i | 0 <= i < |items| ensures Spelled(Respelled(items, joined)[i]) {
      assert items[i] in items;
    }
    ItemsRead(levels, f, Respelled(items, joined));
    SameEffects(levels, f, items, joined);
  }

  lemma {:induction false} SameEffects(levels: string -> Option<Level>, f: Fields, items: seq<Item>, joined: seq<bool>)
    requires |joined| == |items|
    ensures Effects(levels, f, Respelled(items, joined)) == Effects(levels, f, items)
    decreases |items|
  {
    hide WithValue, WithLetters, WithSwitch;
    if items != [] {
      var again := Respelled(items, joined);
      assert again[1..] == Respelled(items[1..], joined[1..]);
      assert again[0] == if items[0].Setting? then items[0].(joined := joined[0]) else items[0];
      assert Effect(levels, f, again[0]) == Effect(levels, f, items[0]);
      var r := Effect(levels, f, items[0]);
      if r.kind.Done? {
        SameEffects(levels, r.fields, items[1..], joined[1..]);
      }
    }
  }

  /** The argument that First reads, as an item. */
  lemma ItemOf(levels: string -> Option<Level>, f: Fields, args: seq<string>) returns (i: Item)
    requires args != [] && First(levels, f, args).0.kind.Done?
    ensures Spelled(i) && |Render(i)| <= |args| && Render(i) == args[..|Render(i)|]
  {
    hide WithValue, WithLetters, WithSwitch, Chosen, Name;
    var s := args[0];
    if "--" <= s {
      i := OptionOf(args);
    } else if "-" <= s {
      i := Letters(s[1..]);
      assert s == "-" + s[1..];
    } else {
      i := Free(s);
    }
  }

  lemma OptionOf(args: seq<string>) returns (i: Item)
    requires args != [] && "--" <= args[0] && Chosen(args[0][2..]).Some?
    requires Valued(Chosen(args[0][2..]).value) && '=' !in args[0] ==> |args| > 1
    ensures Spelled(i) && |Render(i)| <= |args| && Render(i) == args[..|Render(i)|]
  {
    hide Name;
    var s := args[0];
    var o := Chosen(s[2..]).value;
    var tail := s[2..][|Name(o)|..];
    assert s == "--" + Name(o) + tail;
    PlainName(o);
    assert tail == "" ==> s == "--" + Name(o) && '=' !in s;
    if !Valued(o) {
      i := Switch(o, tail);
    } else if tail != "" {
      assert tail == "=" + tail[1..];
      i := Setting(o, tail[1..], true);
      assert "--" + Name(o) + "=" + tail[1..] == s;
    } else {
      i := Setting(o, args[1], false);
    }
  }

  lemma {:induction false} ItemsOf(levels: string -> Option<Level>, f: Fields, args: seq<string>)
    returns (items: seq<Item>)
    requires Parsed(levels, f, args).kind.Done?
    ensures AllSpelled(items) && Rendered(items) == args
    decreases |args|
  {
    hide First, Spelled, Render;
    if args == [] {
      items := [];
    } else {
      var i := ItemOf(levels, f, args);
      var n := |Render(i)|;
      assert args == Render(i) + args[n..];
      ItemRead(levels, f, i, args[n..]);
      var r := First(levels, f, args);
      var rest := ItemsOf(levels, r.0.fields, args[r.1..]);
      items := [i] + rest;
    }
  }

  /** The accepted lists are exactly the spellings of items that can all take effect. */
  lemma AcceptedExactly(levels: string -> Option<Level>, f: Fields, args: seq<string>)
    ensures Parsed(levels, f, args).kind.Done?
       <==> exists items :: AllSpelled(items) && Rendered(items) == args && Effects(levels, f, items).kind.Done?
  {
    hide Parsed, Rendered, Effects;
    if Parsed(levels, f, args).kind.Done? {
      var items := ItemsOf(levels, f, args);
      ItemsRead(levels, f, items);
    }
    forall items | AllSpelled(items) && Rendered(items) == args
      ensures Parsed(levels, f, args) == Effects(levels, f, items)
    {
      ItemsRead(levels, f, items);
    }
  }

  // ---------- in place ----------

  /** get_arg_value: the text after the first '=', or the next argument. `next` is one past the
      last argument used. */
  method GetArgValue(args: seq<string>, it: nat) returns (kind: Kind, value: string, next: nat)
    requires it < |args|
    ensures if '=' in args[it] then kind.Done? && value == After(args[it]) && next == it + 1
            else if it + 1 < |args| then kind.Done? && value == args[it + 1] && next == it + 2
            else kind.Missing? && next == it + 1
  {
    var curr := args[it];
    var k := 0;
    while k < |curr|
      invariant k <= |curr| && '=' !in curr[..k]
    {
      var c := curr[k];
      k := k + 1;
      if c == '=' {
        AfterIs(curr, k - 1);
        return Done, curr[k..], it + 1;
      }
    }
    assert curr[..k] == curr;
    if it + 1 != |args| {
      return Done, args[it + 1], it + 2;
    }
    return Missing, "", it + 1;
  }

  lemma AfterIs(s: string, k: nat)
    requires k < |s| && s[k] == '=' && '=' !in s[..k]
    ensures '=' in s && After(s) == s[k + 1..]
  {
    BeforeIs(s[..k], s[k..]);
    assert s[..k] + s[k..] == s;
  }

  /** get_arg_value, std::atoi and assert_arg_range in a row. */
  method GetNumber(args: seq<string>, it: nat, max: int) returns (kind: Kind, number: int, next: nat)
    requires it < |args|
    ensures if '=' in args[it] || it + 1 < |args| then
              var x := InRange(Atoi(if '=' in args[it] then After(args[it]) else args[it + 1]), max);
              && next == it + (if '=' in args[it] then 1 else 2)
              && (if x.Some? then kind.Done? && number == x.value else kind.Rejected?)
            else kind.Missing? && next == it + 1
  {
    var value;
    number := 0;
    kind, value, next := GetArgValue(args, it);
    if kind.Done? {
      var x := InRange(Atoi(value), max);
      if x.Some? { number := x.value; } else { kind := Rejected; }
    }
  }

  lemma ChosenNamed(arg: string)
    ensures Chosen(arg).Some? ==> IsArgName(arg, Name(Chosen(arg).value))
  {
  }

  /** The stretch of branches an option is in. */
  function Group(o: Option<Opt>): nat {
    if o.None? then 4
    else match o.value
      case Confname => 0
      case Status => 0
      case Login => 0
      case DefaultDir => 0
      case Domain => 0
      case Mcsman => 1
      case Install => 1
      case Distributed => 1
      case Address => 2
      case Port => 2
      case DefaultPort => 2
      case MaxPacketSize => 2
      case Timeout => 2
      case _ => 3
  }

  lemma FirstOption(levels: string -> Option<Level>, f: Fields, args: seq<string>, it: nat)
    requires it < |args| && "--" <= args[it]
    ensures First(levels, f, args[it..])
         == match Chosen(args[it][2..])
            case None => (Outcome(Rejected, f), 1)
            case Some(o) =>
              if !Valued(o) then (Outcome(Done, WithSwitch(f, o)), 1)
              else if '=' in args[it] then (WithValue(levels, f, o, After(args[it])), 1)
              else if it + 1 < |args| then (WithValue(levels, f, o, args[it + 1]), 2)
              else (Outcome(Missing, f), 1)
  {
    hide Chosen, WithValue, WithSwitch, After;
  }

  lemma SwitchOption(levels: string -> Option<Level>, f: Fields, args: seq<string>, it: nat, o: Opt)
    requires it < |args| && "--" <= args[it] && IsArgName(args[it][2..], Name(o)) && !Valued(o)
    ensures Chosen(args[it][2..]) == Some(o)
    ensures First(levels, f, args[it..]) == (Outcome(Done, WithSwitch(f, o)), 1)
  {
    hide Chosen, WithSwitch, Name, IsArgName;
    ChosenIs(args[it][2..], o);
  }

  lemma TextOption(levels: string -> Option<Level>, f: Fields, args: seq<string>, it: nat, o: Opt)
    requires it < |args| && "--" <= args[it] && IsArgName(args[it][2..], Name(o))
    requires Valued(o) && !Numeric(o) && !o.Verb?
    ensures Chosen(args[it][2..]) == Some(o)
    ensures First(levels, f, args[it..])
         == if '=' in args[it] then (Outcome(Done, WithText(f, o, After(args[it]))), 1)
            else if it + 1 < |args| then (Outcome(Done, WithText(f, o, args[it + 1])), 2)
            else (Outcome(Missing, f), 1)
  {
    hide Chosen, WithSwitch, WithText, After, First, Name, IsArgName;
    ChosenIs(args[it][2..], o);
    FirstOption(levels, f, args, it);
  }

  lemma NumberOption(levels: string -> Option<Level>, f: Fields, args: seq<string>, it: nat, o: Opt)
    requires it < |args| && "--" <= args[it] && IsArgName(args[it][2..], Name(o)) && Numeric(o)
    ensures Chosen(args[it][2..]) == Some(o)
    ensures First(levels, f, args[it..])
         == if '=' !in args[it] && it + 1 == |args| then (Outcome(Missing, f), 1)
            else
              var x := InRange(Atoi(if '=' in args[it] then After(args[it]) else args[it + 1]), MaxOf(o));
              (if x.Some? then Outcome(Done, WithNumber(f, o, x.value)) else Outcome(Rejected, f),
               if '=' in args[it] then 1 else 2)
  {
    hide Chosen, WithSwitch, WithNumber, After, First, Name, IsArgName, InRange, Atoi;
    ChosenIs(args[it][2..], o);
    FirstOption(levels, f, args, it);
  }

  /** arguments_t; its fields are grouped by type. */
  class Arguments {
    var texts: Texts
    var switches: Switches
    var numbers: Numbers
    var verb: Level
    var other: seq<string>

    ghost function View(): Fields
      reads this
    {
      Fields(texts, switches, numbers, verb, other)
    }

    constructor ()
      ensures texts == Texts("mcshub.yml", "status.json", "login.json", "default", "", "0.0.0.0")
      ensures switches == Switches(false, false, false, false, false, false, false, false)
      ensures numbers == Numbers(25565, 25565, 6000, 500, UINT_MAX)
      ensures verb.Info? && other == []
    {
      texts := Texts("mcshub.yml", "status.json", "login.json", "default", "", "0.0.0.0");
      switches := Switches(false, false, false, false, false, false, false, false);
      numbers := Numbers(25565, 25565, 6000, 500, UINT_MAX);
      verb, other := Info, [];
    }

    method Parse(levels: string -> Option<Level>, args: seq<string>) returns (kind: Kind)
      modifies this
      ensures Outcome(kind, View()) == Parsed(levels, old(View()), args)
    {
      hide First;
      kind := Done;
      var it := 0;
      assert args[0..] == args;
      while it < |args|
        invariant it <= |args| && kind.Done?
        invariant Parsed(levels, View(), args[it..]) == Parsed(levels, old(View()), args)
      {
        ghost var left := args[it..];
        var next;
        kind, next := ParseOne(levels, args, it);
        if !kind.Done? {
          return;
        }
        assert left[next - it..] == args[next..];
        it := next;
      }
    }

    /** The body of the loop; `next` is where the iterator stands after it. */
    method ParseOne(levels: string -> Option<Level>, args: seq<string>, it: nat) returns (kind: Kind, next: nat)
      requires it < |args|
      modifies this
      ensures kind.Done? ==> it < next <= |args|
      ensures (Outcome(kind, View()), next - it) == First(levels, old(View()), args[it..])
    {
      hide Chosen, WithValue, WithSwitch, WithLetters;
      var curr := args[it];
      next := it + 1;
      if "--" <= curr {
        kind, next := ParseOption(levels, args, it);
      } else if "-" <= curr {
        kind := ParseLetters(curr[1..]);
      } else {
        other := other + [curr];
        kind := Done;
      }
    }

    /** The branches for full names, in their order. */
    method ParseOption(levels: string -> Option<Level>, args: seq<string>, it: nat) returns (kind: Kind, next: nat)
      requires it < |args| && "--" <= args[it]
      modifies this
      ensures kind.Done? ==> it < next <= |args|
      ensures (Outcome(kind, View()), next - it) == First(levels, old(View()), args[it..])
    {
      hide Name, Chosen, Atoi, After, First, IsArgName, InRange, WithValue;
      var arg := args[it][2..];
      kind, next := Done, it + 1;
      var value: string;
      ChosenNamed(arg);
      if IsArgName(arg, Name(Confname)) {
        TextOption(levels, View(), args, it, Confname);
        kind, value, next := GetArgValue(args, it);
        if kind.Done? { texts := texts.(confname := value); }
      } else if IsArgName(arg, Name(Status)) {
        TextOption(levels, View(), args, it, Status);
        kind, value, next := GetArgValue(args, it);
        if kind.Done? { texts := texts.(status := value); }
      } else if IsArgName(arg, Name(Login)) {
        TextOption(levels, View(), args, it, Login);
        kind, value, next := GetArgValue(args, it);
        if kind.Done? { texts := texts.(login := value); }
      } else if IsArgName(arg, Name(DefaultDir)) {
        TextOption(levels, View(), args, it, DefaultDir);
        kind, value, next := GetArgValue(args, it);
        if kind.Done? { texts := texts.(defaultDir := value); }
      } else if IsArgName(arg, Name(Domain)) {
        TextOption(levels, View(), args, it, Domain);
        kind, value, next := GetArgValue(args, it);
        if kind.Done? { texts := texts.(domain := value); }
      } else {
        kind, next := ParseSwitch(levels, args, it);
      }
    }

    /** From `mcsman` on. The second branch for `distributed` is dead. */
    method ParseSwitch(levels: string -> Option<Level>, args: seq<string>, it: nat) returns (kind: Kind, next: nat)
      requires it < |args| && "--" <= args[it]
      requires Group(Chosen(args[it][2..])) >= 1
      modifies this
      ensures kind.Done? ==> it < next <= |args|
      ensures (Outcome(kind, View()), next - it) == First(levels, old(View()), args[it..])
    {
      hide Name, Chosen, Atoi, After, First, IsArgName, InRange, WithValue;
      var arg := args[it][2..];
      kind, next := Done, it + 1;
      ChosenNamed(arg);
      if IsArgName(arg, Name(Mcsman)) {
        SwitchOption(levels, View(), args, it, Mcsman);
        switches := switches.(mcsman := true);
      } else if IsArgName(arg, Name(Install)) {
        SwitchOption(levels, View(), args, it, Install);
        switches := switches.(install := true);
      } else if IsArgName(arg, Name(Distributed)) {
        SwitchOption(levels, View(), args, it, Distributed);
        switches := switches.(distributed := true);
      } else if IsArgName(arg, Name(Distributed)) {
        assert false;
      } else {
        kind, next := ParseNumber(levels, args, it);
      }
    }

    /** From `address` on. */
    method ParseNumber(levels: string -> Option<Level>, args: seq<string>, it: nat) returns (kind: Kind, next: nat)
      requires it < |args| && "--" <= args[it]
      requires Group(Chosen(args[it][2..])) >= 2
      modifies this
      ensures kind.Done? ==> it < next <= |args|
      ensures (Outcome(kind, View()), next - it) == First(levels, old(View()), args[it..])
    {
      hide Name, Chosen, Atoi, After, First, IsArgName, InRange, WithValue;
      var arg := args[it][2..];
      kind, next := Done, it + 1;
      var value: string;
      var number: int;
      ChosenNamed(arg);
      if IsArgName(arg, Name(Address)) {
        TextOption(levels, View(), args, it, Address);
        kind, value, next := GetArgValue(args, it);
        if kind.Done? { texts := texts.(address := value); }
      } else if IsArgName(arg, Name(Port)) {
        NumberOption(levels, View(), args, it, Port);
        kind, number, next := GetNumber(args, it, USHORT_MAX);
        if kind.Done? { numbers := numbers.(port := number); }
      } else if IsArgName(arg, Name(DefaultPort)) {
        NumberOption(levels, View(), args, it, DefaultPort);
        kind, number, next := GetNumber(args, it, USHORT_MAX);
        if kind.Done? { numbers := numbers.(defaultPort := number); }
      } else if IsArgName(arg, Name(MaxPacketSize)) {
        NumberOption(levels, View(), args, it, MaxPacketSize);
        kind, number, next := GetNumber(args, it, INT_MAX);
        if kind.Done? { numbers := numbers.(maxPacketSize := number); }
      } else if IsArgName(arg, Name(Timeout)) {
        NumberOption(levels, View(), args, it, Timeout);
        kind, number, next := GetNumber(args, it, INT_MAX);
        if kind.Done? { numbers := numbers.(maxPacketSize := number); }
      } else {
        kind, next := ParseLast(levels, args, it);
      }
    }

    /** From `version` on. */
    method ParseLast(levels: string -> Option<Level>, args: seq<string>, it: nat) returns (kind: Kind, next: nat)
      requires it < |args| && "--" <= args[it]
      requires Group(Chosen(args[it][2..])) >= 3
      modifies this
      ensures kind.Done? ==> it < next <= |args|
      ensures (Outcome(kind, View()), next - it) == First(levels, old(View()), args[it..])
    {
      hide Name, Chosen, Atoi, After, First, IsArgName, InRange;
      var arg := args[it][2..];
      kind, next := Done, it + 1;
      var value: string;
      var number: int;
      ChosenNamed(arg);
      if IsArgName(arg, Name(Version)) {
        SwitchOption(levels, View(), args, it, Version);
        switches := switches.(version := true);
      } else if IsArgName(arg, Name(Help)) {
        SwitchOption(levels, View(), args, it, Help);
        switches := switches.(help := true);
      } else if IsArgName(arg, Name(Cli)) {
        SwitchOption(levels, View(), args, it, Cli);
        switches := switches.(cli := true);
      } else if IsArgName(arg, Name(NoDnsCache)) {
        SwitchOption(levels, View(), args, it, NoDnsCache);
        switches := switches.(noDnsCache := true);
      } else if IsArgName(arg, Name(Threads)) {
        NumberOption(levels, View(), args, it, Threads);
        kind, number, next := GetNumber(args, it, UINT_MAX);
        if kind.Done? { numbers := numbers.(threads := number); }
      } else if IsArgName(arg, Name(Verb)) {
        ChosenIs(arg, Verb);
        FirstOption(levels, View(), args, it);
        kind, value, next := GetArgValue(args, it);
        if kind.Done? {
          var level := levels(value);
          if level.Some? { verb := level.value; } else { kind := Rejected; }
        }
      } else {
        FirstOption(levels, View(), args, it);
        kind := Rejected;
      }
    }

    method ParseLetters(letters: string) returns (kind: Kind)
      modifies this
      ensures Outcome(kind, View()) == WithLetters(old(View()), letters)
    {
      kind := Done;
      var k := 0;
      assert letters[0..] == letters;
      while k < |letters|
        invariant k <= |letters|
        invariant WithLetters(View(), letters[k..]) == WithLetters(old(View()), letters)
      {
        var c := letters[k];
        assert letters[k..][1..] == letters[k + 1..];
        k := k + 1;
        if c == 'i' { switches := switches.(install := true); }
        else if c == 'm' { switches := switches.(mcsman := true); }
        else if c == 'd' { switches := switches.(distributed := true); }
        else if c == 'v' { switches := switches.(version := true); }
        else if c == 'h' { switches := switches.(help := true); }
        else if c == 'c' { switches := switches.(cli := true); }
        else { return Rejected; }
      }
    }
  }
}
