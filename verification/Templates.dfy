/** The template engine of src/response_props.hpp:49-160: `$$`, `${ ns : name }` and `$ns:name`
    in a text are replaced from left to right. */
module Templates {
  import opened Records

  const NO_SPACE: string := "{ NO NSPA }"

  /** One class of variables; vars_manager holds a non-empty list of them. */
  datatype Space = Space(name: string, get: string -> string)
  type Spaces = s: seq<Space> | |s| > 0 witness [Space("main", x => x)]

  predicate IsVar(c: char) {
    IsAlnum(c) || c == ':' || c == '_'
  }

  // ---------- helpers of ekutils, from their use ----------

  /** How many characters of s trim_string skips in front, and how many behind. */
  function Lead(s: string): (n: nat)
    ensures n <= |s| && (n < |s| ==> !IsSpace(s[n]))
  {
    if s != "" && IsSpace(s[0]) then 1 + Lead(s[1..]) else 0
  }

  function Trail(s: string): (n: nat)
    ensures n <= |s|
  {
    if s != "" && IsSpace(s[|s| - 1]) then 1 + Trail(s[..|s| - 1]) else 0
  }

  function Trim(s: string): (r: string) {
    var t := s[Lead(s)..];
    t[..|t| - Trail(t)]
  }

  /** find_char: the first place of c, or -1. */
  function Find(c: char, s: string): (n: int)
    ensures -1 <= n < |s|
    ensures n >= 0 ==> s[n] == c && c !in s[..n]
    ensures n < 0 ==> c !in s
  {
    if s == "" then -1
    else if s[0] == c then 0
    else var n := Find(c, s[1..]); if n < 0 then -1 else n + 1
  }

  /** find_closing_bracket<'{'>: how many characters it takes to close what `depth` open
      brackets and s itself open. */
  function Closing(s: string, depth: nat): (r: Option<nat>)
    ensures r.Some? ==> 1 <= r.value <= |s|
  {
    if s == "" then None
    else
      var d := if s[0] == '{' then depth + 1 else if s[0] == '}' && depth > 0 then depth - 1 else depth;
      if d == 0 then Some(1)
      else match Closing(s[1..], d) case Some(n) => Some(n + 1) case None => None
  }

  // ---------- meaning ----------

  function FindInNext(ns: string, name: string, vars: Spaces): string {
    if vars[0].name == ns then vars[0].get(name)
    else if |vars| == 1 then NO_SPACE
    else FindInNext(ns, name, vars[1..])
  }

  /** What stands for the text between the brackets, or for a bare name. */
  function Value(raw: string, vars: Spaces): string {
    var t := Trim(raw);
    var d := Find(':', t);
    if d < 0 then vars[0].get(t) else FindInNext(Trim(t[..d]), Trim(t[d + 1..]), vars)
  }

  function VarLength(s: string): (n: nat)
    ensures n <= |s| && (forall k :: 0 <= k < n ==> IsVar(s[k])) && (n < |s| ==> !IsVar(s[n]))
  {
    if s != "" && IsVar(s[0]) then 1 + VarLength(s[1..]) else 0
  }

  /** The first token of a text: one plain character, `$$`, a bracketed or a bare variable of
      `width` characters with its name in `raw`, or a bracket that is never closed. */
  datatype Token = Plain | Escape | Variable(width: nat, raw: string) | Unclosed

  function First(s: string): (t: Token)
    requires s != ""
    ensures t.Variable? ==> 2 <= t.width <= |s|
    ensures t.Escape? ==> |s| >= 2
  {
    if s[0] != '$' || |s| == 1 then Plain
    else if s[1] == '$' then Escape
    else if s[1] == '{' then
      match Closing(s[1..], 0)
      case Some(t) => ClosesInside(s[1..]); Variable(1 + t, s[2..t])
      case None => Unclosed
    else if IsVar(s[1]) then Variable(1 + VarLength(s[1..]), s[1..1 + VarLength(s[1..])])
    else Plain
  }

  lemma ClosesInside(s: string)
    requires s != "" && s[0] == '{'
    ensures Closing(s, 0).Some? ==> Closing(s, 0).value >= 2
  {
  }

  function Width(t: Token): nat {
    match t case Plain => 1 case Escape => 2 case Variable(w, _) => w case Unclosed => 1
  }

  /** Every `${` of the text is closed. */
  predicate Balanced(s: string)
    decreases |s|
  {
    s == "" || (!First(s).Unclosed? && Balanced(s[Width(First(s))..]))
  }

  /** What the first token stands for. A substituted value is not looked into again. */
  function Meaning(s: string, vars: Spaces): string
    requires s != ""
  {
    match First(s)
    case Plain => [s[0]]
    case Escape => "$"
    case Variable(_, raw) => Value(raw, vars)
    case Unclosed => ""
  }

  /** What the text means: its tokens from left to right. */
  function Expand(s: string, vars: Spaces): string
    requires Balanced(s)
    decreases |s|
  {
    if s == "" then "" else Meaning(s, vars) + Expand(s[Width(First(s))..], vars)
  }

  lemma ExpandStep(s: string, w: nat, rest: string, vars: Spaces)
    requires Balanced(s) && s != "" && w == Width(First(s)) && w <= |s| && rest == s[w..]
    ensures Balanced(rest) && Expand(s, vars) == Meaning(s, vars) + Expand(rest, vars)
  {
    hide First, Meaning;
  }

  lemma BalancedStep(s: string, w: nat, rest: string, vars: Spaces)
    requires s != "" && !First(s).Unclosed? && w == Width(First(s)) && w <= |s| && rest == s[w..] && Balanced(rest)
    ensures Balanced(s) && Expand(s, vars) == Meaning(s, vars) + Expand(rest, vars)
  {
    hide First, Meaning;
  }

  // ---------- get_value ----------

  lemma TrimStart(s: string)
    ensures Trim(s) != "" ==> !IsSpace(Trim(s)[0])
  {
  }

  lemma NoLead(s: string)
    requires s != "" ==> !IsSpace(s[0])
    ensures Lead(s) == 0
  {
  }

  /** get_value works on a pointer and a length that each trim_string moves. Trimming the
      namespace moves the pointer that the name is then found from; it moves by nothing, because
      the text was trimmed before. */
  method GetValue(content: string, start: nat, size: nat, vars: Spaces) returns (value: string)
    requires start + size <= |content|
    ensures value == Value(content[start..start + size], vars)
  {
    hide IsSpace, Lead, Trail, Find, FindInNext;
    var str, length := TrimAt(content, start, size);
    var t := content[str..str + length];
    var d := Find(':', t);
    if d < 0 {
      return vars[0].get(t);
    }
    TrimStart(content[start..start + size]);
    ghost var before := str;
    var nsLen := d;
    assert content[str..str + d] == t[..d];
    str, nsLen := TrimAt(content, str, nsLen);
    assert str == before by { NoLead(t[..d]); }
    var ns := content[str..str + nsLen];
    var nameRaw, nameLen := str + d + 1, length - d - 1;
    assert content[nameRaw..nameRaw + nameLen] == t[d + 1..];
    nameRaw, nameLen := TrimAt(content, nameRaw, nameLen);
    value := FindInNext(ns, content[nameRaw..nameRaw + nameLen], vars);
  }

  method TrimAt(content: string, start: nat, size: nat) returns (str: nat, length: nat)
    requires start + size <= |content|
    ensures str == start + Lead(content[start..start + size])
    ensures str + length <= start + size
    ensures content[str..str + length] == Trim(content[start..start + size])
  {
    var s := content[start..start + size];
    str := start + Lead(s);
    var t := s[Lead(s)..];
    length := |t| - Trail(t);
    assert content[str..str + length] == t[..length];
  }

  // ---------- resolve ----------

  /** A stretch of the template, by where it starts and how long it is, or a value. */
  datatype Piece = Cut(chunk: string, size: nat) | Text(value: string)

  predicate Fits(p: Piece) {
    p.Cut? ==> p.size <= |p.chunk|
  }

  function Shown(p: Piece): string
    requires Fits(p)
  {
    match p case Cut(chunk, size) => chunk[..size] case Text(v) => v
  }

  function Joined(pieces: seq<Piece>): string
    requires forall p <- pieces :: Fits(p)
  {
    if pieces == [] then "" else Joined(pieces[..|pieces| - 1]) + Shown(pieces[|pieces| - 1])
  }

  lemma JoinedAppend(pieces: seq<Piece>, p: Piece)
    requires (forall q <- pieces :: Fits(q)) && Fits(p)
    ensures Joined(pieces + [p]) == Joined(pieces) + Shown(p)
  {
    assert (pieces + [p])[..|pieces|] == pieces;
  }

  /** str[i] of a C string: the terminator follows the last character. */
  function At(content: string, i: nat): char {
    if i < |content| then content[i] else NUL
  }

  /** The loop over i and j: everything before j has been cut into pieces, everything from j to
      i is plain. */
  ghost predicate CutUpTo(content: string, vars: Spaces, pieces: seq<Piece>, j: nat, i: nat)
    requires Balanced(content)
  {
    && j <= i <= |content| && Balanced(content[i..])
    && (forall p <- pieces :: Fits(p))
    && Expand(content, vars) == Joined(pieces) + content[j..i] + Expand(content[i..], vars)
  }

  lemma Assoc(a: string, b: string, c: string, d: string)
    ensures a + b + (c + d) == a + (b + c) + d == a + b + c + d
  {
  }

  lemma PlainStep(content: string, vars: Spaces, pieces: seq<Piece>, j: nat, i: nat)
    requires Balanced(content) && CutUpTo(content, vars, pieces, j, i)
    requires i < |content| && First(content[i..]).Plain?
    ensures CutUpTo(content, vars, pieces, j, i + 1)
  {
    hide First, Value, Joined, Expand, Balanced;
    var rest, done, c := content[i + 1..], Joined(pieces), [content[i]];
    assert content[i..][1..] == rest;
    ExpandStep(content[i..], 1, rest, vars);
    assert Meaning(content[i..], vars) == c;
    assert content[j..i + 1] == content[j..i] + c;
    Assoc(done, content[j..i], c, Expand(rest, vars));
  }

  /** Pushing the plain stretch before a token, then what the token stands for. */
  lemma TokenStep(content: string, vars: Spaces, pieces: seq<Piece>, j: nat, i: nat, w: nat, v: string)
    requires Balanced(content) && CutUpTo(content, vars, pieces, j, i)
    requires i < |content| && w == Width(First(content[i..])) && i + w <= |content|
    requires v == Meaning(content[i..], vars)
    ensures CutUpTo(content, vars, pieces + [Cut(content[j..], i - j)] + [Text(v)], i + w, i + w)
  {
    hide First, Value, Meaning, Joined, Expand, Balanced;
    var c := Cut(content[j..], i - j);
    var plain := content[j..i];
    assert Shown(c) == plain;
    JoinedAppend(pieces, c);
    JoinedAppend(pieces + [c], Text(v));
    var rest := content[i + w..];
    assert content[i..][w..] == rest;
    ExpandStep(content[i..], w, rest, vars);
    Assoc(Joined(pieces), plain, v, Expand(rest, vars));
    assert content[i + w..i + w] == "";
    assert Joined(pieces) + plain + v + "" == Joined(pieces) + plain + v;
  }

  /** The first token of the text from i on, when that starts with `$`, by the character
      after it. */
  lemma AtDollar(content: string, vars: Spaces, i: nat)
    requires i < |content| && content[i] == '$' && !First(content[i..]).Unclosed?
    ensures var next, s := At(content, i + 1), content[i..];
            && (next == '$' ==> i + 2 <= |content| && Width(First(s)) == 2 && Meaning(s, vars) == "$")
            && (next == '{' ==>
                  && i + 1 < |content| && Closing(content[i + 1..], 0).Some?
                  && var t := Closing(content[i + 1..], 0).value;
                  && 2 <= t && i + 1 + t <= |content| && Width(First(s)) == 1 + t
                  && Meaning(s, vars) == Value(content[i + 2..i + t], vars))
            && (IsVar(next) ==>
                  && i + 1 < |content|
                  && var n := VarLength(content[i + 1..]);
                  && i + 1 + n <= |content| && Width(First(s)) == 1 + n
                  && Meaning(s, vars) == Value(content[i + 1..i + 1 + n], vars))
            && (next != '$' && next != '{' && !IsVar(next) ==> First(s).Plain?)
  {
    hide Value;
    var s := content[i..];
    if |s| > 1 {
      assert s[1..] == content[i + 1..] && s[1] == content[i + 1];
      if s[1] == '{' {
        ClosesInside(content[i + 1..]);
        SliceOfSlice(content, i, 2, Closing(content[i + 1..], 0).value);
      } else if IsVar(s[1]) {
        SliceOfSlice(content, i, 1, 1 + VarLength(content[i + 1..]));
      }
    }
  }

  lemma SliceOfSlice(content: string, i: nat, from: nat, to: nat)
    requires from <= to && i + to <= |content|
    ensures content[i..][from..to] == content[i + from..i + to]
  {
  }

  method NameLength(content: string, i: nat) returns (t: nat)
    requires i <= |content|
    ensures t == VarLength(content[i..])
  {
    t := 0;
    while IsVar(At(content, i + t))
      invariant i + t <= |content|
      invariant forall x :: i <= x < i + t ==> IsVar(content[x])
      decreases |content| - (i + t)
    {
      t := t + 1;
    }
    VarLengthIs(content[i..], t);
  }

  method Resolve(content: string, vars: Spaces) returns (text: string)
    requires Balanced(content)
    ensures text == Expand(content, vars)
  {
    hide CutUpTo, Expand, Value, Meaning, First, Closing, VarLength, Joined, Balanced;
    var result: seq<Piece> := [];
    var i: nat, j: nat := 0, 0;
    CutAtStart(content, vars);
    while i < |content|
      invariant j <= i <= |content| && CutUpTo(content, vars, result, j, i)
    {
      NoOpenBracket(content, vars, result, j, i);
      if content[i] == '$' {
        AtDollar(content, vars, i);
        var next := At(content, i + 1);
        if !IsVar(next) && next != '{' && next != '$' {
          PlainStep(content, vars, result, j, i);
          i := i + 1;
          continue;
        }
        ghost var pieces, from := result, i;
        result := result + [Cut(content[j..], i - j)];
        i := i + 1;
        if next == '$' {
          TokenStep(content, vars, pieces, j, from, 2, "$");
          result := result + [Text("$")];
          i := i + 1;
        } else if next == '{' {
          var t := Closing(content[i..], 0).value;
          var value := GetValue(content, i + 1, t - 2, vars);
          TokenStep(content, vars, pieces, j, from, 1 + t, value);
          result := result + [Text(value)];
          i := i + t;
        } else {
          var t := NameLength(content, i);
          var value := GetValue(content, i, t, vars);
          TokenStep(content, vars, pieces, j, from, 1 + t, value);
          result := result + [Text(value)];
          i := i + t;
        }
        j := i;
      } else {
        PlainHere(content, i);
        PlainStep(content, vars, result, j, i);
        i := i + 1;
      }
    }
    CutAtEnd(content, vars, result, j);
    if i != j {
      result := result + [Cut(content[j..], i - j)];
    }
    var _, joined := Join(result);
    text := joined;
  }

  lemma PlainHere(content: string, i: nat)
    requires i < |content| && content[i] != '$'
    ensures First(content[i..]).Plain?
  {
  }

  lemma CutAtStart(content: string, vars: Spaces)
    requires Balanced(content)
    ensures CutUpTo(content, vars, [], 0, 0)
  {
    assert content[0..] == content && content[0..0] == "";
    assert "" + "" + Expand(content, vars) == Expand(content, vars);
  }

  lemma NoOpenBracket(content: string, vars: Spaces, pieces: seq<Piece>, j: nat, i: nat)
    requires Balanced(content) && CutUpTo(content, vars, pieces, j, i) && i < |content|
    ensures !First(content[i..]).Unclosed?
    ensures forall p <- pieces :: Fits(p)
  {
    hide First, Value, Expand;
  }

  lemma CutAtEnd(content: string, vars: Spaces, pieces: seq<Piece>, j: nat)
    requires Balanced(content) && CutUpTo(content, vars, pieces, j, |content|)
    ensures forall p <- pieces :: Fits(p)
    ensures var all := if j == |content| then pieces else pieces + [Cut(content[j..], |content| - j)];
            (forall p <- all :: Fits(p)) && Joined(all) == Expand(content, vars)
  {
    hide First, Value, Joined;
    var c := Cut(content[j..], |content| - j);
    assert content[|content|..] == "" && Expand("", vars) == "";
    assert Shown(c) == content[j..|content|];
    JoinedAppend(pieces, c);
    assert Joined(pieces) + content[j..|content|] + "" == Joined(pieces) + content[j..|content|];
    assert j == |content| ==> Joined(pieces) + "" == Joined(pieces);
  }

  lemma VarLengthIs(s: string, t: nat)
    requires t <= |s| && (forall k :: 0 <= k < t ==> IsVar(s[k])) && (t < |s| ==> !IsVar(s[t]))
    ensures VarLength(s) == t
  {
  }

  /** The two loops at the end: the size summed first is the length of the text built after. */
  method Join(result: seq<Piece>) returns (size: nat, text: string)
    requires forall p <- result :: Fits(p)
    ensures text == Joined(result) && size == |text|
  {
    size := 0;
    for k := 0 to |result|
      invariant k <= |result| && size == |Joined(result[..k])|
    {
      assert result[..k + 1] == result[..k] + [result[k]];
      JoinedAppend(result[..k], result[k]);
      size := size + (match result[k] case Text(v) => |v| case Cut(_, n) => n);
    }
    text := "";
    for k := 0 to |result|
      invariant text == Joined(result[..k])
    {
      assert result[..k + 1] == result[..k] + [result[k]];
      JoinedAppend(result[..k], result[k]);
      text := text + (match result[k] case Text(v) => v case Cut(chunk, n) => chunk[..n]);
    }
    assert result[..|result|] == result;
  }

  // ---------- laws ----------

  /** No token of a reaches into b: a does not end in a `$` that b's first character would turn
      into something, in an open bracket, or in a bare variable that b would go on with. */
  predicate EndsBefore(a: string, b: string)
    decreases |a|
  {
    a == ""
    || (!First(a).Unclosed?
        && (a == "$" ==> !IsVar(At(b, 0)) && At(b, 0) != '{' && At(b, 0) != '$')
        && (First(a).Variable? && a[1] != '{' && First(a).width == |a| ==> !IsVar(At(b, 0)))
        && EndsBefore(a[Width(First(a))..], b))
  }

  lemma {:induction false} ClosingExtends(a: string, b: string, depth: nat)
    requires Closing(a, depth).Some?
    ensures Closing(a + b, depth) == Closing(a, depth)
    decreases |a|
  {
    var d := if a[0] == '{' then depth + 1 else if a[0] == '}' && depth > 0 then depth - 1 else depth;
    if d != 0 {
      assert (a + b)[1..] == a[1..] + b;
      ClosingExtends(a[1..], b, d);
    }
  }

  lemma BareExtends(a: string, b: string)
    requires |a| > 1 && a[0] == '$' && IsVar(a[1]) && EndsBefore(a, b)
    ensures First(a + b) == First(a)
  {
    var ab := a + b;
    assert ab[1..] == a[1..] + b;
    BareName(a);
    var n := VarLength(a[1..]);
    VarLengthIs(ab[1..], n);
    assert ab[1..1 + n] == a[1..1 + n];
  }

  lemma BareName(a: string)
    requires |a| > 1 && a[0] == '$' && IsVar(a[1])
    ensures a[1] != '$' && a[1] != '{'
    ensures First(a) == Variable(1 + VarLength(a[1..]), a[1..1 + VarLength(a[1..])])
  {
  }

  lemma FirstExtends(a: string, b: string)
    requires a != "" && EndsBefore(a, b)
    ensures First(a + b) == First(a)
  {
    hide IsVar, VarLength;
    var ab := a + b;
    if a[0] == '$' && |a| > 1 {
      assert ab[1..] == a[1..] + b;
      if a[1] == '{' {
        ClosingExtends(a[1..], b, 0);
        ClosesInside(a[1..]);
        var t := Closing(a[1..], 0).value;
        assert ab[2..t] == a[2..t];
      } else if IsVar(a[1]) {
        BareExtends(a, b);
      }
    }
  }

  lemma WidthFits(s: string)
    requires s != ""
    ensures 1 <= Width(First(s)) <= |s|
  {
  }

  lemma MeaningExtends(a: string, b: string, vars: Spaces)
    requires a != "" && First(a + b) == First(a)
    ensures Meaning(a + b, vars) == Meaning(a, vars)
  {
    hide First;
  }

  /** The composition law. */
  lemma {:induction false} ExpandConcat(a: string, b: string, vars: Spaces)
    requires EndsBefore(a, b) && Balanced(b)
    ensures Balanced(a) && Balanced(a + b)
    ensures Expand(a + b, vars) == Expand(a, vars) + Expand(b, vars)
    decreases |a|
  {
    if a == "" {
      assert a + b == b;
      assert "" + Expand(b, vars) == Expand(b, vars);
    } else {
      FirstExtends(a, b);
      MeaningExtends(a, b, vars);
      WidthFits(a);
      hide First, Meaning, Value, Expand, Balanced;
      var w := Width(First(a));
      var rest := a[w..];
      ExpandConcat(rest, b, vars);
      ConcatStep(a, w, rest, b, vars);
    }
  }

  lemma ConcatStep(a: string, w: nat, rest: string, b: string, vars: Spaces)
    requires a != "" && !First(a).Unclosed? && w == Width(First(a)) && w <= |a| && rest == a[w..]
    requires First(a + b) == First(a) && Meaning(a + b, vars) == Meaning(a, vars)
    requires Balanced(rest) && Balanced(b) && Balanced(rest + b)
    requires Expand(rest + b, vars) == Expand(rest, vars) + Expand(b, vars)
    ensures Balanced(a) && Balanced(a + b)
    ensures Expand(a + b, vars) == Expand(a, vars) + Expand(b, vars)
  {
    hide First, Meaning, Value, Expand, Balanced;
    assert (a + b)[w..] == rest + b;
    BalancedStep(a, w, rest, vars);
    BalancedStep(a + b, w, rest + b, vars);
    var m, x, y := Meaning(a, vars), Expand(rest, vars), Expand(b, vars);
    assert m + (x + y) == m + x + y;
  }

  /** Every `$` doubled. */
  function Escaped(s: string): string {
    if s == "" then "" else (if s[0] == '$' then "$$" else [s[0]]) + Escaped(s[1..])
  }

  /** The escape round trip, whatever the variables. */
  lemma {:induction false} EscapeRoundTrip(s: string, vars: Spaces)
    ensures Balanced(Escaped(s)) && Expand(Escaped(s), vars) == s
  {
    if s != "" {
      var e := Escaped(s);
      var w := if s[0] == '$' then 2 else 1;
      assert e[w..] == Escaped(s[1..]);
      EscapeRoundTrip(s[1..], vars);
      assert s == [s[0]] + s[1..];
    }
  }

  // ---------- what a variable stands for ----------

  predicate Blank(s: string) {
    forall c <- s :: IsSpace(c)
  }

  /** No white space at either end. */
  predicate Tight(s: string) {
    s == "" || (!IsSpace(s[0]) && !IsSpace(s[|s| - 1]))
  }

  lemma {:induction false} LeadIs(a: string, s: string)
    requires Blank(a) && (s != "" ==> !IsSpace(s[0]))
    ensures Lead(a + s) == |a|
  {
    hide IsSpace;
    if a == "" {
      assert a + s == s;
    } else {
      assert a[0] in a && (a + s)[1..] == a[1..] + s;
      LeadIs(a[1..], s);
    }
  }

  lemma {:induction false} TrailIs(s: string, b: string)
    requires Blank(b) && (s != "" ==> !IsSpace(s[|s| - 1]))
    ensures Trail(s + b) == |b|
  {
    hide IsSpace;
    if b == "" {
      assert s + b == s;
    } else {
      assert b[|b| - 1] in b && (s + b)[..|s + b| - 1] == s + b[..|b| - 1];
      TrailIs(s, b[..|b| - 1]);
    }
  }

  /** White space around a text does not matter. */
  lemma TrimIs(a: string, s: string, b: string)
    requires Blank(a) && Blank(b) && Tight(s)
    ensures Trim(a + s + b) == s
  {
    hide IsSpace, Lead, Trail;
    var all := a + s + b;
    if s == "" {
      assert all == a + b == a + b + "";
      forall c <- a + b ensures IsSpace(c) {
      }
      LeadIs(a + b, "");
      assert all[|a + b|..] == "";
    } else {
      assert all == a + (s + b);
      LeadIs(a, s + b);
      assert all[|a|..] == s + b;
      TrailIs(s, b);
      assert (s + b)[..|s|] == s;
    }
  }

  lemma {:induction false} FirstColon(x: string, y: string)
    requires ':' !in x
    ensures Find(':', x + ":" + y) == |x|
  {
    if x == "" {
      assert (x + ":" + y)[0] == ':';
    } else {
      assert (x + ":" + y)[1..] == x[1..] + ":" + y;
      FirstColon(x[1..], y);
    }
  }

  /** The value of a variable `name` in the namespace `ns`: that of the first class of that name. */
  ghost predicate IsValue(value: string, ns: string, name: string, vars: Spaces) {
    && (forall k :: 0 <= k < |vars| && vars[k].name == ns && (forall j :: 0 <= j < k ==> vars[j].name != ns) ==>
          value == vars[k].get(name))
    && ((forall k :: 0 <= k < |vars| ==> vars[k].name != ns) ==> value == "{ NO NSPA }")
  }

  lemma {:induction false} FindsFirst(ns: string, name: string, vars: Spaces)
    ensures IsValue(FindInNext(ns, name, vars), ns, name, vars)
    decreases |vars|
  {
    if vars[0].name != ns && |vars| > 1 {
      var rest: Spaces := vars[1..];
      FindsFirst(ns, name, rest);
      var value := FindInNext(ns, name, rest);
      forall k | 0 <= k < |vars| && vars[k].name == ns && forall j :: 0 <= j < k ==> vars[j].name != ns
        ensures value == vars[k].get(name)
      {
        assert rest[k - 1] == vars[k];
        forall j | 0 <= j < k - 1 ensures rest[j].name != ns {
          assert rest[j] == vars[j + 1];
        }
      }
      if forall k :: 0 <= k < |vars| ==> vars[k].name != ns {
        forall k | 0 <= k < |rest| ensures rest[k].name != ns {
          assert rest[k] == vars[k + 1];
        }
      }
    }
  }

  /** The text between the brackets, with any white space. */
  function Spaced(a: string, ns: string, b: string, c: string, name: string, d: string): string {
    a + ns + b + ":" + c + name + d
  }

  lemma SpacedValue(a: string, ns: string, b: string, c: string, name: string, d: string, vars: Spaces)
    requires Blank(a) && Blank(b) && Blank(c) && Blank(d)
    requires Tight(ns) && Tight(name) && ':' !in ns
    ensures IsValue(Value(Spaced(a, ns, b, c, name, d), vars), ns, name, vars)
  {
    hide Trim, Find, IsSpace, IsValue, Blank, Tight;
    var x, y := if ns == "" then "" else ns + b, if name == "" then "" else c + name;
    var front, back := if ns == "" then a + b else a, if name == "" then c + d else d;
    var t := x + ":" + y;
    SpacedSplit(a, ns, b, c, name, d);
    BlankPair(a, b);
    BlankPair(c, d);
    MiddleTight(ns, b, c, name);
    TrimIs(front, t, back);
    NoColon(ns, b);
    FirstColon(x, y);
    assert t[..|x|] == x && t[|x| + 1..] == y;
    BlankNothing();
    if ns != "" {
      assert ns + b == "" + ns + b;
      TrimIs("", ns, b);
    } else {
      TrimIs("", "", "");
      assert "" + "" + "" == "";
    }
    if name != "" {
      assert c + name == c + name + "";
      TrimIs(c, name, "");
    } else {
      TrimIs("", "", "");
      assert "" + "" + "" == "";
    }
    FindsFirst(ns, name, vars);
  }

  lemma SpacedSplit(a: string, ns: string, b: string, c: string, name: string, d: string)
    ensures var x, y := if ns == "" then "" else ns + b, if name == "" then "" else c + name;
            var front, back := if ns == "" then a + b else a, if name == "" then c + d else d;
            Spaced(a, ns, b, c, name, d) == front + (x + ":" + y) + back
  {
    if ns == "" {
      assert a + ns + b == a + b + "";
    }
  }

  lemma BlankPair(a: string, b: string)
    requires Blank(a) && Blank(b)
    ensures Blank(a + b)
  {
    hide IsSpace;
  }

  lemma BlankNothing()
    ensures Blank("") && Tight("")
  {
  }

  lemma MiddleTight(ns: string, b: string, c: string, name: string)
    requires Tight(ns) && Tight(name)
    ensures Tight((if ns == "" then "" else ns + b) + ":" + (if name == "" then "" else c + name))
  {
    var t := (if ns == "" then "" else ns + b) + ":" + (if name == "" then "" else c + name);
    assert t[0] == (if ns == "" then ':' else ns[0]);
    assert t[|t| - 1] == (if name == "" then ':' else name[|name| - 1]);
  }

  lemma NoColon(ns: string, b: string)
    requires ':' !in ns && Blank(b)
    ensures ':' !in ns + b
  {
    assert !IsSpace(':');
  }

  predicate Flat(s: string) {
    '{' !in s && '}' !in s
  }

  /** How many brackets a text leaves open; less than none when it closes more than it opens. */
  function Opens(s: string): int {
    if s == "" then 0
    else Opens(s[1..]) + (if s[0] == '{' then 1 else if s[0] == '}' then -1 else 0)
  }

  /** Every bracket that a text closes was opened in it. */
  predicate NeverBelow(s: string, open: nat) {
    forall k :: 0 <= k <= |s| ==> open + Opens(s[..k]) >= 0
  }

  /** Brackets in pairs. */
  predicate Nested(s: string) {
    Opens(s) == 0 && NeverBelow(s, 0)
  }

  lemma {:induction false} FlatNested(s: string)
    requires Flat(s)
    ensures Nested(s)
    decreases |s|
  {
    FlatOpens(s);
    forall k | 0 <= k <= |s| ensures Opens(s[..k]) == 0 {
      FlatOpens(s[..k]);
    }
  }

  lemma {:induction false} FlatOpens(s: string)
    requires Flat(s)
    ensures Opens(s) == 0
  {
    if s != "" {
      FlatOpens(s[1..]);
    }
  }

  lemma BelowTail(s: string, open: nat)
    requires s != "" && NeverBelow(s, open)
    ensures var d := open + Opens(s[..1]); d >= 0 && NeverBelow(s[1..], d) && d + Opens(s[1..]) == open + Opens(s)
  {
    var d := open + Opens(s[..1]);
    assert s[..1][1..] == "";
    forall k | 0 <= k <= |s[1..]| ensures d + Opens(s[1..][..k]) >= 0 {
      assert s[..k + 1][1..] == s[1..][..k];
      assert open + Opens(s[..k + 1]) >= 0;
    }
  }

  /** The bracket is closed behind a text that is nested in it. */
  lemma {:induction false} ClosingNested(raw: string, tail: string, open: nat)
    requires NeverBelow(raw, open) && open + Opens(raw) == 0
    ensures Closing(raw + "}" + tail, open + 1) == Some(|raw| + 1)
    decreases |raw|
  {
    var s := raw + "}" + tail;
    if raw == "" {
      assert s[0] == '}';
    } else {
      assert s[1..] == raw[1..] + "}" + tail && s[0] == raw[0];
      BelowTail(raw, open);
      assert raw[..1][1..] == "";
      ClosingNested(raw[1..], tail, open + Opens(raw[..1]));
    }
  }

  /** A bracket that nothing closes has no end. */
  lemma {:induction false} NeverClosed(s: string, open: nat)
    requires NeverBelow(s, open)
    ensures Closing(s, open + 1) == None
    decreases |s|
  {
    if s != "" {
      BelowTail(s, open);
      assert s[..1][1..] == "";
      NeverClosed(s[1..], open + Opens(s[..1]));
    }
  }

  lemma BracketFirst(raw: string, rest: string)
    requires Nested(raw)
    ensures First("${" + raw + "}" + rest) == Variable(|raw| + 3, raw)
  {
    hide Closing;
    var s := "${" + raw + "}" + rest;
    assert s[0] == '$' && s[1] == '{';
    var t := raw + "}" + rest;
    assert s[1..] == "{" + t;
    ClosingNested(raw, rest, 0);
    BracketOpens(t);
    assert s[2..|raw| + 2] == raw;
  }

  lemma BracketOpens(t: string)
    requires Closing(t, 1).Some?
    ensures Closing("{" + t, 0) == Some(Closing(t, 1).value + 1)
  {
    assert ("{" + t)[1..] == t;
  }

  /** A bracketed variable in front of a text stands for the value of what is in the brackets. */
  lemma BracketsStandFor(raw: string, rest: string, vars: Spaces)
    requires Nested(raw) && Balanced(rest)
    ensures var s := "${" + raw + "}" + rest;
            Balanced(s) && Expand(s, vars) == Value(raw, vars) + Expand(rest, vars)
  {
    hide First, Value, Nested, Balanced, Expand;
    var s := "${" + raw + "}" + rest;
    BracketFirst(raw, rest);
    assert s[|raw| + 3..] == rest;
    BalancedStep(s, |raw| + 3, rest, vars);
  }

  /** And one that is never closed makes a text that cannot be resolved. */
  lemma OpenBracket(raw: string)
    requires NeverBelow(raw, 0)
    ensures !Balanced("${" + raw)
  {
    var s := "${" + raw;
    assert s[0] == '$' && s[1] == '{' && s[1..] == "{" + raw && s[1..][1..] == raw;
    NeverClosed(raw, 0);
  }

  /** `${ ns : name }`, with any white space, is the variable `name` of the first class called
      `ns`, and what follows it is resolved as it would be alone. */
  lemma QualifiedStandsFor(a: string, ns: string, b: string, c: string, name: string, d: string,
                           rest: string, vars: Spaces)
    requires Blank(a) && Blank(b) && Blank(c) && Blank(d)
    requires Tight(ns) && Tight(name) && ':' !in ns && Flat(ns) && Flat(name) && Balanced(rest)
    ensures var s := "${" + Spaced(a, ns, b, c, name, d) + "}" + rest;
            && Balanced(s)
            && exists value :: IsValue(value, ns, name, vars) && Expand(s, vars) == value + Expand(rest, vars)
  {
    hide Value, IsValue, Expand, Balanced, IsSpace, Tight, Nested;
    SpacedValue(a, ns, b, c, name, d, vars);
    BlankFlat(a);
    BlankFlat(b);
    BlankFlat(c);
    BlankFlat(d);
    FlatNested(Spaced(a, ns, b, c, name, d));
    BracketsStandFor(Spaced(a, ns, b, c, name, d), rest, vars);
  }

  lemma BlankFlat(a: string)
    requires Blank(a)
    ensures Flat(a)
  {
    assert !IsSpace('{') && !IsSpace('}');
  }

  /** Without a colon it is the variable of the first class of all. */
  lemma UnqualifiedStandsFor(a: string, name: string, d: string, rest: string, vars: Spaces)
    requires Blank(a) && Blank(d) && Tight(name) && ':' !in name && Flat(name) && Balanced(rest)
    ensures var s := "${" + (a + name + d) + "}" + rest;
            Balanced(s) && Expand(s, vars) == vars[0].get(name) + Expand(rest, vars)
  {
    hide Expand, Balanced, IsSpace, Trim, Tight, Blank, Find, Nested;
    TrimIs(a, name, d);
    BlankFlat(a);
    BlankFlat(d);
    FlatNested(a + name + d);
    BracketsStandFor(a + name + d, rest, vars);
  }

  /** Names made of these characters need no brackets, where no such character follows. */
  const NAME_CHARS: string := DIGITS + UPPER + LOWER + ":_"

  lemma NameChars(c: char)
    ensures IsVar(c) <==> c in NAME_CHARS
  {
    AlnumExactly(c);
    hide IsAlnum;
    assert c in ":_" <==> c == ':' || c == '_';
  }

  /** The bare form means what the bracketed form means. */
  lemma BareStandsFor(raw: string, rest: string, vars: Spaces)
    requires raw != "" && (forall c <- raw :: c in NAME_CHARS) && (rest != "" ==> rest[0] !in NAME_CHARS)
    requires Balanced(rest)
    ensures Balanced("$" + raw + rest) && Balanced("${" + raw + "}" + rest)
    ensures Expand("$" + raw + rest, vars) == Expand("${" + raw + "}" + rest, vars)
  {
    hide IsAlnum;
    var s := "$" + raw + rest;
    forall k | 0 <= k < |raw| ensures IsVar(s[1..][k]) {
      assert s[1..][k] == raw[k] && raw[k] in raw;
      NameChars(raw[k]);
    }
    if rest != "" {
      NameChars(rest[0]);
      assert s[1..][|raw|] == rest[0];
    }
    VarLengthIs(s[1..], |raw|);
    assert s[1] == raw[0] && s[0] == '$';
    assert s[1..1 + |raw|] == raw && s[1 + |raw|..] == rest;
    NotVar();
    assert First(s) == Variable(1 + |raw|, raw);
    NameFlat(raw);
    FlatNested(raw);
    BracketsStandFor(raw, rest, vars);
    hide First, Value;
    BalancedStep(s, 1 + |raw|, rest, vars);
  }

  lemma NotVar()
    ensures !IsVar('$') && !IsVar('{') && !IsVar('}')
  {
  }

  lemma NameFlat(raw: string)
    requires forall c <- raw :: c in NAME_CHARS
    ensures Flat(raw)
  {
    NameChars('{');
    NameChars('}');
    NotVar();
  }

  /** A dollar sign before anything else stands for itself. */
  lemma LoneDollar(rest: string, vars: Spaces)
    requires Balanced(rest) && (rest != "" ==> rest[0] !in NAME_CHARS && rest[0] != '$' && rest[0] != '{')
    ensures Balanced("$" + rest) && Expand("$" + rest, vars) == "$" + Expand(rest, vars)
  {
    var s := "$" + rest;
    assert s[0] == '$' && s[1..] == rest;
    if rest != "" {
      NameChars(rest[0]);
      assert s[1] == rest[0];
    }
    assert First(s) == Plain;
    hide First, Value;
    BalancedStep(s, 1, rest, vars);
  }

  lemma PlainFirst(s: string, vars: Spaces)
    requires s != "" && s[0] != '$' && Balanced(s[1..])
    ensures Balanced(s) && Expand(s, vars) == [s[0]] + Expand(s[1..], vars)
  {
    hide Balanced, Expand;
    assert First(s) == Plain;
    BalancedStep(s, 1, s[1..], vars);
  }

  /** Text without a dollar sign stands for itself. */
  lemma {:induction false} PlainText(a: string, rest: string, vars: Spaces)
    requires '$' !in a && Balanced(rest)
    ensures Balanced(a + rest) && Expand(a + rest, vars) == a + Expand(rest, vars)
  {
    hide Balanced, Expand, First;
    var x := Expand(rest, vars);
    if a == "" {
      assert a + rest == rest && "" + x == x;
    } else {
      var s := a + rest;
      assert s[0] == a[0] && s[1..] == a[1..] + rest;
      PlainText(a[1..], rest, vars);
      PlainFirst(s, vars);
      assert a == [a[0]] + a[1..];
      assert [a[0]] + (a[1..] + x) == [a[0]] + a[1..] + x;
    }
  }

  lemma Nothing(vars: Spaces)
    ensures Balanced("") && Expand("", vars) == ""
  {
  }

  lemma SampleParts()
    ensures Blank(" ") && Blank("") && Tight("hs") && Tight("port")
    ensures Flat("hs") && Flat("port") && ':' !in "hs" && '$' !in "lol " && '$' !in " kek"
  {
  }

  lemma SampleSpelled()
    ensures "lol " + ("${" + Spaced(" ", "hs", "", "", "port", " ") + "}" + " kek") == "lol ${ hs:port } kek"
  {
  }

  /** One text with a variable in it. */
  lemma SampleText(vars: Spaces, k: nat)
    requires k < |vars| && vars[k].name == "hs" && forall j :: 0 <= j < k ==> vars[j].name != "hs"
    ensures var s := "lol ${ hs:port } kek";
            Balanced(s) && Expand(s, vars) == "lol " + (vars[k].get("port") + " kek")
  {
    hide Expand, Balanced, Spaced, Blank, Tight, Flat;
    SampleParts();
    SampleSpelled();
    Nothing(vars);
    PlainText(" kek", "", vars);
    assert " kek" + "" == " kek";
    QualifiedStandsFor(" ", "hs", "", "", "port", " ", " kek", vars);
    PlainText("lol ", "${" + Spaced(" ", "hs", "", "", "port", " ") + "}" + " kek", vars);
  }
}
