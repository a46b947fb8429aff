/**
  Substitution of {{variables}} in a line, linesubst in helpers.py.

  Values are text already; the conversion of numbers and the log messages are left out.
 */
module LineSubst {

  /** A line is made of characters to keep and references to variables. */
  datatype Token = Lit(c: char) | Var(name: string)

  function Value(variables: map<string, string>, t: Token): string {
    match t
    case Lit(c) => [c]
    case Var(name) => if name in variables then variables[name] else ""
  }

  function Subst(tokens: seq<Token>, variables: map<string, string>): string {
    if tokens == [] then "" else Value(variables, tokens[0]) + Subst(tokens[1..], variables)
  }

  // ---- What a line says ----

  predicate Begins(s: string, a: char, b: char) { |s| >= 2 && s[0] == a && s[1] == b }

  /** The name up to the next unescaped "}}", and what follows; a single '}' is part of it. */
  function ScanName(s: string): (r: (bool, string, string))
    ensures r.0 ==> |r.2| < |s|
  {
    if s == "" then (false, "", "")
    else if Begins(s, '}', '}') then (true, "", s[2..])
    else if s[0] == '\\' then
      if |s| == 1 then (false, "", "")
      else var (found, name, rest) := ScanName(s[2..]); (found, [s[1]] + name, rest)
    else var (found, name, rest) := ScanName(s[1..]); (found, [s[0]] + name, rest)
  }

  /** A backslash keeps the next character, "{{" starts a reference, every other character
      stands for itself; what is unfinished at the end of the line is dropped. */
  function Parse(s: string): seq<Token>
    decreases |s|
  {
    if s == "" then []
    else if s[0] == '\\' then if |s| == 1 then [] else [Lit(s[1])] + Parse(s[2..])
    else if Begins(s, '{', '{') then
      var (found, name, rest) := ScanName(s[2..]);
      if found then [Var(name)] + Parse(rest) else []
    else if s == "{" then []
    else [Lit(s[0])] + Parse(s[1..])
  }

  /** Lines that are returned as they are. */
  predicate Trivial(line: string) {
    '\\' !in line && forall i :: 0 <= i < |line| - 1 ==> !(line[i] == '{' && line[i + 1] == '{')
  }

  function Result(line: string, variables: map<string, string>): string {
    if Trivial(line) then line else Subst(Parse(line), variables)
  }

  // ---- Printing and reading back ----

  function Escape(s: string, special: char): string {
    if s == "" then ""
    else (if s[0] == '\\' || s[0] == special then ['\\', s[0]] else [s[0]]) + Escape(s[1..], special)
  }

  function PrintToken(t: Token): string {
    match t
    case Lit(c) => Escape([c], '{')
    case Var(name) => "{{" + Escape(name, '}') + "}}"
  }

  function Print(tokens: seq<Token>): string {
    if tokens == [] then "" else PrintToken(tokens[0]) + Print(tokens[1..])
  }

  lemma {:induction false} ScanEscaped(name: string, rest: string)
    ensures ScanName(Escape(name, '}') + "}}" + rest) == (true, name, rest)
  {
    var s := Escape(name, '}') + "}}" + rest;
    assert name != "" ==>
        Escape(name, '}')
        == (if name[0] == '\\' || name[0] == '}' then ['\\', name[0]] else [name[0]]) + Escape(name[1..], '}');
    if name == "" {
      assert s == "}}" + rest && s[2..] == rest;
    } else {
      ScanEscaped(name[1..], rest);
      hide Escape;
      var tail := Escape(name[1..], '}') + "}}" + rest;
      assert [name[0]] + name[1..] == name;
      if name[0] == '\\' || name[0] == '}' {
        assert s == ['\\', name[0]] + tail && s[2..] == tail;
      } else {
        assert s == [name[0]] + tail && s[1..] == tail;
      }
    }
  }

  lemma ParseLit(c: char, rest: string)
    ensures Parse(PrintToken(Lit(c)) + rest) == [Lit(c)] + Parse(rest)
  {
    var s := PrintToken(Lit(c)) + rest;
    assert [c][1..] == "" && Escape("", '{') == "";
    if c == '\\' || c == '{' {
      assert s == ['\\', c] + rest && s[2..] == rest;
    } else {
      assert s == [c] + rest && s[1..] == rest;
    }
  }

  lemma ParseVar(name: string, rest: string)
    ensures Parse(PrintToken(Var(name)) + rest) == [Var(name)] + Parse(rest)
  {
    var inner := Escape(name, '}') + "}}" + rest;
    var s := PrintToken(Var(name)) + rest;
    hide Escape;
    assert s == "{{" + inner && s[2..] == inner;
    ScanEscaped(name, rest);
  }

  lemma ParseToken(t: Token, rest: string)
    ensures Parse(PrintToken(t) + rest) == [t] + Parse(rest)
  {
    hide Parse;
    hide PrintToken;
    match t
    case Lit(c) => ParseLit(c, rest);
    case Var(name) => ParseVar(name, rest);
  }

  /** Any sequence of characters and references can be written, and is read back. */
  lemma {:induction false} ParsePrinted(tokens: seq<Token>)
    ensures Parse(Print(tokens)) == tokens
  {
    if tokens != [] {
      ParseToken(tokens[0], Print(tokens[1..]));
      ParsePrinted(tokens[1..]);
      assert [tokens[0]] + tokens[1..] == tokens;
    }
  }

  // ---- The early return ----

  /** A line that is returned as it is reads as its own characters, but for a '{' at the end. */
  lemma {:induction false} TrivialParse(line: string, variables: map<string, string>)
    requires Trivial(line)
    ensures Subst(Parse(line), variables) == if line != "" && line[|line| - 1] == '{' then line[..|line| - 1] else line
  {
    if line != "" && line != "{" {
      var rest := line[1..];
      assert Trivial(rest) by { forall i | 0 <= i < |rest| ensures rest[i] == line[i + 1] {} }
      TrivialParse(rest, variables);
      assert Parse(line) == [Lit(line[0])] + Parse(rest);
      assert ([Lit(line[0])] + Parse(rest))[1..] == Parse(rest);
      assert rest != "" ==> rest[|rest| - 1] == line[|line| - 1];
      assert line == [line[0]] + rest;
      assert |line| > 1 ==> line[..|line| - 1] == [line[0]] + rest[..|rest| - 1];
    }
  }

  /** The early return and the state machine agree exactly on the lines that do not end in a
      brace the machine would drop. */
  lemma EarlyReturnIff(line: string, variables: map<string, string>)
    ensures Result(line, variables) == Subst(Parse(line), variables)
      <==> !(Trivial(line) && line != "" && line[|line| - 1] == '{')
  {
    if Trivial(line) { TrivialParse(line, variables); }
  }

  /** The same brace at the end is kept by one path and dropped by the other. */
  lemma PendingBrace()
    ensures Result("a{", map[]) == "a{"
    ensures Result("\\a{", map[]) == "a"
  {
  }

  lemma TokenMark(t: Token)
    ensures '{' in PrintToken(t) ==> '\\' in PrintToken(t) || Begins(PrintToken(t), '{', '{')
  {
    if t.Lit? { assert [t.c][1..] == "" && Escape("", '{') == ""; }
  }

  lemma TrivialParts(a: string, b: string)
    requires Trivial(a + b)
    ensures Trivial(a) && Trivial(b)
  {
    var s := a + b;
    assert forall i :: 0 <= i < |a| ==> s[i] == a[i];
    assert forall i :: 0 <= i < |b| ==> s[|a| + i] == b[i];
  }

  /** A printed line with a brace shows it: it is not returned as it is. */
  lemma {:induction false} PrintedNoBrace(tokens: seq<Token>)
    requires Trivial(Print(tokens))
    ensures '{' !in Print(tokens)
  {
    if tokens != [] {
      TrivialParts(PrintToken(tokens[0]), Print(tokens[1..]));
      PrintedNoBrace(tokens[1..]);
      TokenMark(tokens[0]);
    }
  }

  /** A printed line gives the text with the values in place of the references. */
  lemma PrintedSubst(tokens: seq<Token>, variables: map<string, string>)
    ensures Result(Print(tokens), variables) == Subst(tokens, variables)
  {
    ParsePrinted(tokens);
    if Trivial(Print(tokens)) {
      PrintedNoBrace(tokens);
      TrivialParse(Print(tokens), variables);
    }
  }

  // ---- The state machine ----

  datatype State = NORM | ONE | TWO | LIT | TLIT | TERM

  /** The tokens a line still gives from a state, cur being the name read so far. */
  function Resume(st: State, cur: string, s: string): seq<Token> {
    match st
    case NORM => Parse(s)
    case LIT => if s == "" then [] else [Lit(s[0])] + Parse(s[1..])
    case ONE => Parse("{" + s)
    case TWO => ResumeName(cur, s)
    case TLIT => if s == "" then [] else ResumeName(cur + [s[0]], s[1..])
    case TERM => ResumeName(cur, "}" + s)
  }

  function ResumeName(cur: string, s: string): seq<Token> {
    var (found, name, rest) := ScanName(s);
    if found then [Var(cur + name)] + Parse(rest) else []
  }

  lemma {:induction false} SubstMore(a: seq<Token>, b: seq<Token>, variables: map<string, string>)
    ensures Subst(a + b, variables) == Subst(a, variables) + Subst(b, variables)
  {
    if a == [] {
      assert a + b == b;
    } else {
      assert (a + b)[1..] == a[1..] + b;
      SubstMore(a[1..], b, variables);
    }
  }

  lemma ScanStep(cur: string, c: char, s: string)
    requires c != '\\' && c != '}'
    ensures ResumeName(cur, [c] + s) == ResumeName(cur + [c], s)
  {
    assert ([c] + s)[1..] == s;
    assert cur + ([c] + ScanName(s).1) == cur + [c] + ScanName(s).1;
  }

  lemma ScanEscape(cur: string, c: char, s: string)
    ensures ResumeName(cur, ['\\', c] + s) == ResumeName(cur + [c], s)
  {
    assert (['\\', c] + s)[2..] == s;
    assert cur + ([c] + ScanName(s).1) == cur + [c] + ScanName(s).1;
  }

  /** A '}' that is not doubled is part of the name. */
  lemma ScanBrace(cur: string, s: string)
    requires s != "" && s[0] != '}'
    ensures ResumeName(cur, "}" + s) == ResumeName(cur + "}", s)
  {
    assert ("}" + s)[1..] == s && ("}" + s)[1] == s[0];
    assert cur + (['}'] + ScanName(s).1) == cur + "}" + ScanName(s).1;
  }

  /** One turn of the machine: the tokens it completes, the next state and the name so far. */
  function Turn(st: State, cur: string, c: char): (seq<Token>, State, string) {
    match st
    case NORM => if c == '{' then ([], ONE, cur) else if c == '\\' then ([], LIT, cur) else ([Lit(c)], NORM, cur)
    case LIT => ([Lit(c)], NORM, cur)
    case ONE =>
      if c == '{' then ([], TWO, cur)
      else if c == '\\' then ([Lit('{')], LIT, cur)
      else ([Lit('{'), Lit(c)], NORM, cur)
    case TWO => if c == '\\' then ([], TLIT, cur) else if c == '}' then ([], TERM, cur) else ([], TWO, cur + [c])
    case TLIT => ([], TWO, cur + [c])
    case TERM =>
      if c == '}' then ([Var(cur)], NORM, "")
      else if c == '\\' then ([], TLIT, cur + "}")
      else ([], TWO, cur + "}" + [c])
  }

  ghost predicate NameOnlyInside(st: State, cur: string) { st == NORM || st == ONE || st == LIT ==> cur == "" }

  /** A turn gives what the line says. */
  lemma TurnIs(st: State, cur: string, c: char, s: string)
    requires NameOnlyInside(st, cur)
    ensures var (given, next, name) := Turn(st, cur, c);
            Resume(st, cur, [c] + s) == given + Resume(next, name, s) && NameOnlyInside(next, name)
  {
    var line := [c] + s;
    assert line[1..] == s;
    match st
    case NORM => PlainTurn(c, s);
    case LIT =>
    case ONE => BraceTurn(c, s);
    case TWO =>
      if c == '\\' {
        if s != "" { ScanEscape(cur, s[0], s[1..]); assert line == ['\\', s[0]] + s[1..]; }
      } else if c != '}' {
        ScanStep(cur, c, s);
      }
    case TLIT =>
    case TERM => TermTurn(cur, c, s);
  }

  lemma PlainTurn(c: char, s: string)
    ensures var (given, next, name) := Turn(NORM, "", c); Parse([c] + s) == given + Resume(next, name, s)
  {
    var line := [c] + s;
    assert line[1..] == s;
    if c == '\\' {
      if s != "" { assert line[2..] == s[1..]; }
    } else if c == '{' {
      assert line == "{" + s;
    } else {
      assert line[0] == c && !Begins(line, '{', '{');
    }
  }

  lemma SecondBrace(s: string)
    ensures var (given, next, name) := Turn(ONE, "", '{'); Parse("{{" + s) == given + Resume(next, name, s)
  {
    assert ("{{" + s)[2..] == s;
    assert "" + ScanName(s).1 == ScanName(s).1;
  }

  lemma OneBrace(c: char, s: string)
    requires c != '{'
    ensures Parse("{" + ([c] + s)) == [Lit('{')] + Parse([c] + s)
  {
    var line := "{" + ([c] + s);
    assert line[1..] == [c] + s && line[1] == c;
  }

  lemma BraceTurn(c: char, s: string)
    ensures var (given, next, name) := Turn(ONE, "", c); Parse("{" + ([c] + s)) == given + Resume(next, name, s)
  {
    if c == '{' {
      SecondBrace(s);
      assert "{" + ([c] + s) == "{{" + s;
    } else {
      OneBrace(c, s);
      PlainTurn(c, s);
      hide Parse;
      assert c != '\\' ==> [Lit('{')] + ([Lit(c)] + Parse(s)) == [Lit('{'), Lit(c)] + Parse(s);
    }
  }

  lemma TermTurn(cur: string, c: char, s: string)
    ensures var (given, next, name) := Turn(TERM, cur, c);
            ResumeName(cur, "}" + ([c] + s)) == given + Resume(next, name, s)
  {
    var line := "}" + ([c] + s);
    assert line[1] == c && line[2..] == s;
    if c == '}' {
      assert ScanName(line) == (true, "", s);
      assert cur + "" == cur;
    } else {
      ScanBrace(cur, [c] + s);
      if c == '\\' {
        if s != "" { ScanEscape(cur + "}", s[0], s[1..]); assert [c] + s == ['\\', s[0]] + s[1..]; }
      } else {
        ScanStep(cur + "}", c, s);
      }
    }
  }

  lemma AtStart(line: string)
    ensures Resume(NORM, "", line) == Parse(line)
  {
  }

  lemma AtEnd(st: State, cur: string)
    ensures Resume(st, cur, "") == []
  {
  }

  lemma Ends(variables: map<string, string>)
    ensures Subst([], variables) == ""
  {
  }

  lemma SubstFew(ts: seq<Token>, variables: map<string, string>)
    ensures |ts| == 0 ==> Subst(ts, variables) == ""
    ensures |ts| == 1 ==> Subst(ts, variables) == Value(variables, ts[0])
    ensures |ts| == 2 ==> Subst(ts, variables) == Value(variables, ts[0]) + Value(variables, ts[1])
  {
  }

  /** linesubst, one character after the other. */
  method Substitute(line: string, variables: map<string, string>) returns (out: string)
    ensures out == Result(line, variables)
  {
    hide Parse;
    hide Resume;
    hide Subst;
    if Trivial(line) { return line; }
    var st, curvar := NORM, "";
    out := "";
    ghost var done: seq<Token> := [];
    Ends(variables);
    assert line[0..] == line && [] + Parse(line) == Parse(line);
    assert Resume(st, curvar, line) == Parse(line) by { AtStart(line); }
    for i := 0 to |line|
      invariant NameOnlyInside(st, curvar)
      invariant out == Subst(done, variables)
      invariant done + Resume(st, curvar, line[i..]) == Parse(line)
    {
      var c := line[i];
      ghost var rest := line[i + 1..];
      assert line[i..] == [c] + rest;
      ghost var (given, next, name) := Turn(st, curvar, c);
      TurnIs(st, curvar, c, rest);
      assert (done + given) + Resume(next, name, rest) == done + (given + Resume(next, name, rest));
      SubstMore(done, given, variables);
      SubstFew(given, variables);
      match st {
        case NORM =>
          if c == '{' { st := ONE; }
          else if c == '\\' { st := LIT; }
          else { out := out + [c]; }
        case LIT =>
          out := out + [c];
          st := NORM;
        case ONE =>
          if c == '{' { st := TWO; }
          else if c == '\\' { out := out + "{"; st := LIT; }
          else { out := out + ("{" + [c]); st := NORM; }
        case TWO =>
          if c == '\\' { st := TLIT; }
          else if c == '}' { st := TERM; }
          else { curvar := curvar + [c]; }
        case TLIT =>
          curvar := curvar + [c];
          st := TWO;
        case TERM =>
          if c == '}' {
            if curvar in variables { out := out + variables[curvar]; }
            curvar := "";
            st := NORM;
          } else if c == '\\' {
            curvar := curvar + "}";
            st := TLIT;
          } else {
            curvar := curvar + "}" + [c];
            st := TWO;
          }
      }
      assert (st, curvar) == (next, name);
      done := done + given;
    }
    assert line[|line|..] == "";
    AtEnd(st, curvar);
    assert done + [] == done;
  }

  // ---- Any line ----

  /** A reference gives the variable's value, or nothing if there is no such variable. */
  lemma SubstFirst(c: char, name: string, ts: seq<Token>, variables: map<string, string>)
    ensures Subst([Lit(c)] + ts, variables) == [c] + Subst(ts, variables)
    ensures name in variables ==> Subst([Var(name)] + ts, variables) == variables[name] + Subst(ts, variables)
    ensures name !in variables ==> Subst([Var(name)] + ts, variables) == Subst(ts, variables)
    ensures Subst([], variables) == ""
  {
    assert ([Lit(c)] + ts)[1..] == ts && ([Var(name)] + ts)[1..] == ts;
  }

  /** A backslash keeps any character, a brace that is not doubled stands for itself, and what is
      unfinished at the end is dropped. */
  lemma ReadFirst(c: char, s: string)
    ensures Parse(['\\', c] + s) == [Lit(c)] + Parse(s)
    ensures c != '{' ==> Parse(['{', c] + s) == [Lit('{')] + Parse([c] + s)
    ensures c != '{' && c != '\\' ==> Parse([c] + s) == [Lit(c)] + Parse(s)
    ensures Parse("") == [] && Parse("{") == [] && Parse("\\") == []
  {
    assert (['\\', c] + s)[2..] == s && ([c] + s)[1..] == s && (['{', c] + s)[1..] == [c] + s;
  }

  /** In a name too: a brace that is not doubled is part of it. */
  predicate NameText(name: string) {
    '\\' !in name && (forall i :: 0 <= i < |name| - 1 ==> !(name[i] == '}' && name[i + 1] == '}'))
    && (name != "" ==> name[|name| - 1] != '}')
  }

  lemma {:induction false} NameRead(name: string, s: string)
    requires NameText(name)
    ensures ScanName(name + "}}" + s) == (true, name, s)
    decreases name
  {
    var line := name + "}}" + s;
    if name == "" {
      assert line[2..] == s;
    } else {
      var rest := name[1..];
      assert forall i :: 0 <= i < |rest| ==> rest[i] == name[i + 1];
      assert name == [name[0]] + rest;
      NameRead(rest, s);
      assert line[1..] == rest + "}}" + s && line[0] == name[0];
      assert |name| == 1 ==> line[1] == '}';
      assert |name| > 1 ==> line[1] == name[1];
      assert [name[0]] + rest == name;
    }
  }

  lemma ReferenceRead(name: string, s: string)
    requires NameText(name)
    ensures Parse("{{" + name + "}}" + s) == [Var(name)] + Parse(s)
  {
    NameRead(name, s);
    var inner := name + "}}" + s;
    var line := "{{" + name + "}}" + s;
    assert line == "{{" + inner && line[2..] == inner;
  }

  /** A name that is not ended loses the rest of the line. */
  lemma {:induction false} NameUnfinished(name: string)
    requires forall i :: 0 <= i < |name| - 1 ==> !(name[i] == '}' && name[i + 1] == '}')
    requires '\\' !in name
    ensures !ScanName(name).0 && Parse("{{" + name) == []
    decreases name
  {
    assert ("{{" + name)[2..] == name;
    if name != "" {
      var rest := name[1..];
      assert forall i :: 0 <= i < |rest| ==> rest[i] == name[i + 1];
      assert name == [name[0]] + rest;
      NameUnfinished(rest);
    }
  }
}
