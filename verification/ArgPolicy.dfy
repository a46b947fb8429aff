/**
  Argument policies, argpolicy.py: which literal argument lists a policy lets through.

  full(pattern, value) stands for the verdict of the regular expression engine within its
  deadline.  Digits and letters are the ASCII ones.
 */
module ArgPolicy {
  import opened Wrappers
  import opened Strings

  // ---- Names and option tokens ----

  predicate Letter(c: char) { 'a' <= c <= 'z' || 'A' <= c <= 'Z' }
  predicate Digit(c: char) { '0' <= c <= '9' }
  predicate NameChar(c: char) { Letter(c) || Digit(c) || c == '_' || c == '-' }

  predicate Word(s: string) { s != "" && Letter(s[0]) && AllOf(s, NameChar) }

  predicate StartsWith(s: string, p: string) { p <= s }

  /** OPTION_NAME: a word, alone or after one or two dashes. */
  predicate OptionName(s: string) {
    Word(s) || (StartsWith(s, "-") && Word(s[1..])) || (StartsWith(s, "--") && Word(s[2..]))
  }

  /** option_name, None for the PolicyError */
  function Normalize(s: string): Option<string> {
    if !OptionName(s) then None else if StartsWith(s, "-") then Some(s) else Some("--" + s)
  }

  /** NEGATIVE_NUMBER */
  predicate NegativeNumber(s: string) {
    StartsWith(s, "-") &&
    var (whole, rest) := Span(s[1..], Digit);
    whole != "" && (rest == "" || (rest[0] == '.' && rest != "." && AllOf(rest[1..], Digit)))
  }

  /** _option */
  predicate IsOption(token: string) { StartsWith(token, "-") && token != "-" && !NegativeNumber(token) }

  predicate NotEquals(c: char) { c != '=' }

  /** token.partition('='): what follows a '=' is the attached value. */
  function Partition(token: string): (string, Option<string>) {
    var (name, rest) := Span(token, NotEquals);
    (name, if rest == "" then None else Some(rest[1..]))
  }

  function Token(name: string, attached: Option<string>): string {
    if attached.Some? then name + ("=" + attached.value) else name
  }

  lemma TokenRound(token: string)
    ensures Token(Partition(token).0, Partition(token).1) == token && '=' !in Partition(token).0
  {
  }

  lemma PartitionRound(name: string, attached: Option<string>)
    requires '=' !in name
    ensures Partition(Token(name, attached)) == (name, attached)
  {
    if attached.Some? {
      SpanIs(name, "=" + attached.value, NotEquals);
      assert ("=" + attached.value)[1..] == attached.value;
    } else {
      SpanIs(name, "", NotEquals);
      assert name + "" == name;
    }
  }

  /** The names a compiled policy holds. */
  predicate Normal(name: string) { Normalize(name) == Some(name) }

  lemma NormalizeGivesNormal(s: string)
    requires Normalize(s).Some?
    ensures Normal(Normalize(s).value)
  {
  }

  /** A token with a normal name is an option, whatever is attached, and has no '=' in it. */
  lemma NormalIsOption(name: string, attached: Option<string>)
    requires Normal(name)
    ensures IsOption(Token(name, attached)) && '=' !in name
  {
  }

  // ---- Policies ----

  datatype NArgs = Exactly(n: nat) | OneOrMore | AnyNumber

  datatype Rule = Rule(nargs: NArgs, repeatable: bool, choices: Option<seq<string>>, pattern: Option<string>)

  datatype Allow = AllowAll | AllowNone | Rules(rules: map<string, Rule>)
  datatype Deny = DenyAll | DenyNone | DenyNames(names: set<string>)

  type Matcher = (string, string) -> bool

  predicate NormalPolicy(allow: Allow, deny: Deny) {
    && (allow.Rules? ==> forall n :: n in allow.rules ==> Normal(n))
    && (deny.DenyNames? ==> forall n :: n in deny.names ==> Normal(n))
  }

  predicate Denied(deny: Deny, name: string) { deny.DenyAll? || (deny.DenyNames? && name in deny.names) }

  /** _text: bounded, without NUL */
  predicate BoundedText(s: string) { '\0' !in s && |s| <= 65536 }

  /** _Rule.validate */
  predicate ValueOk(full: Matcher, rule: Rule, value: string) {
    && (rule.choices.Some? ==> value in rule.choices.value)
    && (rule.pattern.Some? ==> full(rule.pattern.value, value))
  }

  predicate CountOk(nargs: NArgs, count: nat) {
    match nargs
    case Exactly(n) => count == n
    case OneOrMore => count >= 1
    case AnyNumber => true
  }

  // ---- The grammar ----

  /** An option token, split at its '=', and the tokens after it. */
  datatype Block = Block(name: string, attached: Option<string>, following: seq<string>)

  function Values(b: Block): seq<string> {
    (if b.attached.Some? then [b.attached.value] else []) + b.following
  }

  function Tokens(b: Block): seq<string> { [Token(b.name, b.attached)] + b.following }

  function Flatten(bs: seq<Block>): seq<string> { if bs == [] then [] else Tokens(bs[0]) + Flatten(bs[1..]) }

  predicate PlainValues(following: seq<string>) { forall i :: 0 <= i < |following| ==> !IsOption(following[i]) }

  predicate BlockOk(rules: map<string, Rule>, deny: Deny, full: Matcher, b: Block) {
    && b.name in rules && !Denied(deny, b.name)
    && CountOk(rules[b.name].nargs, |Values(b)|)
    && forall i :: 0 <= i < |Values(b)| ==> ValueOk(full, rules[b.name], Values(b)[i])
  }

  predicate BlocksOk(rules: map<string, Rule>, deny: Deny, full: Matcher, bs: seq<Block>) {
    && (forall i :: 0 <= i < |bs| ==> BlockOk(rules, deny, full, bs[i]))
    && (forall i, j :: 0 <= i < j < |bs| && bs[i].name == bs[j].name ==> rules[bs[j].name].repeatable)
  }

  /** Some reading of the arguments as blocks, each name followed by plain values, obeys the
      rules. */
  ghost predicate Grammatical(rules: map<string, Rule>, deny: Deny, full: Matcher, args: seq<string>) {
    exists bs :: Reads(args, bs) && BlocksOk(rules, deny, full, bs)
  }

  ghost predicate Reads(args: seq<string>, bs: seq<Block>) {
    Flatten(bs) == args && forall i :: 0 <= i < |bs| ==> PlainValues(bs[i].following)
  }

  /** With every option allowed: no denied one and, if some are denied, no compact short form,
      before the first "--". */
  predicate NothingDenied(deny: Deny, args: seq<string>) {
    forall i :: 0 <= i < |args| && IsOption(args[i]) && !AfterDashes(args, i) ==> FreeOption(deny, Partition(args[i]).0)
  }

  predicate AfterDashes(args: seq<string>, i: nat)
    requires i < |args|
  {
    "--" in args[..i + 1]
  }

  predicate FreeOption(deny: Deny, name: string) {
    && !Denied(deny, name)
    && (deny.DenyNames? && deny.names != {} ==> !(StartsWith(name, "-") && !StartsWith(name, "--") && |name| > 2))
  }

  ghost predicate Accepts(allow: Allow, deny: Deny, full: Matcher, args: seq<string>) {
    && (forall i :: 0 <= i < |args| ==> BoundedText(args[i]))
    && (args != [] ==> allow != AllowNone && deny != DenyAll)
    && (allow.AllowAll? ==> NothingDenied(deny, args))
    && (allow.Rules? ==> Grammatical(allow.rules, deny, full, args))
  }

  // ---- The split at option tokens ----

  /** How many tokens come before the next option. */
  function PlainRun(args: seq<string>): (n: nat)
    ensures n <= |args| && PlainValues(args[..n]) && (n < |args| ==> IsOption(args[n]))
  {
    if args == [] || IsOption(args[0]) then 0
    else
      var n := PlainRun(args[1..]);
      assert forall i :: 1 <= i <= n ==> args[i] == args[1..][..n][i - 1];
      n + 1
  }

  function Split(args: seq<string>): seq<Block> {
    if args == [] then []
    else
      var (name, attached) := Partition(args[0]);
      var n := PlainRun(args[1..]);
      [Block(name, attached, args[1..n + 1])] + Split(args[n + 1..])
  }

  lemma {:induction false} SplitReads(args: seq<string>)
    ensures Reads(args, Split(args))
  {
    hide IsOption;
    hide Partition;
    hide Token;
    hide PlainRun;
    if args != [] {
      var n := PlainRun(args[1..]);
      var b, rest := Block(Partition(args[0]).0, Partition(args[0]).1, args[1..n + 1]), args[n + 1..];
      TokenRound(args[0]);
      SplitReads(rest);
      assert b.following == args[1..][..n];
      assert args == Tokens(b) + rest;
      ReadsMore(b, rest, Split(rest));
      hide Reads;
    }
  }

  lemma ReadsMore(b: Block, rest: seq<string>, bs: seq<Block>)
    requires Reads(rest, bs)
    ensures Flatten([b] + bs) == Tokens(b) + rest
    ensures PlainValues(b.following) ==> Reads(Tokens(b) + rest, [b] + bs)
  {
  }

  lemma {:induction false} RunIs(values: seq<string>, rest: seq<string>)
    requires PlainValues(values) && (rest == [] || IsOption(rest[0]))
    ensures PlainRun(values + rest) == |values|
  {
    if values == [] {
      assert values + rest == rest;
    } else {
      assert (values + rest)[1..] == values[1..] + rest;
      RunIs(values[1..], rest);
    }
  }

  /** Blocks that start with option tokens are the only reading: the split finds them. */
  lemma {:induction false} OnlyReading(args: seq<string>, bs: seq<Block>)
    requires Reads(args, bs) && forall i :: 0 <= i < |bs| ==> Normal(bs[i].name)
    ensures Split(args) == bs
    decreases |bs|
  {
    hide IsOption;
    hide Normal;
    hide PlainRun;
    hide Partition;
    hide Token;
    if bs != [] {
      var b, rest := bs[0], Flatten(bs[1..]);
      NormalIsOption(b.name, b.attached);
      PartitionRound(b.name, b.attached);
      if |bs| > 1 { NormalIsOption(bs[1].name, bs[1].attached); }
      OnlyReading(rest, bs[1..]);
      SplitFirst(b, rest);
      assert [b] + bs[1..] == bs;
    }
  }

  lemma SplitFirst(b: Block, rest: seq<string>)
    requires Partition(Token(b.name, b.attached)) == (b.name, b.attached)
    requires PlainValues(b.following) && (rest == [] || IsOption(rest[0]))
    ensures Split(Tokens(b) + rest) == [b] + Split(rest)
  {
    hide IsOption;
    hide Partition;
    hide PlainRun;
    hide Token;
    var args := Tokens(b) + rest;
    assert args[1..] == b.following + rest;
    RunIs(b.following, rest);
    assert args[|b.following| + 1..] == rest && args[1..|b.following| + 1] == b.following;
  }

  /** The grammar has one reading to look at, the split. */
  lemma GrammaticalIff(rules: map<string, Rule>, deny: Deny, full: Matcher, args: seq<string>)
    requires forall n :: n in rules ==> Normal(n)
    ensures Grammatical(rules, deny, full, args) <==> BlocksOk(rules, deny, full, Split(args))
  {
    hide Normal;
    SplitReads(args);
    if bs :| Reads(args, bs) && BlocksOk(rules, deny, full, bs) {
      assert forall i :: 0 <= i < |bs| ==> BlockOk(rules, deny, full, bs[i]);
      OnlyReading(args, bs);
    }
  }

  // ---- Compiling a list of names or rules ----

  datatype Item = NameItem(name: string) | RuleItem(name: string, rule: Option<Rule>) | OtherItem

  /** What a policy may be given as; a rule of None stands for the default one. */
  datatype Spec =
    | Flag(flag: bool) | ItemList(items: seq<Item>) | RuleMapping(entries: seq<(string, Option<Rule>)>) | OtherSpec

  type Listing = seq<(string, Option<Rule>)>

  datatype Compiled = Switch(flag: bool) | Named(rules: map<string, Option<Rule>>)

  const MAX_RULES := 256

  predicate ItemOk(item: Item, rules: bool) { item.NameItem? || (item.RuleItem? && rules) }

  function ItemEntry(item: Item): (string, Option<Rule>)
    requires !item.OtherItem?
  {
    (item.name, if item.RuleItem? then item.rule else None)
  }

  /** The entries of a specification that is no flag. */
  function Listed(spec: Spec, rules: bool): Option<Listing> {
    if spec.RuleMapping? && rules then Some(spec.entries)
    else if spec.ItemList? && forall i :: 0 <= i < |spec.items| ==> ItemOk(spec.items[i], rules) then
      Some(seq(|spec.items|, i requires 0 <= i < |spec.items| => ItemEntry(spec.items[i])))
    else None
  }

  /** Not too many entries, every name valid, no two the same once normalized. */
  predicate GoodListing(es: Listing) {
    && |es| <= MAX_RULES
    && (forall i :: 0 <= i < |es| ==> Normalize(es[i].0).Some?)
    && (forall i, j :: 0 <= i < j < |es| ==> Normalize(es[i].0) != Normalize(es[j].0))
  }

  /** Exactly the normalized names, each with its own rule. */
  ghost predicate Compiles(es: Listing, m: map<string, Option<Rule>>) {
    && (forall i ::
          0 <= i < |es| ==>
            Normalize(es[i].0).Some? && Normalize(es[i].0).value in m && m[Normalize(es[i].0).value] == es[i].1)
    && (forall n :: n in m ==> exists i :: 0 <= i < |es| && Normalize(es[i].0) == Some(n))
  }

  /** _entries with option_name; None for the PolicyError. */
  method Entries(spec: Spec, rules: bool) returns (r: Option<Compiled>)
    ensures spec.Flag? ==> r == Some(Switch(spec.flag))
    ensures !spec.Flag? ==> (r.Some? <==> Listed(spec, rules).Some? && GoodListing(Listed(spec, rules).value))
    ensures !spec.Flag? && r.Some? ==> r.value.Named? && Compiles(Listed(spec, rules).value, r.value.rules)
    ensures r.Some? && r.value.Named? ==> forall n :: n in r.value.rules ==> Normal(n)
  {
    hide GoodListing;
    hide Compiles;
    hide Listed;
    if spec.Flag? { return Some(Switch(spec.flag)); }
    var entries := ListEntries(spec, rules);
    if entries.None? { return None; }
    r := NormalizeEntries(entries.value);
  }

  /** The first half: which entries there are. */
  method ListEntries(spec: Spec, rules: bool) returns (r: Option<Listing>)
    requires !spec.Flag?
    ensures r == Listed(spec, rules)
  {
    if spec.RuleMapping? && rules { return Some(spec.entries); }
    if !spec.ItemList? { return None; }
    var entries: Listing := [];
    for i := 0 to |spec.items|
      invariant |entries| == i
      invariant forall j :: 0 <= j < i ==> ItemOk(spec.items[j], rules) && entries[j] == ItemEntry(spec.items[j])
    {
      var item := spec.items[i];
      if item.NameItem? {
        entries := entries + [(item.name, None)];
      } else if item.RuleItem? && rules {
        entries := entries + [(item.name, item.rule)];
      } else {
        assert !ItemOk(spec.items[i], rules);
        return None;
      }
    }
    assert entries == seq(|spec.items|, i requires 0 <= i < |spec.items| => ItemEntry(spec.items[i]));
    r := Some(entries);
  }

  /** The second half: normalized names, none twice. */
  method NormalizeEntries(entries: Listing) returns (r: Option<Compiled>)
    ensures r.Some? <==> GoodListing(entries)
    ensures r.Some? ==>
              && r.value.Named? && Compiles(entries, r.value.rules)
              && forall n :: n in r.value.rules ==> Normal(n)
  {
    hide Normalize;
    if |entries| > MAX_RULES { return None; }
    var result: map<string, Option<Rule>> := map[];
    for i := 0 to |entries|
      invariant Compiles(entries[..i], result)
      invariant forall j, k :: 0 <= j < k < i ==> Normalize(entries[j].0) != Normalize(entries[k].0)
    {
      var (name, rule) := entries[i];
      var normal := Normalize(name);
      if normal.None? { return None; }
      if normal.value in result {
        ghost var j :| 0 <= j < i && Normalize(entries[..i][j].0) == normal;
        assert Normalize(entries[j].0) == Normalize(entries[i].0);
        return None;
      }
      AddEntry(entries, i, result);
      forall j | 0 <= j < i ensures Normalize(entries[j].0) != normal { assert entries[..i][j] == entries[j]; }
      result := result[normal.value := rule];
    }
    assert entries[..|entries|] == entries;
    assert forall i :: 0 <= i < |entries| ==> Normalize(entries[i].0).Some?;
    forall n | n in result ensures Normal(n) {
      var i :| 0 <= i < |entries| && Normalize(entries[i].0) == Some(n);
      NormalizeGivesNormal(entries[i].0);
    }
    r := Some(Named(result));
  }

  lemma AddEntry(es: Listing, i: nat, m: map<string, Option<Rule>>)
    requires i < |es| && Compiles(es[..i], m)
    requires Normalize(es[i].0).Some? && Normalize(es[i].0).value !in m
    ensures Compiles(es[..i + 1], m[Normalize(es[i].0).value := es[i].1])
  {
    hide Normalize;
    var more, n := es[..i + 1], Normalize(es[i].0).value;
    assert forall j :: 0 <= j < i ==> more[j] == es[..i][j];
    assert more[i] == es[i];
    forall k | k in m[n := es[i].1] ensures exists j :: 0 <= j < |more| && Normalize(more[j].0) == Some(k) {
      if k == n { assert Normalize(more[i].0) == Some(k); } else {
        var j :| 0 <= j < i && Normalize(es[..i][j].0) == Some(k);
        assert Normalize(more[j].0) == Some(k);
      }
    }
  }

  // ---- Validating arguments ----

  lemma BadBlock(rules: map<string, Rule>, deny: Deny, full: Matcher, done: seq<Block>, b: Block, rest: seq<Block>)
    requires !BlockOk(rules, deny, full, b)
    ensures !BlocksOk(rules, deny, full, done + ([b] + rest))
  {
    assert (done + ([b] + rest))[|done|] == b;
  }

  /** The names of the blocks read so far. */
  ghost predicate NamesOf(done: seq<Block>, seen: set<string>) {
    forall n :: n in seen <==> exists i :: 0 <= i < |done| && done[i].name == n
  }

  lemma SeenBefore(rules: map<string, Rule>, deny: Deny, full: Matcher, done: seq<Block>, b: Block, rest: seq<Block>,
                   seen: set<string>)
    requires NamesOf(done, seen) && b.name in seen && b.name in rules && !rules[b.name].repeatable
    ensures !BlocksOk(rules, deny, full, done + ([b] + rest))
  {
    var all := done + ([b] + rest);
    var i :| 0 <= i < |done| && done[i].name == b.name;
    assert all[i] == done[i] && all[|done|] == b;
  }

  lemma BlockAdded(rules: map<string, Rule>, deny: Deny, full: Matcher, done: seq<Block>, b: Block, seen: set<string>)
    requires BlocksOk(rules, deny, full, done) && NamesOf(done, seen) && b.name in rules
    requires b.name in seen ==> rules[b.name].repeatable
    ensures BlockOk(rules, deny, full, b) ==> BlocksOk(rules, deny, full, done + [b])
    ensures NamesOf(done + [b], seen + {b.name})
  {
    hide BlockOk;
    var more := done + [b];
    assert more[|done|] == b && forall i :: 0 <= i < |done| ==> more[i] == done[i];
  }

  lemma UnknownName(rules: map<string, Rule>, deny: Deny, full: Matcher, b: Block)
    requires b.name !in rules || Denied(deny, b.name)
    ensures !BlockOk(rules, deny, full, b)
  {
  }

  /** The block the split finds at an index, and what it leaves. */
  function NextBlock(args: seq<string>, i: nat): Block
    requires i < |args|
  {
    Block(Partition(args[i]).0, Partition(args[i]).1, args[i + 1..i + 1 + PlainRun(args[i + 1..])])
  }

  function AfterBlock(args: seq<string>, i: nat): seq<string>
    requires i < |args|
  {
    args[i + 1 + PlainRun(args[i + 1..])..]
  }

  lemma NameOfBlock(args: seq<string>, i: nat)
    requires i < |args|
    ensures NextBlock(args, i).name == Partition(args[i]).0
  {
  }

  lemma SplitAt(args: seq<string>, i: nat)
    requires i < |args|
    ensures Split(args[i..]) == [NextBlock(args, i)] + Split(AfterBlock(args, i))
  {
    hide IsOption;
    hide Partition;
    hide PlainRun;
    var here := args[i..];
    assert here[1..] == args[i + 1..] && here[0] == args[i];
    var n := PlainRun(args[i + 1..]);
    assert here[1..n + 1] == args[i + 1..i + 1 + n] && here[n + 1..] == args[i + 1 + n..];
  }

  /** A plain token that is reached by passing plain tokens only belongs to the run. */
  lemma {:induction false} StopsAtOption(args: seq<string>, start: nat, index: nat)
    requires start <= index < |args| && index <= start + PlainRun(args[start..])
    ensures index < start + PlainRun(args[start..]) <==> !IsOption(args[index])
  {
  }

  /** What the values taken at an option say about its block. */
  lemma JudgeBlock(rules: map<string, Rule>, deny: Deny, full: Matcher, args: seq<string>, i: nat, next: nat,
                   values: seq<string>)
    requires i < |args| && i + 1 <= next <= i + 1 + PlainRun(args[i + 1..])
    requires values == Values(Block("", Partition(args[i]).1, args[i + 1..next]))
    requires Partition(args[i]).0 in rules && !Denied(deny, Partition(args[i]).0)
    requires next < i + 1 + PlainRun(args[i + 1..]) ==>
               rules[Partition(args[i]).0].nargs.Exactly? && |values| >= rules[Partition(args[i]).0].nargs.n
    ensures var b := NextBlock(args, i); var rule := rules[b.name];
            if next < i + 1 + PlainRun(args[i + 1..])
            then !BlockOk(rules, deny, full, b) && !IsOption(args[next])
            else next == |args| - |AfterBlock(args, i)| && args[next..] == AfterBlock(args, i)
                 && (BlockOk(rules, deny, full, b) <==>
                       && CountOk(rule.nargs, |values|)
                       && forall j :: 0 <= j < |values| ==> ValueOk(full, rule, values[j]))
  {
    hide IsOption;
    hide Partition;
    hide PlainRun;
    hide ValueOk;
    if next < i + 1 + PlainRun(args[i + 1..]) { StopsAtOption(args, i + 1, next); }
  }

  function OrDefault(rule: Option<Rule>): Rule {
    if rule.Some? then rule.value else Rule(Exactly(1), false, None, None)
  }

  class ArgsPolicy {
    const allow: Allow
    const deny: Deny

    ghost predicate Valid() { NormalPolicy(allow, deny) }

    /** A name without a rule takes one value and cannot repeat. */
    constructor (allow: Compiled, disallow: Compiled)
      requires allow.Named? ==> forall n :: n in allow.rules ==> Normal(n)
      requires disallow.Named? ==> forall n :: n in disallow.rules ==> Normal(n)
      ensures Valid()
      ensures this.allow.AllowAll? <==> allow == Switch(true)
      ensures this.allow.AllowNone? <==> allow == Switch(false)
      ensures allow.Named? ==> this.allow.Rules? && this.allow.rules.Keys == allow.rules.Keys
      ensures allow.Named? ==> forall n :: n in allow.rules ==> this.allow.rules[n] == OrDefault(allow.rules[n])
      ensures this.deny == match disallow
                           case Switch(b) => (if b then DenyAll else DenyNone)
                           case Named(m) => DenyNames(m.Keys)
    {
      this.allow := match allow
        case Switch(b) => if b then AllowAll else AllowNone
        case Named(m) => Rules(map n | n in m :: OrDefault(m[n]));
      this.deny := match disallow
        case Switch(b) => if b then DenyAll else DenyNone
        case Named(m) => DenyNames(m.Keys);
    }

    /** The arguments themselves come back, or None for the ValidationError. */
    method Validate(full: Matcher, args: seq<string>) returns (r: Option<seq<string>>)
      requires Valid()
      ensures r == if Accepts(allow, deny, full, args) then Some(args) else None
    {
      for i := 0 to |args|
        invariant forall j :: 0 <= j < i ==> BoundedText(args[j])
      {
        if !BoundedText(args[i]) { return None; }
      }
      if args != [] && (allow == AllowNone || deny == DenyAll) { return None; }
      if allow.AllowAll? {
        var ok := ValidateAny(args);
        return if ok then Some(args) else None;
      }
      if allow.Rules? {
        var ok := ValidateRules(full, args);
        return if ok then Some(args) else None;
      }
      r := Some(args);
    }

    method ValidateAny(args: seq<string>) returns (ok: bool)
      ensures ok == NothingDenied(deny, args)
    {
      hide IsOption;
      for i := 0 to |args|
        invariant forall j :: 0 <= j < i ==> args[j] != "--"
        invariant forall j :: 0 <= j < i && IsOption(args[j]) ==> FreeOption(deny, Partition(args[j]).0)
      {
        var token := args[i];
        if token == "--" {
          forall j | i <= j < |args| ensures AfterDashes(args, j) { assert args[..j + 1][i] == "--"; }
          return true;
        }
        if IsOption(token) {
          var name := Partition(token).0;
          assert !AfterDashes(args, i);
          if Denied(deny, name) { return false; }
          var short := StartsWith(name, "-") && !StartsWith(name, "--") && |name| > 2;
          if deny.DenyNames? && deny.names != {} && short { return false; }
        }
      }
      ok := true;
    }

    /** The values of an option from index on, attached one first, as many as the count allows
        before the next option. */
    method TakeValues(nargs: NArgs, attached: Option<string>, args: seq<string>, start: nat)
        returns (values: seq<string>, index: nat)
      requires start <= |args|
      ensures start <= index <= start + PlainRun(args[start..])
      ensures values == Values(Block("", attached, args[start..index]))
      ensures index < start + PlainRun(args[start..]) ==> nargs.Exactly? && |values| >= nargs.n
    {
      hide IsOption;
      hide PlainRun;
      hide PlainValues;
      values := if attached.Some? then [attached.value] else [];
      index := start;
      while (nargs.Exactly? ==> |values| < nargs.n) && index < |args| && !IsOption(args[index])
        invariant start <= index <= start + PlainRun(args[start..])
        invariant values == Values(Block("", attached, args[start..index]))
      {
        StopsAtOption(args, start, index);
        assert args[start..index + 1] == args[start..index] + [args[index]];
        values := values + [args[index]];
        index := index + 1;
      }
      if index < |args| { StopsAtOption(args, start, index); }
    }

    method ValidateRules(full: Matcher, args: seq<string>) returns (ok: bool)
      requires Valid() && allow.Rules?
      ensures ok == Grammatical(allow.rules, deny, full, args)
    {
      hide IsOption;
      hide Normal;
      hide Grammatical;
      hide BlockOk;
      hide BlocksOk;
      hide Split;
      hide NextBlock;
      hide AfterBlock;
      hide PlainRun;
      hide Partition;
      hide Values;
      hide NamesOf;
      var rules := allow.rules;
      GrammaticalIff(rules, deny, full, args);
      var seen, index := {}, 0;
      ghost var done: seq<Block> := [];
      Started(rules, full, args);
      while index < |args|
        invariant index <= |args|
        invariant InStep(rules, full, args, index, done, seen) || Doomed(rules, full, args, index)
      {
        var (name, attached) := Partition(args[index]);
        ghost var b, rest := NextBlock(args, index), Split(AfterBlock(args, index));
        SplitAt(args, index);
        NameOfBlock(args, index);
        if name !in rules || Denied(deny, name) {
          UnknownName(rules, deny, full, b);
          BadBlock(rules, deny, full, done, b, rest);
          return false;
        }
        TokenRound(args[index]);
        NormalIsOption(name, attached);
        var rule := rules[name];
        if name in seen && !rule.repeatable {
          SeenBefore(rules, deny, full, done, b, rest, seen);
          return false;
        }
        var values, next := TakeValues(rule.nargs, attached, args, index + 1);
        var good := ValuesFit(full, rule, values);
        JudgeBlock(rules, deny, full, args, index, next, values);
        if !BlockOk(rules, deny, full, b) { BadBlock(rules, deny, full, done, b, rest); }
        if !good { return false; }
        BlockAdded(rules, deny, full, done, b, seen);
        seen := seen + {name};
        assert done + ([b] + rest) == (done + [b]) + rest;
        done := done + [b];
        index := next;
      }
      Finished(rules, full, args, done);
      ok := true;
    }

    lemma Started(rules: map<string, Rule>, full: Matcher, args: seq<string>)
      ensures InStep(rules, full, args, 0, [], {})
    {
    }

    lemma Finished(rules: map<string, Rule>, full: Matcher, args: seq<string>, done: seq<Block>)
      ensures Split(args) == done + Split(args[|args|..]) ==> Split(args) == done
    {
    }

    /** The count and each value. */
    method ValuesFit(full: Matcher, rule: Rule, values: seq<string>) returns (ok: bool)
      ensures ok == (CountOk(rule.nargs, |values|) && forall i :: 0 <= i < |values| ==> ValueOk(full, rule, values[i]))
    {
      var minimum := match rule.nargs case Exactly(n) => n case OneOrMore => 1 case AnyNumber => 0;
      if |values| < minimum || (rule.nargs.Exactly? && |values| != rule.nargs.n) { return false; }
      for i := 0 to |values|
        invariant forall j :: 0 <= j < i ==> ValueOk(full, rule, values[j])
      {
        if !ValueOk(full, rule, values[i]) { return false; }
      }
      ok := true;
    }

    /** The blocks read so far are the first of the split. */
    ghost predicate InStep(rules: map<string, Rule>, full: Matcher, args: seq<string>, index: nat, done: seq<Block>,
                           seen: set<string>)
      requires index <= |args|
    {
      && Split(args) == done + Split(args[index..])
      && BlocksOk(rules, deny, full, done)
      && NamesOf(done, seen)
    }

    /** An option has left values over: the next token is none, and the split breaks the rules. */
    ghost predicate Doomed(rules: map<string, Rule>, full: Matcher, args: seq<string>, index: nat) {
      index < |args| && !IsOption(args[index]) && !BlocksOk(rules, deny, full, Split(args))
    }
  }

  // ---- The policy in plain terms ----

  ghost predicate Plain(w: string) {
    w != "" && ('a' <= w[0] <= 'z' || 'A' <= w[0] <= 'Z')
    && forall i :: 0 <= i < |w| ==>
         'a' <= w[i] <= 'z' || 'A' <= w[i] <= 'Z' || '0' <= w[i] <= '9' || w[i] == '_' || w[i] == '-'
  }

  /** Names are words, bare or after one or two dashes; a bare one means the one with two. */
  lemma NamesAre(s: string)
    ensures Normalize(s) ==
      if s != "" && Plain(s) then Some("--" + s)
      else if |s| > 1 && s[0] == '-' && Plain(s[1..]) then Some(s)
      else if |s| > 2 && s[0] == '-' && s[1] == '-' && Plain(s[2..]) then Some(s)
      else None
  {
    assert StartsWith(s, "-") <==> s != "" && s[0] == '-';
    assert StartsWith(s, "--") <==> |s| > 1 && s[0] == '-' && s[1] == '-';
  }

  ghost predicate Number(s: string, whole: string, fraction: string) {
    && s == whole + fraction && whole != "" && AllOf(whole, Digit)
    && (fraction == "" || (|fraction| > 1 && fraction[0] == '.' && AllOf(fraction[1..], Digit)))
  }

  /** An option token has a dash in front and something after it that is no number. */
  lemma OptionIff(token: string)
    ensures IsOption(token) <==>
      |token| > 1 && token[0] == '-' && !exists whole, fraction :: Number(token[1..], whole, fraction)
  {
    assert StartsWith(token, "-") <==> token != "" && token[0] == '-';
    if |token| > 1 && token[0] == '-' {
      var s := token[1..];
      var (whole, rest) := Span(s, Digit);
      if NegativeNumber(token) { assert Number(s, whole, rest); }
      if w, f :| Number(s, w, f) { SpanIs(w, f, Digit); }
    }
  }

  /** A value is one of the choices, if there are any, and matches the pattern, if there is one. */
  ghost predicate Fits(full: Matcher, rule: Rule, value: string) {
    && (match rule.choices case None => true case Some(values) => exists i :: 0 <= i < |values| && values[i] == value)
    && (match rule.pattern case None => true case Some(pattern) => full(pattern, value))
  }

  ghost predicate Enough(nargs: NArgs, count: nat) {
    match nargs
    case Exactly(n) => n <= count <= n
    case OneOrMore => count != 0
    case AnyNumber => true
  }

  ghost predicate Forbidden(deny: Deny, name: string) {
    match deny
    case DenyAll => true
    case DenyNone => false
    case DenyNames(names) => name in names
  }

  /** What stands after the '=' counts as the first value. */
  function AllValues(b: Block): seq<string> {
    match b.attached
    case None => b.following
    case Some(v) => [v] + b.following
  }

  /** Every option is known and not forbidden, has as many values as its rule asks for, all of
      which fit, and comes once unless it may be repeated. */
  ghost predicate Conforms(rules: map<string, Rule>, deny: Deny, full: Matcher, bs: seq<Block>) {
    forall i :: 0 <= i < |bs| ==>
      && bs[i].name in rules && !Forbidden(deny, bs[i].name)
      && Enough(rules[bs[i].name].nargs, |AllValues(bs[i])|)
      && (forall v :: v in AllValues(bs[i]) ==> Fits(full, rules[bs[i].name], v))
      && (rules[bs[i].name].repeatable || forall j :: 0 <= j < i ==> bs[j].name != bs[i].name)
  }

  /** No forbidden option, and no compact short one if some are forbidden, before the first "--". */
  ghost predicate Unopposed(deny: Deny, args: seq<string>) {
    forall i :: 0 <= i < |args| && IsOption(args[i]) && (forall k :: 0 <= k <= i ==> args[k] != "--") ==>
      var name := Partition(args[i]).0;
      && !Forbidden(deny, name)
      && (deny.DenyNames? && deny.names != {} && |name| > 2 && name[0] == '-' ==> name[1] == '-')
  }

  lemma ConformsIff(rules: map<string, Rule>, deny: Deny, full: Matcher, bs: seq<Block>)
    ensures BlocksOk(rules, deny, full, bs) <==> Conforms(rules, deny, full, bs)
  {
    forall i | 0 <= i < |bs| ensures BlockOk(rules, deny, full, bs[i]) <==>
      && bs[i].name in rules && !Forbidden(deny, bs[i].name)
      && Enough(rules[bs[i].name].nargs, |AllValues(bs[i])|)
      && (forall v :: v in AllValues(bs[i]) ==> Fits(full, rules[bs[i].name], v))
    {
      BlockIs(rules, deny, full, bs[i]);
    }
    hide BlockOk;
    hide Enough;
    hide Fits;
    hide AllValues;
    hide Forbidden;
  }

  lemma BlockIs(rules: map<string, Rule>, deny: Deny, full: Matcher, b: Block)
    ensures BlockOk(rules, deny, full, b) <==>
      && b.name in rules && !Forbidden(deny, b.name) && Enough(rules[b.name].nargs, |AllValues(b)|)
      && (forall v :: v in AllValues(b) ==> Fits(full, rules[b.name], v))
  {
    assert AllValues(b) == Values(b);
    if b.name in rules {
      forall v ensures ValueOk(full, rules[b.name], v) <==> Fits(full, rules[b.name], v) {}
    }
    hide Fits;
    hide ValueOk;
    hide AllValues;
    hide Values;
  }

  lemma UnopposedIff(deny: Deny, args: seq<string>)
    ensures NothingDenied(deny, args) <==> Unopposed(deny, args)
  {
    forall i | 0 <= i < |args| ensures AfterDashes(args, i) <==> !forall k :: 0 <= k <= i ==> args[k] != "--" {
      if k :| 0 <= k <= i && args[k] == "--" { assert args[..i + 1][k] == "--"; }
    }
    forall name ensures FreeOption(deny, name) <==>
      !Forbidden(deny, name) && (deny.DenyNames? && deny.names != {} && |name| > 2 && name[0] == '-' ==> name[1] == '-')
    {
      assert StartsWith(name, "-") <==> name != "" && name[0] == '-';
      assert StartsWith(name, "--") <==> |name| > 1 && name[0] == '-' && name[1] == '-';
    }
    hide IsOption;
    hide Partition;
    hide FreeOption;
    hide Forbidden;
    hide AfterDashes;
  }

  /** What a policy lets through: bounded text without NUL; nothing if everything is forbidden;
      with all options allowed, the lists without opposed options; with rules, the lists whose
      split at option tokens conforms to them. */
  lemma PolicyMeans(allow: Allow, deny: Deny, full: Matcher, args: seq<string>)
    requires NormalPolicy(allow, deny)
    ensures Accepts(allow, deny, full, args) <==>
      && (forall i :: 0 <= i < |args| ==> |args[i]| <= 65536)
      && (forall i, k :: 0 <= i < |args| && 0 <= k < |args[i]| ==> args[i][k] as int != 0)
      && (args == [] || !(allow.AllowNone? || deny.DenyAll?))
      && match allow
         case AllowAll => Unopposed(deny, args)
         case AllowNone => true
         case Rules(rules) => Conforms(rules, deny, full, Split(args))
  {
    UnopposedIff(deny, args);
    if allow.Rules? {
      GrammaticalIff(allow.rules, deny, full, args);
      ConformsIff(allow.rules, deny, full, Split(args));
    }
    hide Unopposed;
    hide NothingDenied;
    hide Conforms;
    hide Grammatical;
    hide BlocksOk;
    hide Split;
  }

  /** A specification lists its entries in order, names alone and, where rules are allowed, names
      with a rule; there are at most 256. */
  lemma ListedIs(spec: Spec, rules: bool)
    requires !spec.Flag?
    ensures match Listed(spec, rules)
            case None =>
              spec.OtherSpec? || (spec.RuleMapping? && !rules)
              || (spec.ItemList? && exists x :: x in spec.items && (x.OtherItem? || (x.RuleItem? && !rules)))
            case Some(es) =>
              if spec.RuleMapping? then rules && es == spec.entries
              else spec.ItemList? && |es| == |spec.items| && forall i :: 0 <= i < |es| ==>
                match spec.items[i]
                case NameItem(name) => es[i] == (name, None)
                case RuleItem(name, rule) => rules && es[i] == (name, rule)
                case OtherItem => false
    ensures forall es: Listing :: GoodListing(es) <==>
              |es| <= 256 && forall i :: 0 <= i < |es| ==>
                Normalize(es[i].0).Some? && forall j :: 0 <= j < i ==> Normalize(es[j].0) != Normalize(es[i].0)
  {
    if spec.ItemList? && Listed(spec, rules).None? {
      var i :| 0 <= i < |spec.items| && !ItemOk(spec.items[i], rules);
      assert spec.items[i] in spec.items;
    }
  }
}
