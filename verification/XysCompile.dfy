/**
  Schema compilation, _transschema of xys.py.

  A loaded schema is a graph of Python objects: tuples (validator nodes, content first),
  dictionaries and lists refer to one another, possibly in a cycle, and share parts.  parse
  stands for what the key expression of _qualify_map finds in a string key, None when it or
  the length bounds are refused.
 */
module XysCompile {
  import opened Wrappers

  type Id = nat

  datatype Ref = Leaf(text: string) | At(id: Id)

  datatype RawKey = Text(text: string) | Other(text: string)

  datatype Object =
    | TupleObject(content: Ref, rest: seq<string>)
    | DictObject(entries: seq<(RawKey, Ref)>)
    | ListObject(items: seq<Ref>)

  type Graph = map<Id, Object>

  datatype FieldKind = OptionalField | OptionalNullField | MandatoryField
  datatype Qualifier = Qualifier(kind: FieldKind, minLen: Option<nat>, maxLen: Option<nat>, modifiers: seq<string>)
  datatype Parsed = Parsed(name: string, qualifier: Qualifier)
  type Parser = string -> Option<Parsed>

  datatype Compiled =
    | CLeaf(text: string)
    | CTuple(content: Compiled, rest: seq<string>)
    | CDict(fields: seq<Field>)
    | CList(items: seq<Compiled>)

  datatype Field = Field(key: RawKey, qualifier: Option<Qualifier>, content: Compiled)

  datatype Error = Recursive | BadKey | DuplicateKey
  datatype Result<T> = Ok(value: T) | Err(error: Error)

  /** What an object refers to. */
  function Children(o: Object): seq<Ref> {
    match o
    case TupleObject(c, _) => [c]
    case DictObject(es) => seq(|es|, i requires 0 <= i < |es| => es[i].1)
    case ListObject(items) => items
  }

  ghost predicate Known(g: Graph, r: Ref) { r.At? ==> r.id in g }

  ghost predicate Closed(g: Graph) {
    forall x :: x in g ==> forall i :: 0 <= i < |Children(g[x])| ==> Known(g, Children(g[x])[i])
  }

  // ---- The recursive algorithm ----

  /** _qualify_map: the key without its qualifier, and the qualifier; None for an exception. */
  function Qualify(parse: Parser, key: RawKey): Option<(RawKey, Option<Qualifier>)> {
    match key
    case Other(_) => Some((key, None))
    case Text(s) => match parse(s)
      case None => None
      case Some(p) => Some((Text(p.name), Some(p.qualifier)))
  }

  predicate HasKey(fields: seq<Field>, key: RawKey) { exists i :: 0 <= i < |fields| && fields[i].key == key }

  /** _transschema with the ids of the objects being compiled. */
  function Compile(g: Graph, parse: Parser, r: Ref, active: set<Id>): Result<Compiled>
    requires Closed(g) && Known(g, r)
    decreases g.Keys - active, 0, 0
  {
    if r.Leaf? then Ok(CLeaf(r.text))
    else if r.id in active then Err(Recursive)
    else
      var inner := active + {r.id};
      assert r.id in g.Keys - active && r.id !in g.Keys - inner;
      match g[r.id]
      case TupleObject(c, rest) =>
        assert Children(g[r.id])[0] == c;
        (match Compile(g, parse, c, inner)
         case Err(e) => Err(e)
         case Ok(t) => Ok(CTuple(t, rest)))
      case DictObject(es) =>
        (assert forall i :: 0 <= i < |es| ==> es[i].1 == Children(g[r.id])[i];
         match CompileEntries(g, parse, es, [], inner)
         case Err(e) => Err(e)
         case Ok(fields) => Ok(CDict(fields)))
      case ListObject(items) =>
        (assert Children(g[r.id]) == items;
         match CompileItems(g, parse, items, inner)
         case Err(e) => Err(e)
         case Ok(ts) => Ok(CList(ts)))
  }

  function CompileItems(g: Graph, parse: Parser, items: seq<Ref>, active: set<Id>): Result<seq<Compiled>>
    requires Closed(g) && forall i :: 0 <= i < |items| ==> Known(g, items[i])
    decreases g.Keys - active, 1, |items|
  {
    if items == [] then Ok([])
    else
      match Compile(g, parse, items[0], active)
      case Err(e) => Err(e)
      case Ok(t) =>
        match CompileItems(g, parse, items[1..], active)
        case Err(e) => Err(e)
        case Ok(ts) => Ok([t] + ts)
  }

  /** The loop over a dictionary, with the result so far. */
  function CompileEntries(g: Graph, parse: Parser, es: seq<(RawKey, Ref)>, result: seq<Field>,
                          active: set<Id>): Result<seq<Field>>
    requires Closed(g) && forall i :: 0 <= i < |es| ==> Known(g, es[i].1)
    decreases g.Keys - active, 1, |es|
  {
    if es == [] then Ok(result)
    else
      match Compile(g, parse, es[0].1, active)
      case Err(e) => Err(e)
      case Ok(t) =>
        match Qualify(parse, es[0].0)
        case None => Err(BadKey)
        case Some((key, q)) =>
          if HasKey(result, key) then Err(DuplicateKey)
          else CompileEntries(g, parse, es[1..], result + [Field(key, q, t)], active)
  }

  // ---- Tree unfolding ----

  /** The qualified keys of a dictionary, None where one is refused. */
  ghost predicate KeysGood(parse: Parser, es: seq<(RawKey, Ref)>) {
    && (forall i :: 0 <= i < |es| ==> Qualify(parse, es[i].0).Some?)
    && (forall i, j :: 0 <= i < j < |es| ==> Qualify(parse, es[i].0).value.0 != Qualify(parse, es[j].0).value.0)
  }

  /** t is what one gets by following every reference of r, as often as it is met. */
  ghost predicate Unfolds(g: Graph, parse: Parser, r: Ref, t: Compiled)
    decreases t
  {
    if r.Leaf? then t == CLeaf(r.text)
    else
      && r.id in g
      && match g[r.id]
         case TupleObject(c, rest) => t.CTuple? && t.rest == rest && Unfolds(g, parse, c, t.content)
         case DictObject(es) => t.CDict? && KeysGood(parse, es) && UnfoldsEntries(g, parse, es, t.fields)
         case ListObject(items) => t.CList? && UnfoldsItems(g, parse, items, t.items)
  }

  ghost predicate UnfoldsItems(g: Graph, parse: Parser, items: seq<Ref>, ts: seq<Compiled>)
    decreases ts
  {
    |ts| == |items| && forall i :: 0 <= i < |ts| ==> Unfolds(g, parse, items[i], ts[i])
  }

  ghost predicate UnfoldsEntries(g: Graph, parse: Parser, es: seq<(RawKey, Ref)>, fields: seq<Field>)
    decreases fields
  {
    |fields| == |es| && forall i :: 0 <= i < |fields| ==> UnfoldsEntry(g, parse, es[i], fields[i])
  }

  ghost predicate UnfoldsEntry(g: Graph, parse: Parser, e: (RawKey, Ref), f: Field)
    decreases f
  {
    Qualify(parse, e.0) == Some((f.key, f.qualifier)) && Unfolds(g, parse, e.1, f.content)
  }

  lemma {:induction false} UnfoldUnique(g: Graph, parse: Parser, r: Ref, t: Compiled, u: Compiled)
    requires Unfolds(g, parse, r, t) && Unfolds(g, parse, r, u)
    ensures t == u
    decreases t
  {
    if r.At? {
      match g[r.id]
      case TupleObject(c, _) => UnfoldUnique(g, parse, c, t.content, u.content);
      case DictObject(es) =>
        forall i | 0 <= i < |es| ensures t.fields[i] == u.fields[i] {
          assert UnfoldsEntry(g, parse, es[i], t.fields[i]) && UnfoldsEntry(g, parse, es[i], u.fields[i]);
          UnfoldUnique(g, parse, es[i].1, t.fields[i].content, u.fields[i].content);
        }
        assert t.fields == u.fields;
      case ListObject(items) =>
        forall i | 0 <= i < |items| ensures t.items[i] == u.items[i] {
          UnfoldUnique(g, parse, items[i], t.items[i], u.items[i]);
        }
        assert t.items == u.items;
    }
  }

  // ---- What compiles is the unfolding ----

  /** The fields made of the first n entries. */
  ghost predicate MadeOf(g: Graph, parse: Parser, es: seq<(RawKey, Ref)>, n: nat, fields: seq<Field>) {
    && n <= |es| && UnfoldsEntries(g, parse, es[..n], fields) && KeysGood(parse, es[..n])
  }

  lemma {:induction false} CompileSound(g: Graph, parse: Parser, r: Ref, active: set<Id>)
    requires Closed(g) && Known(g, r) && Compile(g, parse, r, active).Ok?
    ensures Unfolds(g, parse, r, Compile(g, parse, r, active).value)
    decreases g.Keys - active, 0, 0
  {
    if r.At? {
      var inner := active + {r.id};
      assert r.id in g.Keys - active && r.id !in g.Keys - inner;
      match g[r.id]
      case TupleObject(c, _) =>
        assert Children(g[r.id])[0] == c;
        CompileSound(g, parse, c, inner);
      case DictObject(es) =>
        assert forall i :: 0 <= i < |es| ==> es[i].1 == Children(g[r.id])[i];
        assert es[0..] == es && es[..0] == [];
        EntriesSound(g, parse, es, 0, [], inner);
        assert es[..|es|] == es;
      case ListObject(items) =>
        assert Children(g[r.id]) == items;
        ItemsSound(g, parse, items, inner);
    }
  }

  lemma {:induction false} ItemsSound(g: Graph, parse: Parser, items: seq<Ref>, active: set<Id>)
    requires Closed(g) && forall i :: 0 <= i < |items| ==> Known(g, items[i])
    requires CompileItems(g, parse, items, active).Ok?
    ensures UnfoldsItems(g, parse, items, CompileItems(g, parse, items, active).value)
    decreases g.Keys - active, 1, |items|
  {
    if items != [] {
      CompileSound(g, parse, items[0], active);
      ItemsSound(g, parse, items[1..], active);
    }
  }

  lemma {:induction false} EntriesSound(g: Graph, parse: Parser, es: seq<(RawKey, Ref)>, n: nat, result: seq<Field>,
                                        active: set<Id>)
    requires Closed(g) && forall i :: 0 <= i < |es| ==> Known(g, es[i].1)
    requires MadeOf(g, parse, es, n, result)
    requires CompileEntries(g, parse, es[n..], result, active).Ok?
    ensures MadeOf(g, parse, es, |es|, CompileEntries(g, parse, es[n..], result, active).value)
    decreases g.Keys - active, 1, |es| - n
  {
    if n < |es| {
      CompileSound(g, parse, es[n].1, active);
      var t := Compile(g, parse, es[n].1, active).value;
      var (key, q) := Qualify(parse, es[n].0).value;
      AddField(g, parse, es, n, result, Field(key, q, t));
      assert es[n..][1..] == es[n + 1..];
      EntriesSound(g, parse, es, n + 1, result + [Field(key, q, t)], active);
    }
  }

  lemma AddField(g: Graph, parse: Parser, es: seq<(RawKey, Ref)>, n: nat, result: seq<Field>, f: Field)
    requires n < |es| && MadeOf(g, parse, es, n, result)
    requires Qualify(parse, es[n].0) == Some((f.key, f.qualifier)) && Unfolds(g, parse, es[n].1, f.content)
    ensures HasKey(result, f.key) <==> !KeysGood(parse, es[..n + 1])
    ensures !HasKey(result, f.key) ==> MadeOf(g, parse, es, n + 1, result + [f])
  {
    var more := es[..n + 1];
    assert more == es[..n] + [es[n]];
    hide Unfolds;
    assert UnfoldsEntry(g, parse, es[n], f);
    forall i | 0 <= i < n ensures more[i] == es[..n][i] && UnfoldsEntry(g, parse, more[i], result[i]) {
      assert UnfoldsEntry(g, parse, es[..n][i], result[i]);
    }
    hide UnfoldsEntry;
    assert UnfoldsEntries(g, parse, more, result + [f]);
    KeysOf(g, parse, more[..n], result);
    assert forall i :: 0 <= i < n ==> Qualify(parse, more[i].0) == Some((result[i].key, result[i].qualifier));
  }

  lemma KeysOf(g: Graph, parse: Parser, es: seq<(RawKey, Ref)>, fields: seq<Field>)
    requires UnfoldsEntries(g, parse, es, fields)
    ensures forall i :: 0 <= i < |es| ==> Qualify(parse, es[i].0) == Some((fields[i].key, fields[i].qualifier))
  {
  }

  /** Every object being compiled has t as a proper part of its unfolding. */
  ghost predicate Above(g: Graph, parse: Parser, active: set<Id>, t: Compiled) {
    forall a, u :: a in active && Unfolds(g, parse, At(a), u) ==> t < u
  }

  lemma {:induction false} CompileComplete(g: Graph, parse: Parser, r: Ref, active: set<Id>, t: Compiled)
    requires Closed(g) && Known(g, r) && Unfolds(g, parse, r, t) && Above(g, parse, active, t)
    ensures Compile(g, parse, r, active) == Ok(t)
    decreases g.Keys - active, 0, 0
  {
    if r.At? {
      assert r.id !in active;
      var inner := active + {r.id};
      assert r.id in g.Keys - active && r.id !in g.Keys - inner;
      match g[r.id]
      case TupleObject(c, _) =>
        assert Children(g[r.id])[0] == c;
        InnerAbove(g, parse, r, active, t, t.content);
        CompileComplete(g, parse, c, inner, t.content);
      case DictObject(es) =>
        assert forall i :: 0 <= i < |es| ==> es[i].1 == Children(g[r.id])[i];
        assert es[0..] == es && t.fields[..0] == [];
        forall i | 0 <= i < |es| ensures Above(g, parse, inner, t.fields[i].content) {
          assert t.fields[i].content < t.fields[i];
          assert t.fields[i] < t;
          InnerAbove(g, parse, r, active, t, t.fields[i].content);
        }
        EntriesComplete(g, parse, es, 0, t.fields, inner);
      case ListObject(items) =>
        assert Children(g[r.id]) == items;
        forall i | 0 <= i < |items| ensures Above(g, parse, inner, t.items[i]) {
          InnerAbove(g, parse, r, active, t, t.items[i]);
        }
        ItemsComplete(g, parse, items, inner, t.items);
    }
  }

  lemma InnerAbove(g: Graph, parse: Parser, r: Ref, active: set<Id>, t: Compiled, c: Compiled)
    requires r.At? && Unfolds(g, parse, r, t) && Above(g, parse, active, t) && c < t
    ensures Above(g, parse, active + {r.id}, c)
  {
    forall a, u | a in active + {r.id} && Unfolds(g, parse, At(a), u) ensures c < u {
      if a !in active { UnfoldUnique(g, parse, r, t, u); }
    }
  }

  lemma {:induction false} ItemsComplete(g: Graph, parse: Parser, items: seq<Ref>, active: set<Id>, ts: seq<Compiled>)
    requires Closed(g) && forall i :: 0 <= i < |items| ==> Known(g, items[i])
    requires UnfoldsItems(g, parse, items, ts) && forall i :: 0 <= i < |ts| ==> Above(g, parse, active, ts[i])
    ensures CompileItems(g, parse, items, active) == Ok(ts)
    decreases g.Keys - active, 1, |items|
  {
    hide Above;
    if items != [] {
      CompileComplete(g, parse, items[0], active, ts[0]);
      ItemsComplete(g, parse, items[1..], active, ts[1..]);
      assert [ts[0]] + ts[1..] == ts;
    }
  }

  lemma {:induction false} EntriesComplete(g: Graph, parse: Parser, es: seq<(RawKey, Ref)>, n: nat, fields: seq<Field>,
                                           active: set<Id>)
    requires Closed(g) && forall i :: 0 <= i < |es| ==> Known(g, es[i].1)
    requires n <= |es| && UnfoldsEntries(g, parse, es, fields) && KeysGood(parse, es)
    requires forall i :: 0 <= i < |fields| ==> Above(g, parse, active, fields[i].content)
    ensures CompileEntries(g, parse, es[n..], fields[..n], active) == Ok(fields)
    decreases g.Keys - active, 1, |es| - n
  {
    hide Above;
    KeysOf(g, parse, es, fields);
    if n < |es| {
      assert UnfoldsEntry(g, parse, es[n], fields[n]);
      CompileComplete(g, parse, es[n].1, active, fields[n].content);
      assert es[n..][1..] == es[n + 1..];
      assert fields[..n] + [fields[n]] == fields[..n + 1];
      EntriesComplete(g, parse, es, n + 1, fields, active);
    } else {
      assert fields[..n] == fields;
    }
  }

  /** Compilation succeeds with t exactly when t is the unfolding. */
  lemma CompilesToUnfolding(g: Graph, parse: Parser, r: Ref, t: Compiled)
    requires Closed(g) && Known(g, r)
    ensures Compile(g, parse, r, {}) == Ok(t) <==> Unfolds(g, parse, r, t)
  {
    if Unfolds(g, parse, r, t) { CompileComplete(g, parse, r, {}, t); }
    if Compile(g, parse, r, {}) == Ok(t) { CompileSound(g, parse, r, {}); }
  }

  // ---- Cycles ----

  ghost predicate Step(g: Graph, a: Ref, b: Ref) { a.At? && a.id in g && b in Children(g[a.id]) }

  ghost predicate Path(g: Graph, p: seq<Ref>) { forall i :: 0 <= i < |p| - 1 ==> Step(g, p[i], p[i + 1]) }

  ghost predicate PathFrom(g: Graph, r: Ref, p: seq<Ref>) { p != [] && p[0] == r && Path(g, p) }

  ghost predicate Repeats(p: seq<Ref>) { exists i, j :: 0 <= i < j < |p| && p[i] == p[j] }

  ghost predicate CycleFrom(g: Graph, r: Ref) { exists p :: PathFrom(g, r, p) && Repeats(p) }

  ghost predicate BadDict(g: Graph, parse: Parser, r: Ref) {
    r.At? && r.id in g && g[r.id].DictObject? && !KeysGood(parse, g[r.id].entries)
  }

  ghost predicate BadDictFrom(g: Graph, parse: Parser, r: Ref) {
    exists p :: PathFrom(g, r, p) && BadDict(g, parse, p[|p| - 1])
  }

  /** Along a path the unfoldings are parts of one another. */
  lemma {:induction false} PathUnfolds(g: Graph, parse: Parser, p: seq<Ref>, t: Compiled) returns (u: Compiled)
    requires p != [] && Path(g, p) && Unfolds(g, parse, p[0], t)
    ensures Unfolds(g, parse, p[|p| - 1], u) && (|p| > 1 ==> u < t) && (|p| == 1 ==> u == t)
    decreases |p|
  {
    if |p| == 1 {
      u := t;
    } else {
      assert Step(g, p[0], p[1]);
      var c := ChildUnfolds(g, parse, p[0], p[1], t);
      forall i | 0 <= i < |p| - 2 ensures Step(g, p[1..][i], p[1..][i + 1]) { assert Step(g, p[i + 1], p[i + 2]); }
      u := PathUnfolds(g, parse, p[1..], c);
    }
  }

  lemma ChildUnfolds(g: Graph, parse: Parser, a: Ref, b: Ref, t: Compiled) returns (c: Compiled)
    requires Step(g, a, b) && Unfolds(g, parse, a, t)
    ensures Unfolds(g, parse, b, c) && c < t
  {
    var i :| 0 <= i < |Children(g[a.id])| && Children(g[a.id])[i] == b;
    match g[a.id]
    case TupleObject(_, _) => c := t.content;
    case DictObject(es) =>
      assert UnfoldsEntry(g, parse, es[i], t.fields[i]);
      c := t.fields[i].content;
      assert c < t.fields[i];
    case ListObject(items) => c := t.items[i];
  }

  lemma SubPath(g: Graph, p: seq<Ref>, i: nat, j: nat)
    requires Path(g, p) && i < j <= |p|
    ensures Path(g, p[i..j])
  {
  }

  /** A reachable cycle has no finite unfolding. */
  lemma NoCycle(g: Graph, parse: Parser, r: Ref, p: seq<Ref>, t: Compiled)
    requires Unfolds(g, parse, r, t) && PathFrom(g, r, p)
    ensures !Repeats(p)
  {
    hide Unfolds;
    if Repeats(p) {
      var i, j :| 0 <= i < j < |p| && p[i] == p[j];
      SubPath(g, p, 0, i + 1);
      var u := PathUnfolds(g, parse, p[0..i + 1], t);
      SubPath(g, p, i, j + 1);
      var v := PathUnfolds(g, parse, p[i..j + 1], u);
      UnfoldUnique(g, parse, p[i], u, v);
      assert false;
    }
  }

  /** Nor has a reachable dictionary with bad keys. */
  lemma NoUnfolding(g: Graph, parse: Parser, r: Ref, t: Compiled)
    requires Unfolds(g, parse, r, t)
    ensures !CycleFrom(g, r) && !BadDictFrom(g, parse, r)
  {
    hide Unfolds;
    hide Repeats;
    hide BadDict;
    forall p | PathFrom(g, r, p) ensures !Repeats(p) && !BadDict(g, parse, p[|p| - 1]) {
      NoCycle(g, parse, r, p, t);
      var u := PathUnfolds(g, parse, p, t);
      GoodKeys(g, parse, p[|p| - 1], u);
    }
  }

  lemma GoodKeys(g: Graph, parse: Parser, r: Ref, t: Compiled)
    requires Unfolds(g, parse, r, t)
    ensures !BadDict(g, parse, r)
  {
  }

  // ---- What a failure shows ----

  /** p shows why compiling failed: it goes round a cycle or leads to a bad dictionary. */
  ghost predicate Witness(g: Graph, parse: Parser, p: seq<Ref>, e: Error) {
    p != [] && Path(g, p) && if e == Recursive then Repeats(p) else BadDict(g, parse, p[|p| - 1])
  }

  /** The objects being compiled are those on the path to here. */
  ghost predicate OnStack(active: set<Id>, stack: seq<Ref>) { forall a :: a in active <==> At(a) in stack }

  lemma Longer(g: Graph, stack: seq<Ref>, r: Ref)
    requires Path(g, stack) && (stack != [] ==> Step(g, stack[|stack| - 1], r))
    ensures Path(g, stack + [r])
  {
  }

  lemma {:induction false} CompileFails(g: Graph, parse: Parser, r: Ref, active: set<Id>, stack: seq<Ref>)
      returns (p: seq<Ref>)
    requires Closed(g) && Known(g, r) && Compile(g, parse, r, active).Err?
    requires Path(g, stack) && (stack != [] ==> Step(g, stack[|stack| - 1], r)) && OnStack(active, stack)
    ensures Witness(g, parse, p, Compile(g, parse, r, active).error) && stack + [r] <= p
    decreases g.Keys - active, 0, 0
  {
    Longer(g, stack, r);
    var here := stack + [r];
    if r.id in active {
      p := here;
      var i :| 0 <= i < |stack| && stack[i] == At(r.id);
      assert p[i] == p[|stack|];
    } else {
      var inner := active + {r.id};
      assert r.id in g.Keys - active && r.id !in g.Keys - inner;
      forall a ensures a in inner <==> At(a) in here { if a == r.id { assert here[|stack|] == At(a); } }
      assert OnStack(inner, here);
      match g[r.id]
      case TupleObject(c, _) =>
        assert Children(g[r.id])[0] == c;
        p := CompileFails(g, parse, c, inner, here);
      case DictObject(es) =>
        EachStep(g, r);
        assert es[0..] == es && es[..0] == [];
        p := EntriesFail(g, parse, es, 0, [], inner, here);
      case ListObject(items) =>
        EachStep(g, r);
        assert Children(g[r.id]) == items;
        assert forall i :: 0 <= i < |items| ==> Step(g, here[|here| - 1], items[i]);
        p := ItemsFail(g, parse, items, inner, here);
    }
  }

  lemma EachStep(g: Graph, r: Ref)
    requires r.At? && r.id in g
    ensures forall i :: 0 <= i < |Children(g[r.id])| ==> Step(g, r, Children(g[r.id])[i])
    ensures g[r.id].DictObject? ==>
              forall i :: 0 <= i < |g[r.id].entries| ==> g[r.id].entries[i].1 == Children(g[r.id])[i]
  {
  }

  lemma {:induction false} ItemsFail(g: Graph, parse: Parser, items: seq<Ref>, active: set<Id>, stack: seq<Ref>)
      returns (p: seq<Ref>)
    requires Closed(g) && forall i :: 0 <= i < |items| ==> Known(g, items[i])
    requires CompileItems(g, parse, items, active).Err?
    requires stack != [] && Path(g, stack) && OnStack(active, stack)
    requires forall i :: 0 <= i < |items| ==> Step(g, stack[|stack| - 1], items[i])
    ensures Witness(g, parse, p, CompileItems(g, parse, items, active).error) && stack <= p
    decreases g.Keys - active, 1, |items|
  {
    if Compile(g, parse, items[0], active).Err? {
      p := CompileFails(g, parse, items[0], active, stack);
    } else {
      p := ItemsFail(g, parse, items[1..], active, stack);
    }
  }

  lemma {:induction false} EntriesFail(g: Graph, parse: Parser, es: seq<(RawKey, Ref)>, n: nat, result: seq<Field>,
                                       active: set<Id>, stack: seq<Ref>) returns (p: seq<Ref>)
    requires Closed(g) && forall i :: 0 <= i < |es| ==> Known(g, es[i].1)
    requires MadeOf(g, parse, es, n, result) && CompileEntries(g, parse, es[n..], result, active).Err?
    requires stack != [] && Path(g, stack) && OnStack(active, stack)
    requires var r := stack[|stack| - 1]; r.At? && r.id in g && g[r.id] == DictObject(es)
    requires forall i :: 0 <= i < |es| ==> Step(g, stack[|stack| - 1], es[i].1)
    ensures Witness(g, parse, p, CompileEntries(g, parse, es[n..], result, active).error) && stack <= p
    decreases g.Keys - active, 1, |es| - n
  {
    hide Path;
    hide OnStack;
    var e := es[n];
    if Compile(g, parse, e.1, active).Err? {
      p := CompileFails(g, parse, e.1, active, stack);
    } else {
      p := stack;
      if Qualify(parse, e.0).Some? {
        CompileSound(g, parse, e.1, active);
        var f := Field(Qualify(parse, e.0).value.0, Qualify(parse, e.0).value.1, Compile(g, parse, e.1, active).value);
        AddField(g, parse, es, n, result, f);
        if HasKey(result, f.key) {
        } else {
          assert es[n..][1..] == es[n + 1..];
          p := EntriesFail(g, parse, es, n + 1, result + [f], active, stack);
        }
      }
    }
  }

  /** Every graph is compiled in finite time, and successfully exactly when no cycle can be
      reached and no reachable dictionary has a bad key or two keys that collide once their
      qualifiers are gone. */
  lemma CompilesIff(g: Graph, parse: Parser, r: Ref)
    requires Closed(g) && Known(g, r)
    ensures Compile(g, parse, r, {}).Ok? <==> !CycleFrom(g, r) && !BadDictFrom(g, parse, r)
  {
    hide Compile;
    if Compile(g, parse, r, {}).Ok? {
      CompileSound(g, parse, r, {});
      NoUnfolding(g, parse, r, Compile(g, parse, r, {}).value);
    } else {
      var p := CompileFails(g, parse, r, {}, []);
      assert p[0] == ([] + [r])[0];
      assert PathFrom(g, r, p);
    }
  }

  // ---- The active set in place ----

  /** One run of _transschema with its set of active objects. */
  class Compiler {
    const graph: Graph
    const parse: Parser
    var active: set<Id>

    constructor (graph: Graph, parse: Parser)
      ensures this.graph == graph && this.parse == parse && active == {}
    {
      this.graph, this.parse, active := graph, parse, {};
    }

    /** The object is active while it is compiled, and the set is restored on every way out. */
    method Transschema(value: Ref) returns (r: Result<Compiled>)
      requires Closed(graph) && Known(graph, value)
      modifies this
      ensures r == Compile(graph, parse, value, active) && active == old(active)
      decreases graph.Keys - active, 0
    {
      if value.Leaf? { return Ok(CLeaf(value.text)); }
      var marker := value.id;
      if marker in active { return Err(Recursive); }
      active := active + {marker};
      assert marker in graph.Keys - old(active) && marker !in graph.Keys - active;
      match graph[marker] {
        case TupleObject(content, rest) =>
          assert Children(graph[marker])[0] == content;
          var t := Transschema(content);
          r := if t.Ok? then Ok(CTuple(t.value, rest)) else Err(t.error);
        case DictObject(es) =>
          EachStep(graph, value);
          var fields := TransEntries(es);
          r := if fields.Ok? then Ok(CDict(fields.value)) else Err(fields.error);
        case ListObject(items) =>
          assert Children(graph[marker]) == items;
          var ts := TransItems(items);
          r := if ts.Ok? then Ok(CList(ts.value)) else Err(ts.error);
      }
      active := active - {marker};
      assert active == old(active);
    }

    method TransItems(items: seq<Ref>) returns (r: Result<seq<Compiled>>)
      requires Closed(graph) && forall i :: 0 <= i < |items| ==> Known(graph, items[i])
      modifies this
      ensures r == CompileItems(graph, parse, items, active) && active == old(active)
      decreases graph.Keys - active, 1
    {
      var ts: seq<Compiled> := [];
      assert items[0..] == items;
      PrependNone(CompileItems(graph, parse, items, active));
      for i := 0 to |items|
        invariant active == old(active)
        invariant CompileItems(graph, parse, items, active)
          == Prepend(ts, CompileItems(graph, parse, items[i..], active))
      {
        var t := Transschema(items[i]);
        if t.Err? { return Err(t.error); }
        assert items[i..][1..] == items[i + 1..];
        PrependMore(ts, t.value, CompileItems(graph, parse, items[i + 1..], active));
        ts := ts + [t.value];
      }
      assert items[|items|..] == [] && ts + [] == ts;
      r := Ok(ts);
    }

    method TransEntries(es: seq<(RawKey, Ref)>) returns (r: Result<seq<Field>>)
      requires Closed(graph) && forall i :: 0 <= i < |es| ==> Known(graph, es[i].1)
      modifies this
      ensures r == CompileEntries(graph, parse, es, [], active) && active == old(active)
      decreases graph.Keys - active, 1
    {
      var result: seq<Field> := [];
      assert es[0..] == es;
      for i := 0 to |es|
        invariant active == old(active)
        invariant CompileEntries(graph, parse, es, [], active) == CompileEntries(graph, parse, es[i..], result, active)
      {
        var t := Transschema(es[i].1);
        if t.Err? { return Err(t.error); }
        var q := Qualify(parse, es[i].0);
        if q.None? { return Err(BadKey); }
        if HasKey(result, q.value.0) { return Err(DuplicateKey); }
        assert es[i..][1..] == es[i + 1..];
        result := result + [Field(q.value.0, q.value.1, t.value)];
      }
      assert es[|es|..] == [];
      r := Ok(result);
    }
  }

  function Prepend(ts: seq<Compiled>, r: Result<seq<Compiled>>): Result<seq<Compiled>> {
    if r.Ok? then Ok(ts + r.value) else r
  }

  lemma PrependNone(r: Result<seq<Compiled>>)
    ensures Prepend([], r) == r
  {
    if r.Ok? { assert [] + r.value == r.value; }
  }

  lemma PrependMore(ts: seq<Compiled>, t: Compiled, r: Result<seq<Compiled>>)
    ensures Prepend(ts, if r.Ok? then Ok([t] + r.value) else r) == Prepend(ts + [t], r)
  {
    if r.Ok? { assert ts + ([t] + r.value) == ts + [t] + r.value; }
  }

  // ---- Keys ----

  /** A key that is no text is kept and has no qualifier; one that is text is parsed. */
  lemma QualifyIs(parse: Parser, s: string)
    ensures Qualify(parse, Other(s)) == Some((Other(s), None))
    ensures Qualify(parse, Text(s)) ==
      if parse(s) == None then None else Some((Text(parse(s).value.name), Some(parse(s).value.qualifier)))
  {
  }
}
