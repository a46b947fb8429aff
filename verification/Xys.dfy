/**
  Validation of documents against compiled schemas, xys.py.

  Validators, modifiers and string methods are parameters: test(name, document, schema) is the
  verdict of a validator, change(name, value) what a modifier makes of a value.  A dictionary
  is a map, iterated over in any order.  A document is a tree; where Python changes it in
  place, a method here returns the changed document.
 */
module Xys {
  import opened Wrappers

  // ---- Documents and schemas ----

  datatype AtomKind = Bool | Int | Float | Other(name: string)

  datatype Key = Name(text: string) | Number(kind: AtomKind, n: int)

  datatype Value =
    | Null
    | Str(text: string)
    | Atom(kind: AtomKind, n: int)
    | List(items: seq<Value>)
    | Dict(fields: map<Key, Value>)

  datatype Class = NullClass | StrClass | AtomClass(kind: AtomKind) | ListClass | DictClass

  datatype Mode = Mandatory | Generic | OptionalGroup

  /** ValidatorNode; test names its validator. */
  datatype Validator = Validator(content: Schema, test: string, mode: Mode, min: Option<nat>, max: Option<nat>)

  datatype Schema =
    | Node(validator: Validator)
    | Mapping(entries: seq<Entry>)
    | Sequence(items: seq<Schema>)
    | Anything
    | AnyScalar
    | OfClass(class_: Class)

  datatype Entry = Entry(key: SchemaKey, field: Field)
  datatype SchemaKey = Literal(key: Key) | Group(validator: Validator)

  datatype FieldKind = OptionalField | OptionalNullField | MandatoryField

  /** A value schema, with the qualifier of its key if that was a string. */
  datatype Field =
    | Bare(content: Schema)
    | Qualified(kind: FieldKind, content: Schema, minLen: Option<nat>, maxLen: Option<nat>, modifiers: seq<string>)

  datatype Env = Env(test: (string, Value, Schema) -> bool, change: (string, Value) -> Value)

  function ClassOf(v: Value): Class {
    match v
    case Null => NullClass
    case Str(_) => StrClass
    case Atom(kind, _) => AtomClass(kind)
    case List(_) => ListClass
    case Dict(_) => DictClass
  }

  function KeyValue(k: Key): Value {
    match k
    case Name(s) => Str(s)
    case Number(kind, n) => Atom(kind, n)
  }

  predicate IsScalar(v: Value) { v.Str? || (v.Atom? && !v.kind.Other?) }

  /** len(value), None when it has none. */
  function Len(v: Value): Option<nat> {
    match v
    case Str(s) => Some(|s|)
    case List(items) => Some(|items|)
    case Dict(fields) => Some(|fields|)
    case _ => None
  }

  /** _valid_len(...) is not False */
  predicate LenOk(v: Value, minLen: Option<nat>, maxLen: Option<nat>) {
    minLen.Some? ==> Len(v).Some? && minLen.value <= Len(v).value && (maxLen.Some? ==> Len(v).value <= maxLen.value)
  }

  function Modified(env: Env, v: Value, modifiers: seq<string>): Value
    decreases |modifiers|
  {
    if modifiers == [] then v else Modified(env, env.change(modifiers[0], v), modifiers[1..])
  }

  // ---- Depth, for termination ----

  function Max(a: nat, b: nat): nat { if a < b then b else a }

  function Depth(s: Schema): nat {
    match s
    case Node(v) => 1 + Depth(v.content)
    case Mapping(es) => 2 + EntriesDepth(es)
    case Sequence(items) => 1 + ItemsDepth(items)
    case _ => 0
  }

  function ItemsDepth(items: seq<Schema>): (d: nat)
    ensures forall s :: s in items ==> Depth(s) <= d
  {
    if items == [] then 0 else Max(Depth(items[0]), ItemsDepth(items[1..]))
  }

  function EntriesDepth(es: seq<Entry>): (d: nat)
    ensures forall x :: x in es ==> EntryDepth(x) <= d
  {
    if es == [] then 0 else Max(EntryDepth(es[0]), EntriesDepth(es[1..]))
  }

  function EntryDepth(x: Entry): nat { Max(KeyDepth(x.key), 2 + Depth(x.field.content)) }

  function KeyDepth(k: SchemaKey): nat {
    match k
    case Literal(_) => 0
    case Group(v) => 2 + Depth(v.content)
  }

  lemma {:induction false} SubDepth(a: seq<Entry>, d: nat)
    requires forall x :: x in a ==> EntryDepth(x) <= d
    ensures EntriesDepth(a) <= d
  {
    if a != [] { SubDepth(a[1..], d); }
  }

  // ---- The order in which entries claim keys ----

  predicate IsOptional(x: Entry) { x.key.Literal? && x.field.Qualified? && x.field.kind != MandatoryField }

  predicate IsGeneric(x: Entry) { x.key.Group? && x.key.validator.mode != Mandatory }

  function Mandatories(es: seq<Entry>): (r: seq<Entry>)
    ensures forall x :: x in r ==> x in es
  {
    if es == [] then []
    else
      var last := es[|es| - 1];
      Mandatories(es[..|es| - 1]) + if IsOptional(last) || IsGeneric(last) then [] else [last]
  }

  function Generics(es: seq<Entry>): (r: seq<Entry>)
    ensures forall x :: x in r ==> x in es && x.key.Group?
  {
    if es == [] then []
    else
      var last := es[|es| - 1];
      Generics(es[..|es| - 1]) + if IsGeneric(last) then [last] else []
  }

  function Optionals(es: seq<Entry>): (r: map<Key, Field>)
    ensures forall k :: k in r ==> Entry(Literal(k), r[k]) in es
  {
    if es == [] then map[]
    else
      var last := es[|es| - 1];
      var r := Optionals(es[..|es| - 1]);
      if IsOptional(last) then
        assert last == Entry(Literal(last.key.key), last.field);
        r[last.key.key := last.field]
      else r
  }

  function Order(es: seq<Entry>): (r: seq<Entry>)
    ensures EntriesDepth(r) <= EntriesDepth(es)
  {
    SubDepth(Mandatories(es) + Generics(es), EntriesDepth(es));
    Mandatories(es) + Generics(es)
  }

  // ---- What validation means ----

  /** item_schema.update(part) for one entry: a known key keeps its place. */
  function Put(es: seq<Entry>, x: Entry): (r: seq<Entry>)
    ensures forall y :: y in r ==> y in es || y == x
  {
    if es == [] then [x]
    else if es[0].key == x.key then [x] + es[1..]
    else [es[0]] + Put(es[1..], x)
  }

  function PutAll(es: seq<Entry>, more: seq<Entry>): (r: seq<Entry>)
    ensures forall y :: y in r ==> y in es || y in more
    decreases |more|
  {
    if more == [] then es else PutAll(Put(es, more[0]), more[1..])
  }

  function Merged(es: seq<Entry>, parts: seq<Schema>): (r: seq<Entry>)
    requires forall s :: s in parts ==> s.Mapping?
    decreases |parts|
  {
    if parts == [] then es else Merged(PutAll(es, parts[0].entries), parts[1..])
  }

  lemma {:induction false} MergedDepth(es: seq<Entry>, parts: seq<Schema>, d: nat)
    requires forall s :: s in parts ==> s.Mapping? && EntriesDepth(s.entries) <= d
    requires EntriesDepth(es) <= d
    ensures EntriesDepth(Merged(es, parts)) <= d
    decreases |parts|
  {
    if parts != [] {
      assert parts[0] in parts;
      SubDepth(PutAll(es, parts[0].entries), d);
      MergedDepth(PutAll(es, parts[0].entries), parts[1..], d);
    }
  }

  /** The schema of the items: several mappings stand for their union, later entries winning;
      None for the ValueError. */
  function ItemSchema(items: seq<Schema>): (r: Option<Schema>)
    requires items != []
    ensures r.Some? ==> Depth(r.value) <= ItemsDepth(items)
  {
    if |items| > 1 && items[0].Mapping? then
      if forall s :: s in items ==> s.Mapping? then
        MergedDepth([], items, ItemsDepth(items) - 2);
        Some(Mapping(Merged([], items)))
      else None
    else Some(items[0])
  }

  /** The document as validation leaves it, None if it is not accepted. */
  ghost function Validate(env: Env, doc: Value, s: Schema): Option<Value>
    decreases Depth(s), 0, 0
  {
    match s
    case Node(v) =>
      (match Validate(env, doc, v.content)
       case None => None
       case Some(d) => if env.test(v.test, d, v.content) then Some(d) else None)
    case Mapping(es) => if doc.Dict? then ValidateMapping(env, doc.fields, es) else None
    case Sequence(items) =>
      if !doc.List? then None
      else if items == [] then if doc.items == [] then Some(doc) else None
      else if ItemSchema(items).None? then None
      else ValidateItems(env, doc.items, ItemSchema(items).value)
    case Anything => Some(doc)
    case AnyScalar => if IsScalar(doc) then Some(doc) else None
    case OfClass(c) => if ClassOf(doc) == c then Some(doc) else None
  }

  ghost function ValidateItems(env: Env, items: seq<Value>, s: Schema): Option<Value>
    decreases Depth(s), 1, 0
  {
    if forall i :: 0 <= i < |items| ==> Validate(env, items[i], s).Some? then
      Some(List(seq(|items|, i requires 0 <= i < |items| => Validate(env, items[i], s).value)))
    else None
  }

  /** A value under a field schema: null and empty text pass early, before and after the
      modifiers; then the length and the content decide. */
  ghost function ValidateField(env: Env, v: Value, f: Field): Option<Value>
    decreases Depth(f.content), 2, 0
  {
    if f.Bare? then Validate(env, v, f.content)
    else if PassesEarly(f, v) then Some(v)
    else
      var w := Modified(env, v, f.modifiers);
      if PassesEarly(f, w) then Some(w)
      else if LenOk(w, f.minLen, f.maxLen) then Validate(env, w, f.content)
      else None
  }

  predicate PassesEarly(f: Field, v: Value) {
    f.Qualified? && ((f.kind == OptionalNullField && v == Null)
                     || (f.kind != MandatoryField && f.minLen == Some(0) && v == Str("")))
  }

  /** Whether an entry takes the key when it is its turn. */
  ghost predicate Claims(env: Env, x: Entry, k: Key)
    decreases EntryDepth(x), 0, 0
  {
    match x.key
    case Literal(y) => y == k
    case Group(v) =>
      assert KeyDepth(x.key) == 2 + Depth(v.content) && Depth(Node(v)) == 1 + Depth(v.content);
      Validate(env, KeyValue(k), Node(v)).Some?
  }

  /** The first entry that claims the key. */
  ghost function First(env: Env, order: seq<Entry>, k: Key): (i: nat)
    ensures i <= |order|
    decreases EntriesDepth(order), 1, |order|
  {
    if order == [] then 0
    else if Claims(env, order[0], k) then 0
    else 1 + First(env, order[1..], k)
  }

  /** The field schema a key is validated with. */
  ghost function Home(env: Env, es: seq<Entry>, k: Key): (r: Option<Field>)
    ensures r.Some? ==> exists x :: x in es && x.field == r.value
    decreases EntriesDepth(es), 2, 0
  {
    var order := Order(es);
    var i := First(env, order, k);
    if i < |order| then
      assert order[i] in order;
      Some(order[i].field)
    else if k in Optionals(es) then
      assert Entry(Literal(k), Optionals(es)[k]) in es;
      Some(Optionals(es)[k])
    else None
  }

  /** The keys that fall to an entry. */
  ghost function Taken(env: Env, fields: map<Key, Value>, order: seq<Entry>, i: nat): set<Key>
    decreases EntriesDepth(order), 2, 0
  {
    set k | k in fields && First(env, order, k) == i
  }

  function Least(v: Validator): nat {
    var min := if v.min.Some? then v.min.value else 0;
    if v.mode == Mandatory then Max(1, min) else min
  }

  predicate InBounds(v: Validator, count: nat) { Least(v) <= count && (v.max.Some? ==> count <= v.max.value) }

  /** A required literal gets its key, a group as many keys as it wants. */
  ghost predicate EntryMet(env: Env, fields: map<Key, Value>, order: seq<Entry>, i: nat)
    requires i < |order|
    decreases EntriesDepth(order), 3, 0
  {
    match order[i].key
    case Literal(k) => k in fields && First(env, order, k) == i
    case Group(v) => InBounds(v, |Taken(env, fields, order, i)|)
  }

  ghost predicate FieldMet(env: Env, v: Value, es: seq<Entry>, k: Key)
    decreases EntriesDepth(es), 3, 0
  {
    var home := Home(env, es, k);
    home.Some? && ValidateField(env, v, home.value).Some?
  }

  /** Every key has a home that accepts its value, and every entry is met. */
  ghost predicate Accepts(env: Env, fields: map<Key, Value>, es: seq<Entry>)
    decreases EntriesDepth(es), 4, 0
  {
    && (forall k :: k in fields ==> FieldMet(env, fields[k], es, k))
    && (forall i :: 0 <= i < |Order(es)| ==> EntryMet(env, fields, Order(es), i))
  }

  ghost function ValidateMapping(env: Env, fields: map<Key, Value>, es: seq<Entry>): Option<Value>
    decreases EntriesDepth(es), 5, 0
  {
    if Accepts(env, fields, es) then
      Some(Dict(map k | k in fields ::
        assert FieldMet(env, fields[k], es, k);
        ValidateField(env, fields[k], Home(env, es, k).value).value))
    else None
  }

  lemma {:induction false} FirstIs(env: Env, order: seq<Entry>, k: Key)
    ensures forall j :: 0 <= j < First(env, order, k) ==> !Claims(env, order[j], k)
    ensures First(env, order, k) < |order| ==> Claims(env, order[First(env, order, k)], k)
    decreases |order|
  {
    hide Claims;
    if order != [] && !Claims(env, order[0], k) {
      FirstIs(env, order[1..], k);
      var i := First(env, order[1..], k);
      forall j | 0 <= j < 1 + i ensures !Claims(env, order[j], k) { if j > 0 { assert order[j] == order[1..][j - 1]; } }
      assert i < |order[1..]| ==> order[1..][i] == order[1 + i];
    }
  }

  // ---- The algorithm, step by step ----

  /** Validation never adds or removes a key or an item. */
  predicate SameShape(a: Value, b: Value) {
    match a
    case Dict(fields) => b.Dict? && b.fields.Keys == fields.Keys
    case List(items) => b.List? && |b.items| == |items|
    case _ => b == a
  }

  method ApplyModifiers(env: Env, document: map<Key, Value>, key: Key, value: Value, modifiers: seq<string>)
    returns (v: Value, d: map<Key, Value>)
    requires key in document
    ensures v == Modified(env, value, modifiers)
    ensures d == if modifiers == [] then document else document[key := v]
  {
    v, d := value, document;
    assert modifiers[0..] == modifiers;
    for i := 0 to |modifiers|
      invariant Modified(env, v, modifiers[i..]) == Modified(env, value, modifiers)
      invariant d == if i == 0 then document else document[key := v]
    {
      assert modifiers[i..][1..] == modifiers[i + 1..];
      v := env.change(modifiers[i], v);
      d := d[key := v];
    }
    assert modifiers[|modifiers|..] == [];
  }

  /** validate */
  method Check(env: Env, doc: Value, s: Schema) returns (ok: bool, d: Value)
    ensures ok == Validate(env, doc, s).Some? && (ok ==> d == Validate(env, doc, s).value)
    ensures SameShape(doc, d)
    decreases Depth(s), 0, 0
  {
    ok, d := false, doc;
    match s
    case Node(v) =>
      ok, d := Check(env, doc, v.content);
      if ok { ok := env.test(v.test, d, v.content); }
    case Mapping(es) =>
      if doc.Dict? {
        var fields;
        ok, fields := CheckDict(env, doc.fields, es);
        d := Dict(fields);
      }
    case Sequence(items) =>
      if doc.List? {
        if items == [] {
          ok := doc.items == [];
        } else if ItemSchema(items).Some? {
          var found;
          ok, found := CheckItems(env, doc.items, ItemSchema(items).value);
          d := List(found);
        }
      }
    case Anything => ok := true;
    case AnyScalar => ok := IsScalar(doc);
    case OfClass(c) => ok := ClassOf(doc) == c;
  }

  /** The end of _validate_list. */
  method CheckItems(env: Env, items: seq<Value>, s: Schema) returns (ok: bool, d: seq<Value>)
    ensures |d| == |items|
    ensures ok == ValidateItems(env, items, s).Some? && (ok ==> List(d) == ValidateItems(env, items, s).value)
    decreases Depth(s), 1, 0
  {
    hide Validate;
    d := items;
    for i := 0 to |items|
      invariant |d| == |items| && d[i..] == items[i..]
      invariant forall j :: 0 <= j < i ==> Validate(env, items[j], s) == Some(d[j])
    {
      var good, v := Check(env, items[i], s);
      d := d[i := v];
      if !good { return false, d; }
    }
    ok := true;
  }

  /** _validate_field */
  method CheckField(env: Env, document: map<Key, Value>, key: Key, value: Value, f: Field)
      returns (ok: bool, d: map<Key, Value>)
    requires key in document && document[key] == value
    ensures d.Keys == document.Keys && forall k :: k in document && k != key ==> d[k] == document[k]
    ensures ok == ValidateField(env, value, f).Some? && (ok ==> d[key] == ValidateField(env, value, f).value)
    decreases Depth(f.content), 2, 0
  {
    hide Validate;
    ok, d := true, document;
    var v := value;
    if f.Qualified? {
      var nullable := f.kind == OptionalNullField;
      var optional := f.kind != MandatoryField;
      if nullable && v == Null { return; }
      if optional && f.minLen == Some(0) && v == Str("") { return; }
      v, d := ApplyModifiers(env, document, key, value, f.modifiers);
      if nullable && v == Null { return; }
      if optional && f.minLen == Some(0) && v == Str("") { return; }
      if !LenOk(v, f.minLen, f.maxLen) { return false, d; }
    }
    ok, v := Check(env, v, f.content);
    d := d[key := v];
  }

  ghost function Claimed(env: Env, remaining: map<Key, Value>, x: Entry): set<Key> {
    set k | k in remaining && Claims(env, x, k)
  }

  /** _validate_key_group: the fields of the keys it takes are validated, and the keys are
      removed from remaining. */
  method CheckKeyGroup(env: Env, document: map<Key, Value>, remaining: map<Key, Value>, v: Validator, f: Field)
    returns (ok: bool, d: map<Key, Value>, rest: map<Key, Value>)
    requires forall k :: k in remaining ==> k in document && remaining[k] == document[k]
    ensures d.Keys == document.Keys
    ensures var taken := Claimed(env, remaining, Entry(Group(v), f));
            && ok == (InBounds(v, |taken|) && forall k :: k in taken ==> ValidateField(env, remaining[k], f).Some?)
            && (ok ==> rest == remaining - taken)
            && (ok ==> forall k :: k in document ==>
                  if k in taken then ValidateField(env, document[k], f) == Some(d[k]) else d[k] == document[k])
    decreases EntryDepth(Entry(Group(v), f)), 3, 0
  {
    hide Validate;
    hide ValidateField;
    assert KeyDepth(Group(v)) == 2 + Depth(v.content) && Depth(Node(v)) == 1 + Depth(v.content);
    ghost var x := Entry(Group(v), f);
    ghost var taken := Claimed(env, remaining, x);
    var todo, matched := remaining.Keys, {};
    d, rest := document, remaining;
    while todo != {}
      invariant todo <= remaining.Keys && d.Keys == document.Keys
      invariant forall k :: k in remaining.Keys - todo ==> (k in matched <==> Claims(env, x, k))
      invariant matched <= remaining.Keys - todo
      invariant forall k :: k in document ==>
                  if k in matched then ValidateField(env, document[k], f) == Some(d[k]) else d[k] == document[k]
    {
      var k :| k in todo;
      todo := todo - {k};
      var claimed, _ := Check(env, KeyValue(k), Node(v));
      assert claimed == Claims(env, x, k);
      if claimed {
        var good;
        good, d := CheckField(env, d, k, remaining[k], f);
        if !good {
          assert k in taken && ValidateField(env, remaining[k], f).None?;
          return false, d, remaining;
        }
        matched := matched + {k};
      }
    }
    assert matched == taken;
    var minimum := if v.min.Some? then v.min.value else 0;
    if v.mode == Mandatory { minimum := Max(1, minimum); }
    if |matched| < minimum || (v.max.Some? && |matched| > v.max.value) { return false, d, remaining; }
    rest := remaining - matched;
    ok := true;
  }

  // ---- A whole dictionary ----

  /** The first n entries have had their turn. */
  ghost predicate Processed(env: Env, fields: map<Key, Value>, order: seq<Entry>, n: nat, remaining: map<Key, Value>,
                            d: map<Key, Value>) {
    && n <= |order| && d.Keys == fields.Keys
    && remaining == (map k | k in fields && First(env, order, k) >= n :: fields[k])
    && (forall k :: k in fields ==> ValueAt(env, fields[k], order, n, k, d[k]))
    && (forall i :: 0 <= i < n ==> EntryMet(env, fields, order, i))
  }

  /** What the document holds for a key: the validated value once its entry had its turn. */
  ghost predicate ValueAt(env: Env, v: Value, order: seq<Entry>, n: nat, k: Key, now: Value) {
    var i := First(env, order, k);
    if i < n && i < |order| then ValidateField(env, v, order[i].field) == Some(now) else now == v
  }

  lemma AtTheStart(env: Env, fields: map<Key, Value>, order: seq<Entry>)
    ensures Processed(env, fields, order, 0, fields, fields)
  {
  }

  /** Of the keys left, the n-th entry claims those that fall to it. */
  lemma ClaimedIsTaken(env: Env, fields: map<Key, Value>, order: seq<Entry>, n: nat, k: Key)
    requires n < |order| && First(env, order, k) >= n
    ensures Claims(env, order[n], k) <==> First(env, order, k) == n
  {
    hide Claims;
    FirstIs(env, order, k);
  }

  /** A key whose value is refused by its entry. */
  lemma Refused(env: Env, fields: map<Key, Value>, es: seq<Entry>, k: Key, n: nat)
    requires k in fields && n < |Order(es)| && First(env, Order(es), k) == n
    requires ValidateField(env, fields[k], Order(es)[n].field).None?
    ensures !Accepts(env, fields, es)
  {
    hide ValidateField;
    assert !FieldMet(env, fields[k], es, k);
  }

  /** An entry that cannot be met. */
  lemma Unmet(env: Env, fields: map<Key, Value>, es: seq<Entry>, n: nat)
    requires n < |Order(es)| && !EntryMet(env, fields, Order(es), n)
    ensures !Accepts(env, fields, es)
  {
    hide EntryMet;
    hide FieldMet;
  }

  /** One turn: a required literal, or a group. */
  method CheckEntry(env: Env, ghost fields: map<Key, Value>, ghost es: seq<Entry>, ghost n: nat, x: Entry,
                    remaining: map<Key, Value>, document: map<Key, Value>)
    returns (ok: bool, d: map<Key, Value>, rest: map<Key, Value>)
    requires n < |Order(es)| && Order(es)[n] == x && Processed(env, fields, Order(es), n, remaining, document)
    ensures d.Keys == fields.Keys
    ensures ok ==> Processed(env, fields, Order(es), n + 1, rest, d)
    ensures !ok ==> !Accepts(env, fields, es)
    decreases EntriesDepth(es), 4, 0
  {
    hide Validate;
    hide ValidateField;
    hide Accepts;
    ghost var order := Order(es);
    assert x in order;
    assert EntryDepth(x) <= EntriesDepth(es);
    forall k | k in remaining ensures Claims(env, x, k) <==> First(env, order, k) == n {
      ClaimedIsTaken(env, fields, order, n, k);
    }
    assert forall k :: k in remaining ==> ValueAt(env, fields[k], order, n, k, document[k]);
    if x.key.Group? {
      assert x == Entry(Group(x.key.validator), x.field);
      ok, d, rest := CheckKeyGroup(env, document, remaining, x.key.validator, x.field);
      ghost var taken := Taken(env, fields, order, n);
      assert Claimed(env, remaining, x) == taken;
      if ok {
        AfterTurn(env, fields, order, n, remaining, document, taken, rest, d);
      } else if k :| k in taken && ValidateField(env, remaining[k], x.field).None? {
        Refused(env, fields, es, k, n);
      } else {
        Unmet(env, fields, es, n);
      }
    } else {
      var key := x.key.key;
      if key !in remaining {
        Unmet(env, fields, es, n);
        return false, document, remaining;
      }
      ok, d := CheckField(env, document, key, remaining[key], x.field);
      rest := remaining - {key};
      if ok {
        assert Taken(env, fields, order, n) == {key};
        AfterTurn(env, fields, order, n, remaining, document, {key}, rest, d);
      } else {
        Refused(env, fields, es, key, n);
      }
    }
  }

  lemma AfterTurn(env: Env, fields: map<Key, Value>, order: seq<Entry>, n: nat, remaining: map<Key, Value>,
                  document: map<Key, Value>, taken: set<Key>, rest: map<Key, Value>, d: map<Key, Value>)
    requires n < |order| && Processed(env, fields, order, n, remaining, document)
    requires taken == Taken(env, fields, order, n) && rest == remaining - taken && d.Keys == fields.Keys
    requires EntryMet(env, fields, order, n)
    requires forall k :: k in document ==>
               if k in taken then ValidateField(env, document[k], order[n].field) == Some(d[k]) else d[k] == document[k]
    ensures Processed(env, fields, order, n + 1, rest, d)
  {
    hide ValidateField;
    hide EntryMet;
    hide First;
    forall k | k in fields ensures ValueAt(env, fields[k], order, n + 1, k, d[k]) {
      assert ValueAt(env, fields[k], order, n, k, document[k]);
    }
    assert rest == (map k | k in fields && First(env, order, k) >= n + 1 :: fields[k]);
  }

  /** _validate_dict, for a dictionary. */
  method CheckDict(env: Env, document: map<Key, Value>, es: seq<Entry>) returns (ok: bool, d: map<Key, Value>)
    ensures d.Keys == document.Keys
    ensures ok == ValidateMapping(env, document, es).Some?
      && (ok ==> Dict(d) == ValidateMapping(env, document, es).value)
    decreases EntriesDepth(es), 5, 0
  {
    hide Validate;
    hide ValidateField;
    hide Accepts;
    hide Processed;
    var mandatory, generic, optional := Sort(es);
    ghost var order := Order(es);
    var remaining := document;
    d := document;
    AtTheStart(env, document, order);
    for i := 0 to |mandatory|
      invariant d.Keys == document.Keys && Processed(env, document, order, i, remaining, d)
    {
      ok, d, remaining := CheckEntry(env, document, es, i, mandatory[i], remaining, d);
      if !ok { return; }
    }
    for i := 0 to |generic|
      invariant d.Keys == document.Keys && Processed(env, document, order, |mandatory| + i, remaining, d)
    {
      ok, d, remaining := CheckEntry(env, document, es, |mandatory| + i, generic[i], remaining, d);
      if !ok { return; }
    }
    ok, d := CheckRest(env, document, es, optional, remaining, d);
  }

  /** The first loop of _validate_dict. */
  method Sort(es: seq<Entry>) returns (mandatory: seq<Entry>, generic: seq<Entry>, optional: map<Key, Field>)
    ensures mandatory + generic == Order(es) && mandatory == Mandatories(es) && generic == Generics(es)
      && optional == Optionals(es)
  {
    mandatory, generic, optional := [], [], map[];
    for i := 0 to |es|
      invariant mandatory == Mandatories(es[..i]) && generic == Generics(es[..i]) && optional == Optionals(es[..i])
    {
      var x := es[i];
      assert es[..i + 1][..i] == es[..i];
      if x.key.Group? {
        if x.key.validator.mode == Mandatory { mandatory := mandatory + [x]; } else { generic := generic + [x]; }
      } else if x.field.Qualified? && x.field.kind != MandatoryField {
        optional := optional[x.key.key := x.field];
      } else {
        mandatory := mandatory + [x];
      }
    }
    assert es[..|es|] == es;
  }

  /** The keys no entry claimed must be optional. */
  method CheckRest(env: Env, ghost fields: map<Key, Value>, es: seq<Entry>, optional: map<Key, Field>,
                   remaining: map<Key, Value>, document: map<Key, Value>)
    returns (ok: bool, d: map<Key, Value>)
    requires optional == Optionals(es) && Processed(env, fields, Order(es), |Order(es)|, remaining, document)
    ensures d.Keys == fields.Keys
    ensures ok == ValidateMapping(env, fields, es).Some? && (ok ==> Dict(d) == ValidateMapping(env, fields, es).value)
    decreases EntriesDepth(es), 4, 0
  {
    hide Validate;
    hide ValidateField;
    hide Processed;
    hide Accepts;
    hide FieldMet;
    hide ValidateMapping;
    RemainingIs(env, fields, es, remaining, document);
    d := document;
    var todo := remaining.Keys;
    while todo != {}
      invariant todo <= remaining.Keys && d.Keys == fields.Keys
      invariant forall k :: k in fields && (k !in remaining || k in todo) ==> d[k] == document[k]
      invariant forall k :: k in remaining.Keys - todo
                  ==> k in optional && ValidateField(env, fields[k], optional[k]) == Some(d[k])
    {
      var key :| key in todo;
      todo := todo - {key};
      if key !in optional {
        Homeless(env, fields, es, key);
        return false, d;
      }
      assert Entry(Literal(key), optional[key]) in es;
      ok, d := CheckField(env, d, key, remaining[key], optional[key]);
      if !ok {
        Homeless(env, fields, es, key);
        return;
      }
    }
    ok := true;
    AllDone(env, fields, es, remaining, document, d);
  }

  lemma RemainingIs(env: Env, fields: map<Key, Value>, es: seq<Entry>, remaining: map<Key, Value>,
                    document: map<Key, Value>)
    requires Processed(env, fields, Order(es), |Order(es)|, remaining, document)
    ensures document.Keys == fields.Keys
    ensures forall k :: k in remaining <==> k in fields && First(env, Order(es), k) == |Order(es)|
    ensures forall k :: k in remaining ==> remaining[k] == fields[k] == document[k]
  {
  }

  /** A key that no entry claims, and no optional field takes with its value. */
  lemma Homeless(env: Env, fields: map<Key, Value>, es: seq<Entry>, k: Key)
    requires k in fields && First(env, Order(es), k) == |Order(es)|
    requires k in Optionals(es) ==> ValidateField(env, fields[k], Optionals(es)[k]).None?
    ensures ValidateMapping(env, fields, es).None?
  {
    hide ValidateField;
    hide First;
    assert !FieldMet(env, fields[k], es, k);
  }

  lemma AllDone(env: Env, fields: map<Key, Value>, es: seq<Entry>, remaining: map<Key, Value>,
                document: map<Key, Value>, d: map<Key, Value>)
    requires Processed(env, fields, Order(es), |Order(es)|, remaining, document) && d.Keys == fields.Keys
    requires forall k :: k in fields && k !in remaining ==> d[k] == document[k]
    requires forall k ::
               k in remaining ==> k in Optionals(es) && ValidateField(env, fields[k], Optionals(es)[k]) == Some(d[k])
    ensures ValidateMapping(env, fields, es) == Some(Dict(d))
  {
    hide ValidateField;
    hide First;
    hide EntryMet;
    hide Processed;
    RemainingIs(env, fields, es, remaining, document);
    var order := Order(es);
    forall k | k in fields
      ensures FieldMet(env, fields[k], es, k) && ValidateField(env, fields[k], Home(env, es, k).value) == Some(d[k])
    {
      if k !in remaining {
        TurnOver(env, fields, order, |order|, remaining, document, k);
      }
    }
    EntriesMet(env, fields, order, remaining, document);
    assert Accepts(env, fields, es);
    MappingIs(env, fields, es, d);
  }

  lemma MappingIs(env: Env, fields: map<Key, Value>, es: seq<Entry>, d: map<Key, Value>)
    requires Accepts(env, fields, es) && d.Keys == fields.Keys
    requires forall k ::
               k in fields ==>
                 && FieldMet(env, fields[k], es, k)
                 && ValidateField(env, fields[k], Home(env, es, k).value) == Some(d[k])
    ensures ValidateMapping(env, fields, es) == Some(Dict(d))
  {
    hide ValidateField;
    hide Home;
    hide Accepts;
    hide FieldMet;
    var m := ValidateMapping(env, fields, es).value.fields;
    assert forall k :: k in fields ==> k in m && m[k] == d[k];
    assert m == d;
  }

  lemma EntriesMet(env: Env, fields: map<Key, Value>, order: seq<Entry>, remaining: map<Key, Value>,
                   document: map<Key, Value>)
    requires Processed(env, fields, order, |order|, remaining, document)
    ensures forall i :: 0 <= i < |order| ==> EntryMet(env, fields, order, i)
  {
  }

  lemma TurnOver(env: Env, fields: map<Key, Value>, order: seq<Entry>, n: nat, remaining: map<Key, Value>,
                 document: map<Key, Value>, k: Key)
    requires Processed(env, fields, order, n, remaining, document) && k in fields && k !in remaining
    ensures First(env, order, k) < |order|
      && ValidateField(env, fields[k], order[First(env, order, k)].field) == Some(document[k])
  {
  }

  // ---- What the order of the entries means ----

  /** A required literal key that an earlier mandatory group also matches can never be met: the
      schema accepts no document at all. */
  lemma ShadowedLiteral(env: Env, es: seq<Entry>, i: nat, j: nat, fields: map<Key, Value>)
    requires i < j < |Order(es)| && Order(es)[j].key.Literal? && Claims(env, Order(es)[i], Order(es)[j].key.key)
    ensures !Accepts(env, fields, es)
  {
    hide Claims;
    hide FieldMet;
    var k := Order(es)[j].key.key;
    FirstIs(env, Order(es), k);
    assert !EntryMet(env, fields, Order(es), j);
  }

  /** A required literal is met exactly when its key is there and no earlier entry matches it. */
  lemma LiteralMetIff(env: Env, order: seq<Entry>, j: nat, fields: map<Key, Value>)
    requires j < |order| && order[j].key.Literal?
    ensures EntryMet(env, fields, order, j)
      <==> order[j].key.key in fields && forall i :: 0 <= i < j ==> !Claims(env, order[i], order[j].key.key)
  {
    FirstIs(env, order, order[j].key.key);
    if forall i :: 0 <= i < j ==> !Claims(env, order[i], order[j].key.key) {
      assert Claims(env, order[j], order[j].key.key);
    }
  }

  const WORDS := Validator(OfClass(StrClass), "any", Mandatory, None, None)
  const WORDS_AND_A := [Entry(Group(WORDS), Bare(Anything)), Entry(Literal(Name("a")), Bare(Anything))]

  /** A group of any strings in front of a required "a": no document is accepted. */
  lemma NoDocument(fields: map<Key, Value>)
    ensures var env := Env((name, d, s) => true, (name, v) => v);
            !Accepts(env, fields, WORDS_AND_A) && Validate(env, Dict(fields), Mapping(WORDS_AND_A)) == None
  {
    var env := Env((name, d, s) => true, (name, v) => v);
    var front := WORDS_AND_A[..1];
    assert front == [WORDS_AND_A[0]] && front[..0] == [];
    assert Mandatories(front) == Mandatories(front[..0]) + [WORDS_AND_A[0]];
    assert Generics(front) == Generics(front[..0]) == [];
    assert Order(WORDS_AND_A) == WORDS_AND_A;
    assert Claims(env, WORDS_AND_A[0], Name("a"));
    ShadowedLiteral(env, WORDS_AND_A, 0, 1, fields);
  }

  ghost predicate Literals(es: seq<Entry>) {
    && (forall x :: x in es ==> x.key.Literal?)
    && (forall i, j :: 0 <= i < j < |es| ==> es[i].key != es[j].key)
  }

  lemma {:induction false} LiteralOrder(es: seq<Entry>)
    requires Literals(es)
    ensures Generics(es) == [] && Literals(Mandatories(es))
    ensures forall x :: x in Mandatories(es) <==> x in es && !IsOptional(x)
    ensures forall k :: k in Optionals(es) <==> exists x :: x in es && IsOptional(x) && x.key.key == k
  {
    if es != [] {
      var init, last := es[..|es| - 1], es[|es| - 1];
      LiteralOrder(init);
      assert es == init + [last];
      forall x | x in init ensures x.key != last.key { var i :| 0 <= i < |init| && init[i] == x; assert es[i] == x; }
      OptionalKeys(init, last);
    }
  }

  lemma OptionalKeys(init: seq<Entry>, last: Entry)
    requires last.key.Literal?
    requires forall k :: k in Optionals(init) <==> exists x :: x in init && IsOptional(x) && x.key.key == k
    ensures forall k ::
              k in Optionals(init + [last]) <==> exists x :: x in init + [last] && IsOptional(x) && x.key.key == k
  {
  }

  /** The home of a key is the one entry that has it. */
  lemma LiteralHome(env: Env, es: seq<Entry>, x: Entry)
    requires Literals(es) && x in es
    ensures Home(env, es, x.key.key) == Some(x.field)
    ensures !IsOptional(x)
      ==> First(env, Order(es), x.key.key) < |Order(es)| && Order(es)[First(env, Order(es), x.key.key)] == x
  {
    LiteralOrder(es);
    var order, k := Order(es), x.key.key;
    assert order == Mandatories(es);
    FirstIs(env, order, k);
    var i := First(env, order, k);
    assert forall y, z :: y in es && z in es && y.key == z.key ==> y == z;
    if i < |order| {
      assert order[i] in es && Claims(env, order[i], k);
    } else {
      if !IsOptional(x) { var j :| 0 <= j < |order| && order[j] == x; assert Claims(env, order[j], k); }
      assert Entry(Literal(k), Optionals(es)[k]) in es;
    }
  }

  predicate RequiredThere(fields: map<Key, Value>, es: seq<Entry>)
    requires Literals(es)
  {
    forall x :: x in es && !IsOptional(x) ==> x.key.key in fields
  }

  predicate AllDeclared(fields: map<Key, Value>, es: seq<Entry>)
    requires Literals(es)
  {
    forall k :: k in fields ==> Declares(es, k)
  }

  predicate Declares(es: seq<Entry>, k: Key) { exists x :: x in es && x.key == Literal(k) }

  ghost predicate ValuesFit(env: Env, fields: map<Key, Value>, es: seq<Entry>)
    requires Literals(es)
  {
    forall x :: x in es && x.key.key in fields ==> ValidateField(env, fields[x.key.key], x.field).Some?
  }

  lemma DeclaredIffHome(env: Env, es: seq<Entry>, k: Key)
    requires Literals(es)
    ensures Home(env, es, k).Some? <==> Declares(es, k)
  {
    if Home(env, es, k).Some? { HomeDeclares(env, es, k); }
    hide Home;
    if x :| x in es && x.key == Literal(k) { LiteralHome(env, es, x); }
  }

  lemma HomeDeclares(env: Env, es: seq<Entry>, k: Key)
    requires Literals(es) && Home(env, es, k).Some?
    ensures Declares(es, k)
  {
    hide Validate;
    hide First;
    LiteralOrder(es);
    hide Mandatories;
    hide Generics;
    hide Optionals;
    FirstIs(env, Order(es), k);
    var i := First(env, Order(es), k);
    if i < |Order(es)| {
      var x := Order(es)[i];
      assert x in Mandatories(es);
      assert x in es && Claims(env, x, k);
    } else {
      assert k in Optionals(es);
      var x :| x in es && IsOptional(x) && x.key.key == k;
      assert x.key == Literal(k);
    }
  }

  ghost predicate AllFieldsMet(env: Env, fields: map<Key, Value>, es: seq<Entry>) {
    forall k :: k in fields ==> FieldMet(env, fields[k], es, k)
  }

  ghost predicate AllEntriesMet(env: Env, fields: map<Key, Value>, es: seq<Entry>) {
    forall i :: 0 <= i < |Order(es)| ==> EntryMet(env, fields, Order(es), i)
  }

  lemma AcceptsIs(env: Env, fields: map<Key, Value>, es: seq<Entry>)
    ensures Accepts(env, fields, es) <==> AllFieldsMet(env, fields, es) && AllEntriesMet(env, fields, es)
  {
  }

  lemma FieldsMetIff(env: Env, fields: map<Key, Value>, es: seq<Entry>)
    requires Literals(es)
    ensures AllFieldsMet(env, fields, es) <==> AllDeclared(fields, es) && ValuesFit(env, fields, es)
  {
    forall k | k in fields ensures FieldMet(env, fields[k], es, k) <==> Declares(es, k) && Fits(env, fields, es, k) {
      FieldMetIff(env, fields, es, k);
    }
    hide FieldMet;
    hide ValidateField;
    hide Declares;
  }

  ghost predicate Fits(env: Env, fields: map<Key, Value>, es: seq<Entry>, k: Key)
    requires k in fields
  {
    forall x :: x in es && x.key == Literal(k) ==> ValidateField(env, fields[k], x.field).Some?
  }

  lemma FieldMetIff(env: Env, fields: map<Key, Value>, es: seq<Entry>, k: Key)
    requires Literals(es) && k in fields
    ensures FieldMet(env, fields[k], es, k) <==> Declares(es, k) && Fits(env, fields, es, k)
  {
    hide ValidateField;
    hide Home;
    DeclaredIffHome(env, es, k);
    forall x | x in es && x.key == Literal(k) ensures Home(env, es, k) == Some(x.field) { LiteralHome(env, es, x); }
    if Declares(es, k) { var x :| x in es && x.key == Literal(k); }
  }

  lemma EntriesMetIff(env: Env, fields: map<Key, Value>, es: seq<Entry>)
    requires Literals(es)
    ensures AllEntriesMet(env, fields, es) <==> RequiredThere(fields, es)
  {
    var order := Order(es);
    LiteralOrder(es);
    assert order == Mandatories(es);
    forall i | 0 <= i < |order| ensures EntryMet(env, fields, order, i) <==> order[i].key.key in fields {
      LiteralMet(env, fields, es, i);
    }
    forall x | x in es && !IsOptional(x) ensures exists i :: 0 <= i < |order| && order[i] == x {
      assert x in Mandatories(es);
    }
    forall i | 0 <= i < |order| ensures order[i] in es && !IsOptional(order[i]) { assert order[i] in Mandatories(es); }
    hide First;
    hide Taken;
    hide Mandatories;
    hide EntryMet;
  }

  lemma OnePlace(es: seq<Entry>, i: nat, j: nat)
    requires Literals(es) && i < |es|
    ensures j < |es| && es[i] == es[j] ==> i == j
  {
  }

  lemma LiteralMet(env: Env, fields: map<Key, Value>, es: seq<Entry>, i: nat)
    requires Literals(es) && i < |Order(es)|
    ensures Order(es)[i] in es && Order(es)[i].key.Literal?
    ensures EntryMet(env, fields, Order(es), i) <==> Order(es)[i].key.key in fields
  {
    hide Claims;
    hide First;
    var order := Order(es);
    LiteralOrder(es);
    assert order == Mandatories(es);
    assert order[i] in es;
    LiteralHome(env, es, order[i]);
    var j := First(env, order, order[i].key.key);
    OnePlace(order, i, j);
  }

  /** Without groups: every required key is there, every key is declared, every value valid. */
  lemma LiteralMapping(env: Env, fields: map<Key, Value>, es: seq<Entry>)
    requires Literals(es)
    ensures Accepts(env, fields, es)
      <==> RequiredThere(fields, es) && AllDeclared(fields, es) && ValuesFit(env, fields, es)
  {
    FieldsMetIff(env, fields, es);
    EntriesMetIff(env, fields, es);
    AcceptsIs(env, fields, es);
  }

  /** An accepted document keeps its keys, at any nesting of validators. */
  lemma {:induction false} KeepsShape(env: Env, doc: Value, s: Schema)
    requires Validate(env, doc, s).Some?
    ensures SameShape(doc, Validate(env, doc, s).value)
    decreases s
  {
    match s
    case Node(v) => KeepsShape(env, doc, v.content);
    case Mapping(es) => assert Validate(env, doc, s) == ValidateMapping(env, doc.fields, es);
    case _ =>
  }
}
