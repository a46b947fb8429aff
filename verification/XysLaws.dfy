/**
  What the pieces of validation decide, told by the shape of the value and of the schema:
  lengths, early passes, classes, merged lists, the bounds of key groups and the order in which
  entries take their keys.
 */
module XysLaws {
  import opened Xys
  import opened Wrappers

  // ---- Single values ----

  /** A value that a field lets through at once. */
  predicate Skipped(kind: FieldKind, minLen: Option<nat>, v: Value) {
    match v
    case Null => kind == OptionalNullField
    case Str(text) => text == "" && kind != MandatoryField && minLen == Some(0)
    case _ => false
  }

  predicate Between(size: nat, minLen: nat, maxLen: Option<nat>) {
    minLen <= size && (maxLen == None || size <= maxLen.value)
  }

  /** The value has a size within the bounds, which need a minimum to count at all. */
  predicate Sized(v: Value, minLen: Option<nat>, maxLen: Option<nat>) {
    minLen == None ||
    match v
    case Str(text) => Between(|text|, minLen.value, maxLen)
    case List(items) => Between(|items|, minLen.value, maxLen)
    case Dict(fields) => Between(|fields|, minLen.value, maxLen)
    case Null => false
    case Atom(_, _) => false
  }

  /** A qualified field: what passes at once before the modifiers, or after them; then the size
      and the content decide. */
  lemma FieldDecided(env: Env, v: Value, f: Field)
    requires f.Qualified?
    ensures var w := Modified(env, v, f.modifiers);
            && (Skipped(f.kind, f.minLen, v) ==> ValidateField(env, v, f) == Some(v))
            && (!Skipped(f.kind, f.minLen, v) && Skipped(f.kind, f.minLen, w) ==> ValidateField(env, v, f) == Some(w))
            && (!Skipped(f.kind, f.minLen, v) && !Skipped(f.kind, f.minLen, w) ==>
                  ValidateField(env, v, f) ==
                  if Sized(w, f.minLen, f.maxLen) then Validate(env, w, f.content) else None)
  {
    hide Validate;
  }

  /** Text that is too long is refused, whatever its content. */
  lemma TooLong(env: Env, text: string, f: Field)
    requires f.Qualified? && f.modifiers == [] && f.minLen.Some? && f.maxLen.Some? && |text| > f.maxLen.value
    ensures text != "" ==> ValidateField(env, Str(text), f) == None
  {
    FieldDecided(env, Str(text), f);
  }

  /** The modifiers are applied in their order, each to what the one before it gave. */
  lemma {:induction false} ModifiedLast(env: Env, v: Value, ms: seq<string>, m: string)
    ensures Modified(env, v, []) == v
    ensures Modified(env, v, ms + [m]) == env.change(m, Modified(env, v, ms))
    decreases |ms|
  {
    if ms == [] {
      assert (ms + [m])[1..] == [];
    } else {
      assert (ms + [m])[1..] == ms[1..] + [m];
      ModifiedLast(env, env.change(ms[0], v), ms[1..], m);
    }
  }

  /** Scalars are text, Booleans and numbers. */
  lemma ScalarDecided(env: Env, v: Value)
    ensures Validate(env, v, AnyScalar) ==
      match v
      case Str(_) => Some(v)
      case Atom(Bool, _) => Some(v)
      case Atom(Int, _) => Some(v)
      case Atom(Float, _) => Some(v)
      case _ => None
    ensures Validate(env, v, Anything) == Some(v)
  {
  }

  /** A schema that is a plain value accepts the values of its own class. */
  lemma ClassDecided(env: Env, v: Value, c: Class)
    ensures Validate(env, v, OfClass(c)) ==
      if match v
         case Null => c == NullClass
         case Str(_) => c == StrClass
         case Atom(kind, _) => c == AtomClass(kind)
         case List(_) => c == ListClass
         case Dict(_) => c == DictClass
      then Some(v) else None
  {
  }

  /** A validator node asks its content first, then its validator about the document it left. */
  lemma NodeDecided(env: Env, v: Value, n: Validator)
    ensures var d := Validate(env, v, n.content);
            Validate(env, v, Node(n)) == if d.Some? && env.test(n.test, d.value, n.content) then d else None
  {
  }

  // ---- Lists ----

  /** The last entry with the key. */
  function LastOf(es: seq<Entry>, key: SchemaKey): Option<Entry> {
    if es == [] then None
    else if es[|es| - 1].key == key then Some(es[|es| - 1])
    else LastOf(es[..|es| - 1], key)
  }

  function Entries(parts: seq<Schema>): seq<Entry>
    requires forall s :: s in parts ==> s.Mapping?
  {
    if parts == [] then [] else parts[0].entries + Entries(parts[1..])
  }

  ghost predicate KeysApart(es: seq<Entry>) { forall i, j :: 0 <= i < j < |es| ==> es[i].key != es[j].key }

  /** The entry takes the place of the one with its key, or the end. */
  lemma {:induction false} PutForm(es: seq<Entry>, x: Entry) returns (i: nat)
    ensures i <= |es| && forall k :: 0 <= k < i ==> es[k].key != x.key
    ensures if i < |es| then es[i].key == x.key && Put(es, x) == es[i := x] else Put(es, x) == es + [x]
  {
    if es == [] || es[0].key == x.key {
      i := 0;
    } else {
      i := PutForm(es[1..], x);
      i := i + 1;
      assert es == [es[0]] + es[1..];
      assert forall k :: 0 < k < i ==> es[k] == es[1..][k - 1];
    }
  }

  lemma PutIs(es: seq<Entry>, x: Entry)
    requires KeysApart(es)
    ensures KeysApart(Put(es, x))
    ensures forall y :: y in Put(es, x) <==> y == x || (y in es && y.key != x.key)
  {
    var i := PutForm(es, x);
    var p := Put(es, x);
    hide Put;
    assert p[i] == x;
    forall y | y in es && y.key != x.key ensures y in p {
      var k :| 0 <= k < |es| && es[k] == y;
      assert p[k] == y;
    }
  }

  lemma LastOfMore(es: seq<Entry>, x: Entry, key: SchemaKey)
    ensures LastOf(es + [x], key) == if x.key == key then Some(x) else LastOf(es, key)
  {
    assert (es + [x])[..|es|] == es;
  }

  /** es holds exactly the last entry of each key of `all`. */
  ghost predicate HoldsLast(es: seq<Entry>, all: seq<Entry>) {
    KeysApart(es) && forall x :: x in es <==> LastOf(all, x.key) == Some(x)
  }

  lemma HoldsMore(es: seq<Entry>, all: seq<Entry>, x: Entry)
    requires HoldsLast(es, all)
    ensures HoldsLast(Put(es, x), all + [x])
  {
    PutIs(es, x);
    forall y ensures y in Put(es, x) <==> LastOf(all + [x], y.key) == Some(y) {
      LastOfMore(all, x, y.key);
      LastOfKey(all, y.key);
    }
  }

  lemma {:induction false} LastOfKey(es: seq<Entry>, key: SchemaKey)
    ensures LastOf(es, key).Some? ==> LastOf(es, key).value.key == key
  {
    if es != [] && es[|es| - 1].key != key { LastOfKey(es[..|es| - 1], key); }
  }

  lemma {:induction false} PutAllHolds(es: seq<Entry>, all: seq<Entry>, more: seq<Entry>)
    requires HoldsLast(es, all)
    ensures HoldsLast(PutAll(es, more), all + more)
    decreases |more|
  {
    hide HoldsLast;
    if more == [] {
      assert all + more == all;
    } else {
      HoldsMore(es, all, more[0]);
      PutAllHolds(Put(es, more[0]), all + [more[0]], more[1..]);
      assert all + [more[0]] + more[1..] == all + more;
    }
  }

  lemma {:induction false} MergedHolds(es: seq<Entry>, all: seq<Entry>, parts: seq<Schema>)
    requires HoldsLast(es, all) && forall s :: s in parts ==> s.Mapping?
    ensures HoldsLast(Merged(es, parts), all + Entries(parts))
    decreases |parts|
  {
    hide HoldsLast;
    if parts == [] {
      assert all + Entries(parts) == all;
    } else {
      PutAllHolds(es, all, parts[0].entries);
      MergedHolds(PutAll(es, parts[0].entries), all + parts[0].entries, parts[1..]);
      assert all + parts[0].entries + Entries(parts[1..]) == all + Entries(parts);
    }
  }

  /** A list schema: none for the empty list only, one for each item, and several mappings stand
      for the mapping that has the last entry of each key. */
  lemma SequenceDecided(env: Env, v: Value, items: seq<Schema>)
    ensures v.List? && items == [] ==> Validate(env, v, Sequence(items)) == if v.items == [] then Some(v) else None
    ensures v.List? && items != [] && (|items| == 1 || !items[0].Mapping?) ==>
              Validate(env, v, Sequence(items)) == ValidateItems(env, v.items, items[0])
    ensures v.List? && |items| > 1 && items[0].Mapping? && (exists s :: s in items && !s.Mapping?) ==>
              Validate(env, v, Sequence(items)) == None
    ensures v.List? && |items| > 1 && (forall s :: s in items ==> s.Mapping?) ==>
              exists es :: HoldsLast(es, Entries(items))
                           && Validate(env, v, Sequence(items)) == ValidateItems(env, v.items, Mapping(es))
    ensures !v.List? ==> Validate(env, v, Sequence(items)) == None
  {
    hide ValidateItems;
    if |items| > 1 && forall s :: s in items ==> s.Mapping? {
      assert items[0] in items;
      assert HoldsLast([], []);
      MergedHolds([], [], items);
      assert [] + Entries(items) == Entries(items);
      assert ItemSchema(items) == Some(Mapping(Merged([], items)));
    }
  }

  // ---- Dictionaries ----

  /** An entry whose key must be there: a literal that is not optional. */
  predicate Optional(x: Entry) {
    x.key.Literal? && x.field.Qualified? && (x.field.kind == OptionalField || x.field.kind == OptionalNullField)
  }

  /** Required literals and mandatory groups take their keys first, in the order they stand in;
      then the other groups; optional literals have what is left. */
  lemma OrderLast(es: seq<Entry>, x: Entry)
    ensures Mandatories([]) == [] && Generics([]) == [] && Optionals([]) == map[]
    ensures Order(es) == Mandatories(es) + Generics(es)
    ensures Mandatories(es + [x]) ==
      Mandatories(es) + if Optional(x) || (x.key.Group? && x.key.validator.mode != Mandatory) then [] else [x]
    ensures Generics(es + [x]) == Generics(es) + if x.key.Group? && x.key.validator.mode != Mandatory then [x] else []
    ensures Optionals(es + [x]) == if Optional(x) then Optionals(es)[x.key.key := x.field] else Optionals(es)
  {
    assert (es + [x])[..|es|] == es;
  }

  /** A group is met by as many keys as its bounds allow, and at least one if it is mandatory. */
  lemma GroupMetIff(env: Env, fields: map<Key, Value>, order: seq<Entry>, i: nat)
    requires i < |order| && order[i].key.Group?
    ensures var v, count := order[i].key.validator, |Taken(env, fields, order, i)|;
            EntryMet(env, fields, order, i) <==>
              && (v.mode == Mandatory ==> count >= 1)
              && (v.min.Some? ==> count >= v.min.value)
              && (v.max.Some? ==> count <= v.max.value)
  {
    hide Taken;
  }

  /** A key is put to a group as the text or the number it is. */
  lemma GroupClaims(env: Env, v: Validator, f: Field, k: Key)
    ensures Claims(env, Entry(Group(v), f), k) <==>
      Validate(env, if k.Name? then Str(k.text) else Atom(k.kind, k.n), Node(v)).Some?
  {
    hide Validate;
  }
}
