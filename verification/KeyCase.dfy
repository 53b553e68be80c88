/** The frontend's key conversion between the contract's snake_case and its own camelCase. */
module KeyCase {

  predicate IsLower(c: char) { 'a' <= c <= 'z' }

  predicate IsUpper(c: char) { 'A' <= c <= 'Z' }

  function ToUpper(c: char): (u: char)
    requires IsLower(c)
    ensures IsUpper(u) && ToLower(u) == c && u as int == c as int - 32
  {
    c - 'a' + 'A'
  }

  function ToLower(c: char): (l: char)
    requires IsUpper(c)
    ensures IsLower(l)
  {
    c - 'A' + 'a'
  }

  /** An underscore and the lower-case letter after it become one upper-case letter, from left to right. */
  function SnakeToCamel(key: string): string {
    if key == "" then ""
    else if |key| > 1 && key[0] == '_' && IsLower(key[1]) then [ToUpper(key[1])] + SnakeToCamel(key[2..])
    else [key[0]] + SnakeToCamel(key[1..])
  }

  /** Every upper-case letter becomes an underscore and the lower-case letter. */
  function CamelToSnakeKey(key: string): string {
    if key == "" then ""
    else (if IsUpper(key[0]) then ['_', ToLower(key[0])] else [key[0]]) + CamelToSnakeKey(key[1..])
  }

  predicate NoUpper(key: string) {
    forall i :: 0 <= i < |key| ==> !IsUpper(key[i])
  }

  /** No underscore stands directly before a lower-case letter. */
  predicate NoSnakePair(key: string) {
    forall i :: 0 < i < |key| && key[i - 1] == '_' ==> !IsLower(key[i])
  }

  // ---- Single keys ----

  lemma {:induction false} SnakeHasNoUpper(key: string)
    ensures NoUpper(CamelToSnakeKey(key))
  {
    if key != "" {
      SnakeHasNoUpper(key[1..]);
    }
  }

  lemma {:induction false} KeyThereAndBack(key: string)
    requires NoUpper(key)
    ensures CamelToSnakeKey(SnakeToCamel(key)) == key
  {
    if key == "" {
    } else if |key| > 1 && key[0] == '_' && IsLower(key[1]) {
      KeyThereAndBack(key[2..]);
      assert SnakeToCamel(key)[1..] == SnakeToCamel(key[2..]);
      assert key == ['_', key[1]] + key[2..];
    } else {
      KeyThereAndBack(key[1..]);
      assert SnakeToCamel(key)[1..] == SnakeToCamel(key[1..]);
      assert key == [key[0]] + key[1..];
    }
  }

  /** A contract key comes back from camel case exactly when it has no upper-case letter. */
  lemma {:induction false} KeyRoundTripIff(key: string)
    ensures CamelToSnakeKey(SnakeToCamel(key)) == key <==> NoUpper(key)
  {
    SnakeHasNoUpper(SnakeToCamel(key));
    if NoUpper(key) {
      KeyThereAndBack(key);
    }
  }

  lemma {:induction false} KeyBackAndThere(key: string)
    requires NoSnakePair(key)
    ensures SnakeToCamel(CamelToSnakeKey(key)) == key
  {
    if key != "" {
      var rest := CamelToSnakeKey(key[1..]);
      KeyBackAndThere(key[1..]);
      if IsUpper(key[0]) {
        assert CamelToSnakeKey(key)[2..] == rest;
      } else {
        assert CamelToSnakeKey(key)[1..] == rest;
        assert |key| > 1 && key[0] == '_' ==> !IsLower(key[1]);
        assert rest != "" ==> key[1..] != "" && (IsLower(rest[0]) ==> rest[0] == key[1]);
      }
    }
  }

  /** What snake-to-camel produces has no underscore before a lower-case letter. */
  lemma {:induction false} CamelHasNoSnakePair(key: string)
    ensures NoSnakePair(SnakeToCamel(key))
    ensures key != "" ==> SnakeToCamel(key) != "" && (IsLower(SnakeToCamel(key)[0]) ==> SnakeToCamel(key)[0] == key[0])
  {
    if key == "" {
    } else if |key| > 1 && key[0] == '_' && IsLower(key[1]) {
      CamelHasNoSnakePair(key[2..]);
    } else {
      CamelHasNoSnakePair(key[1..]);
    }
  }

  /** A frontend key comes back from snake case exactly when no underscore stands before a lower-case letter. */
  lemma {:induction false} FrontendKeyRoundTripIff(key: string)
    ensures SnakeToCamel(CamelToSnakeKey(key)) == key <==> NoSnakePair(key)
  {
    CamelHasNoSnakePair(CamelToSnakeKey(key));
    if NoSnakePair(key) {
      KeyBackAndThere(key);
    }
  }

  // ---- Whole values ----

  datatype Field = Field(key: string, value: Json)

  /** A JSON value; an object lists its entries in order. */
  datatype Json = Leaf(text: string) | Arr(items: seq<Json>) | Obj(fields: seq<Field>)

  datatype Case = Camel | Snake

  function Key(to: Case, key: string): string {
    if to.Camel? then SnakeToCamel(key) else CamelToSnakeKey(key)
  }

  /** The position of a key, or the number of fields. */
  function Position(fields: seq<Field>, key: string): (i: nat)
    ensures i <= |fields|
    ensures i < |fields| ==> fields[i].key == key
    ensures forall j :: 0 <= j < i ==> fields[j].key != key
  {
    if fields == [] then 0
    else if fields[0].key == key then 0 else 1 + Position(fields[1..], key)
  }

  /** Writing an entry: a repeated key keeps its place and takes the later value. */
  function Put(fields: seq<Field>, f: Field): seq<Field> {
    var i := Position(fields, f.key);
    if i < |fields| then fields[i := f] else fields + [f]
  }

  function FromEntries(entries: seq<Field>): seq<Field> {
    if entries == [] then []
    else Put(FromEntries(entries[..|entries| - 1]), entries[|entries| - 1])
  }

  function Converted(to: Case, v: Json): Json
    decreases v
  {
    match v
    case Leaf(_) => v
    case Arr(items) => Arr(seq(|items|, i requires 0 <= i < |items| => Converted(to, items[i])))
    case Obj(fields) => Obj(FromEntries(Entries(to, v)))
  }

  /** The entries of an object with keys and values converted, before equal keys merge. */
  function Entries(to: Case, v: Json): seq<Field>
    requires v.Obj?
    decreases v, 0
  {
    seq(|v.fields|, i requires 0 <= i < |v.fields| => Field(Key(to, v.fields[i].key), Converted(to, v.fields[i].value)))
  }

  function MapContractResponse(v: Json): Json {
    Converted(Camel, v)
  }

  function CamelToSnake(v: Json): Json {
    Converted(Snake, v)
  }

  predicate DistinctKeys(fields: seq<Field>) {
    forall i, j :: 0 <= i < j < |fields| ==> fields[i].key != fields[j].key
  }

  /** Objects list each key once, at every depth. */
  predicate WellFormed(v: Json) {
    match v
    case Leaf(_) => true
    case Arr(items) => forall i :: 0 <= i < |items| ==> WellFormed(items[i])
    case Obj(fields) => DistinctKeys(fields) && forall i :: 0 <= i < |fields| ==> WellFormed(fields[i].value)
  }

  /** No key at any depth has an upper-case letter. */
  predicate NoUpperKeys(v: Json) {
    match v
    case Leaf(_) => true
    case Arr(items) => forall i :: 0 <= i < |items| ==> NoUpperKeys(items[i])
    case Obj(fields) => forall i :: 0 <= i < |fields| ==> NoUpper(fields[i].key) && NoUpperKeys(fields[i].value)
  }

  lemma {:induction false} FromDistinctEntries(entries: seq<Field>)
    requires DistinctKeys(entries)
    ensures FromEntries(entries) == entries
  {
    if entries != [] {
      FromDistinctEntries(entries[..|entries| - 1]);
      assert entries == entries[..|entries| - 1] + [entries[|entries| - 1]];
    }
  }

  lemma {:induction false} FromEntriesMembers(entries: seq<Field>)
    ensures forall f :: f in FromEntries(entries) ==> f in entries
    ensures DistinctKeys(FromEntries(entries))
  {
    if entries != [] {
      var rest := entries[..|entries| - 1];
      FromEntriesMembers(rest);
      assert forall f :: f in rest ==> f in entries;
    }
  }

  /** Contract keys stay apart: two that differ still differ in camel case. */
  lemma CamelKeysStayApart(a: string, b: string)
    requires NoUpper(a) && NoUpper(b) && SnakeToCamel(a) == SnakeToCamel(b)
    ensures a == b
  {
    KeyThereAndBack(a);
    KeyThereAndBack(b);
  }

  lemma {:induction false} ThereAndBack(v: Json)
    requires WellFormed(v) && NoUpperKeys(v)
    ensures CamelToSnake(MapContractResponse(v)) == v
    decreases v
  {
    match v
    case Leaf(_) =>
    case Arr(items) =>
      forall i | 0 <= i < |items|
        ensures Converted(Snake, Converted(Camel, items[i])) == items[i]
      {
        ThereAndBack(items[i]);
      }
      assert CamelToSnake(MapContractResponse(v)).items == items;
    case Obj(fields) =>
      NothingMerges(v);
      var camel := MapContractResponse(v);
      forall i | 0 <= i < |fields|
        ensures Entries(Snake, camel)[i] == fields[i]
      {
        KeyThereAndBack(fields[i].key);
        ThereAndBack(fields[i].value);
      }
      assert Entries(Snake, camel) == fields;
      FromDistinctEntries(fields);
  }

  /** Texts stay as they are, and arrays keep their items in place. */
  lemma ItemsStay(v: Json)
    ensures v.Leaf? ==> MapContractResponse(v) == v && CamelToSnake(v) == v
    ensures v.Arr? ==>
              && MapContractResponse(v).Arr? && |MapContractResponse(v).items| == |v.items|
              && CamelToSnake(v).Arr? && |CamelToSnake(v).items| == |v.items|
              && forall i :: 0 <= i < |v.items| ==>
                   && MapContractResponse(v).items[i] == MapContractResponse(v.items[i])
                   && CamelToSnake(v).items[i] == CamelToSnake(v.items[i])
  {
  }

  /** Converting a contract object keeps every entry, in its place. */
  lemma NothingMerges(v: Json)
    requires v.Obj? && DistinctKeys(v.fields) && forall i :: 0 <= i < |v.fields| ==> NoUpper(v.fields[i].key)
    ensures MapContractResponse(v).fields == Entries(Camel, v)
    ensures |MapContractResponse(v).fields| == |v.fields|
    ensures forall i :: 0 <= i < |v.fields| ==>
              MapContractResponse(v).fields[i] == Field(SnakeToCamel(v.fields[i].key),
                                                        MapContractResponse(v.fields[i].value))
  {
    var entries := Entries(Camel, v);
    forall i, j | 0 <= i < j < |entries|
      ensures entries[i].key != entries[j].key
    {
      if entries[i].key == entries[j].key {
        CamelKeysStayApart(v.fields[i].key, v.fields[j].key);
      }
    }
    FromDistinctEntries(entries);
  }

  lemma {:induction false} SnakeValueHasNoUpper(v: Json)
    ensures NoUpperKeys(CamelToSnake(v))
    decreases v
  {
    match v
    case Leaf(_) =>
    case Arr(items) =>
      forall i | 0 <= i < |items|
        ensures NoUpperKeys(Converted(Snake, items[i]))
      {
        SnakeValueHasNoUpper(items[i]);
      }
    case Obj(fields) =>
      var entries := Entries(Snake, v);
      forall i | 0 <= i < |entries|
        ensures NoUpper(entries[i].key) && NoUpperKeys(entries[i].value)
      {
        SnakeHasNoUpper(fields[i].key);
        SnakeValueHasNoUpper(fields[i].value);
      }
      FromEntriesMembers(entries);
      assert forall i :: 0 <= i < |FromEntries(entries)| ==> FromEntries(entries)[i] in entries;
  }

  /** A contract value comes back from the frontend's form exactly when none of its keys has an upper-case letter. */
  lemma ValueRoundTripIff(v: Json)
    requires WellFormed(v)
    ensures CamelToSnake(MapContractResponse(v)) == v <==> NoUpperKeys(v)
  {
    SnakeValueHasNoUpper(MapContractResponse(v));
    if NoUpperKeys(v) {
      ThereAndBack(v);
    }
  }

  /** With mixed-case keys entries do get lost: one entry of this object overwrites the other. */
  lemma MixedCaseKeysMerge(x: Json, y: Json)
    ensures MapContractResponse(Obj([Field("a_b", x), Field("aB", y)])) == Obj([Field("aB", MapContractResponse(y))])
  {
    var v := Obj([Field("a_b", x), Field("aB", y)]);
    var entries := Entries(Camel, v);
    assert SnakeToCamel("a_b") == "aB" by {
      assert "a_b"[1..] == "_b" && "_b"[2..] == "";
      assert SnakeToCamel("_b") == "B";
    }
    assert SnakeToCamel("aB") == "aB" by {
      assert "aB"[1..] == "B" && "B"[1..] == "";
      assert SnakeToCamel("B") == "B";
    }
    assert entries == [Field("aB", Converted(Camel, x)), Field("aB", Converted(Camel, y))];
    assert entries[..1] == [entries[0]] && [entries[0]][..0] == [];
    assert FromEntries([entries[0]]) == [entries[0]];
    assert Position([entries[0]], "aB") == 0;
  }
}
