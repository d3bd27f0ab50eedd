/** JSON-like trees as tools and models hand them over, and the dictionary operations used on them. */
module Json {
  import opened Common

  /** A mapping keeps its insertion order; Other stands for any object that is rendered as its text. */
  datatype Value =
    | Null
    | Bool(b: bool)
    | Num(n: int)
    | Str(text: string)
    | Mapping(fields: seq<Field>)
    | Sequence(items: seq<Value>)
    | Other(rendered: string)

  datatype Field = Field(key: string, value: Value)

  function LowerChar(c: char): char
  {
    if 'A' <= c <= 'Z' then ((c as int) + 32) as char else c
  }

  function Decimal(n: nat): string
  {
    if n < 10 then ["0123456789"[n]] else Decimal(n / 10) + ["0123456789"[n % 10]]
  }

  /** Dictionary assignment: an existing key keeps its place. */
  function Put(fields: seq<Field>, key: string, value: Value): seq<Field>
  {
    if fields == [] then [Field(key, value)]
    else if fields[0].key == key then [Field(key, value)] + fields[1..]
    else [fields[0]] + Put(fields[1..], key, value)
  }

  function Get(fields: seq<Field>, key: string): Option<Value>
  {
    if fields == [] then None
    else if fields[0].key == key then Some(fields[0].value)
    else Get(fields[1..], key)
  }

  /** Dictionary removal. */
  function Without(fields: seq<Field>, key: string): seq<Field>
  {
    if fields == [] then []
    else (if fields[0].key == key then [] else [fields[0]]) + Without(fields[1..], key)
  }

  /** The left dictionary updated with the right one. */
  function Update(fields: seq<Field>, more: seq<Field>): seq<Field>
  {
    if more == [] then fields
    else Put(Update(fields, more[..|more| - 1]), more[|more| - 1].key, more[|more| - 1].value)
  }

  lemma {:induction false} PutNewKeyAppends(fields: seq<Field>, key: string, value: Value)
    requires forall i :: 0 <= i < |fields| ==> fields[i].key != key
    ensures Put(fields, key, value) == fields + [Field(key, value)]
  {
    if fields != [] {
      PutNewKeyAppends(fields[1..], key, value);
    }
  }

  lemma GetHeadFirst(field: Field, rest: seq<Field>, key: string)
    ensures Get([field] + rest, key) == if field.key == key then Some(field.value) else Get(rest, key)
  {
    assert ([field] + rest)[1..] == rest;
  }

  lemma {:induction false} GetAfterPut(fields: seq<Field>, key: string, value: Value, k: string)
    ensures Get(Put(fields, key, value), k) == if k == key then Some(value) else Get(fields, k)
  {
    if fields != [] && fields[0].key != key {
      GetAfterPut(fields[1..], key, value, k);
    }
  }

  lemma {:induction false} PutMembers(fields: seq<Field>, key: string, value: Value)
    ensures forall f :: f in Put(fields, key, value) ==> f in fields || f == Field(key, value)
  {
    if fields != [] && fields[0].key != key {
      PutMembers(fields[1..], key, value);
    }
  }

  lemma {:induction false} GetAfterWithout(fields: seq<Field>, key: string, k: string)
    ensures Get(Without(fields, key), k) == if k == key then None else Get(fields, k)
    ensures forall f :: f in Without(fields, key) ==> f in fields
  {
    if fields != [] {
      GetAfterWithout(fields[1..], key, k);
      var rest := Without(fields[1..], key);
      if fields[0].key == key {
        assert Without(fields, key) == rest;
      } else {
        assert Without(fields, key) == [fields[0]] + rest;
        assert ([fields[0]] + rest)[1..] == rest;
      }
    }
  }

  lemma {:induction false} GetIsMember(fields: seq<Field>, key: string)
    requires Get(fields, key).Some?
    ensures Field(key, Get(fields, key).value) in fields
  {
    if fields[0].key != key {
      GetIsMember(fields[1..], key);
    } else {
      assert fields[0] == Field(key, Get(fields, key).value);
    }
  }
}
