/** JSON values as the gateway, the worker and the tools exchange them. */
module Values {

  datatype Option<+T> = None | Some(value: T)

  datatype Result<+T, +E> = Ok(value: T) | Err(error: E)

  /** A decoded JSON tree. Objects keep their key order, as Python dicts do. */
  datatype Json =
    | Null
    | Bool(b: bool)
    | Number(n: real)
    | Str(s: string)
    | Arr(items: seq<Json>)
    | Obj(fields: Dict)

  datatype Field = Field(key: string, value: Json)

  type Dict = seq<Field>

  /** `d.get(key)`. */
  function Get(d: Dict, key: string): Option<Json>
  {
    if d == [] then None
    else if d[0].key == key then Some(d[0].value)
    else Get(d[1..], key)
  }

  /** `d[key] = value`: an existing key keeps its place, a new key goes last. */
  function Put(d: Dict, key: string, value: Json): Dict
  {
    if d == [] then [Field(key, value)]
    else if d[0].key == key then [Field(key, value)] + d[1..]
    else [d[0]] + Put(d[1..], key, value)
  }

  // ---------------------------------------------------------------- what get and put do

  /** The first field with this key is at `i`. */
  predicate FirstAt(d: Dict, key: string, i: nat)
  {
    i < |d| && d[i].key == key && forall j :: 0 <= j < i ==> d[j].key != key
  }

  predicate Absent(d: Dict, key: string)
  {
    forall i :: 0 <= i < |d| ==> d[i].key != key
  }

  /** `after` is `before` with `key` set to `value`: in place when the key is there, else at the end. */
  ghost predicate IsSet(before: Dict, after: Dict, key: string, value: Json)
  {
    || (Absent(before, key) && after == before + [Field(key, value)])
    || exists i: nat :: FirstAt(before, key, i) && after == before[i := Field(key, value)]
  }

  lemma {:induction false} GetIsFirst(d: Dict, key: string)
    ensures Get(d, key).None? <==> Absent(d, key)
    ensures Get(d, key).Some? <==> exists i: nat :: FirstAt(d, key, i) && Get(d, key) == Some(d[i].value)
  {
    if d != [] && d[0].key != key {
      GetIsFirst(d[1..], key);
      TailHas(d, key);
    } else if d != [] {
      assert FirstAt(d, key, 0);
    }
  }

  lemma TailHas(d: Dict, key: string)
    requires d != [] && d[0].key != key
    ensures Absent(d[1..], key) <==> Absent(d, key)
    ensures forall i: nat :: FirstAt(d[1..], key, i) ==> FirstAt(d, key, i + 1)
    ensures forall i: nat :: FirstAt(d, key, i) ==> i > 0 && FirstAt(d[1..], key, i - 1)
  {
    assert forall j :: 0 < j < |d| ==> d[j] == d[1..][j - 1];
    assert forall j :: 0 <= j < |d| - 1 ==> d[1..][j] == d[j + 1];
  }

  lemma {:induction false} PutSets(d: Dict, key: string, value: Json)
    ensures IsSet(d, Put(d, key, value), key, value)
  {
    if d != [] && d[0].key != key {
      PutSets(d[1..], key, value);
      TailHas(d, key);
      if Absent(d[1..], key) {
        assert [d[0]] + (d[1..] + [Field(key, value)]) == d + [Field(key, value)];
      } else {
        var i: nat :| FirstAt(d[1..], key, i) && Put(d[1..], key, value) == d[1..][i := Field(key, value)];
        assert [d[0]] + d[1..][i := Field(key, value)] == d[i + 1 := Field(key, value)];
        assert FirstAt(d, key, i + 1);
      }
    } else if d != [] {
      assert FirstAt(d, key, 0) && [Field(key, value)] + d[1..] == d[0 := Field(key, value)];
    }
  }

  /** Every other key reads as before. */
  lemma {:induction false} GetAfterPut(d: Dict, key: string, value: Json, other: string)
    ensures Get(Put(d, key, value), other) == if other == key then Some(value) else Get(d, other)
  {
    if d == [] {
      assert Put(d, key, value)[1..] == [];
    } else if d[0].key != key {
      GetAfterPut(d[1..], key, value, other);
      assert Put(d, key, value)[1..] == Put(d[1..], key, value);
    } else {
      assert Put(d, key, value)[1..] == d[1..];
    }
  }
}
