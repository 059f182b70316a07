/**
 * JSON documents as values. Every document the system handles (the base
 * document of a sweep, variant documents, job data, provider responses) is a
 * `Json`. Objects keep their members in insertion order, as Python's dicts
 * do, so an object is a sequence of fields; assignment to a member replaces
 * the first field with that key or appends a new one. JavaScript lists
 * integer-like keys ("0", "2", ...) first, in ascending order, before the
 * other keys in insertion order; that ordering is not modelled.
 */
module JsonValues {
  import opened Wrappers
  import Text

  datatype Json =
    | Null
    | Bool(b: bool)
    | Num(n: real)
    | Str(s: string)
    | Arr(items: seq<Json>)
    | Obj(fields: seq<Field>)

  datatype Field = Field(key: string, value: Json)

  /** `obj[k]` on an object's fields: the value of the first field with key `k`. */
  function Get(fs: seq<Field>, k: string): Option<Json>
    decreases |fs|
  {
    if |fs| == 0 then None
    else if fs[0].key == k then Some(fs[0].value)
    else Get(fs[1..], k)
  }

  /** A key reads as present exactly when some field carries it. */
  lemma {:induction false} GetPresent(fs: seq<Field>, k: string)
    ensures Get(fs, k).Some? <==> k in Keys(fs)
    decreases |fs|
  {
    if |fs| > 0 {
      GetPresent(fs[1..], k);
      assert Keys(fs) == [fs[0].key] + Keys(fs[1..]);
    }
  }

  /** The keys of an object's fields, in insertion order. */
  function Keys(fs: seq<Field>): (r: seq<string>)
    ensures |r| == |fs| && forall i :: 0 <= i < |fs| ==> r[i] == fs[i].key
    decreases |fs|
  {
    if |fs| == 0 then [] else [fs[0].key] + Keys(fs[1..])
  }

  /**
   * `obj[k] = v`: the field with key `k` keeps its position and takes the new
   * value; a key not yet present is appended. Every other key reads as before.
   */
  function Put(fs: seq<Field>, k: string, v: Json): (r: seq<Field>)
    ensures Get(r, k) == Some(v)
    decreases |fs|
  {
    if |fs| == 0 then [Field(k, v)]
    else if fs[0].key == k then [Field(k, v)] + fs[1..]
    else
      var rest := Put(fs[1..], k, v);
      assert ([fs[0]] + rest)[1..] == rest;
      [fs[0]] + rest
  }

  /** Assignment to one key leaves every other key reading as before. */
  lemma {:induction false} PutOther(fs: seq<Field>, k: string, v: Json, k': string)
    requires k' != k
    ensures Get(Put(fs, k, v), k') == Get(fs, k')
    decreases |fs|
  {
    if |fs| > 0 && fs[0].key != k {
      PutOther(fs[1..], k, v, k');
      assert Put(fs, k, v)[1..] == Put(fs[1..], k, v);
    }
  }

  /** Assignment keeps the key order: an existing key stays put, a new key comes last. */
  lemma {:induction false} PutKeys(fs: seq<Field>, k: string, v: Json)
    ensures k in Keys(fs) ==> Keys(Put(fs, k, v)) == Keys(fs)
    ensures k !in Keys(fs) ==> Keys(Put(fs, k, v)) == Keys(fs) + [k]
    decreases |fs|
  {
    if |fs| > 0 {
      if fs[0].key == k {
        assert Put(fs, k, v)[1..] == fs[1..];
      } else {
        PutKeys(fs[1..], k, v);
        assert Put(fs, k, v)[1..] == Put(fs[1..], k, v);
      }
    }
  }

  /** `typeof j === 'object'`: true of objects, arrays and of `null`. */
  predicate IsObject(j: Json)
  {
    j.Null? || j.Arr? || j.Obj?
  }

  /** JavaScript truthiness of a value that may be `undefined` (`None`). */
  predicate Truthy(j: Option<Json>)
  {
    match j
    case None => false
    case Some(Null) => false
    case Some(Bool(b)) => b
    case Some(Num(n)) => n != 0.0
    case Some(Str(s)) => s != ""
    case Some(Arr(_)) => true
    case Some(Obj(_)) => true
  }

  /**
   * `j.key` for a key that is not an array index (`json`, `seed`): a member
   * of an object; every other value, arrays and strings included, has no
   * such property.
   */
  function Property(j: Json, key: string): Option<Json>
  {
    match j
    case Obj(fs) => Get(fs, key)
    case _ => None
  }

  /** An object literal whose `undefined` members `JSON.stringify` leaves out. */
  function Defined(fields: seq<(string, Option<Json>)>): seq<Field>
  {
    if |fields| == 0 then []
    else
      (match fields[0].1 case Some(v) => [Field(fields[0].0, v)] case None => [])
      + Defined(fields[1..])
  }

  /** The array index a property key denotes: its canonical decimal form. */
  function ArrayIndex(key: string): (r: Option<nat>)
    ensures r.Some? ==> Text.NatToString(r.value) == key
  {
    if key != "" && (forall i :: 0 <= i < |key| ==> Text.IsDigit(key[i]))
       && Text.NatToString(Text.ParseDecimal(key)) == key
    then Some(Text.ParseDecimal(key))
    else None
  }

  lemma ArrayIndexOf(i: nat)
    ensures ArrayIndex(Text.NatToString(i)) == Some(i)
  {
    Text.ParseNatToString(i);
  }

  /**
   * `j?.[key]` on a JSON value: a member of an object, an element of an array
   * (addressed by its decimal index), and `undefined` for everything else,
   * including `null` and `undefined` themselves.
   */
  function Member(j: Option<Json>, key: string): (r: Option<Json>)
    ensures r.Some? ==> j.Some? && Size(r.value) < Size(j.value)
  {
    match j
    case Some(Obj(fs)) => GetSmaller(fs, key); Get(fs, key)
    case Some(Arr(items)) =>
      (match ArrayIndex(key)
       case Some(i) => if i < |items| then ItemSmaller(items, i); Some(items[i]) else None
       case None => None)
    case _ => None
  }

  /** Property names of a value as `Object.keys` lists them (objects and arrays). */
  function OwnKeys(j: Json): seq<string>
  {
    match j
    case Obj(fs) => Keys(fs)
    case Arr(items) => seq(|items|, i requires 0 <= i < |items| => Text.NatToString(i))
    case _ => []
  }

  /** Number of nodes in a document; used to show that walks over documents end. */
  function Size(j: Json): nat
  {
    match j
    case Obj(fs) => 1 + FieldsSize(fs)
    case Arr(items) => 1 + ItemsSize(items)
    case _ => 1
  }

  function FieldsSize(fs: seq<Field>): nat
  {
    if |fs| == 0 then 0 else Size(fs[0].value) + FieldsSize(fs[1..])
  }

  function ItemsSize(items: seq<Json>): nat
  {
    if |items| == 0 then 0 else Size(items[0]) + ItemsSize(items[1..])
  }

  lemma {:induction false} GetSmaller(fs: seq<Field>, k: string)
    ensures Get(fs, k).Some? ==> Size(Get(fs, k).value) < 1 + FieldsSize(fs)
    decreases |fs|
  {
    if |fs| > 0 && fs[0].key != k {
      GetSmaller(fs[1..], k);
    }
  }

  lemma {:induction false} ItemSmaller(items: seq<Json>, i: nat)
    requires i < |items|
    ensures Size(items[i]) < 1 + ItemsSize(items)
    decreases i
  {
    if i > 0 {
      ItemSmaller(items[1..], i - 1);
    }
  }
}
