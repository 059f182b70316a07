/**
 * Writing a value at a dotted path inside a JSON document, creating the
 * intermediate objects that are missing. The repository has three copies of
 * this walk:
 *   - `setNestedValue` in packages/web/lib/advancedSweep.ts and
 *     `_set_nested_value` in packages/comfyui-fibo-sweep/fibo_sweep_node.py
 *     create an intermediate object only when the key is absent (`in` test);
 *   - `setAtPath` in packages/web/app/api/plan-sweep/route.ts also replaces an
 *     intermediate `null` (`??=`).
 * In all three, stepping into something that is not an object throws a
 * TypeError (JavaScript in strict mode, Python's `in`/item assignment).
 */
module NestedPath {
  import opened Wrappers
  import opened JsonValues
  import Text

  /** Which intermediate values are replaced by a fresh `{}` during the walk. */
  datatype IntermediateRule =
    | AbsentOnly   // `if (!(key in current)) current[key] = {}`
    | AbsentOrNull // `cur[s] ??= {}`

  datatype PathError = TypeError

  /** The dotted path split into keys, as `path.split('.')`. */
  function PathKeys(path: string): (keys: seq<string>)
    ensures |keys| >= 1
  {
    Text.Split(path, '.')
  }

  /** The child the walk steps into under `rule`, if the key is replaced or kept. */
  function Step(fs: seq<Field>, k: string, rule: IntermediateRule): Json
  {
    match Get(fs, k)
    case None => Obj([])
    case Some(Null) => if rule == AbsentOrNull then Obj([]) else Null
    case Some(c) => c
  }

  /** The value found by following `keys` through objects only. */
  function Read(j: Json, keys: seq<string>): Option<Json>
    decreases |keys|
  {
    if |keys| == 0 then Some(j)
    else if !j.Obj? then None
    else match Get(j.fields, keys[0])
      case None => None
      case Some(c) => Read(c, keys[1..])
  }

  /** The walk never meets a non-object: exactly the inputs on which the write succeeds. */
  predicate Walkable(j: Json, keys: seq<string>, rule: IntermediateRule)
    requires |keys| >= 1
    decreases |keys|
  {
    j.Obj? && (|keys| == 1 || Walkable(Step(j.fields, keys[0], rule), keys[1..], rule))
  }

  /** Writes `v` at `keys`, walking and creating intermediates as `rule` says. */
  function SetPath(j: Json, keys: seq<string>, v: Json, rule: IntermediateRule): (r: Result<Json, PathError>)
    requires |keys| >= 1
    ensures r.Ok? <==> Walkable(j, keys, rule)
    ensures r.Ok? ==> r.value.Obj?
    decreases |keys|
  {
    if !j.Obj? then Err(TypeError)
    else if |keys| == 1 then Ok(Obj(Put(j.fields, keys[0], v)))
    else
      match SetPath(Step(j.fields, keys[0], rule), keys[1..], v, rule)
      case Ok(c) => Ok(Obj(Put(j.fields, keys[0], c)))
      case Err(e) => Err(e)
  }

  /** `setNestedValue(obj, path, value)` / `_set_nested_value(obj, path, value)`. */
  function SetNestedValue(j: Json, path: string, v: Json): Result<Json, PathError>
  {
    SetPath(j, PathKeys(path), v, AbsentOnly)
  }

  /** `setAtPath(obj, path, value)`. */
  function SetAtPath(j: Json, path: string, v: Json): Result<Json, PathError>
  {
    SetPath(j, PathKeys(path), v, AbsentOrNull)
  }

  /** Two key paths part somewhere within both: writing one does not touch the other. */
  predicate Parts(p: seq<string>, q: seq<string>)
  {
    exists i :: 0 <= i < |p| && i < |q| && p[i] != q[i]
  }

  /** After a successful write the value is read back at its path. */
  lemma {:induction false} SetPathReads(j: Json, keys: seq<string>, v: Json, rule: IntermediateRule)
    requires |keys| >= 1 && SetPath(j, keys, v, rule).Ok?
    ensures Read(SetPath(j, keys, v, rule).value, keys) == Some(v)
    decreases |keys|
  {
    if |keys| > 1 {
      SetPathReads(Step(j.fields, keys[0], rule), keys[1..], v, rule);
    }
  }

  /** Every proper prefix of the path leads to an object afterwards: missing intermediates were created. */
  lemma {:induction false} SetPathCreatesIntermediates(j: Json, keys: seq<string>, v: Json, rule: IntermediateRule, m: nat)
    requires |keys| >= 1 && SetPath(j, keys, v, rule).Ok?
    requires m < |keys|
    ensures Read(SetPath(j, keys, v, rule).value, keys[..m]).Some?
    ensures Read(SetPath(j, keys, v, rule).value, keys[..m]).value.Obj?
    decreases |keys|
  {
    var r := SetPath(j, keys, v, rule).value;
    if m > 0 {
      var c := SetPath(Step(j.fields, keys[0], rule), keys[1..], v, rule);
      SetPathCreatesIntermediates(Step(j.fields, keys[0], rule), keys[1..], v, rule, m - 1);
      assert keys[..m][1..] == keys[1..][..m - 1];
      assert Get(r.fields, keys[0]) == Some(c.value);
    }
  }

  /** A path that parts from the written one somewhere reads exactly as before. */
  lemma {:induction false} SetPathFrame(j: Json, keys: seq<string>, v: Json, rule: IntermediateRule, p: seq<string>, i: nat)
    requires |keys| >= 1 && SetPath(j, keys, v, rule).Ok?
    requires i < |p| && i < |keys| && p[i] != keys[i]
    ensures Read(SetPath(j, keys, v, rule).value, p) == Read(j, p)
    decreases |keys|
  {
    if p[0] != keys[0] {
      if |keys| == 1 {
        PutOther(j.fields, keys[0], v, p[0]);
      } else {
        PutOther(j.fields, keys[0], SetPath(Step(j.fields, keys[0], rule), keys[1..], v, rule).value, p[0]);
      }
    } else {
      var child := Step(j.fields, keys[0], rule);
      SetPathFrame(child, keys[1..], v, rule, p[1..], i - 1);
      if Get(j.fields, keys[0]) != Some(child) {
        assert child == Obj([]);
        assert Read(child, p[1..]) == None;
      }
    }
  }

  /**
   * The two rules differ only on an intermediate `null`: the `in` test steps
   * into it and throws, `??=` replaces it by an object and succeeds.
   */
  lemma NullIntermediate(fs: seq<Field>, k: string, rest: seq<string>, v: Json)
    requires Get(fs, k) == Some(Null) && |rest| >= 1
    ensures SetPath(Obj(fs), [k] + rest, v, AbsentOnly).Err?
    ensures SetPath(Obj(fs), [k] + rest, v, AbsentOrNull).Ok? <==> Walkable(Obj([]), rest, AbsentOrNull)
  {
    assert ([k] + rest)[1..] == rest;
  }

  // ---------------------------------------------------------------------------
  // Inherited names
  // ---------------------------------------------------------------------------

  /**
   * Names every JavaScript object inherits from `Object.prototype`. Both
   * `key in current` and `cur[s] ??= {}` see them although no field of the
   * document carries them; Python's `in` on a dict does not.
   */
  const InheritedNames: set<string> := {
    "__proto__", "constructor", "toString", "toLocaleString", "valueOf",
    "hasOwnProperty", "isPrototypeOf", "propertyIsEnumerable",
    "__defineGetter__", "__defineSetter__", "__lookupGetter__", "__lookupSetter__"
  }

  /** A key the object does not own but inherits. */
  predicate Inherited(fs: seq<Field>, k: string)
  {
    Get(fs, k).None? && k in InheritedNames
  }

  /** What the JavaScript walk does: write into the document, throw, or leave the document at an inherited key. */
  datatype JsWrite = Written(doc: Json) | Thrown | Escaped(key: string)

  /** Methods of `Number.prototype` beyond those of `Object.prototype`. */
  const NumberMethods: set<string> := {"toFixed", "toExponential", "toPrecision"}

  /** Methods of `String.prototype` beyond those of `Object.prototype`. */
  const StringMethods: set<string> := {
    "at", "charAt", "charCodeAt", "codePointAt", "concat", "endsWith", "includes",
    "indexOf", "lastIndexOf", "localeCompare", "match", "matchAll", "normalize",
    "padEnd", "padStart", "repeat", "replace", "replaceAll", "search", "slice",
    "split", "startsWith", "substring", "substr", "toLowerCase", "toUpperCase",
    "toLocaleLowerCase", "toLocaleUpperCase", "trim", "trimStart", "trimEnd",
    "trimLeft", "trimRight", "isWellFormed", "toWellFormed", "anchor", "big",
    "blink", "bold", "fixed", "fontcolor", "fontsize", "italics", "link", "small",
    "strike", "sub", "sup"
  }

  /**
   * A boolean, number or string on which reading `key` gives something other
   * than `undefined`: a name its prototype provides, or for a string its
   * `length` and its character positions.
   */
  predicate PrimitiveHas(j: Json, key: string)
  {
    (j.Bool? || j.Num? || j.Str?) &&
    (key in InheritedNames ||
     (j.Num? && key in NumberMethods) ||
     (j.Str? && (key in StringMethods || key == "length" ||
                 (ArrayIndex(key).Some? && ArrayIndex(key).value < |j.s|))))
  }

  /**
   * Whether the walk leaves the document at `key` of `j`: an object that only
   * inherits the key, or, for `??=`, a primitive that has it. For the `in`
   * rule a primitive throws instead, since `key in 5` is a `TypeError`.
   */
  predicate EscapesAt(j: Json, key: string, rule: IntermediateRule)
  {
    if j.Obj? then Inherited(j.fields, key) else rule == AbsentOrNull && PrimitiveHas(j, key)
  }

  /**
   * The walk as the JavaScript writers run it, in strict mode as a route
   * module is. At an intermediate key the object only inherits, neither rule
   * creates an object: `in` is true and `??=` finds a non-null value, so the
   * walk steps into the shared built-in (for `__proto__`, `Object.prototype`
   * itself) and the rest of the write lands there, or throws on a read-only
   * property, instead of in the document. `??=` on a primitive reads the
   * property too: one the primitive has (`(5).toString`) takes the walk out
   * of the document in the same way, and a missing one makes the assignment
   * of `{}` throw.
   */
  function SetPathAsWritten(j: Json, keys: seq<string>, v: Json, rule: IntermediateRule): JsWrite
    requires |keys| >= 1
    decreases |keys|
  {
    if |keys| > 1 && EscapesAt(j, keys[0], rule) then Escaped(keys[0])
    else if !j.Obj? then Thrown
    else if |keys| == 1 then Written(Obj(Put(j.fields, keys[0], v)))
    else
      match SetPathAsWritten(Step(j.fields, keys[0], rule), keys[1..], v, rule)
      case Written(c) => Written(Obj(Put(j.fields, keys[0], c)))
      case other => other
  }

  /** No intermediate key along the walk takes it out of the document. */
  predicate OwnWalk(j: Json, keys: seq<string>, rule: IntermediateRule)
    requires |keys| >= 1
    decreases |keys|
  {
    |keys| == 1 ||
    (!EscapesAt(j, keys[0], rule) && (!j.Obj? || OwnWalk(Step(j.fields, keys[0], rule), keys[1..], rule)))
  }

  /**
   * The own-key writer is the JavaScript walk on every path that meets no
   * inherited name and, under `??=`, no property of a primitive; the
   * JavaScript walk leaves the document exactly on the others.
   */
  lemma {:induction false} AsWrittenAgrees(j: Json, keys: seq<string>, v: Json, rule: IntermediateRule)
    requires |keys| >= 1
    ensures OwnWalk(j, keys, rule) ==>
      (SetPathAsWritten(j, keys, v, rule) == Thrown <==> SetPath(j, keys, v, rule).Err?) &&
      (SetPath(j, keys, v, rule).Ok? ==> SetPathAsWritten(j, keys, v, rule) == Written(SetPath(j, keys, v, rule).value))
    ensures SetPathAsWritten(j, keys, v, rule).Escaped? <==> !OwnWalk(j, keys, rule)
    decreases |keys|
  {
    if j.Obj? && |keys| > 1 && !Inherited(j.fields, keys[0]) {
      AsWrittenAgrees(Step(j.fields, keys[0], rule), keys[1..], v, rule);
    }
  }

  /**
   * A request to `plan-sweep` with the path `__proto__.p` writes `p` onto
   * `Object.prototype` of the server process instead of into the cloned
   * document, while the own-key writer puts it into the document.
   */
  lemma PrototypePathEscapes(v: Json)
    ensures PathKeys("__proto__.p") == ["__proto__", "p"]
    ensures SetPathAsWritten(Obj([]), PathKeys("__proto__.p"), v, AbsentOrNull) == Escaped("__proto__")
    ensures SetAtPath(Obj([]), "__proto__.p", v) == Ok(Obj([Field("__proto__", Obj([Field("p", v)]))]))
  {
    var keys := ["__proto__", "p"];
    assert Text.Join(keys, '.') == "__proto__.p" by {
      assert keys[1..] == ["p"];
    }
    assert '.' !in keys[0] && '.' !in keys[1];
    Text.SplitJoin(keys, '.');
    assert keys[1..] == ["p"];
  }

  /** The path `a.toString.x` names three keys. */
  lemma MethodPathKeys()
    ensures PathKeys("a.toString.x") == ["a", "toString", "x"]
  {
    var keys := ["a", "toString", "x"];
    assert Text.Join(keys, '.') == "a.toString.x" by {
      assert keys[1..] == ["toString", "x"];
      assert keys[1..][1..] == ["x"];
    }
    assert '.' !in keys[0] && '.' !in keys[1] && '.' !in keys[2];
    Text.SplitJoin(keys, '.');
  }

  /**
   * `plan-sweep` with the path `a.toString.x` over `{"a": 5}` reads the
   * number's inherited `toString` and writes `x` onto that shared function,
   * while `setNestedValue` throws at the number, as the own-key writer does
   * under both rules.
   */
  lemma PrimitiveMethodEscapes(v: Json)
    ensures SetPathAsWritten(Obj([Field("a", Num(5.0))]), PathKeys("a.toString.x"), v, AbsentOrNull) == Escaped("toString")
    ensures SetPathAsWritten(Obj([Field("a", Num(5.0))]), PathKeys("a.toString.x"), v, AbsentOnly) == Thrown
    ensures SetAtPath(Obj([Field("a", Num(5.0))]), "a.toString.x", v).Err?
    ensures SetNestedValue(Obj([Field("a", Num(5.0))]), "a.toString.x", v).Err?
  {
    MethodPathKeys();
    var keys := ["a", "toString", "x"];
    var fs := [Field("a", Num(5.0))];
    assert keys[1..] == ["toString", "x"];
    assert Get(fs, "a") == Some(Num(5.0));
    assert !EscapesAt(Obj(fs), "a", AbsentOrNull) && !EscapesAt(Obj(fs), "a", AbsentOnly);
    assert Step(fs, "a", AbsentOrNull) == Num(5.0) && Step(fs, "a", AbsentOnly) == Num(5.0);
    assert EscapesAt(Num(5.0), "toString", AbsentOrNull);
    assert !EscapesAt(Num(5.0), "toString", AbsentOnly);
  }
}
