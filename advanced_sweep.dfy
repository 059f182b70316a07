/**
 * The N-dimensional sweep generator (packages/web/lib/advancedSweep.ts):
 * every combination of the parameters' values, first parameter outermost,
 * applied to a copy of the base document; plus the two views over the
 * generated variants (filter by fixed coordinates, distinct values of one
 * parameter).
 *
 * Values are numbers; a combination and a variant's deltas and coordinates
 * are records keyed by parameter id and by path, modelled as maps.
 */
module AdvancedSweep {
  import opened Wrappers
  import opened JsonValues
  import opened NestedPath
  import opened Arith
  import opened Sequences

  /** A sweep axis; `labelText` is the optional display `label`. */
  datatype SweepParameter = SweepParameter(id: string, path: string, values: seq<real>, labelText: Option<string>)

  type Combination = map<string, real>

  datatype Variant = Variant(json: Json, deltas: map<string, real>, coordinates: map<string, real>)

  // ---------------------------------------------------------------------------
  // The cartesian product
  // ---------------------------------------------------------------------------

  /** The ids of the parameters from position `i` on. */
  function Ids(params: seq<SweepParameter>, i: nat): set<string>
    requires i <= |params|
    decreases |params| - i
  {
    if i == |params| then {} else {params[i].id} + Ids(params, i + 1)
  }

  /** The number of combinations of the parameters from position `i` on. */
  function Product(params: seq<SweepParameter>, i: nat): nat
    requires i <= |params|
    decreases |params| - i
  {
    if i == |params| then 1 else |params[i].values| * Product(params, i + 1)
  }

  /** `m` and `m'` hold the same entries for every key outside `s`. */
  ghost predicate AgreeOutside(m: Combination, m': Combination, s: set<string>)
  {
    forall key :: key !in s ==> (key in m <==> key in m') && (key in m ==> m[key] == m'[key])
  }

  /**
   * The records that `generateCombinations(i, current)` pushes: at the last
   * level a copy of `current`; otherwise, for each value of parameter `i` in
   * order, the records of the next level with that value assigned. There are
   * as many as the product of the remaining value-list lengths.
   */
  function Combos(params: seq<SweepParameter>, i: nat, current: Combination): (r: seq<Combination>)
    requires i <= |params|
    ensures |r| == Product(params, i)
    decreases |params| - i, 1, 0
  {
    if i == |params| then [current] else CombosOver(params, i, current, params[i].values)
  }

  /** The records pushed by the first `|vs|` turns of the loop at level `i`. */
  function CombosOver(params: seq<SweepParameter>, i: nat, current: Combination, vs: seq<real>): (r: seq<Combination>)
    requires i < |params|
    ensures |r| == |vs| * Product(params, i + 1)
    decreases |params| - i, 0, |vs|
  {
    if |vs| == 0 then []
    else
      var r := CombosOver(params, i, current, vs[..|vs| - 1]) + Combos(params, i + 1, current[params[i].id := vs[|vs| - 1]]);
      assert |vs| * Product(params, i + 1) == (|vs| - 1) * Product(params, i + 1) + Product(params, i + 1);
      r
  }

  /**
   * Independent reference: the `k`-th combination read as a mixed-radix
   * number, the first parameter being the most significant digit.
   */
  function ComboAt(params: seq<SweepParameter>, i: nat, current: Combination, k: nat): (c: Combination)
    requires i <= |params| && k < Product(params, i)
    ensures c.Keys == current.Keys + Ids(params, i)
    decreases |params| - i
  {
    if i == |params| then current
    else
      var p := Product(params, i + 1);
      DivBelow(k, |params[i].values|, p);
      ComboAt(params, i + 1, current[params[i].id := params[i].values[k / p]], k % p)
  }

  /** The pushed records depend on `current` only outside the ids still to be assigned. */
  lemma {:induction false} CombosAgree(params: seq<SweepParameter>, i: nat, m: Combination, m': Combination)
    requires i <= |params|
    requires AgreeOutside(m, m', Ids(params, i))
    ensures Combos(params, i, m) == Combos(params, i, m')
    decreases |params| - i, 1, 0
  {
    if i < |params| {
      CombosOverAgree(params, i, m, m', params[i].values);
    } else {
      assert m == m' by {
        assert forall key :: key in m <==> key in m';
      }
    }
  }

  lemma {:induction false} CombosOverAgree(params: seq<SweepParameter>, i: nat, m: Combination, m': Combination, vs: seq<real>)
    requires i < |params|
    requires AgreeOutside(m, m', Ids(params, i))
    ensures CombosOver(params, i, m, vs) == CombosOver(params, i, m', vs)
    decreases |params| - i, 0, |vs|
  {
    if |vs| > 0 {
      CombosOverAgree(params, i, m, m', vs[..|vs| - 1]);
      var id, v := params[i].id, vs[|vs| - 1];
      CombosAgree(params, i + 1, m[id := v], m'[id := v]);
    }
  }

  /** The product is zero exactly when some value list is empty. */
  lemma {:induction false} ProductZero(params: seq<SweepParameter>, i: nat)
    requires i <= |params|
    ensures Product(params, i) == 0 <==> exists j :: i <= j < |params| && |params[j].values| == 0
    decreases |params| - i
  {
    if i < |params| {
      ProductZero(params, i + 1);
      if |params[i].values| != 0 && Product(params, i + 1) != 0 {
        assert Product(params, i) != 0;
      }
    }
  }

  /** The recursive enumeration and the mixed-radix reading agree: first parameter outermost, last fastest. */
  lemma {:induction false} CombosIndex(params: seq<SweepParameter>, i: nat, m: Combination, k: nat)
    requires i <= |params| && k < Product(params, i)
    ensures Combos(params, i, m)[k] == ComboAt(params, i, m, k)
    decreases |params| - i
  {
    if i < |params| {
      var p := Product(params, i + 1);
      DivBelow(k, |params[i].values|, p);
      var d, e := k / p, k % p;
      assert k == d * p + e;
      CombosOverIndex(params, i, m, params[i].values, p, d, e);
      CombosIndex(params, i + 1, m[params[i].id := params[i].values[d]], e);
    }
  }

  /** Turn `d` of the loop at level `i` contributes the block of positions `d * p` to `d * p + p - 1`. */
  lemma {:induction false} CombosOverIndex(params: seq<SweepParameter>, i: nat, m: Combination, vs: seq<real>, p: nat, d: nat, e: nat)
    requires i < |params| && p == Product(params, i + 1)
    requires d < |vs| && e < p
    ensures d * p + e < |vs| * p
    ensures CombosOver(params, i, m, vs)[d * p + e] == Combos(params, i + 1, m[params[i].id := vs[d]])[e]
    decreases |vs|
  {
    var q := |vs| - 1;
    BlockIndex(d, e, |vs|, p);
    var front := CombosOver(params, i, m, vs[..q]);
    var back := Combos(params, i + 1, m[params[i].id := vs[q]]);
    assert CombosOver(params, i, m, vs) == front + back;
    if d < q {
      CombosOverIndex(params, i, m, vs[..q], p, d, e);
      assert vs[..q][d] == vs[d];
    }
  }

  lemma CombosOverStep(params: seq<SweepParameter>, i: nat, current: Combination, k: nat)
    requires i < |params| && k < |params[i].values|
    ensures CombosOver(params, i, current, params[i].values[..k + 1]) ==
      CombosOver(params, i, current, params[i].values[..k]) + Combos(params, i + 1, current[params[i].id := params[i].values[k]])
  {
    assert params[i].values[..k + 1][..k] == params[i].values[..k];
  }

  /**
   * `generateCombinations(paramIndex, current)`: pushes `Combos` onto the
   * shared list. The shared `current` record comes back changed only on the
   * ids of this level and deeper (each level deletes its id on exit).
   */
  method GenerateCombinations(params: seq<SweepParameter>, i: nat, current: Combination, combinations: seq<Combination>)
    returns (current': Combination, combinations': seq<Combination>)
    requires i <= |params|
    ensures combinations' == combinations + Combos(params, i, current)
    ensures AgreeOutside(current', current, Ids(params, i))
    decreases |params| - i
  {
    if i >= |params| {
      return current, combinations + [current];
    }
    var param := params[i];
    current', combinations' := current, combinations;
    var k := 0;
    while k < |param.values|
      invariant 0 <= k <= |param.values|
      invariant AgreeOutside(current', current, Ids(params, i))
      invariant combinations' == combinations + CombosOver(params, i, current, param.values[..k])
    {
      var v := param.values[k];
      current' := current'[param.id := v];
      CombosAgree(params, i + 1, current', current[param.id := v]);
      current', combinations' := GenerateCombinations(params, i + 1, current', combinations');
      CombosOverStep(params, i, current, k);
      k := k + 1;
    }
    assert param.values[..k] == param.values;
    current' := current' - {param.id};
  }

  // ---------------------------------------------------------------------------
  // Applying one combination to the base document
  // ---------------------------------------------------------------------------

  /** Every parameter id has a value in the combination. */
  predicate Assigns(params: seq<SweepParameter>, combo: Combination)
  {
    forall j :: 0 <= j < |params| ==> params[j].id in combo
  }

  /**
   * The variant document after the first `k` turns of the loop over the
   * parameters: each turn writes the combination's value at the parameter's
   * path, and a write that meets a non-object throws.
   */
  function WriteAll(base: Json, params: seq<SweepParameter>, combo: Combination, k: nat): Result<Json, PathError>
    requires k <= |params| && Assigns(params, combo)
    decreases k
  {
    if k == 0 then Ok(base)
    else match WriteAll(base, params, combo, k - 1)
      case Err(e) => Err(e)
      case Ok(j) => SetNestedValue(j, params[k - 1].path, Num(combo[params[k - 1].id]))
  }

  /** `deltas` after the first `k` turns: the value recorded under the parameter's path. */
  function DeltasOf(params: seq<SweepParameter>, combo: Combination, k: nat): map<string, real>
    requires k <= |params| && Assigns(params, combo)
    decreases k
  {
    if k == 0 then map[]
    else DeltasOf(params, combo, k - 1)[params[k - 1].path := combo[params[k - 1].id]]
  }

  /** `coordinates` after the first `k` turns: the value recorded under the parameter's id. */
  function CoordinatesOf(params: seq<SweepParameter>, combo: Combination, k: nat): map<string, real>
    requires k <= |params| && Assigns(params, combo)
    decreases k
  {
    if k == 0 then map[]
    else CoordinatesOf(params, combo, k - 1)[params[k - 1].id := combo[params[k - 1].id]]
  }

  /** One variant: the whole loop over the parameters (the body of the `map` callback). */
  function Apply(base: Json, params: seq<SweepParameter>, combo: Combination): Result<Variant, PathError>
    requires Assigns(params, combo)
  {
    match WriteAll(base, params, combo, |params|)
    case Err(e) => Err(e)
    case Ok(j) => Ok(Variant(j, DeltasOf(params, combo, |params|), CoordinatesOf(params, combo, |params|)))
  }

  /**
   * The coordinates are the combination restricted to the applied parameters'
   * ids: each of them is present with the combination's value, and nothing
   * else is.
   */
  lemma {:induction false} CoordinatesOfSpec(params: seq<SweepParameter>, combo: Combination, k: nat)
    requires k <= |params| && Assigns(params, combo)
    ensures forall j :: 0 <= j < k ==>
      params[j].id in CoordinatesOf(params, combo, k) && CoordinatesOf(params, combo, k)[params[j].id] == combo[params[j].id]
    ensures forall id :: id in CoordinatesOf(params, combo, k) ==>
      id in combo && CoordinatesOf(params, combo, k)[id] == combo[id] && exists j :: 0 <= j < k && params[j].id == id
    decreases k
  {
    if k > 0 {
      CoordinatesOfSpec(params, combo, k - 1);
    }
  }

  /** A path written by no later parameter holds its own value in the deltas, and only swept paths appear. */
  lemma {:induction false} DeltasOfSpec(params: seq<SweepParameter>, combo: Combination, k: nat)
    requires k <= |params| && Assigns(params, combo)
    ensures forall j :: 0 <= j < k && (forall j' :: j < j' < k ==> params[j'].path != params[j].path) ==>
      params[j].path in DeltasOf(params, combo, k) && DeltasOf(params, combo, k)[params[j].path] == combo[params[j].id]
    ensures forall path :: path in DeltasOf(params, combo, k) ==> exists j :: 0 <= j < k && params[j].path == path
    decreases k
  {
    if k > 0 {
      DeltasOfSpec(params, combo, k - 1);
    }
  }

  /**
   * The variant's document holds a parameter's value at its path when no
   * later parameter's path runs into it (an equal path, or one that is a
   * prefix or an extension of it, would overwrite).
   */
  lemma {:induction false} WriteAllReads(base: Json, params: seq<SweepParameter>, combo: Combination, k: nat, j: nat)
    requires k <= |params| && Assigns(params, combo)
    requires WriteAll(base, params, combo, k).Ok?
    requires j < k && forall j' :: j < j' < k ==> Parts(PathKeys(params[j'].path), PathKeys(params[j].path))
    ensures Read(WriteAll(base, params, combo, k).value, PathKeys(params[j].path)) == Some(Num(combo[params[j].id]))
    decreases k
  {
    var prev := WriteAll(base, params, combo, k - 1).value;
    var keys := PathKeys(params[k - 1].path);
    var x := Num(combo[params[k - 1].id]);
    if j == k - 1 {
      SetPathReads(prev, keys, x, AbsentOnly);
    } else {
      WriteAllReads(base, params, combo, k - 1, j);
      var q := PathKeys(params[j].path);
      assert Parts(keys, q);
      var n :| 0 <= n < |keys| && n < |q| && keys[n] != q[n];
      SetPathFrame(prev, keys, x, AbsentOnly, q, n);
    }
  }

  /** Only the swept paths change: a path that parts from all of them reads as in the base. */
  lemma {:induction false} WriteAllFrame(base: Json, params: seq<SweepParameter>, combo: Combination, k: nat, q: seq<string>)
    requires k <= |params| && Assigns(params, combo)
    requires WriteAll(base, params, combo, k).Ok?
    requires forall j :: 0 <= j < k ==> Parts(PathKeys(params[j].path), q)
    ensures Read(WriteAll(base, params, combo, k).value, q) == Read(base, q)
    decreases k
  {
    if k > 0 {
      WriteAllFrame(base, params, combo, k - 1, q);
      var prev := WriteAll(base, params, combo, k - 1).value;
      var keys := PathKeys(params[k - 1].path);
      assert Parts(keys, q);
      var n :| 0 <= n < |keys| && n < |q| && keys[n] != q[n];
      SetPathFrame(prev, keys, Num(combo[params[k - 1].id]), AbsentOnly, q, n);
    }
  }

  /** Once a write has thrown, the variant is that error whatever follows. */
  lemma {:induction false} WriteAllErrStays(base: Json, params: seq<SweepParameter>, combo: Combination, k: nat, e: PathError)
    requires k <= |params| && Assigns(params, combo)
    requires WriteAll(base, params, combo, k) == Err(e)
    ensures Apply(base, params, combo) == Err(e)
    decreases |params| - k
  {
    if k < |params| {
      WriteAllErrStays(base, params, combo, k + 1, e);
    }
  }

  /** A base that is not an object cannot take any write. */
  lemma ApplyNonObject(base: Json, params: seq<SweepParameter>, combo: Combination)
    requires |params| > 0 && !base.Obj? && Assigns(params, combo)
    ensures Apply(base, params, combo).Err?
  {
    WriteAllErrStays(base, params, combo, 1, TypeError);
  }

  /** The loop over the parameters for one combination. */
  method BuildVariant(base: Json, params: seq<SweepParameter>, combo: Combination) returns (r: Result<Variant, PathError>)
    requires Assigns(params, combo)
    ensures r == Apply(base, params, combo)
  {
    var json := base;
    var deltas: map<string, real> := map[];
    var coordinates: map<string, real> := map[];
    var k := 0;
    while k < |params|
      invariant 0 <= k <= |params|
      invariant WriteAll(base, params, combo, k) == Ok(json)
      invariant deltas == DeltasOf(params, combo, k)
      invariant coordinates == CoordinatesOf(params, combo, k)
    {
      var param := params[k];
      var value := combo[param.id];
      var written := SetNestedValue(json, param.path, Num(value));
      WriteAllStep(base, params, combo, k, json);
      if written.Err? {
        WriteAllErrStays(base, params, combo, k + 1, written.error);
        return Err(written.error);
      }
      json := written.value;
      deltas := deltas[param.path := value];
      coordinates := coordinates[param.id := value];
      k := k + 1;
    }
    return Ok(Variant(json, deltas, coordinates));
  }

  /** One more turn of the loop over the parameters. */
  lemma WriteAllStep(base: Json, params: seq<SweepParameter>, combo: Combination, k: nat, json: Json)
    requires k < |params| && Assigns(params, combo) && WriteAll(base, params, combo, k) == Ok(json)
    ensures WriteAll(base, params, combo, k + 1) == SetNestedValue(json, params[k].path, Num(combo[params[k].id]))
    ensures DeltasOf(params, combo, k + 1) == DeltasOf(params, combo, k)[params[k].path := combo[params[k].id]]
    ensures CoordinatesOf(params, combo, k + 1) == CoordinatesOf(params, combo, k)[params[k].id := combo[params[k].id]]
  {
  }

  // ---------------------------------------------------------------------------
  // The whole sweep
  // ---------------------------------------------------------------------------

  /** Every listed combination assigns every parameter id. */
  predicate Complete(params: seq<SweepParameter>, combos: seq<Combination>)
  {
    forall i :: 0 <= i < |combos| ==> Assigns(params, combos[i])
  }

  lemma ComboAtAssigns(params: seq<SweepParameter>, k: nat)
    requires k < Product(params, 0)
    ensures Assigns(params, ComboAt(params, 0, map[], k))
  {
    forall j | 0 <= j < |params|
      ensures params[j].id in ComboAt(params, 0, map[], k)
    {
      IdsContain(params, 0, j);
    }
  }

  lemma {:induction false} IdsContain(params: seq<SweepParameter>, i: nat, j: nat)
    requires i <= j < |params|
    ensures params[j].id in Ids(params, i)
    decreases j - i
  {
    if i < j {
      IdsContain(params, i + 1, j);
    }
  }

  lemma CombosComplete(params: seq<SweepParameter>)
    ensures Complete(params, Combos(params, 0, map[]))
  {
    var cs := Combos(params, 0, map[]);
    forall k | 0 <= k < |cs|
      ensures Assigns(params, cs[k])
    {
      CombosIndex(params, 0, map[], k);
      ComboAtAssigns(params, k);
    }
  }

  /** `combinations.map(...)`: the first combination whose write throws makes the sweep throw. */
  function ApplyAll(base: Json, params: seq<SweepParameter>, combos: seq<Combination>): (r: Result<seq<Variant>, PathError>)
    requires Complete(params, combos)
    ensures r.Ok? ==> |r.value| == |combos|
    decreases |combos|
  {
    if |combos| == 0 then Ok([])
    else
      var last := combos[|combos| - 1];
      match ApplyAll(base, params, combos[..|combos| - 1])
      case Err(e) => Err(e)
      case Ok(vs) =>
        match Apply(base, params, last)
        case Err(e) => Err(e)
        case Ok(v) => Ok(vs + [v])
  }

  lemma {:induction false} ApplyAllIndex(base: Json, params: seq<SweepParameter>, combos: seq<Combination>, k: nat)
    requires Complete(params, combos) && ApplyAll(base, params, combos).Ok? && k < |combos|
    ensures Apply(base, params, combos[k]) == Ok(ApplyAll(base, params, combos).value[k])
    decreases |combos|
  {
    if k < |combos| - 1 {
      ApplyAllIndex(base, params, combos[..|combos| - 1], k);
    }
  }

  lemma {:induction false} ApplyAllErrStays(base: Json, params: seq<SweepParameter>, combos: seq<Combination>, k: nat, e: PathError)
    requires Complete(params, combos) && k <= |combos|
    requires ApplyAll(base, params, combos[..k]) == Err(e)
    ensures ApplyAll(base, params, combos) == Err(e)
    decreases |combos| - k
  {
    if k < |combos| {
      assert combos[..k + 1][..k] == combos[..k];
      ApplyAllErrStays(base, params, combos, k + 1, e);
    } else {
      assert combos[..k] == combos;
    }
  }

  /** `generateNDimensionalSweep(baseJson, parameters)` as a value. */
  function Sweep(base: Json, params: seq<SweepParameter>): Result<seq<Variant>, PathError>
  {
    if |params| == 0 then Ok([Variant(base, map[], map[])])
    else
      CombosComplete(params);
      ApplyAll(base, params, Combos(params, 0, map[]))
  }

  /**
   * The sweep: with no parameters the base itself with empty records;
   * otherwise one variant per combination, the `k`-th built from `ComboAt`'s
   * `k`-th combination.
   */
  lemma SweepShape(base: Json, params: seq<SweepParameter>)
    requires Sweep(base, params).Ok?
    ensures |params| == 0 ==> Sweep(base, params).value == [Variant(base, map[], map[])]
    ensures |params| > 0 ==> |Sweep(base, params).value| == Product(params, 0)
    ensures |params| > 0 ==> forall k :: 0 <= k < Product(params, 0) ==>
      Assigns(params, ComboAt(params, 0, map[], k)) &&
      Apply(base, params, ComboAt(params, 0, map[], k)) == Ok(Sweep(base, params).value[k])
  {
    if |params| > 0 {
      CombosComplete(params);
      forall k | 0 <= k < Product(params, 0)
        ensures Assigns(params, ComboAt(params, 0, map[], k))
        ensures Apply(base, params, ComboAt(params, 0, map[], k)) == Ok(Sweep(base, params).value[k])
      {
        CombosIndex(params, 0, map[], k);
        ComboAtAssigns(params, k);
        ApplyAllIndex(base, params, Combos(params, 0, map[]), k);
      }
    }
  }

  /** Some empty value list leaves nothing to sweep. */
  lemma SweepEmptyAxis(base: Json, params: seq<SweepParameter>, j: nat)
    requires j < |params| && |params[j].values| == 0
    ensures Sweep(base, params) == Ok([])
  {
    ProductZero(params, 0);
  }

  lemma ApplyAllStep(base: Json, params: seq<SweepParameter>, combos: seq<Combination>, k: nat)
    requires k < |combos| && Complete(params, combos)
    ensures Complete(params, combos[..k]) && Complete(params, combos[..k + 1]) && Assigns(params, combos[k])
    ensures ApplyAll(base, params, combos[..k + 1]) ==
      match ApplyAll(base, params, combos[..k])
      case Err(e) => Err(e)
      case Ok(vs) =>
        match Apply(base, params, combos[k])
        case Err(e) => Err(e)
        case Ok(v) => Ok(vs + [v])
  {
    assert combos[..k + 1][..k] == combos[..k];
  }

  /** `combinations.map(...)`: builds the variants in order, stopping at the first write that throws. */
  method MapCombinations(base: Json, params: seq<SweepParameter>, combinations: seq<Combination>)
    returns (r: Result<seq<Variant>, PathError>)
    requires Complete(params, combinations)
    ensures r == ApplyAll(base, params, combinations)
  {
    var variants: seq<Variant> := [];
    var k := 0;
    while k < |combinations|
      invariant 0 <= k <= |combinations|
      invariant ApplyAll(base, params, combinations[..k]) == Ok(variants)
    {
      ApplyAllStep(base, params, combinations, k);
      var v := BuildVariant(base, params, combinations[k]);
      if v.Err? {
        ApplyAllErrStays(base, params, combinations, k + 1, v.error);
        return Err(v.error);
      }
      variants := variants + [v.value];
      k := k + 1;
    }
    assert combinations[..k] == combinations;
    return Ok(variants);
  }

  /** `generateNDimensionalSweep`: the combinations first, then the variants in their order. */
  method GenerateNDimensionalSweep(base: Json, params: seq<SweepParameter>) returns (r: Result<seq<Variant>, PathError>)
    ensures r == Sweep(base, params)
  {
    if |params| == 0 {
      r := Ok([Variant(base, map[], map[])]);
    } else {
      var _, combinations := GenerateCombinations(params, 0, map[], []);
      assert combinations == Combos(params, 0, map[]);
      CombosComplete(params);
      r := MapCombinations(base, params, combinations);
    }
  }

  // ---------------------------------------------------------------------------
  // Views over generated variants
  // ---------------------------------------------------------------------------

  /** Every fixed coordinate is present in the variant with that exact value. */
  predicate Matches(v: Variant, fixed: map<string, real>)
  {
    forall id :: id in fixed ==> id in v.coordinates && v.coordinates[id] == fixed[id]
  }

  /** `filterVariantsByCoordinates(variants, fixedCoordinates)`. */
  function FilterVariantsByCoordinates(variants: seq<Variant>, fixed: map<string, real>): (r: seq<Variant>)
    ensures forall v :: v in r <==> v in variants && Matches(v, fixed)
    decreases |variants|
  {
    if |variants| == 0 then []
    else
      var rest := FilterVariantsByCoordinates(variants[1..], fixed);
      if Matches(variants[0], fixed) then [variants[0]] + rest else rest
  }

  lemma {:induction false} FilterIsSubsequence(variants: seq<Variant>, fixed: map<string, real>)
    ensures IsSubsequence(FilterVariantsByCoordinates(variants, fixed), variants)
    decreases |variants|
  {
    if |variants| > 0 {
      FilterIsSubsequence(variants[1..], fixed);
      var rest := FilterVariantsByCoordinates(variants[1..], fixed);
      if Matches(variants[0], fixed) {
        assert ([variants[0]] + rest)[1..] == rest;
      } else {
        SubsequenceOfTail(rest, variants);
      }
    }
  }

  /** Each matching variant is kept as often as it occurs, and no other. */
  lemma {:induction false} FilterVariantsCounts(variants: seq<Variant>, fixed: map<string, real>)
    ensures forall v ::
      multiset(FilterVariantsByCoordinates(variants, fixed))[v] == if Matches(v, fixed) then multiset(variants)[v] else 0
    decreases |variants|
  {
    if |variants| > 0 {
      FilterVariantsCounts(variants[1..], fixed);
      assert variants == [variants[0]] + variants[1..];
      assert multiset(variants) == multiset([variants[0]]) + multiset(variants[1..]);
    }
  }

  /** An empty filter keeps every variant. */
  lemma {:induction false} FilterNothingFixed(variants: seq<Variant>)
    ensures FilterVariantsByCoordinates(variants, map[]) == variants
    decreases |variants|
  {
    if |variants| > 0 {
      FilterNothingFixed(variants[1..]);
    }
  }

  /** The values of parameter `id` among the variants that define it. */
  function DefinedValues(variants: seq<Variant>, id: string): set<real>
    decreases |variants|
  {
    if |variants| == 0 then {}
    else
      var last := variants[|variants| - 1];
      DefinedValues(variants[..|variants| - 1], id) + (if id in last.coordinates then {last.coordinates[id]} else {})
  }

  predicate StrictlyIncreasing(s: seq<real>)
  {
    forall i, j :: 0 <= i < j < |s| ==> s[i] < s[j]
  }

  /** Inserts `x` into a strictly increasing list unless it is already there. */
  function Insert(s: seq<real>, x: real): (r: seq<real>)
    requires StrictlyIncreasing(s)
    ensures StrictlyIncreasing(r)
    ensures forall y :: y in r <==> y in s || y == x
    decreases |s|
  {
    if |s| == 0 then [x]
    else if x < s[0] then
      var r := [x] + s;
      assert forall i :: 1 <= i < |r| ==> r[i] == s[i - 1];
      r
    else if x == s[0] then s
    else
      var rest := Insert(s[1..], x);
      var r := [s[0]] + rest;
      assert forall i :: 0 <= i < |rest| ==> s[0] < rest[i] by {
        forall i | 0 <= i < |rest|
          ensures s[0] < rest[i]
        {
          assert rest[i] in rest;
        }
      }
      assert forall i :: 1 <= i < |r| ==> r[i] == rest[i - 1];
      r
  }

  /**
   * `getParameterValues(variants, paramId)`: the distinct defined values of
   * the parameter, ascending.
   */
  method GetParameterValues(variants: seq<Variant>, id: string) returns (r: seq<real>)
    ensures StrictlyIncreasing(r)
    ensures forall x :: x in r <==> x in DefinedValues(variants, id)
  {
    // The Set, as a list of its members in insertion order.
    var seen: seq<real> := [];
    var k := 0;
    while k < |variants|
      invariant 0 <= k <= |variants|
      invariant forall x :: x in seen <==> x in DefinedValues(variants[..k], id)
    {
      assert variants[..k + 1][..k] == variants[..k];
      var v := variants[k];
      if id in v.coordinates && v.coordinates[id] !in seen {
        seen := seen + [v.coordinates[id]];
      }
      k := k + 1;
    }
    assert variants[..k] == variants;
    // The ascending sort.
    r := [];
    var n := 0;
    while n < |seen|
      invariant 0 <= n <= |seen|
      invariant StrictlyIncreasing(r)
      invariant forall x :: x in r <==> x in seen[..n]
    {
      assert seen[..n + 1] == seen[..n] + [seen[n]];
      r := Insert(r, seen[n]);
      n := n + 1;
    }
    assert seen[..n] == seen;
  }
}
