/**
 * The ComfyUI sweep node (packages/comfyui-fibo-sweep/fibo_sweep_node.py).
 * `FIBOParameterSweep.generate_sweep` parses the base document and up to
 * three (path, comma-separated values) slots. It enumerates
 * `itertools.product` of the value lists and writes each combination into a
 * copy of the base with `_set_nested_value`. It then returns the variants,
 * their count and a metadata record. `FIBOJSONExtractor.extract_variant`
 * picks one variant back out of the serialized list.
 *
 * `json.loads` and `float` are parameters (`parseJson`, `parseFloat`).
 * `json.dumps` is not modelled: the node's outputs are the values that it
 * would serialize.
 */
module ComfySweep {
  import opened Wrappers
  import opened JsonValues
  import opened NestedPath
  import opened Arith
  import opened Sequences
  import Text

  /**
   * What `generate_sweep` raises. `InvalidBaseJson`, `InvalidValues` and
   * `NoParameters` are its `ValueError`s. `WriteTypeError` is the
   * `TypeError` of a path write into something that is not a dict.
   * `DivisionByZero` comes from the grid-row computation with zero columns.
   */
  datatype NodeError = InvalidBaseJson | InvalidValues | NoParameters | WriteTypeError | DivisionByZero

  /** One input slot: `parameter_i_path` and `parameter_i_values`. */
  datatype Slot = Slot(path: string, values: string)

  datatype NodeParam = NodeParam(path: string, values: seq<real>)

  datatype NodeVariant = NodeVariant(json: Json, deltas: seq<Field>)

  datatype GridLayout = GridLayout(columns: int, rows: int)

  datatype Metadata = Metadata(totalVariants: nat, parameters: seq<string>, grid: GridLayout)

  /** The node's three outputs: `json_variants`, `total_count` and `metadata`. */
  datatype NodeOutput = NodeOutput(variants: seq<NodeVariant>, totalCount: nat, metadata: Metadata)

  // ---------------------------------------------------------------------------
  // _parse_values and the slots
  // ---------------------------------------------------------------------------

  predicate NonBlank(piece: string)
  {
    piece != ""
  }

  /** The pieces of a comma-separated list, each stripped of surrounding whitespace. */
  function Stripped(s: string): (r: seq<string>)
    ensures |r| == |Text.Split(s, ',')|
    ensures forall i :: 0 <= i < |r| ==> r[i] == Text.Trim(Text.Split(s, ',')[i])
  {
    var parts := Text.Split(s, ',');
    seq(|parts|, i requires 0 <= i < |parts| => Text.Trim(parts[i]))
  }

  /** Converts every piece with `float`; the first piece it rejects raises. */
  function ParseAll(pieces: seq<string>, parseFloat: string -> Option<real>): (r: Result<seq<real>, NodeError>)
    ensures r.Ok? ==> |r.value| == |pieces| && forall i :: 0 <= i < |pieces| ==> parseFloat(pieces[i]) == Some(r.value[i])
    ensures r.Err? <==> exists i :: 0 <= i < |pieces| && parseFloat(pieces[i]).None?
    ensures r.Err? ==> r.error == InvalidValues
    decreases |pieces|
  {
    if |pieces| == 0 then Ok([])
    else
      match parseFloat(pieces[0])
      case None => Err(InvalidValues)
      case Some(x) =>
        match ParseAll(pieces[1..], parseFloat)
        case Err(e) =>
          assert exists i :: 0 <= i < |pieces| && parseFloat(pieces[i]).None? by {
            var i :| 0 <= i < |pieces[1..]| && parseFloat(pieces[1..][i]).None?;
            assert pieces[i + 1] == pieces[1..][i];
          }
          Err(e)
        case Ok(xs) =>
          assert forall i :: 1 <= i < |pieces| ==> pieces[i] == pieces[1..][i - 1];
          Ok([x] + xs)
  }

  /** `_parse_values(values_str)`: split on commas, strip, drop blank pieces, convert in order. */
  function ParseValues(s: string, parseFloat: string -> Option<real>): Result<seq<real>, NodeError>
  {
    ParseAll(Filter(Stripped(s), NonBlank), parseFloat)
  }

  /**
   * The pieces converted are exactly the non-blank stripped pieces, in their
   * order, each without surrounding whitespace.
   */
  lemma ParsedPieces(s: string)
    ensures IsSubsequence(Filter(Stripped(s), NonBlank), Stripped(s))
    ensures forall i :: 0 <= i < |Stripped(s)| && Stripped(s)[i] != "" ==> Stripped(s)[i] in Filter(Stripped(s), NonBlank)
    ensures forall i :: 0 <= i < |Filter(Stripped(s), NonBlank)| ==>
      var p := Filter(Stripped(s), NonBlank)[i];
      p != "" && !Text.IsSpace(p[0]) && !Text.IsSpace(p[|p| - 1])
  {
    var pieces := Stripped(s);
    forall i | 0 <= i < |pieces| && pieces[i] != ""
      ensures !Text.IsSpace(pieces[i][0]) && !Text.IsSpace(pieces[i][|pieces[i]| - 1])
    {
      var t := Text.Split(s, ',')[i];
      assert pieces[i] == Text.Trim(t);
    }
    KeptPieces(pieces);
  }

  /** Dropping the blank pieces keeps the others in order, and keeps any property of the non-blank ends. */
  lemma KeptPieces(pieces: seq<string>)
    requires forall i :: 0 <= i < |pieces| && pieces[i] != "" ==>
      !Text.IsSpace(pieces[i][0]) && !Text.IsSpace(pieces[i][|pieces[i]| - 1])
    ensures IsSubsequence(Filter(pieces, NonBlank), pieces)
    ensures forall i :: 0 <= i < |pieces| && pieces[i] != "" ==> pieces[i] in Filter(pieces, NonBlank)
    ensures forall i :: 0 <= i < |Filter(pieces, NonBlank)| ==>
      var p := Filter(pieces, NonBlank)[i];
      p != "" && !Text.IsSpace(p[0]) && !Text.IsSpace(p[|p| - 1])
  {
    FilterSpec(pieces, NonBlank);
    var kept := Filter(pieces, NonBlank);
    forall i | 0 <= i < |kept|
      ensures !Text.IsSpace(kept[i][0]) && !Text.IsSpace(kept[i][|kept[i]| - 1])
    {
      SubsequenceMember(kept, pieces, i);
    }
  }

  /** Every element of a subsequence is an element of the sequence. */
  lemma {:induction false} SubsequenceMember<T>(sub: seq<T>, s: seq<T>, i: nat)
    requires IsSubsequence(sub, s) && i < |sub|
    ensures sub[i] in s
    decreases |s|
  {
    if sub[0] == s[0] {
      if i > 0 {
        SubsequenceMember(sub[1..], s[1..], i - 1);
      }
    } else {
      SubsequenceMember(sub, s[1..], i);
    }
  }

  /** `if parameter_i_path and parameter_i_values`: both strings non-empty. */
  predicate Used(slot: Slot)
  {
    slot.path != "" && slot.values != ""
  }

  /** The parameters built from the used slots, in slot order. */
  function ParseSlots(slots: seq<Slot>, parseFloat: string -> Option<real>): (r: Result<seq<NodeParam>, NodeError>)
    ensures r.Ok? ==> |r.value| == |slots| && forall i :: 0 <= i < |slots| ==>
      r.value[i].path == slots[i].path && ParseValues(slots[i].values, parseFloat) == Ok(r.value[i].values)
    ensures r.Err? ==> r.error == InvalidValues
    decreases |slots|
  {
    if |slots| == 0 then Ok([])
    else
      match ParseValues(slots[0].values, parseFloat)
      case Err(e) => Err(e)
      case Ok(vs) =>
        match ParseSlots(slots[1..], parseFloat)
        case Err(e) => Err(e)
        case Ok(ps) =>
          assert forall i :: 1 <= i < |slots| ==> slots[i] == slots[1..][i - 1];
          Ok([NodeParam(slots[0].path, vs)] + ps)
  }

  /** The `parameters` list: one entry per used slot. */
  function CollectParameters(slots: seq<Slot>, parseFloat: string -> Option<real>): Result<seq<NodeParam>, NodeError>
  {
    ParseSlots(Filter(slots, Used), parseFloat)
  }

  // ---------------------------------------------------------------------------
  // itertools.product
  // ---------------------------------------------------------------------------

  function ProductSize(lists: seq<seq<real>>): nat
    decreases |lists|
  {
    if |lists| == 0 then 1 else |lists[0]| * ProductSize(lists[1..])
  }

  /** Each tuple of `ts` with `v` put in front. */
  function Cons(v: real, ts: seq<seq<real>>): (r: seq<seq<real>>)
    ensures |r| == |ts| && forall i :: 0 <= i < |ts| ==> r[i] == [v] + ts[i]
  {
    seq(|ts|, i requires 0 <= i < |ts| => [v] + ts[i])
  }

  /** The tuples of `ts` extended in front by each value of `vs` in turn. */
  function Extend(vs: seq<real>, ts: seq<seq<real>>): (r: seq<seq<real>>)
    ensures |r| == |vs| * |ts|
    decreases |vs|
  {
    if |vs| == 0 then []
    else
      MulSucc(|vs| - 1, |ts|);
      Extend(vs[..|vs| - 1], ts) + Cons(vs[|vs| - 1], ts)
  }

  /** `itertools.product(*lists)`: the first list outermost, the last varying fastest. */
  function Tuples(lists: seq<seq<real>>): (r: seq<seq<real>>)
    ensures |r| == ProductSize(lists)
    decreases |lists|
  {
    if |lists| == 0 then [[]] else Extend(lists[0], Tuples(lists[1..]))
  }

  lemma {:induction false} ExtendIndex(vs: seq<real>, ts: seq<seq<real>>, d: nat, e: nat)
    requires d < |vs| && e < |ts|
    ensures d * |ts| + e < |vs| * |ts|
    ensures Extend(vs, ts)[d * |ts| + e] == [vs[d]] + ts[e]
    decreases |vs|
  {
    var q := |vs| - 1;
    BlockIndex(d, e, |vs|, |ts|);
    if d < q {
      ExtendIndex(vs[..q], ts, d, e);
      assert vs[..q][d] == vs[d];
    }
  }

  /** Tuple `d * p + e` is value `d` of the first list in front of tuple `e` of the rest. */
  lemma TuplesIndex(lists: seq<seq<real>>, d: nat, e: nat)
    requires |lists| > 0 && d < |lists[0]| && e < ProductSize(lists[1..])
    ensures d * ProductSize(lists[1..]) + e < |Tuples(lists)|
    ensures Tuples(lists)[d * ProductSize(lists[1..]) + e] == [lists[0][d]] + Tuples(lists[1..])[e]
  {
    ExtendIndex(lists[0], Tuples(lists[1..]), d, e);
  }

  /** Tuple `k` is some value of the first list in front of some tuple of the rest. */
  lemma TuplesAt(lists: seq<seq<real>>, k: nat) returns (d: nat, e: nat)
    requires |lists| > 0 && k < |Tuples(lists)|
    ensures d < |lists[0]| && e < |Tuples(lists[1..])|
    ensures Tuples(lists)[k] == [lists[0][d]] + Tuples(lists[1..])[e]
  {
    var p := ProductSize(lists[1..]);
    assert |Tuples(lists)| == |lists[0]| * p;
    DivBelow(k, |lists[0]|, p);
    d, e := k / p, k % p;
    TuplesIndex(lists, d, e);
    assert d * p + e == k;
  }

  /** Every tuple has one value per list, taken from that list. */
  lemma {:induction false} TuplesShape(lists: seq<seq<real>>, k: nat)
    requires k < |Tuples(lists)|
    ensures |Tuples(lists)[k]| == |lists|
    ensures forall i :: 0 <= i < |lists| ==> Tuples(lists)[k][i] in lists[i]
    decreases |lists|
  {
    if |lists| > 0 {
      var d, e := TuplesAt(lists, k);
      var rest := lists[1..];
      TuplesShape(rest, e);
      var u := Tuples(rest)[e];
      var t := Tuples(lists)[k];
      forall i | 0 <= i < |lists|
        ensures t[i] in lists[i]
      {
        if i > 0 {
          assert t[i] == u[i - 1];
          assert rest[i - 1] == lists[i];
        }
      }
    }
  }

  // ---------------------------------------------------------------------------
  // One variant
  // ---------------------------------------------------------------------------

  /** The variant document after the first `k` turns of the `enumerate(parameters)` loop. */
  function NodeWrite(base: Json, params: seq<NodeParam>, combo: seq<real>, k: nat): Result<Json, PathError>
    requires k <= |params| == |combo|
    decreases k
  {
    if k == 0 then Ok(base)
    else
      match NodeWrite(base, params, combo, k - 1)
      case Err(e) => Err(e)
      case Ok(j) => SetNestedValue(j, params[k - 1].path, Num(combo[k - 1]))
  }

  /** `deltas` after the first `k` turns: a dict keyed by path, in first-assignment order. */
  function NodeDeltas(params: seq<NodeParam>, combo: seq<real>, k: nat): seq<Field>
    requires k <= |params| == |combo|
    decreases k
  {
    if k == 0 then [] else Put(NodeDeltas(params, combo, k - 1), params[k - 1].path, Num(combo[k - 1]))
  }

  function NodeVariantOf(base: Json, params: seq<NodeParam>, combo: seq<real>): Result<NodeVariant, PathError>
    requires |params| == |combo|
  {
    match NodeWrite(base, params, combo, |params|)
    case Err(e) => Err(e)
    case Ok(j) => Ok(NodeVariant(j, NodeDeltas(params, combo, |params|)))
  }

  lemma {:induction false} NodeWriteErrStays(base: Json, params: seq<NodeParam>, combo: seq<real>, k: nat, e: PathError)
    requires k <= |params| == |combo| && NodeWrite(base, params, combo, k) == Err(e)
    ensures NodeVariantOf(base, params, combo) == Err(e)
    decreases |params| - k
  {
    if k < |params| {
      NodeWriteErrStays(base, params, combo, k + 1, e);
    }
  }

  /** The loop body for one combination: a copy of the base, then one write and one delta per parameter. */
  method BuildNodeVariant(base: Json, params: seq<NodeParam>, combo: seq<real>) returns (r: Result<NodeVariant, PathError>)
    requires |params| == |combo|
    ensures r == NodeVariantOf(base, params, combo)
  {
    var variant := base;
    var deltas: seq<Field> := [];
    for i := 0 to |params|
      invariant NodeWrite(base, params, combo, i) == Ok(variant)
      invariant deltas == NodeDeltas(params, combo, i)
    {
      var value := combo[i];
      var written := SetNestedValue(variant, params[i].path, Num(value));
      if written.Err? {
        NodeWriteErrStays(base, params, combo, i + 1, written.error);
        return Err(written.error);
      }
      variant := written.value;
      deltas := Put(deltas, params[i].path, Num(value));
    }
    return Ok(NodeVariant(variant, deltas));
  }

  /** A path given by no later parameter maps to its own value in the deltas; only parameter paths appear. */
  lemma NodeDeltasSpec(params: seq<NodeParam>, combo: seq<real>, k: nat)
    requires k <= |params| == |combo|
    ensures forall j :: 0 <= j < k && (forall j' :: j < j' < k ==> params[j'].path != params[j].path) ==>
      Get(NodeDeltas(params, combo, k), params[j].path) == Some(Num(combo[j]))
    ensures forall path :: Get(NodeDeltas(params, combo, k), path).Some? ==> exists j :: 0 <= j < k && params[j].path == path
  {
    NodeDeltasLast(params, combo, k);
    NodeDeltasPaths(params, combo, k);
  }

  lemma {:induction false} NodeDeltasLast(params: seq<NodeParam>, combo: seq<real>, k: nat)
    requires k <= |params| == |combo|
    ensures forall j :: 0 <= j < k && (forall j' :: j < j' < k ==> params[j'].path != params[j].path) ==>
      Get(NodeDeltas(params, combo, k), params[j].path) == Some(Num(combo[j]))
    decreases k
  {
    if k > 0 {
      NodeDeltasLast(params, combo, k - 1);
      var prev := NodeDeltas(params, combo, k - 1);
      var p := params[k - 1].path;
      forall j | 0 <= j < k - 1 && params[j].path != p
        ensures Get(NodeDeltas(params, combo, k), params[j].path) == Get(prev, params[j].path)
      {
        PutOther(prev, p, Num(combo[k - 1]), params[j].path);
      }
    }
  }

  lemma {:induction false} NodeDeltasPaths(params: seq<NodeParam>, combo: seq<real>, k: nat)
    requires k <= |params| == |combo|
    ensures forall path :: Get(NodeDeltas(params, combo, k), path).Some? ==> exists j :: 0 <= j < k && params[j].path == path
    decreases k
  {
    if k > 0 {
      NodeDeltasPaths(params, combo, k - 1);
      var prev := NodeDeltas(params, combo, k - 1);
      var p := params[k - 1].path;
      forall path | path != p
        ensures Get(NodeDeltas(params, combo, k), path) == Get(prev, path)
      {
        PutOther(prev, p, Num(combo[k - 1]), path);
      }
    }
  }

  /** A parameter's value is read back at its path when no later parameter's path runs into it. */
  lemma {:induction false} NodeWriteReads(base: Json, params: seq<NodeParam>, combo: seq<real>, k: nat, j: nat)
    requires k <= |params| == |combo| && NodeWrite(base, params, combo, k).Ok?
    requires j < k && forall j' :: j < j' < k ==> Parts(PathKeys(params[j'].path), PathKeys(params[j].path))
    ensures Read(NodeWrite(base, params, combo, k).value, PathKeys(params[j].path)) == Some(Num(combo[j]))
    decreases k
  {
    var prev := NodeWrite(base, params, combo, k - 1).value;
    var keys := PathKeys(params[k - 1].path);
    if j == k - 1 {
      SetPathReads(prev, keys, Num(combo[j]), AbsentOnly);
    } else {
      NodeWriteReads(base, params, combo, k - 1, j);
      var q := PathKeys(params[j].path);
      assert Parts(keys, q);
      var n :| 0 <= n < |keys| && n < |q| && keys[n] != q[n];
      SetPathFrame(prev, keys, Num(combo[k - 1]), AbsentOnly, q, n);
    }
  }

  /** A path that parts from every parameter path reads as in the base. */
  lemma {:induction false} NodeWriteFrame(base: Json, params: seq<NodeParam>, combo: seq<real>, k: nat, q: seq<string>)
    requires k <= |params| == |combo| && NodeWrite(base, params, combo, k).Ok?
    requires forall j :: 0 <= j < k ==> Parts(PathKeys(params[j].path), q)
    ensures Read(NodeWrite(base, params, combo, k).value, q) == Read(base, q)
    decreases k
  {
    if k > 0 {
      NodeWriteFrame(base, params, combo, k - 1, q);
      var keys := PathKeys(params[k - 1].path);
      assert Parts(keys, q);
      var n :| 0 <= n < |keys| && n < |q| && keys[n] != q[n];
      SetPathFrame(NodeWrite(base, params, combo, k - 1).value, keys, Num(combo[k - 1]), AbsentOnly, q, n);
    }
  }

  // ---------------------------------------------------------------------------
  // generate_sweep
  // ---------------------------------------------------------------------------

  function ValueLists(params: seq<NodeParam>): (r: seq<seq<real>>)
    ensures |r| == |params| && forall i :: 0 <= i < |params| ==> r[i] == params[i].values
  {
    seq(|params|, i requires 0 <= i < |params| => params[i].values)
  }

  function Paths(params: seq<NodeParam>): (r: seq<string>)
    ensures |r| == |params| && forall i :: 0 <= i < |params| ==> r[i] == params[i].path
  {
    seq(|params|, i requires 0 <= i < |params| => params[i].path)
  }

  /** The variants of the first `n` combinations, in order; the first write that throws ends the node. */
  function VariantsOf(base: Json, params: seq<NodeParam>, combos: seq<seq<real>>, n: nat): (r: Result<seq<NodeVariant>, PathError>)
    requires n <= |combos| && forall c :: 0 <= c < |combos| ==> |combos[c]| == |params|
    ensures r.Ok? ==> |r.value| == n
    decreases n
  {
    if n == 0 then Ok([])
    else
      match VariantsOf(base, params, combos, n - 1)
      case Err(e) => Err(e)
      case Ok(vs) =>
        match NodeVariantOf(base, params, combos[n - 1])
        case Err(e) => Err(e)
        case Ok(v) => Ok(vs + [v])
  }

  lemma {:induction false} VariantsErrStays(base: Json, params: seq<NodeParam>, combos: seq<seq<real>>, n: nat, e: PathError)
    requires n <= |combos| && forall c :: 0 <= c < |combos| ==> |combos[c]| == |params|
    requires VariantsOf(base, params, combos, n) == Err(e)
    ensures VariantsOf(base, params, combos, |combos|) == Err(e)
    decreases |combos| - n
  {
    if n < |combos| {
      VariantsErrStays(base, params, combos, n + 1, e);
    }
  }

  lemma {:induction false} VariantsIndex(base: Json, params: seq<NodeParam>, combos: seq<seq<real>>, n: nat, k: nat)
    requires n <= |combos| && forall c :: 0 <= c < |combos| ==> |combos[c]| == |params|
    requires VariantsOf(base, params, combos, n).Ok? && k < n
    ensures NodeVariantOf(base, params, combos[k]) == Ok(VariantsOf(base, params, combos, n).value[k])
    decreases n
  {
    if k < n - 1 {
      VariantsIndex(base, params, combos, n - 1, k);
    }
  }

  /** Python's `a // b`: the quotient rounded toward minus infinity. */
  function FloorDiv(a: int, b: int): (q: int)
    requires b != 0
    ensures b > 0 ==> q * b <= a < q * b + b
    ensures b < 0 ==> q * b >= a > q * b + b
  {
    if b > 0 then a / b else (-a) / (-b)
  }

  /** `(len(variants) + grid_columns - 1) // grid_columns`. */
  function GridRows(n: nat, columns: int): int
    requires columns != 0
  {
    FloorDiv(n + columns - 1, columns)
  }

  /** With at least one column the rows are the ceiling of variants over columns: enough, and none spare. */
  lemma GridRowsCeiling(n: nat, columns: int)
    requires columns >= 1
    ensures GridRows(n, columns) >= 0
    ensures GridRows(n, columns) * columns >= n
    ensures (GridRows(n, columns) - 1) * columns < n
  {
    MulSucc(GridRows(n, columns) - 1, columns);
  }

  /** `generate_sweep` as a value. */
  function SweepNode(baseJson: string, slots: seq<Slot>, columns: int,
                     parseJson: string -> Option<Json>, parseFloat: string -> Option<real>): Result<NodeOutput, NodeError>
  {
    match parseJson(baseJson)
    case None => Err(InvalidBaseJson)
    case Some(base) =>
      match CollectParameters(slots, parseFloat)
      case Err(e) => Err(e)
      case Ok(params) =>
        if |params| == 0 then Err(NoParameters)
        else
          var combos := Tuples(ValueLists(params));
          TuplesWidth(ValueLists(params));
          match VariantsOf(base, params, combos, |combos|)
          case Err(_) => Err(WriteTypeError)
          case Ok(variants) =>
            if columns == 0 then Err(DivisionByZero)
            else
              var grid := GridLayout(columns, GridRows(|variants|, columns));
              Ok(NodeOutput(variants, |variants|, Metadata(|variants|, Paths(params), grid)))
  }

  lemma TuplesWidth(lists: seq<seq<real>>)
    ensures forall c :: 0 <= c < |Tuples(lists)| ==> |Tuples(lists)[c]| == |lists|
  {
    forall c | 0 <= c < |Tuples(lists)|
      ensures |Tuples(lists)[c]| == |lists|
    {
      TuplesShape(lists, c);
    }
  }

  /** `FIBOParameterSweep.generate_sweep`. */
  method GenerateSweep(baseJson: string, slots: seq<Slot>, columns: int,
                       parseJson: string -> Option<Json>, parseFloat: string -> Option<real>)
    returns (r: Result<NodeOutput, NodeError>)
    ensures r == SweepNode(baseJson, slots, columns, parseJson, parseFloat)
  {
    var parsed := parseJson(baseJson);
    if parsed.None? {
      return Err(InvalidBaseJson);
    }
    var base := parsed.value;
    var collected := CollectParameters(slots, parseFloat);
    if collected.Err? {
      return Err(collected.error);
    }
    var params := collected.value;
    if |params| == 0 {
      return Err(NoParameters);
    }
    var combinations := Tuples(ValueLists(params));
    TuplesWidth(ValueLists(params));
    var variants: seq<NodeVariant> := [];
    for k := 0 to |combinations|
      invariant VariantsOf(base, params, combinations, k) == Ok(variants)
    {
      var v := BuildNodeVariant(base, params, combinations[k]);
      if v.Err? {
        VariantsErrStays(base, params, combinations, k + 1, v.error);
        return Err(WriteTypeError);
      }
      variants := variants + [v.value];
    }
    if columns == 0 {
      return Err(DivisionByZero);
    }
    var grid := GridLayout(columns, GridRows(|variants|, columns));
    return Ok(NodeOutput(variants, |variants|, Metadata(|variants|, Paths(params), grid)));
  }

  /**
   * On success: as many variants as the product of the value-list lengths,
   * reported as `total_count` and as `total_variants`, with the used paths in
   * slot order; variant `k` is combination `k` of the product written into
   * the base.
   */
  lemma SweepNodeShape(baseJson: string, slots: seq<Slot>, columns: int,
                       parseJson: string -> Option<Json>, parseFloat: string -> Option<real>)
    requires SweepNode(baseJson, slots, columns, parseJson, parseFloat).Ok?
    ensures var out := SweepNode(baseJson, slots, columns, parseJson, parseFloat).value;
      var params := CollectParameters(slots, parseFloat).value;
      && |out.variants| == ProductSize(ValueLists(params))
      && out.totalCount == |out.variants| && out.metadata.totalVariants == |out.variants|
      && out.metadata.parameters == Paths(params)
      && forall k :: 0 <= k < |out.variants| ==>
           |Tuples(ValueLists(params))[k]| == |params| &&
           NodeVariantOf(parseJson(baseJson).value, params, Tuples(ValueLists(params))[k]) == Ok(out.variants[k])
  {
    var base := parseJson(baseJson).value;
    var params := CollectParameters(slots, parseFloat).value;
    var combos := Tuples(ValueLists(params));
    TuplesWidth(ValueLists(params));
    var variants := VariantsOf(base, params, combos, |combos|).value;
    var grid := GridLayout(columns, GridRows(|variants|, columns));
    assert SweepNode(baseJson, slots, columns, parseJson, parseFloat) == Ok(NodeOutput(variants, |variants|, Metadata(|variants|, Paths(params), grid)));
    forall k | 0 <= k < |variants|
      ensures NodeVariantOf(base, params, combos[k]) == Ok(variants[k])
    {
      VariantsIndex(base, params, combos, |combos|, k);
    }
  }

  /** The errors raised before any variant is built: bad base JSON first, then bad values, then no used slot. */
  lemma SweepNodeErrors(baseJson: string, slots: seq<Slot>, columns: int,
                        parseJson: string -> Option<Json>, parseFloat: string -> Option<real>)
    ensures parseJson(baseJson).None? ==> SweepNode(baseJson, slots, columns, parseJson, parseFloat) == Err(InvalidBaseJson)
    ensures parseJson(baseJson).Some? && CollectParameters(slots, parseFloat).Err? ==>
      SweepNode(baseJson, slots, columns, parseJson, parseFloat) == Err(InvalidValues)
    ensures parseJson(baseJson).Some? && CollectParameters(slots, parseFloat).Ok? ==>
      (SweepNode(baseJson, slots, columns, parseJson, parseFloat) == Err(NoParameters) <==>
       forall i :: 0 <= i < |slots| ==> !Used(slots[i]))
  {
    FilterKeepsOrder(slots, Used);
    var used := Filter(slots, Used);
    if |used| > 0 {
      SubsequenceMember(used, slots, 0);
    }
  }

  // ---------------------------------------------------------------------------
  // extract_variant
  // ---------------------------------------------------------------------------

  /** What `extract_variant` raises: its two `ValueError`s and Python's own lookup errors. */
  datatype ExtractError = InvalidVariantsJson | IndexOutOfRange | PyTypeError | PyKeyError | PyIndexError

  datatype Extracted = Extracted(variantJson: Json, deltasJson: Json)

  /** `len(x)` on a parsed JSON value: strings, lists and dicts have one. */
  function PyLen(j: Json): Result<nat, ExtractError>
  {
    match j
    case Str(s) => Ok(|s|)
    case Arr(items) => Ok(|items|)
    case Obj(fs) => Ok(|fs|)
    case _ => Err(PyTypeError)
  }

  /** `x[i]` with an integer `i`; a negative index counts from the end. */
  function PyIndex(j: Json, i: int): Result<Json, ExtractError>
  {
    match j
    case Arr(items) =>
      if -|items| <= i < |items| then Ok(items[if i < 0 then |items| + i else i]) else Err(PyIndexError)
    case Str(s) =>
      if -|s| <= i < |s| then Ok(Str([s[if i < 0 then |s| + i else i]])) else Err(PyIndexError)
    case Obj(_) => Err(PyKeyError)
    case _ => Err(PyTypeError)
  }

  /** `x[key]` with a string key: only a dict has one. */
  function PyKey(j: Json, key: string): Result<Json, ExtractError>
  {
    match j
    case Obj(fs) => (match Get(fs, key) case Some(v) => Ok(v) case None => Err(PyKeyError))
    case _ => Err(PyTypeError)
  }

  /** `FIBOJSONExtractor.extract_variant(json_variants, variant_index)`. */
  function ExtractVariant(jsonVariants: string, index: int, parseJson: string -> Option<Json>): Result<Extracted, ExtractError>
  {
    match parseJson(jsonVariants)
    case None => Err(InvalidVariantsJson)
    case Some(variants) =>
      match PyLen(variants)
      case Err(e) => Err(e)
      case Ok(n) =>
        if index >= n then Err(IndexOutOfRange)
        else
          match PyIndex(variants, index)
          case Err(e) => Err(e)
          case Ok(variant) =>
            match PyKey(variant, "json")
            case Err(e) => Err(e)
            case Ok(j) =>
              match PyKey(variant, "deltas")
              case Err(e) => Err(e)
              case Ok(d) => Ok(Extracted(j, d))
  }

  /** The serialized form of the node's variant list, as `json.dumps` writes it. */
  function VariantsJson(vs: seq<NodeVariant>): Json
  {
    Arr(seq(|vs|, i requires 0 <= i < |vs| => Obj([Field("json", vs[i].json), Field("deltas", Obj(vs[i].deltas))])))
  }

  /**
   * Extracting from the node's own output: an index at or past the end is
   * refused, an index in range gives back that variant's document and deltas,
   * a negative index counts from the end, and one below that raises.
   */
  lemma ExtractRoundTrip(vs: seq<NodeVariant>, s: string, index: int, parseJson: string -> Option<Json>)
    requires parseJson(s) == Some(VariantsJson(vs))
    ensures index >= |vs| ==> ExtractVariant(s, index, parseJson) == Err(IndexOutOfRange)
    ensures 0 <= index < |vs| ==> ExtractVariant(s, index, parseJson) == Ok(Extracted(vs[index].json, Obj(vs[index].deltas)))
    ensures -|vs| <= index < 0 ==>
      ExtractVariant(s, index, parseJson) == Ok(Extracted(vs[|vs| + index].json, Obj(vs[|vs| + index].deltas)))
    ensures index < -|vs| ==> ExtractVariant(s, index, parseJson) == Err(PyIndexError)
  {
    var items := VariantsJson(vs).items;
    if -|vs| <= index < |vs| {
      var i := if index < 0 then |vs| + index else index;
      var entry := [Field("json", vs[i].json), Field("deltas", Obj(vs[i].deltas))];
      assert PyIndex(VariantsJson(vs), index) == Ok(Obj(entry));
      assert PyKey(Obj(entry), "json") == Ok(vs[i].json);
      assert "json"[0] != "deltas"[0];
      assert entry[1..] == [Field("deltas", Obj(vs[i].deltas))];
      assert Get(entry, "deltas") == Get(entry[1..], "deltas");
      assert PyKey(Obj(entry), "deltas") == Ok(Obj(vs[i].deltas));
    }
  }
}
