/**
 * The two-axis plan route (packages/web/app/api/plan-sweep/route.ts). For
 * every x value and, inside it, every y value, the route takes a copy of
 * the base document and writes the x value at the x path with `setAtPath`.
 * It then writes the y value at the y path unless that value is `null`.
 * Each entry records the written paths in `deltas`. Without a y axis the
 * inner loop runs once, with a `null` y value.
 *
 * The copy `JSON.parse(JSON.stringify(base))` is the identity on `Json`
 * values, so each entry is computed from `base` itself and `base` is never
 * changed.
 */
module PlanSweep {
  import opened Wrappers
  import opened JsonValues
  import opened NestedPath
  import opened Arith

  datatype Axis = Axis(path: string, values: seq<Json>)

  datatype SweepRequest = SweepRequest(x: Axis, y: Option<Axis>)

  /** One plan entry: the written document and the written paths with their values, in writing order. */
  datatype PlanEntry = PlanEntry(json: Json, deltas: seq<Field>)

  datatype PlanResponse = PlanResponse(plan: seq<PlanEntry>, variants: nat)

  /** `sweep.y?.values ?? [null]`. */
  function YValues(s: SweepRequest): seq<Json>
  {
    match s.y
    case None => [Null]
    case Some(y) => y.values
  }

  /** The entry for one x value and one y value (the body of the inner loop). */
  function Entry(base: Json, s: SweepRequest, xv: Json, yv: Json): Result<PlanEntry, PathError>
    requires yv != Null ==> s.y.Some?
  {
    match SetAtPath(base, s.x.path, xv)
    case Err(e) => Err(e)
    case Ok(j) =>
      if yv == Null then Ok(PlanEntry(j, [Field(s.x.path, xv)]))
      else
        match SetAtPath(j, s.y.value.path, yv)
        case Err(e) => Err(e)
        case Ok(j') => Ok(PlanEntry(j', Put([Field(s.x.path, xv)], s.y.value.path, yv)))
  }

  /** The outcome of each turn of the inner loop for `xv`, in order. */
  function Entries(base: Json, s: SweepRequest, xv: Json): (r: seq<Result<PlanEntry, PathError>>)
    ensures |r| == |YValues(s)|
  {
    seq(|YValues(s)|, e requires 0 <= e < |YValues(s)| => Entry(base, s, xv, YValues(s)[e]))
  }

  /** The entries the inner loop pushes for `xv`, or the error of the first write that throws. */
  function Cells(base: Json, s: SweepRequest, xv: Json): (r: Result<seq<PlanEntry>, PathError>)
    ensures r.Ok? ==> |r.value| == |YValues(s)|
  {
    AllOk(Entries(base, s, xv))
  }

  /** The entries pushed by the first `n` turns of the outer loop. */
  function Rows(base: Json, s: SweepRequest, n: nat): (r: Result<seq<PlanEntry>, PathError>)
    requires n <= |s.x.values|
    ensures r.Ok? ==> |r.value| == n * |YValues(s)|
  {
    if n == 0 then Ok([])
    else
      match Rows(base, s, n - 1)
      case Err(e) => Err(e)
      case Ok(plan) =>
        match Cells(base, s, s.x.values[n - 1])
        case Err(e) => Err(e)
        case Ok(row) =>
          MulSucc(n - 1, |YValues(s)|);
          Ok(plan + row)
  }

  /** The response of the route: the whole plan and its length, or the error a write threw. */
  function Plan(base: Json, s: SweepRequest): Result<PlanResponse, PathError>
  {
    match Rows(base, s, |s.x.values|)
    case Err(e) => Err(e)
    case Ok(plan) => Ok(PlanResponse(plan, |plan|))
  }

  /** `POST /api/plan-sweep`: the nested loops over the x and y values. */
  method PlanSweepRoute(base: Json, s: SweepRequest) returns (r: Result<PlanResponse, PathError>)
    ensures r == Plan(base, s)
  {
    var xs := s.x.values;
    var plan: seq<PlanEntry> := [];
    var i := 0;
    while i < |xs|
      invariant 0 <= i <= |xs|
      invariant Rows(base, s, i) == Ok(plan)
    {
      var row := RowOf(base, s, xs[i]);
      if row.Err? {
        assert Rows(base, s, i + 1) == Err(row.error);
        RowsErrStays(base, s, i + 1, row.error);
        return Err(row.error);
      }
      plan := plan + row.value;
      i := i + 1;
    }
    return Ok(PlanResponse(plan, |plan|));
  }

  /** The inner loop for one x value: an entry per y value, or the error the first failing write threw. */
  method RowOf(base: Json, s: SweepRequest, xv: Json) returns (r: Result<seq<PlanEntry>, PathError>)
    ensures r == Cells(base, s, xv)
  {
    var ys := YValues(s);
    ghost var rs := Entries(base, s, xv);
    var row: seq<PlanEntry> := [];
    var k := 0;
    while k < |ys|
      invariant 0 <= k <= |ys|
      invariant AllOk(rs[..k]) == Ok(row)
    {
      var next := RowTurn(base, s, xv, k, row);
      if next.Err? {
        AllOkErrStays(rs, k + 1, next.error);
        return Err(next.error);
      }
      row := next.value;
      k := k + 1;
    }
    assert rs[..k] == rs;
    return Ok(row);
  }

  /** One turn of the inner loop: push the entry for y value `k` onto the `k` entries before it. */
  method RowTurn(base: Json, s: SweepRequest, xv: Json, k: nat, row: seq<PlanEntry>) returns (r: Result<seq<PlanEntry>, PathError>)
    requires k < |YValues(s)| && AllOk(Entries(base, s, xv)[..k]) == Ok(row)
    ensures r == AllOk(Entries(base, s, xv)[..k + 1])
  {
    var entry := EntryOf(base, s, xv, YValues(s)[k]);
    AllOkStep(Entries(base, s, xv), k);
    if entry.Err? {
      return Err(entry.error);
    }
    return Ok(row + [entry.value]);
  }

  /** The body of the inner loop: write x, then y unless it is `null`. */
  method EntryOf(base: Json, s: SweepRequest, xv: Json, yv: Json) returns (r: Result<PlanEntry, PathError>)
    requires yv != Null ==> s.y.Some?
    ensures r == Entry(base, s, xv, yv)
  {
    var j := SetAtPath(base, s.x.path, xv);
    var deltas := [Field(s.x.path, xv)];
    if j.Ok? && yv != Null {
      j := SetAtPath(j.value, s.y.value.path, yv);
      deltas := Put(deltas, s.y.value.path, yv);
    }
    if j.Err? {
      return Err(j.error);
    }
    return Ok(PlanEntry(j.value, deltas));
  }

  lemma {:induction false} RowsErrStays(base: Json, s: SweepRequest, n: nat, e: PathError)
    requires n <= |s.x.values| && Rows(base, s, n) == Err(e)
    ensures Rows(base, s, |s.x.values|) == Err(e)
    decreases |s.x.values| - n
  {
    if n < |s.x.values| {
      RowsErrStays(base, s, n + 1, e);
    }
  }

  // ---------------------------------------------------------------------------
  // Properties of the plan
  // ---------------------------------------------------------------------------

  /** Without a y axis the plan has one entry per x value; with one, one per pair; `variants` is its length. */
  lemma PlanLength(base: Json, s: SweepRequest)
    requires Plan(base, s).Ok?
    ensures Plan(base, s).value.variants == |Plan(base, s).value.plan|
    ensures s.y.None? ==> |Plan(base, s).value.plan| == |s.x.values|
    ensures s.y.Some? ==> |Plan(base, s).value.plan| == |s.x.values| * |s.y.value.values|
  {
  }

  lemma {:induction false} RowsIndex(base: Json, s: SweepRequest, n: nat, d: nat, e: nat)
    requires n <= |s.x.values| && Rows(base, s, n).Ok?
    requires d < n && e < |YValues(s)|
    ensures d * |YValues(s)| + e < |Rows(base, s, n).value|
    ensures Entry(base, s, s.x.values[d], YValues(s)[e]) == Ok(Rows(base, s, n).value[d * |YValues(s)| + e])
    decreases n
  {
    var m := |YValues(s)|;
    BlockIndex(d, e, n, m);
    if d < n - 1 {
      RowsIndex(base, s, n - 1, d, e);
    } else {
      AllOkSpec(Entries(base, s, s.x.values[n - 1]));
    }
  }

  /** Entry `d * |ys| + e` is built from x value `d` and y value `e`: x is the outer loop, y the inner. */
  lemma PlanIndex(base: Json, s: SweepRequest, d: nat, e: nat)
    requires Plan(base, s).Ok?
    requires d < |s.x.values| && e < |YValues(s)|
    ensures d * |YValues(s)| + e < |Plan(base, s).value.plan|
    ensures Entry(base, s, s.x.values[d], YValues(s)[e]) == Ok(Plan(base, s).value.plan[d * |YValues(s)| + e])
  {
    RowsIndex(base, s, |s.x.values|, d, e);
  }

  /** A row is written exactly when each of its entries is. */
  lemma CellsOk(base: Json, s: SweepRequest, xv: Json)
    ensures Cells(base, s, xv).Ok? <==> forall e :: 0 <= e < |YValues(s)| ==> Entry(base, s, xv, YValues(s)[e]).Ok?
  {
    var rs := Entries(base, s, xv);
    AllOkSpec(rs);
    assert forall e :: 0 <= e < |YValues(s)| ==> rs[e] == Entry(base, s, xv, YValues(s)[e]);
  }

  lemma {:induction false} RowsOk(base: Json, s: SweepRequest, n: nat)
    requires n <= |s.x.values|
    ensures Rows(base, s, n).Ok? <==>
      forall d, e :: 0 <= d < n && 0 <= e < |YValues(s)| ==> Entry(base, s, s.x.values[d], YValues(s)[e]).Ok?
    decreases n
  {
    if n > 0 {
      var m := |YValues(s)|;
      var xv := s.x.values[n - 1];
      RowsOk(base, s, n - 1);
      CellsOk(base, s, xv);
      RowsStep(base, s, n);
      RowsOkStep(base, s, n);
    }
  }

  lemma RowsStep(base: Json, s: SweepRequest, n: nat)
    requires 0 < n <= |s.x.values|
    ensures Rows(base, s, n).Ok? <==> Rows(base, s, n - 1).Ok? && Cells(base, s, s.x.values[n - 1]).Ok?
  {
  }

  /** All entries of the first `n` rows are those of the first `n - 1` rows and those of row `n - 1`. */
  lemma RowsOkStep(base: Json, s: SweepRequest, n: nat)
    requires 0 < n <= |s.x.values|
    ensures (forall d, e :: 0 <= d < n && 0 <= e < |YValues(s)| ==> Entry(base, s, s.x.values[d], YValues(s)[e]).Ok?) <==>
      (forall d, e :: 0 <= d < n - 1 && 0 <= e < |YValues(s)| ==> Entry(base, s, s.x.values[d], YValues(s)[e]).Ok?) &&
      (forall e :: 0 <= e < |YValues(s)| ==> Entry(base, s, s.x.values[n - 1], YValues(s)[e]).Ok?)
  {
  }

  /** The route answers with a plan exactly when every single entry can be written. */
  lemma PlanOk(base: Json, s: SweepRequest)
    ensures Plan(base, s).Ok? <==>
      forall d, e :: 0 <= d < |s.x.values| && 0 <= e < |YValues(s)| ==> Entry(base, s, s.x.values[d], YValues(s)[e]).Ok?
  {
    RowsOk(base, s, |s.x.values|);
  }

  // ---------------------------------------------------------------------------
  // Properties of one entry
  // ---------------------------------------------------------------------------

  /**
   * The deltas of an entry: the x path with its value, and the y path with
   * its value only when the y value is not null (a y path equal to the x
   * path overwrites it); no other path appears.
   */
  lemma EntryDeltas(base: Json, s: SweepRequest, xv: Json, yv: Json)
    requires yv != Null ==> s.y.Some?
    requires Entry(base, s, xv, yv).Ok?
    ensures yv == Null ==> Entry(base, s, xv, yv).value.deltas == [Field(s.x.path, xv)]
    ensures yv != Null ==> Get(Entry(base, s, xv, yv).value.deltas, s.y.value.path) == Some(yv)
    ensures yv != Null && s.y.value.path != s.x.path ==> Get(Entry(base, s, xv, yv).value.deltas, s.x.path) == Some(xv)
    ensures forall k :: k != s.x.path && (yv == Null || k != s.y.value.path) ==> Get(Entry(base, s, xv, yv).value.deltas, k) == None
  {
    if yv != Null {
      var ypath := s.y.value.path;
      forall k | k != s.x.path && k != ypath
        ensures Get(Entry(base, s, xv, yv).value.deltas, k) == None
      {
        PutOther([Field(s.x.path, xv)], ypath, yv, k);
      }
      if ypath != s.x.path {
        PutOther([Field(s.x.path, xv)], ypath, yv, s.x.path);
      }
    }
  }

  /**
   * The document of an entry holds the y value at the y path when one was
   * applied, and the x value at the x path unless the y write overwrote or
   * replaced it.
   */
  lemma EntryReads(base: Json, s: SweepRequest, xv: Json, yv: Json)
    requires yv != Null ==> s.y.Some?
    requires Entry(base, s, xv, yv).Ok?
    ensures yv != Null ==> Read(Entry(base, s, xv, yv).value.json, PathKeys(s.y.value.path)) == Some(yv)
    ensures yv == Null ==> Read(Entry(base, s, xv, yv).value.json, PathKeys(s.x.path)) == Some(xv)
    ensures yv != Null ==> Parts(PathKeys(s.x.path), PathKeys(s.y.value.path)) ==>
      Read(Entry(base, s, xv, yv).value.json, PathKeys(s.x.path)) == Some(xv)
  {
    var xk := PathKeys(s.x.path);
    var j := SetAtPath(base, s.x.path, xv).value;
    SetPathReads(base, xk, xv, AbsentOrNull);
    if yv != Null {
      var yk := PathKeys(s.y.value.path);
      SetPathReads(j, yk, yv, AbsentOrNull);
      if Parts(xk, yk) {
        var i :| 0 <= i < |xk| && i < |yk| && xk[i] != yk[i];
        SetPathFrame(j, yk, yv, AbsentOrNull, xk, i);
      }
    }
  }

  /** Only the swept paths change: a path that parts from the x path and from an applied y path reads as in the base. */
  lemma EntryFrame(base: Json, s: SweepRequest, xv: Json, yv: Json, p: seq<string>)
    requires yv != Null ==> s.y.Some?
    requires Entry(base, s, xv, yv).Ok?
    requires Parts(p, PathKeys(s.x.path))
    requires yv != Null ==> Parts(p, PathKeys(s.y.value.path))
    ensures Read(Entry(base, s, xv, yv).value.json, p) == Read(base, p)
  {
    var xk := PathKeys(s.x.path);
    var j := SetAtPath(base, s.x.path, xv).value;
    var i :| 0 <= i < |p| && i < |xk| && p[i] != xk[i];
    SetPathFrame(base, xk, xv, AbsentOrNull, p, i);
    if yv != Null {
      var yk := PathKeys(s.y.value.path);
      var i' :| 0 <= i' < |p| && i' < |yk| && p[i'] != yk[i'];
      SetPathFrame(j, yk, yv, AbsentOrNull, p, i');
    }
  }
}
