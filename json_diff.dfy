/**
 * The comparison page's recursive JSON diff (packages/web/app/compare/page.tsx):
 * `findDiffs` walks two parsed documents side by side and appends one line
 * per differing leaf to a shared list. Both documents come from separate
 * `JSON.parse` calls, so two objects or arrays are never `===`; `typeof null`
 * is `'object'`.
 */
module JsonDiff {
  import opened Wrappers
  import opened JsonValues

  /** One difference: the dotted path and the two values (`None` for `undefined`). */
  datatype Diff = Diff(path: string, before: Option<Json>, after: Option<Json>)

  /** `a === b` between values of two separate parses. */
  predicate StrictEq(a: Option<Json>, b: Option<Json>)
  {
    match (a, b)
    case (None, None) => true
    case (Some(x), Some(y)) => !x.Arr? && !x.Obj? && !y.Arr? && !y.Obj? && x == y
    case _ => false
  }

  /** `typeof v === 'object'`. */
  predicate TypeofObject(v: Option<Json>)
  {
    v.Some? && IsObject(v.value)
  }

  /** `new Set([...a, ...b])` read back in insertion order: first occurrences only. */
  function Dedup(s: seq<string>): (r: seq<string>)
    ensures forall x :: x in r <==> x in s
    ensures forall i, j :: 0 <= i < j < |r| ==> r[i] != r[j]
    decreases |s|
  {
    if |s| == 0 then []
    else
      var d := Dedup(s[..|s| - 1]);
      assert forall x :: x in s <==> x in s[..|s| - 1] || x == s[|s| - 1];
      if s[|s| - 1] in d then d else d + [s[|s| - 1]]
  }

  /** Deduplicating a longer list only appends: the first list's keys come first. */
  lemma {:induction false} DedupPrefix(a: seq<string>, b: seq<string>)
    ensures |Dedup(a)| <= |Dedup(a + b)| && Dedup(a + b)[..|Dedup(a)|] == Dedup(a)
    decreases |b|
  {
    if |b| == 0 {
      assert a + b == a;
    } else {
      var b' := b[..|b| - 1];
      DedupPrefix(a, b');
      assert (a + b)[..|a + b| - 1] == a + b';
    }
  }

  /** The keys visited: `obj1`'s own keys, then `obj2`'s that are new. */
  function UnionKeys(o1: Json, o2: Json): seq<string>
  {
    Dedup(OwnKeys(o1) + OwnKeys(o2))
  }

  /** The union holds each key of either object once, and those of `obj1` first. */
  lemma UnionKeysSpec(o1: Json, o2: Json)
    ensures var u := UnionKeys(o1, o2);
      (forall k :: k in u <==> k in OwnKeys(o1) || k in OwnKeys(o2)) &&
      (forall i, j :: 0 <= i < j < |u| ==> u[i] != u[j]) &&
      |Dedup(OwnKeys(o1))| <= |u| && u[..|Dedup(OwnKeys(o1))|] == Dedup(OwnKeys(o1))
  {
    DedupPrefix(OwnKeys(o1), OwnKeys(o2));
  }

  /** `path ? `${path}.${key}` : key`. */
  function ChildPath(path: string, key: string): (p: string)
    ensures path == "" ==> p == key
    ensures path != "" ==> |p| == |path| + 1 + |key| && p[..|path|] == path && p[|path|] == '.' && p[|path| + 1..] == key
  {
    if path == "" then key else path + "." + key
  }

  /** `findDiffs(obj1, obj2, path)`: the lines it appends, in order. */
  function Diffs(o1: Json, o2: Json, path: string): seq<Diff>
    decreases Size(o1) + Size(o2), 2, 0
  {
    if !IsObject(o1) || !IsObject(o2) then
      (if StrictEq(Some(o1), Some(o2)) then [] else [Diff(path, Some(o1), Some(o2))])
    else KeysDiffs(o1, o2, path, UnionKeys(o1, o2))
  }

  /** The lines appended for the first `|keys|` visited keys. */
  function KeysDiffs(o1: Json, o2: Json, path: string, keys: seq<string>): seq<Diff>
    decreases Size(o1) + Size(o2), 1, |keys|
  {
    if |keys| == 0 then []
    else KeysDiffs(o1, o2, path, keys[..|keys| - 1]) + KeyDiff(o1, o2, path, keys[|keys| - 1])
  }

  /** One turn of `keys.forEach`: recurse when both children are objects, otherwise one line if they differ. */
  function KeyDiff(o1: Json, o2: Json, path: string, key: string): seq<Diff>
    decreases Size(o1) + Size(o2), 0, 0
  {
    var a := Member(Some(o1), key);
    var b := Member(Some(o2), key);
    if StrictEq(a, b) then []
    else if TypeofObject(a) && TypeofObject(b) then Diffs(a.value, b.value, ChildPath(path, key))
    else [Diff(ChildPath(path, key), a, b)]
  }

  /**
   * The diff of the parsed documents. `Object.keys(null)` at the top throws
   * before any diff; otherwise every line reports two values that differ,
   * and identical documents give no line.
   */
  function CompareDocuments(j1: Json, j2: Json): (r: Result<seq<Diff>, string>)
    ensures r.Err? <==> j1.Null? || j2.Null?
    ensures r.Ok? ==> AllDiffer(r.value) && (j1 == j2 ==> r.value == [])
  {
    if j1.Null? || j2.Null? then Err("TypeError")
    else
      DiffsDiffer(j1, j2, "");
      if j1 == j2 then DiffsOfCopy(j1, ""); Ok(Diffs(j1, j2, "")) else Ok(Diffs(j1, j2, ""))
  }

  /** `${path}: ${JSON.stringify(a)} → ${JSON.stringify(b)}`, `JSON.stringify(undefined)` printing as `undefined`. */
  function Line(d: Diff, stringify: Json -> string): string
  {
    var show := (v: Option<Json>) => if v.Some? then stringify(v.value) else "undefined";
    d.path + ": " + show(d.before) + " → " + show(d.after)
  }

  /** `findDiffs` as written: a recursive procedure appending to the shared list. */
  method FindDiffs(o1: Json, o2: Json, path: string, differences: seq<Diff>) returns (out: seq<Diff>)
    ensures out == differences + Diffs(o1, o2, path)
    decreases Size(o1) + Size(o2), 2
  {
    if !IsObject(o1) || !IsObject(o2) {
      if !StrictEq(Some(o1), Some(o2)) {
        return differences + [Diff(path, Some(o1), Some(o2))];
      }
      return differences;
    }
    var lines := VisitKeys(o1, o2, path, UnionKeys(o1, o2));
    out := differences + lines;
  }

  /** `keys.forEach(...)` over the visited keys, in order: the lines it appends. */
  method VisitKeys(o1: Json, o2: Json, path: string, keys: seq<string>) returns (out: seq<Diff>)
    ensures out == KeysDiffs(o1, o2, path, keys)
    decreases Size(o1) + Size(o2), 1
  {
    out := [];
    var i := 0;
    while i < |keys|
      invariant 0 <= i <= |keys|
      invariant out == KeysDiffs(o1, o2, path, keys[..i])
    {
      KeysDiffsSnoc(o1, o2, path, keys, i);
      var lines := VisitKey(o1, o2, path, keys[i]);
      out := out + lines;
      i := i + 1;
    }
    assert keys[..i] == keys;
  }

  /** The `keys.forEach` callback: the lines it appends for one key. */
  method VisitKey(o1: Json, o2: Json, path: string, key: string) returns (out: seq<Diff>)
    ensures out == KeyDiff(o1, o2, path, key)
    decreases Size(o1) + Size(o2), 0
  {
    var newPath := ChildPath(path, key);
    var a := Member(Some(o1), key);
    var b := Member(Some(o2), key);
    out := [];
    if !StrictEq(a, b) {
      if TypeofObject(a) && TypeofObject(b) {
        out := FindDiffs(a.value, b.value, newPath, []);
        assert [] + Diffs(a.value, b.value, newPath) == Diffs(a.value, b.value, newPath);
      } else {
        out := [Diff(newPath, a, b)];
      }
    }
  }

  lemma KeysDiffsSnoc(o1: Json, o2: Json, path: string, keys: seq<string>, i: nat)
    requires i < |keys|
    ensures KeysDiffs(o1, o2, path, keys[..i + 1]) == KeysDiffs(o1, o2, path, keys[..i]) + KeyDiff(o1, o2, path, keys[i])
  {
    assert keys[..i + 1][..i] == keys[..i];
  }

  /** Two non-object values at the top give one line when they differ and none when they are equal. */
  lemma TopLevelPrimitives(j1: Json, j2: Json)
    requires !IsObject(j1) || !IsObject(j2)
    ensures |Diffs(j1, j2, "")| == if StrictEq(Some(j1), Some(j2)) then 0 else 1
  {
  }

  /** Every line reports two values that are not `===`. */
  predicate AllDiffer(ds: seq<Diff>)
  {
    forall i :: 0 <= i < |ds| ==> !StrictEq(ds[i].before, ds[i].after)
  }

  lemma {:induction false} DiffsDiffer(o1: Json, o2: Json, path: string)
    ensures AllDiffer(Diffs(o1, o2, path))
    decreases Size(o1) + Size(o2), 2, 0
  {
    if IsObject(o1) && IsObject(o2) {
      KeysDiffsDiffer(o1, o2, path, UnionKeys(o1, o2));
    }
  }

  lemma {:induction false} KeysDiffsDiffer(o1: Json, o2: Json, path: string, keys: seq<string>)
    ensures AllDiffer(KeysDiffs(o1, o2, path, keys))
    decreases Size(o1) + Size(o2), 1, |keys|
  {
    if |keys| > 0 {
      var key := keys[|keys| - 1];
      var pre := KeysDiffs(o1, o2, path, keys[..|keys| - 1]);
      var last := KeyDiff(o1, o2, path, key);
      KeysDiffsDiffer(o1, o2, path, keys[..|keys| - 1]);
      var a := Member(Some(o1), key);
      var b := Member(Some(o2), key);
      if !StrictEq(a, b) && TypeofObject(a) && TypeofObject(b) {
        DiffsDiffer(a.value, b.value, ChildPath(path, key));
      }
      assert AllDiffer(last);
      assert KeysDiffs(o1, o2, path, keys) == pre + last;
      forall i | 0 <= i < |pre + last|
        ensures !StrictEq((pre + last)[i].before, (pre + last)[i].after)
      {
        if i >= |pre| {
          assert (pre + last)[i] == last[i - |pre|];
        }
      }
    }
  }

  /**
   * A document compared with an identical copy of itself has no
   * differences: nested objects are never `===`, but the walk descends into
   * them and every leaf is equal.
   */
  lemma {:induction false} DiffsOfCopy(o: Json, path: string)
    ensures Diffs(o, o, path) == []
    decreases Size(o) + Size(o), 2, 0
  {
    if IsObject(o) {
      KeysDiffsOfCopy(o, path, UnionKeys(o, o));
    }
  }

  lemma {:induction false} KeysDiffsOfCopy(o: Json, path: string, keys: seq<string>)
    ensures KeysDiffs(o, o, path, keys) == []
    decreases Size(o) + Size(o), 1, |keys|
  {
    if |keys| > 0 {
      var key := keys[|keys| - 1];
      KeysDiffsOfCopy(o, path, keys[..|keys| - 1]);
      var a := Member(Some(o), key);
      if !StrictEq(a, a) {
        DiffsOfCopy(a.value, ChildPath(path, key));
      }
    }
  }
}
