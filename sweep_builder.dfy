/**
 * The sweep-parameter editor (packages/web/app/components/AdvancedSweepBuilder.tsx):
 * the list of parameters the user edits, the handlers that replace it (and
 * report each new list to the parent through `onParametersChange`), the
 * parsing of a comma-separated values field, and the combination count the
 * editor shows. The clock used for new ids and `Number(...)` are arguments.
 */
module SweepBuilder {
  import opened Wrappers
  import opened Sequences
  import opened AdvancedSweep
  import Text

  // ------------------------------------------------------- getTotalCombinations

  /** `param.values.length || 1`: an empty values list counts as one. */
  function CountOrOne(p: SweepParameter): nat
  {
    if |p.values| == 0 then 1 else |p.values|
  }

  /** `parameters.reduce((total, param) => total * (param.values.length || 1), 1)`. */
  function Reduced(params: seq<SweepParameter>): (r: nat)
    ensures r >= 1
    decreases |params|
  {
    if |params| == 0 then 1
    else
      var prev := Reduced(params[..|params| - 1]);
      MulPositive(prev, CountOrOne(params[|params| - 1]));
      prev * CountOrOne(params[|params| - 1])
  }

  lemma MulPositive(a: nat, b: nat)
    requires a >= 1 && b >= 1
    ensures a * b >= 1
  {
  }

  /** `getTotalCombinations()`: 0 with no parameters, otherwise the product of the counts. */
  function TotalCombinations(params: seq<SweepParameter>): (r: nat)
    ensures r == 0 <==> |params| == 0
  {
    if |params| == 0 then 0 else Reduced(params)
  }

  /** The product over a list is the product over all but its last element, times the last one. */
  lemma {:induction false} ProductSnoc(params: seq<SweepParameter>, i: nat)
    requires i < |params|
    ensures Product(params, i) == Product(params[..|params| - 1], i) * |params[|params| - 1].values|
    decreases |params| - i
  {
    var init := params[..|params| - 1];
    if i < |params| - 1 {
      ProductSnoc(params, i + 1);
      assert init[i] == params[i];
    }
  }

  /** With every values list non-empty, the editor's count is the generator's number of combinations. */
  lemma {:induction false} ReducedIsProduct(params: seq<SweepParameter>)
    requires forall j :: 0 <= j < |params| ==> |params[j].values| > 0
    ensures Reduced(params) == Product(params, 0)
    decreases |params|
  {
    if |params| > 0 {
      var init := params[..|params| - 1];
      ReducedIsProduct(init);
      ProductSnoc(params, 0);
    }
  }

  /**
   * The count the editor shows and the number of variants the generator
   * produces disagree exactly when there are no parameters (0 shown, one
   * variant: the base) or some parameter has no values (at least 1 shown,
   * no variant).
   */
  lemma TotalVersusGenerated(params: seq<SweepParameter>)
    ensures |params| == 0 ==> TotalCombinations(params) == 0 && Product(params, 0) == 1
    ensures (exists j :: 0 <= j < |params| && |params[j].values| == 0) ==>
      TotalCombinations(params) >= 1 && Product(params, 0) == 0
    ensures |params| > 0 && (forall j :: 0 <= j < |params| ==> |params[j].values| > 0) ==>
      TotalCombinations(params) == Product(params, 0)
  {
    ProductZero(params, 0);
    if |params| > 0 && forall j :: 0 <= j < |params| ==> |params[j].values| > 0 {
      ReducedIsProduct(params);
    }
  }

  // ------------------------------------------------------------------ list ops

  /** `'Parameter ' + (n + 1)`. */
  function DefaultLabel(n: nat): string
  {
    "Parameter " + Text.NatToString(n + 1)
  }

  /** The field `updateParameter` writes and its new value. */
  datatype FieldUpdate = SetId(id: string) | SetPath(path: string) | SetValues(values: seq<real>) | SetLabel(labelText: Option<string>)

  /** `{ ...p, [field]: value }`. */
  function WithField(p: SweepParameter, u: FieldUpdate): (q: SweepParameter)
    ensures !u.SetId? ==> q.id == p.id
    ensures !u.SetPath? ==> q.path == p.path
    ensures !u.SetValues? ==> q.values == p.values
    ensures !u.SetLabel? ==> q.labelText == p.labelText
  {
    match u
    case SetId(id) => p.(id := id)
    case SetPath(path) => p.(path := path)
    case SetValues(values) => p.(values := values)
    case SetLabel(labelText) => p.(labelText := labelText)
  }

  /** `parameters.map(p => p.id === id ? { ...p, [field]: value } : p)`. */
  function UpdatedAll(params: seq<SweepParameter>, id: string, u: FieldUpdate): (r: seq<SweepParameter>)
    ensures |r| == |params|
    ensures forall i :: 0 <= i < |params| ==> r[i] == if params[i].id == id then WithField(params[i], u) else params[i]
  {
    seq(|params|, i requires 0 <= i < |params| => if params[i].id == id then WithField(params[i], u) else params[i])
  }

  /** `parameters.filter(p => p.id !== id)`. */
  function WithoutId(params: seq<SweepParameter>, id: string): seq<SweepParameter>
  {
    Filter(params, (p: SweepParameter) => p.id != id)
  }

  /** Removing keeps every other parameter, in order, and no parameter with that id. */
  lemma WithoutIdSpec(params: seq<SweepParameter>, id: string)
    ensures IsSubsequence(WithoutId(params, id), params)
    ensures forall i :: 0 <= i < |WithoutId(params, id)| ==> WithoutId(params, id)[i].id != id
    ensures forall i :: 0 <= i < |params| && params[i].id != id ==> params[i] in WithoutId(params, id)
    ensures forall p :: multiset(WithoutId(params, id))[p] == if p.id != id then multiset(params)[p] else 0
  {
    FilterSpec(params, (p: SweepParameter) => p.id != id);
  }

  // ------------------------------------------------------------ value parsing

  /** The numbers among trimmed pieces: blank pieces and those `Number` reads as `NaN` (`None`) are dropped. */
  function Numbers(pieces: seq<string>, toNumber: string -> Option<real>): (r: seq<real>)
    ensures |r| <= |pieces|
    ensures forall v :: v in r <==> exists i :: 0 <= i < |pieces| && pieces[i] != "" && toNumber(pieces[i]) == Some(v)
    decreases |pieces|
  {
    if |pieces| == 0 then []
    else
      var rest := Numbers(pieces[1..], toNumber);
      assert forall i :: 1 <= i < |pieces| ==> pieces[i] == pieces[1..][i - 1];
      assert forall i :: 0 <= i < |pieces| - 1 ==> pieces[1..][i] == pieces[i + 1];
      if pieces[0] != "" && toNumber(pieces[0]).Some? then [toNumber(pieces[0]).value] + rest else rest
  }

  /** A trimmed piece that survives both filters: not blank, and not read as `NaN`. */
  predicate Qualifies(piece: string, toNumber: string -> Option<real>)
  {
    piece != "" && toNumber(piece).Some?
  }

  /** The positions from `i` on whose pieces qualify, in increasing order. */
  function Qualifying(pieces: seq<string>, toNumber: string -> Option<real>, i: nat): (r: seq<nat>)
    requires i <= |pieces|
    ensures forall k :: 0 <= k < |r| ==> i <= r[k] < |pieces| && Qualifies(pieces[r[k]], toNumber)
    ensures forall k, l :: 0 <= k < l < |r| ==> r[k] < r[l]
    ensures forall j :: i <= j < |pieces| && Qualifies(pieces[j], toNumber) ==> j in r
    decreases |pieces| - i
  {
    if i == |pieces| then []
    else (if Qualifies(pieces[i], toNumber) then [i] else []) + Qualifying(pieces, toNumber, i + 1)
  }

  /**
   * The numbers keep the pieces' order and multiplicity: value `k` is the
   * number of the `k`-th qualifying piece, and there is one value per
   * qualifying piece.
   */
  lemma {:induction false} NumbersInOrder(pieces: seq<string>, toNumber: string -> Option<real>, i: nat)
    requires i <= |pieces|
    ensures |Numbers(pieces[i..], toNumber)| == |Qualifying(pieces, toNumber, i)|
    ensures forall k :: 0 <= k < |Qualifying(pieces, toNumber, i)| ==>
      Numbers(pieces[i..], toNumber)[k] == toNumber(pieces[Qualifying(pieces, toNumber, i)[k]]).value
    decreases |pieces| - i
  {
    if i < |pieces| {
      var t := pieces[i..];
      NumbersInOrder(pieces, toNumber, i + 1);
      assert t[1..] == pieces[i + 1..];
      var rest := Numbers(pieces[i + 1..], toNumber);
      var q := Qualifying(pieces, toNumber, i + 1);
      if Qualifies(pieces[i], toNumber) {
        assert Numbers(t, toNumber) == [toNumber(pieces[i]).value] + rest;
        assert Qualifying(pieces, toNumber, i) == [i] + q;
      } else {
        assert Numbers(t, toNumber) == rest;
        assert Qualifying(pieces, toNumber, i) == q;
      }
    }
  }

  /** The trimmed pieces of `s.split(',')`. */
  function TrimmedPieces(s: string): (r: seq<string>)
    ensures |r| == |Text.Split(s, ',')|
    ensures forall i :: 0 <= i < |r| ==> r[i] == Text.Trim(Text.Split(s, ',')[i])
  {
    var pieces := Text.Split(s, ',');
    seq(|pieces|, i requires 0 <= i < |pieces| => Text.Trim(pieces[i]))
  }

  /** The values `updateParameterValues` stores for the text of the values field. */
  function ParseValues(s: string, toNumber: string -> Option<real>): seq<real>
  {
    Numbers(TrimmedPieces(s), toNumber)
  }

  /**
   * A value is kept exactly when some comma-separated piece, once trimmed,
   * is non-blank and reads as that number; there are never more values than
   * pieces, and a field of blanks gives no values. The values come in the
   * pieces' order, one per qualifying piece.
   */
  lemma ParseValuesSpec(s: string, toNumber: string -> Option<real>)
    ensures |ParseValues(s, toNumber)| <= |Text.Split(s, ',')|
    ensures forall v :: v in ParseValues(s, toNumber) <==>
      exists i :: 0 <= i < |Text.Split(s, ',')| && Text.Trim(Text.Split(s, ',')[i]) != "" &&
        toNumber(Text.Trim(Text.Split(s, ',')[i])) == Some(v)
    ensures (forall i :: 0 <= i < |s| ==> Text.IsSpace(s[i])) ==> ParseValues(s, toNumber) == []
    ensures var q := Qualifying(TrimmedPieces(s), toNumber, 0);
      |ParseValues(s, toNumber)| == |q| &&
      forall k :: 0 <= k < |q| ==> ParseValues(s, toNumber)[k] == toNumber(Text.Trim(Text.Split(s, ',')[q[k]])).value
  {
    NumbersInOrder(TrimmedPieces(s), toNumber, 0);
    assert TrimmedPieces(s)[0..] == TrimmedPieces(s);
    if forall i :: 0 <= i < |s| ==> Text.IsSpace(s[i]) {
      assert ',' !in s by {
        assert !Text.IsSpace(',');
      }
      Text.SplitWithoutSeparator(s, ',');
      NumbersOfBlanks(TrimmedPieces(s), toNumber);
    }
  }

  /** Blank pieces give no numbers. */
  lemma {:induction false} NumbersOfBlanks(pieces: seq<string>, toNumber: string -> Option<real>)
    requires forall i :: 0 <= i < |pieces| ==> pieces[i] == ""
    ensures Numbers(pieces, toNumber) == []
    decreases |pieces|
  {
    if |pieces| > 0 {
      NumbersOfBlanks(pieces[1..], toNumber);
    }
  }

  // --------------------------------------------------------------- the editor

  /**
   * The editor's state: the parameter list, and every list it has passed to
   * `onParametersChange`, oldest first.
   */
  class Editor {
    var parameters: seq<SweepParameter>
    var reported: seq<seq<SweepParameter>>

    constructor(initialParameters: seq<SweepParameter>)
      ensures parameters == initialParameters && reported == []
    {
      parameters := initialParameters;
      reported := [];
    }

    /** `addParameter()` at time `now`: one new parameter with no path and no values, labelled by its position. */
    method AddParameter(now: int)
      modifies this
      ensures parameters == old(parameters) + [SweepParameter("param_" + Text.IntToString(now), "", [], Some(DefaultLabel(|old(parameters)|)))]
      ensures reported == old(reported) + [parameters]
    {
      var newParam := SweepParameter("param_" + Text.IntToString(now), "", [], Some(DefaultLabel(|parameters|)));
      parameters := parameters + [newParam];
      reported := reported + [parameters];
    }

    /** `removeParameter(id)`. */
    method RemoveParameter(id: string)
      modifies this
      ensures parameters == WithoutId(old(parameters), id)
      ensures reported == old(reported) + [parameters]
    {
      parameters := WithoutId(parameters, id);
      reported := reported + [parameters];
    }

    /** `updateParameter(id, field, value)`. */
    method UpdateParameter(id: string, u: FieldUpdate)
      modifies this
      ensures parameters == UpdatedAll(old(parameters), id, u)
      ensures reported == old(reported) + [parameters]
    {
      parameters := UpdatedAll(parameters, id, u);
      reported := reported + [parameters];
    }

    /** `updateParameterValues(id, valuesStr)`. */
    method UpdateParameterValues(id: string, valuesStr: string, toNumber: string -> Option<real>)
      modifies this
      ensures parameters == UpdatedAll(old(parameters), id, SetValues(ParseValues(valuesStr, toNumber)))
      ensures reported == old(reported) + [parameters]
    {
      UpdateParameter(id, SetValues(ParseValues(valuesStr, toNumber)));
    }

    /** `getTotalCombinations()`. */
    function Total(): nat
      reads this
    {
      TotalCombinations(parameters)
    }
  }

  /** Adding a parameter raises the count by the factor 1 of its empty values list. */
  lemma AddKeepsTotal(params: seq<SweepParameter>, p: SweepParameter)
    requires |params| > 0 && p.values == []
    ensures TotalCombinations(params + [p]) == TotalCombinations(params)
  {
    assert (params + [p])[..|params + [p]| - 1] == params;
  }
}
