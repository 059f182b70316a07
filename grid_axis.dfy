/**
 * The grid-view axis picker (packages/web/app/components/GridAxisSelector.tsx):
 * which parameters can be put on the X and Y axes, which option of each
 * select is disabled, and which parameters are held fixed at which value.
 * What the component renders is modelled as a value, `Hidden` when it
 * renders nothing.
 */
module GridAxis {
  import opened Wrappers
  import opened Sequences
  import opened AdvancedSweep

  /** An `<option>` of an axis select. */
  datatype AxisOption = AxisOption(id: string, text: string, disabled: bool)

  /** A fixed parameter's slider: its current value and that value's position in the values list (-1 when absent). */
  datatype FixedSlider = FixedSlider(id: string, text: string, value: real, index: int)

  datatype AxisView =
    | Hidden
    | Shown(xOptions: seq<AxisOption>, yOptions: seq<AxisOption>, fixed: seq<FixedSlider>)

  /** `parameters.filter(p => p.values.length > 0)`. */
  function Available(params: seq<SweepParameter>): seq<SweepParameter>
  {
    Filter(params, (p: SweepParameter) => |p.values| > 0)
  }

  /** `availableParams.filter(p => p.id !== selectedX && p.id !== selectedY)`. */
  function Others(available: seq<SweepParameter>, x: string, y: string): seq<SweepParameter>
  {
    Filter(available, (p: SweepParameter) => p.id != x && p.id != y)
  }

  /** `param.label || param.path`. */
  function Caption(p: SweepParameter): string
  {
    if p.labelText.Some? && p.labelText.value != "" then p.labelText.value else p.path
  }

  /** The options of one axis select; an option is disabled when it is the other axis's choice. */
  function Options(available: seq<SweepParameter>, other: string): (r: seq<AxisOption>)
    ensures |r| == |available|
    ensures forall i :: 0 <= i < |r| ==> r[i].id == available[i].id && r[i].text == Caption(available[i])
    ensures forall i :: 0 <= i < |r| ==> (r[i].disabled <==> available[i].id == other)
  {
    seq(|available|, i requires 0 <= i < |available| =>
      AxisOption(available[i].id, Caption(available[i]), available[i].id == other))
  }

  /** `values.indexOf(v)`: the first position holding `v`, or -1. */
  function IndexOf(values: seq<real>, v: real): (r: int)
    ensures -1 <= r < |values|
    ensures r >= 0 ==> values[r] == v && forall j :: 0 <= j < r ==> values[j] != v
    ensures r == -1 ==> v !in values
    decreases |values|
  {
    if |values| == 0 then -1
    else if values[0] == v then 0
    else
      var k := IndexOf(values[1..], v);
      if k == -1 then -1 else k + 1
  }

  /** `fixedParams[param.id] ?? param.values[0]`. */
  function CurrentValue(fixedParams: map<string, real>, p: SweepParameter): real
    requires |p.values| > 0
  {
    if p.id in fixedParams then fixedParams[p.id] else p.values[0]
  }

  /** The sliders for the fixed parameters, in order. */
  function Sliders(others: seq<SweepParameter>, fixedParams: map<string, real>): (r: seq<FixedSlider>)
    requires forall i :: 0 <= i < |others| ==> |others[i].values| > 0
    ensures |r| == |others|
    ensures forall i :: 0 <= i < |r| ==> r[i].id == others[i].id && r[i].value == CurrentValue(fixedParams, others[i])
  {
    seq(|others|, i requires 0 <= i < |others| =>
      var v := CurrentValue(fixedParams, others[i]);
      FixedSlider(others[i].id, Caption(others[i]), v, IndexOf(others[i].values, v)))
  }

  /** What `GridAxisSelector` renders. */
  function Render(params: seq<SweepParameter>, x: string, y: string, fixedParams: map<string, real>): AxisView
  {
    var available := Available(params);
    var others := Others(available, x, y);
    if |available| < 2 then Hidden
    else
      FilterKeepsOrder(params, (p: SweepParameter) => |p.values| > 0);
      FilterKeepsOrder(available, (p: SweepParameter) => p.id != x && p.id != y);
      SubsequenceKeeps(others, available, (p: SweepParameter) => |p.values| > 0);
      Shown(Options(available, y), Options(available, x), Sliders(others, fixedParams))
  }

  /** Every element of a subsequence is an element of the sequence, so it keeps any property they all have. */
  lemma {:induction false} SubsequenceKeeps(sub: seq<SweepParameter>, s: seq<SweepParameter>, p: SweepParameter -> bool)
    requires IsSubsequence(sub, s) && forall i :: 0 <= i < |s| ==> p(s[i])
    ensures forall i :: 0 <= i < |sub| ==> p(sub[i])
    decreases |s|
  {
    if |sub| > 0 && |s| > 0 {
      if sub[0] == s[0] {
        SubsequenceKeeps(sub[1..], s[1..], p);
        assert forall i :: 1 <= i < |sub| ==> sub[i] == sub[1..][i - 1];
      } else {
        SubsequenceKeeps(sub, s[1..], p);
      }
    }
  }

  /** The axis candidates are exactly the parameters with at least one value, in their order. */
  lemma AvailableSpec(params: seq<SweepParameter>)
    ensures IsSubsequence(Available(params), params)
    ensures forall p :: p in Available(params) <==> p in params && |p.values| > 0
  {
    FilterKeepsOrder(params, (p: SweepParameter) => |p.values| > 0);
    forall p | p in Available(params) ensures p in params {
      SubsequenceMember(Available(params), params, p);
    }
  }

  lemma {:induction false} SubsequenceMember(sub: seq<SweepParameter>, s: seq<SweepParameter>, x: SweepParameter)
    requires IsSubsequence(sub, s) && x in sub
    ensures x in s
    decreases |s|
  {
    if sub[0] == s[0] {
      if x != sub[0] {
        assert x in sub[1..];
        SubsequenceMember(sub[1..], s[1..], x);
      }
    } else {
      SubsequenceMember(sub, s[1..], x);
    }
  }

  /**
   * The component renders nothing with fewer than two axis candidates;
   * otherwise each select lists every candidate, the X option of the chosen Y
   * is disabled and vice versa, and the sliders are the candidates other
   * than the two chosen axes, each at its fixed value or else its first value.
   */
  lemma RenderSpec(params: seq<SweepParameter>, x: string, y: string, fixedParams: map<string, real>)
    ensures Render(params, x, y, fixedParams).Hidden? <==> |Available(params)| < 2
    ensures var v := Render(params, x, y, fixedParams); var a := Available(params);
      v.Shown? ==> (
        |v.xOptions| == |a| && |v.yOptions| == |a| &&
        (forall i :: 0 <= i < |a| ==> v.xOptions[i].id == a[i].id && v.yOptions[i].id == a[i].id) &&
        (forall i :: 0 <= i < |a| ==> (v.xOptions[i].disabled <==> a[i].id == y) && (v.yOptions[i].disabled <==> a[i].id == x)) &&
        (forall i :: 0 <= i < |v.fixed| ==> v.fixed[i].id != x && v.fixed[i].id != y) &&
        (forall i :: 0 <= i < |a| && a[i].id != x && a[i].id != y ==> exists j :: 0 <= j < |v.fixed| && v.fixed[j].id == a[i].id))
    ensures var v := Render(params, x, y, fixedParams);
      v.Shown? ==> forall i :: 0 <= i < |v.fixed| ==>
        (v.fixed[i].id in fixedParams ==> v.fixed[i].value == fixedParams[v.fixed[i].id]) &&
        (v.fixed[i].id !in fixedParams ==> v.fixed[i].index == 0)
  {
    var a := Available(params);
    var others := Others(a, x, y);
    var keep := (p: SweepParameter) => p.id != x && p.id != y;
    FilterKeepsOrder(a, keep);
    FilterKeepsOrder(params, (p: SweepParameter) => |p.values| > 0);
    SubsequenceKeeps(others, a, (p: SweepParameter) => |p.values| > 0);
    var v := Render(params, x, y, fixedParams);
    if v.Shown? {
      forall i | 0 <= i < |a| && a[i].id != x && a[i].id != y
        ensures exists j :: 0 <= j < |v.fixed| && v.fixed[j].id == a[i].id
      {
        assert keep(a[i]);
        var j :| 0 <= j < |others| && others[j] == a[i];
        assert v.fixed[j].id == a[i].id;
      }
    }
  }
}
