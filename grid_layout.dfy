/**
 * The CSS classes of the results grid (packages/web/app/components/GridLayoutControls.tsx):
 * `getGridClasses` for a column count and a size, and `getImageSizeClass`.
 * The column count is an integer here.
 */
module GridLayout {
  import Text

  datatype Size = Small | Medium | Large

  /** The column class: a lookup for 2..8, `md:grid-cols-4` for any other count. */
  function ColumnClass(columns: int): string
  {
    if columns == 2 then "grid-cols-2"
    else if columns == 3 then "md:grid-cols-3"
    else if columns == 4 then "md:grid-cols-4"
    else if columns == 5 then "md:grid-cols-5"
    else if columns == 6 then "md:grid-cols-6"
    else if columns == 7 then "md:grid-cols-7"
    else if columns == 8 then "md:grid-cols-8"
    else "md:grid-cols-4"
  }

  /** The gap class of a size. */
  function GapClass(size: Size): string
  {
    match size
    case Small => "gap-2"
    case Medium => "gap-4"
    case Large => "gap-6"
  }

  /** `getGridClasses(columns, size)`. */
  function GridClasses(columns: int, size: Size): string
  {
    "grid grid-cols-1 " + ColumnClass(columns) + " " + GapClass(size)
  }

  /** `getImageSizeClass(size)`. */
  function ImageSizeClass(size: Size): string
  {
    match size
    case Small => "max-h-32"
    case Medium => "max-h-48"
    case Large => "max-h-64"
  }

  /** The position of a size in small < medium < large. */
  function Rank(size: Size): nat
  {
    match size
    case Small => 0
    case Medium => 1
    case Large => 2
  }

  /**
   * Two columns are `grid-cols-2` at every width; 3 to 8 columns apply from
   * the `md` breakpoint; any other count (0, 1, 9 or more, negative) falls
   * back to four columns from `md` on.
   */
  lemma {:induction false} ColumnClassSpec(columns: int)
    ensures columns == 2 ==> ColumnClass(columns) == "grid-cols-2"
    ensures 3 <= columns <= 8 ==> ColumnClass(columns) == "md:grid-cols-" + Text.NatToString(columns)
    ensures (columns < 2 || columns > 8) ==> ColumnClass(columns) == ColumnClass(4)
  {
    if 3 <= columns <= 8 {
      assert Text.NatToString(columns) == [Text.DigitChar(columns)];
      assert Text.DigitChar(columns) == "0123456789"[columns];
    }
  }

  /** The gap and the image height both grow with the size: `gap-(2, 4, 6)` and `max-h-(32, 48, 64)`. */
  lemma {:induction false} SizeScale(size: Size)
    ensures GapClass(size) == "gap-" + Text.NatToString(2 * (Rank(size) + 1))
    ensures ImageSizeClass(size) == "max-h-" + Text.NatToString(16 * (Rank(size) + 2))
  {
    assert Text.NatToString(2) == "2";
    assert Text.NatToString(4) == "4";
    assert Text.NatToString(6) == "6";
    assert Text.NatToString(3) == "3";
    assert Text.NatToString(32) == Text.NatToString(3) + "2";
    assert Text.NatToString(48) == Text.NatToString(4) + "8";
    assert Text.NatToString(64) == Text.NatToString(6) + "4";
  }

  /** No class name holds a space. */
  lemma ClassesHaveNoSpace(columns: int, size: Size)
    ensures ' ' !in ColumnClass(columns) && ' ' !in GapClass(size)
  {
  }

  /** The grid classes are four space-separated tokens: `grid`, `grid-cols-1`, the column class and the gap class. */
  lemma {:induction false} GridClassesTokens(columns: int, size: Size)
    ensures Text.Split(GridClasses(columns, size), ' ') == ["grid", "grid-cols-1", ColumnClass(columns), GapClass(size)]
  {
    var c := ColumnClass(columns);
    var g := GapClass(size);
    var parts := ["grid", "grid-cols-1", c, g];
    JoinFour("grid", "grid-cols-1", c, g);
    assert "grid" + " " + "grid-cols-1" + " " == "grid grid-cols-1 ";
    assert GridClasses(columns, size) == Text.Join(parts, ' ');
    ClassesHaveNoSpace(columns, size);
    assert ' ' !in "grid" && ' ' !in "grid-cols-1";
    assert forall i :: 0 <= i < |parts| ==> ' ' !in parts[i];
    Text.SplitJoin(parts, ' ');
  }

  lemma JoinFour(a: string, b: string, c: string, d: string)
    ensures Text.Join([a, b, c, d], ' ') == a + " " + b + " " + c + " " + d
  {
    assert Text.Join([d], ' ') == d;
    assert [c, d][1..] == [d];
    assert Text.Join([c, d], ' ') == c + [' '] + d;
    assert [b, c, d][1..] == [c, d];
    assert Text.Join([b, c, d], ' ') == b + [' '] + (c + [' '] + d);
    assert [a, b, c, d][1..] == [b, c, d];
    assert Text.Join([a, b, c, d], ' ') == a + [' '] + (b + [' '] + (c + [' '] + d));
  }
}
