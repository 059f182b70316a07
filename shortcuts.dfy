/**
 * Keyboard shortcuts (packages/web/hooks/useKeyboardShortcuts.ts): the
 * `keydown` handler that fires the first registered shortcut matching an
 * event, and `formatShortcut`, the label shown for a shortcut. A callback is
 * identified by the position of its shortcut; `navigator.platform` is an
 * argument.
 */
module KeyboardShortcuts {
  import opened Wrappers
  import Text

  /** A registered shortcut; a modifier left `undefined` is `None`. */
  datatype Shortcut = Shortcut(key: string, ctrlKey: Option<bool>, shiftKey: Option<bool>,
                               altKey: Option<bool>, metaKey: Option<bool>)

  datatype KeyEvent = KeyEvent(key: string, ctrlKey: bool, shiftKey: bool, altKey: bool, metaKey: bool)

  /** An undefined flag accepts either state; a defined one must equal the event's. */
  predicate FlagMatch(flag: Option<bool>, pressed: bool)
  {
    flag.None? || flag.value == pressed
  }

  /** The key, compared case-insensitively, and every defined modifier agree with the event. */
  predicate Matches(s: Shortcut, e: KeyEvent)
  {
    Text.ToLower(s.key) == Text.ToLower(e.key) &&
    FlagMatch(s.ctrlKey, e.ctrlKey) && FlagMatch(s.shiftKey, e.shiftKey) &&
    FlagMatch(s.altKey, e.altKey) && FlagMatch(s.metaKey, e.metaKey)
  }

  /** The position of the first shortcut that matches the event, if any. */
  function FirstMatch(shortcuts: seq<Shortcut>, e: KeyEvent): (r: Option<nat>)
    ensures r.Some? ==> r.value < |shortcuts| && Matches(shortcuts[r.value], e)
    ensures r.Some? ==> forall j :: 0 <= j < r.value ==> !Matches(shortcuts[j], e)
    ensures r.None? ==> forall j :: 0 <= j < |shortcuts| ==> !Matches(shortcuts[j], e)
    decreases |shortcuts|
  {
    if |shortcuts| == 0 then None
    else if Matches(shortcuts[0], e) then Some(0)
    else match FirstMatch(shortcuts[1..], e)
      case Some(k) => Some(k + 1)
      case None => None
  }

  /**
   * `handleKeyDown(event)`: the loop stops at the first match, fires that
   * shortcut's callback (and no other) and calls `preventDefault`; with no
   * match nothing fires and the default action stays.
   */
  method HandleKeyDown(shortcuts: seq<Shortcut>, e: KeyEvent) returns (fired: Option<nat>, prevented: bool)
    ensures fired == FirstMatch(shortcuts, e)
    ensures prevented <==> exists j :: 0 <= j < |shortcuts| && Matches(shortcuts[j], e)
  {
    fired := None;
    prevented := false;
    var i := 0;
    while i < |shortcuts|
      invariant 0 <= i <= |shortcuts|
      invariant forall j :: 0 <= j < i ==> !Matches(shortcuts[j], e)
    {
      if Matches(shortcuts[i], e) {
        prevented := true;
        fired := Some(i);
        break;
      }
      i := i + 1;
    }
    FirstMatchUnique(shortcuts, e, fired);
  }

  /** The first match is the only index that matches with no match before it. */
  lemma FirstMatchUnique(shortcuts: seq<Shortcut>, e: KeyEvent, r: Option<nat>)
    requires r.Some? ==> r.value < |shortcuts| && Matches(shortcuts[r.value], e)
    requires r.Some? ==> forall j :: 0 <= j < r.value ==> !Matches(shortcuts[j], e)
    requires r.None? ==> forall j :: 0 <= j < |shortcuts| ==> !Matches(shortcuts[j], e)
    ensures r == FirstMatch(shortcuts, e)
  {
  }

  /** Matching ignores the case of the event's key. */
  lemma MatchIgnoresCase(s: Shortcut, e: KeyEvent)
    ensures Matches(s, e) <==> Matches(s, e.(key := Text.ToUpper(e.key)))
    ensures Matches(s, e) <==> Matches(s, e.(key := Text.ToLower(e.key)))
  {
    var up := Text.ToUpper(e.key);
    assert forall i :: 0 <= i < |e.key| ==> Text.LowerChar(up[i]) == Text.LowerChar(e.key[i]);
    assert Text.ToLower(up) == Text.ToLower(e.key);
    var low := Text.ToLower(e.key);
    assert forall i :: 0 <= i < |e.key| ==> Text.LowerChar(low[i]) == Text.LowerChar(e.key[i]);
    assert Text.ToLower(low) == Text.ToLower(e.key);
  }

  /** A modifier the shortcut leaves undefined accepts the event with that modifier either up or down. */
  lemma UndefinedModifierAcceptsBoth(s: Shortcut, e: KeyEvent)
    requires s.ctrlKey.None? && s.shiftKey.None? && s.altKey.None? && s.metaKey.None?
    ensures Matches(s, e) <==> Text.ToLower(s.key) == Text.ToLower(e.key)
  {
  }

  // ------------------------------------------------------------ formatShortcut

  /** The modifier token: `⌘` when the platform string contains `Mac`, otherwise `Ctrl`. */
  function CommandToken(platform: string): string
  {
    if Text.Contains(platform, "Mac") then "⌘" else "Ctrl"
  }

  /** The key's label: `Space` for the space bar, otherwise the key upper-cased. */
  function KeyLabel(key: string): string
  {
    if key == " " then "Space" else Text.ToUpper(key)
  }

  /** The tokens `formatShortcut` pushes, in order. */
  function FormatParts(s: Shortcut, platform: string): seq<string>
  {
    (if s.ctrlKey == Some(true) || s.metaKey == Some(true) then [CommandToken(platform)] else []) +
    (if s.shiftKey == Some(true) then ["Shift"] else []) +
    (if s.altKey == Some(true) then ["Alt"] else []) +
    [KeyLabel(s.key)]
  }

  /** `formatShortcut(shortcut)`: push the tokens into `parts`, then join them with `+`. */
  method FormatShortcut(s: Shortcut, platform: string) returns (shown: string)
    ensures shown == Text.Join(FormatParts(s, platform), '+')
  {
    var parts: seq<string> := [];
    if s.ctrlKey == Some(true) || s.metaKey == Some(true) {
      parts := parts + [if Text.Contains(platform, "Mac") then "⌘" else "Ctrl"];
    }
    ghost var command := parts;
    if s.shiftKey == Some(true) {
      parts := parts + ["Shift"];
    }
    ghost var shift := parts[|command|..];
    assert parts == command + shift;
    if s.altKey == Some(true) {
      parts := parts + ["Alt"];
    }
    ghost var alt := parts[|command + shift|..];
    assert parts == command + shift + alt;
    parts := parts + [if s.key == " " then "Space" else Text.ToUpper(s.key)];
    assert parts == FormatParts(s, platform);
    shown := Text.Join(parts, '+');
  }

  /**
   * The label holds one command token when ctrl or meta is set, then
   * `Shift`, then `Alt`, then the key: for a key without `+`, splitting the
   * label on `+` gives back exactly those tokens.
   */
  lemma {:induction false} FormatShape(s: Shortcut, platform: string)
    requires '+' !in s.key
    ensures var parts := FormatParts(s, platform);
      Text.Split(Text.Join(parts, '+'), '+') == parts &&
      parts[|parts| - 1] == KeyLabel(s.key) &&
      |parts| == 1 + (if s.ctrlKey == Some(true) || s.metaKey == Some(true) then 1 else 0) +
                     (if s.shiftKey == Some(true) then 1 else 0) + (if s.altKey == Some(true) then 1 else 0) &&
      ((s.ctrlKey == Some(true) || s.metaKey == Some(true)) ==> parts[0] == CommandToken(platform))
  {
    var parts := FormatParts(s, platform);
    assert '+' !in KeyLabel(s.key) by {
      if s.key != " " {
        var u := Text.ToUpper(s.key);
        forall i | 0 <= i < |u| ensures u[i] != '+' {
          assert s.key[i] != '+';
        }
      }
    }
    assert forall i :: 0 <= i < |parts| ==> '+' !in parts[i];
    Text.SplitJoin(parts, '+');
  }
}
