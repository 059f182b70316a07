/**
 * Sweep history and the current session kept in the browser's localStorage
 * (packages/web/lib/history.ts). Storage holds text; `JSON.parse` and
 * `JSON.stringify` are oracles, and the write that can fail (the storage
 * quota) is a flag of the store. Session ids and the clock are arguments.
 */
module SweepHistory {
  import opened Wrappers
  import opened JsonValues
  import opened Sequences

  const HistoryKey: string := "fibo_sweep_history"
  const CurrentSessionKey: string := "fibo_current_session"
  const MaxHistoryItems: nat := 20

  /** `localStorage`: text under keys; `setItem` throws while the store is full. */
  class BrowserStorage {
    var items: map<string, string>
    var full: bool

    constructor(items0: map<string, string>, full0: bool)
      ensures items == items0 && full == full0
    {
      items := items0;
      full := full0;
    }

    method SetItem(key: string, value: string) returns (ok: bool)
      modifies this
      ensures ok == !old(full) && full == old(full)
      ensures items == if ok then old(items)[key := value] else old(items)
    {
      if full {
        return false;
      }
      items := items[key := value];
      ok := true;
    }

    method RemoveItem(key: string)
      modifies this
      ensures items == old(items) - {key} && full == old(full)
    {
      items := items - {key};
    }
  }

  /** `JSON.parse(localStorage.getItem(key))`, `None` when nothing is stored, the text is empty or it does not parse. */
  function Stored(items: map<string, string>, key: string, parse: string -> Option<Json>): Option<Json>
  {
    if key !in items || items[key] == "" then None else parse(items[key])
  }

  /** `getHistory()`: the parsed history, `[]` when there is none or it does not parse. */
  function GetHistory(items: map<string, string>, parse: string -> Option<Json>): (h: Json)
    ensures Stored(items, HistoryKey, parse).None? ==> h == Arr([])
  {
    Stored(items, HistoryKey, parse).GetOr(Arr([]))
  }

  datatype HistoryError = TypeError

  /** `[x, ...history]` needs an iterable: an array, or a string spread into its characters. */
  function Spread(history: Json): Result<seq<Json>, HistoryError>
  {
    match history
    case Arr(items) => Ok(items)
    case Str(s) => Ok(seq(|s|, i requires 0 <= i < |s| => Str([s[i]])))
    case _ => Err(TypeError)
  }

  /** The first `n` elements, or all of them when there are fewer (`slice(0, n)`). */
  function Take<T>(xs: seq<T>, n: nat): (r: seq<T>)
    ensures |r| <= n && |r| <= |xs| && r == xs[..|r|]
    ensures |xs| <= n ==> r == xs
  {
    if |xs| <= n then xs else xs[..n]
  }

  /** `[newSession, ...history].slice(0, MAX_HISTORY_ITEMS)`. */
  function Prepended(history: Json, s: Json): Result<seq<Json>, HistoryError>
  {
    match Spread(history)
    case Ok(items) => Ok(Take([s] + items, MaxHistoryItems))
    case Err(e) => Err(e)
  }

  /** `{ ...session, id, timestamp }`. */
  function NewSession(session: seq<Field>, id: string, now: int): (s: Json)
    ensures s.Obj? && Get(s.fields, "id") == Some(Str(id)) && Get(s.fields, "timestamp") == Some(Num(now as real))
  {
    PutOther(Put(session, "id", Str(id)), "timestamp", Num(now as real), "id");
    Obj(Put(Put(session, "id", Str(id)), "timestamp", Num(now as real)))
  }

  /**
   * The new history starts with the new session, keeps the old entries in
   * their order after it, and holds at most 20 entries: the oldest ones are
   * the ones dropped.
   */
  lemma PrependedShape(history: Json, s: Json)
    requires history.Arr?
    ensures var h := Prepended(history, s).value;
      var old_ := history.items;
      1 <= |h| <= MaxHistoryItems && h[0] == s && h[1..] == old_[..|h| - 1] &&
      |h| == if |old_| < MaxHistoryItems then |old_| + 1 else MaxHistoryItems
  {
    var old_ := history.items;
    var h := Prepended(history, s).value;
    assert h == ([s] + old_)[..|h|];
    assert h[1..] == old_[..|h| - 1];
  }

  /**
   * `saveToHistory(session)`: the new session is returned whether or not
   * the write succeeds; the stored history changes only when the old one
   * can be spread and the store accepts the write.
   */
  method SaveToHistory(st: BrowserStorage, session: seq<Field>, id: string, now: int,
                       parse: string -> Option<Json>, stringify: Json -> string)
    returns (s: Json)
    modifies st
    ensures s == NewSession(session, id, now) && st.full == old(st.full)
    ensures var h := Prepended(GetHistory(old(st.items), parse), s);
      st.items == if h.Ok? && !old(st.full) then old(st.items)[HistoryKey := stringify(Arr(h.value))] else old(st.items)
  {
    s := NewSession(session, id, now);
    var history := GetHistory(st.items, parse);
    var updated := Prepended(history, s);
    if updated.Err? {
      return s;
    }
    var _ := st.SetItem(HistoryKey, stringify(Arr(updated.value)));
  }

  /** A history item that is kept by `deleteFromHistory(id)`: `item.id !== id`. */
  predicate Keeps(id: string, item: Json)
  {
    Property(item, "id") != Some(Str(id))
  }

  /** `history.filter(item => item.id !== id)`: reading `id` of a `null` item throws. */
  function Remaining(history: Json, id: string): Result<seq<Json>, HistoryError>
  {
    if !history.Arr? then Err(TypeError)
    else if Null in history.items then Err(TypeError)
    else Ok(Filter(history.items, item => Keeps(id, item)))
  }

  /** Deleting keeps every other session, in order, and drops every session with that id. */
  lemma RemainingSpec(history: Json, id: string)
    requires history.Arr? && Null !in history.items
    ensures var r := Remaining(history, id).value;
      IsSubsequence(r, history.items) &&
      (forall i :: 0 <= i < |r| ==> Property(r[i], "id") != Some(Str(id))) &&
      (forall i :: 0 <= i < |history.items| && Keeps(id, history.items[i]) ==> history.items[i] in r) &&
      (forall x :: multiset(r)[x] == if Keeps(id, x) then multiset(history.items)[x] else 0)
  {
    FilterSpec(history.items, item => Keeps(id, item));
  }

  /** `deleteFromHistory(id)`. */
  method DeleteFromHistory(st: BrowserStorage, id: string, parse: string -> Option<Json>, stringify: Json -> string)
    modifies st
    ensures st.full == old(st.full)
    ensures var r := Remaining(GetHistory(old(st.items), parse), id);
      st.items == if r.Ok? && !old(st.full) then old(st.items)[HistoryKey := stringify(Arr(r.value))] else old(st.items)
  {
    var history := GetHistory(st.items, parse);
    var remaining := Remaining(history, id);
    if remaining.Ok? {
      var _ := st.SetItem(HistoryKey, stringify(Arr(remaining.value)));
    }
  }

  /** `clearHistory()`. */
  method ClearHistory(st: BrowserStorage)
    modifies st
    ensures st.items == old(st.items) - {HistoryKey} && st.full == old(st.full)
  {
    st.RemoveItem(HistoryKey);
  }

  /** After `clearHistory()`, `getHistory()` is `[]` whatever the parser. */
  lemma ClearedHistoryEmpty(items: map<string, string>, parse: string -> Option<Json>)
    ensures GetHistory(items - {HistoryKey}, parse) == Arr([])
  {
  }

  /** What was written under a key reads back when its text parses to the value. */
  lemma {:induction false} ReadBack(items: map<string, string>, key: string, v: Json,
                                    parse: string -> Option<Json>, stringify: Json -> string)
    requires stringify(v) != "" && parse(stringify(v)) == Some(v)
    ensures Stored(items[key := stringify(v)], key, parse) == Some(v)
  {
  }

  /** Saving a history keeps it within the bound once it is read back. */
  lemma SavedHistoryBounded(items: map<string, string>, s: Json, parse: string -> Option<Json>, stringify: Json -> string)
    requires GetHistory(items, parse).Arr?
    requires var h := Prepended(GetHistory(items, parse), s).value;
      stringify(Arr(h)) != "" && parse(stringify(Arr(h))) == Some(Arr(h))
    ensures var h := Prepended(GetHistory(items, parse), s).value;
      var after := GetHistory(items[HistoryKey := stringify(Arr(h))], parse);
      after == Arr(h) && 1 <= |after.items| <= MaxHistoryItems && after.items[0] == s
  {
    PrependedShape(GetHistory(items, parse), s);
  }

  // ---------------------------------------------------------- current session

  /** `loadCurrentSession()`: the parsed data, `null` when there is none or it does not parse. */
  function LoadCurrentSession(items: map<string, string>, parse: string -> Option<Json>): (d: Json)
    ensures Stored(items, CurrentSessionKey, parse).None? ==> d == Null
  {
    Stored(items, CurrentSessionKey, parse).GetOr(Null)
  }

  /** `saveCurrentSession(data)`. */
  method SaveCurrentSession(st: BrowserStorage, data: Json, stringify: Json -> string)
    modifies st
    ensures st.full == old(st.full)
    ensures st.items == if old(st.full) then old(st.items) else old(st.items)[CurrentSessionKey := stringify(data)]
  {
    var _ := st.SetItem(CurrentSessionKey, stringify(data));
  }

  /** `clearCurrentSession()`. */
  method ClearCurrentSession(st: BrowserStorage)
    modifies st
    ensures st.items == old(st.items) - {CurrentSessionKey} && st.full == old(st.full)
  {
    st.RemoveItem(CurrentSessionKey);
  }

  /**
   * Save then load gives the data back (when its JSON text parses to it),
   * and the history is untouched by it; after a clear, loading gives `null`.
   */
  lemma CurrentSessionRoundTrip(items: map<string, string>, data: Json,
                                parse: string -> Option<Json>, stringify: Json -> string)
    requires stringify(data) != "" && parse(stringify(data)) == Some(data)
    ensures LoadCurrentSession(items[CurrentSessionKey := stringify(data)], parse) == data
    ensures GetHistory(items[CurrentSessionKey := stringify(data)], parse) == GetHistory(items, parse)
    ensures LoadCurrentSession(items[CurrentSessionKey := stringify(data)] - {CurrentSessionKey}, parse) == Null
  {
    ReadBack(items, CurrentSessionKey, data, parse, stringify);
  }
}
