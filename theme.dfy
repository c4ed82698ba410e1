/** The colour theme of hooks/useTheme.ts: a two-state toggle that starts pink,
    adopts a stored theme at mount only when it names one of the two themes, and
    writes the new theme to storage on every toggle. */
module Theme {
  import opened Wrappers

  /** The two themes; no other value is representable. */
  datatype ThemeId = Pink | Blue

  /** The identifier of a theme, as stored under 'app_theme'. */
  function Name(t: ThemeId): (r: string)
    ensures r == "pink" <==> t == Pink
    ensures r == "blue" <==> t == Blue
  {
    match t
    case Pink => "pink"
    case Blue => "blue"
  }

  /** Reads a stored identifier; only "pink" and "blue" name a theme. */
  function Parse(s: string): (r: Option<ThemeId>)
    ensures r.Some? <==> s == "pink" || s == "blue"
    ensures r.Some? ==> Name(r.value) == s
  {
    if s == "pink" then Some(Pink) else if s == "blue" then Some(Blue) else None
  }

  /** Every theme's identifier reads back as that theme. */
  lemma ParseName(t: ThemeId)
    ensures Parse(Name(t)) == Some(t)
  {
  }

  /** The next theme: pink becomes blue and anything else becomes pink. */
  function Toggled(t: ThemeId): (r: ThemeId)
    ensures r != t
  {
    if t == Pink then Blue else Pink
  }

  /** Two toggles restore the theme. */
  lemma ToggleTwice(t: ThemeId)
    ensures Toggled(Toggled(t)) == t
  {
  }

  /** The theme after the mount effect reads `stored`: the stored theme when it names
      one, and otherwise `current` unchanged. */
  function Restored(stored: Option<string>, current: ThemeId): (r: ThemeId)
    ensures stored.Some? && (stored.value == "pink" || stored.value == "blue") ==> Name(r) == stored.value
    ensures !(stored.Some? && (stored.value == "pink" || stored.value == "blue")) ==> r == current
  {
    if stored.Some? && Parse(stored.value).Some? then Parse(stored.value).value else current
  }

  /** A theme written by a toggle is the theme a later start restores. */
  lemma RestoreAfterToggle(t: ThemeId, current: ThemeId)
    ensures Restored(Some(Name(Toggled(t))), current) == Toggled(t)
  {
    ParseName(Toggled(t));
  }

  /** The theme of one app session, with the storage cell 'app_theme'. */
  class ThemeState {
    var theme: ThemeId
    /** The storage cell 'app_theme'. */
    var stored: Option<string>

    /** `useState('pink')`: the first render is pink whatever is stored. */
    constructor (stored: Option<string>)
      ensures theme == Pink && this.stored == stored
    {
      theme := Pink;
      this.stored := stored;
    }

    /** The mount effect: adopt the stored theme if it is valid. */
    method Restore()
      modifies this`theme
      ensures theme == Restored(stored, old(theme))
    {
      if stored.Some? && Parse(stored.value).Some? {
        theme := Parse(stored.value).value;
      }
    }

    /** `toggleTheme`: flip the theme and persist the new one. */
    method Toggle()
      modifies this
      ensures theme == Toggled(old(theme))
      ensures stored == Some(Name(theme))
    {
      var next := if theme == Pink then Blue else Pink;
      stored := Some(Name(next));
      theme := next;
    }
  }
}
