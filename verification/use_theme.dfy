/**
 * The theme preference hook: the initial theme read from storage, toggling, persisting
 * under the "theme" key, and the "dark" class on the document root.
 */
module UseTheme {
  import opened Optional

  datatype Theme = Light | Dark

  const ThemeStorageKey: string := "theme"
  const DarkClass: string := "dark"

  /** The string a theme is stored as. */
  function ThemeName(t: Theme): string {
    match t
    case Light => "light"
    case Dark => "dark"
  }

  /** What `getItem` gave: it threw, or returned a value or null. */
  datatype StorageRead = ReadFailed | ReadValue(value: Option<string>)

  /** getInitialTheme: exactly "dark" or "light" is taken as stored; anything else, and a failed read, gives light. */
  function InitialTheme(read: StorageRead): (t: Theme)
    ensures (read.ReadValue? && read.value.Some? && (read.value.value == "dark" || read.value.value == "light"))
              ==> ThemeName(t) == read.value.value
    ensures t == Dark <==> read == ReadValue(Some("dark"))
  {
    if read == ReadValue(Some("dark")) then Dark else Light
  }

  /** The theme that toggling switches to. */
  function Toggled(t: Theme): (r: Theme)
    ensures r != t
  {
    match t
    case Light => Dark
    case Dark => Light
  }

  /** Toggling twice restores the original theme. */
  lemma ToggleInvolution(t: Theme)
    ensures Toggled(Toggled(t)) == t
  {
  }

  /** A stored theme name reads back as the same theme. */
  lemma StoredThemeReadsBack(t: Theme)
    ensures InitialTheme(ReadValue(Some(ThemeName(t)))) == t
  {
  }

  /** The browser's key-value storage: it holds string entries, and either operation may throw. */
  class Storage {
    var entries: map<string, string>
    /** Whether `getItem` throws (storage unavailable or denied). */
    var readsFail: bool
    /** Whether `setItem` throws (storage unavailable, denied or full). */
    var writesFail: bool

    constructor(entries: map<string, string>, readsFail: bool, writesFail: bool)
      ensures this.entries == entries && this.readsFail == readsFail && this.writesFail == writesFail
    {
      this.entries, this.readsFail, this.writesFail := entries, readsFail, writesFail;
    }

    /** `getItem(key)`: the stored value, null for a missing key, or a failure. */
    function GetItem(key: string): (r: StorageRead)
      reads this
      ensures readsFail <==> r.ReadFailed?
      ensures r.ReadValue? ==> (r.value.Some? <==> key in entries) && (r.value.Some? ==> r.value.value == entries[key])
    {
      if readsFail then ReadFailed
      else if key in entries then ReadValue(Some(entries[key]))
      else ReadValue(None)
    }

    /** `setItem(key, value)`: stores the entry, or throws (reported as `ok == false`) and changes nothing. */
    method SetItem(key: string, value: string) returns (ok: bool)
      modifies this`entries
      ensures ok == !writesFail
      ensures entries == if ok then old(entries)[key := value] else old(entries)
    {
      ok := !writesFail;
      if ok {
        entries := entries[key := value];
      }
    }
  }

  /** The document root element's class list. */
  class DocumentRoot {
    var classList: set<string>

    constructor(classList: set<string>)
      ensures this.classList == classList
    {
      this.classList := classList;
    }

    /** applyThemeToDocument: adds "dark" for the dark theme and removes it otherwise; other classes stay. */
    method ApplyTheme(t: Theme)
      modifies this
      ensures classList == if t == Dark then old(classList) + {DarkClass} else old(classList) - {DarkClass}
    {
      if t == Dark {
        classList := classList + {DarkClass};
      } else {
        classList := classList - {DarkClass};
      }
    }
  }

  /** The "dark" class is on the root exactly when the theme is dark. */
  ghost predicate Applied(doc: DocumentRoot, t: Theme)
    reads doc
  {
    DarkClass in doc.classList <==> t == Dark
  }

  /** The hook's state: the current theme. */
  class ThemeHook {
    var theme: Theme

    /** Mounting: the theme starts from storage and the mount effect applies it to the document. */
    constructor(storage: Storage, doc: DocumentRoot)
      modifies doc
      ensures theme == InitialTheme(storage.GetItem(ThemeStorageKey))
      ensures Applied(doc, theme)
      ensures doc.classList - {DarkClass} == old(doc.classList) - {DarkClass}
    {
      var initial := InitialTheme(storage.GetItem(ThemeStorageKey));
      theme := initial;
      new;
      doc.ApplyTheme(initial);
    }

    /**
     * toggleTheme: switches the theme, tries to persist it under "theme" (a failed write is
     * ignored), and applies it to the document.
     */
    method Toggle(storage: Storage, doc: DocumentRoot)
      modifies this, storage`entries, doc
      ensures theme == Toggled(old(theme))
      ensures storage.entries ==
                if storage.writesFail then old(storage.entries)
                else old(storage.entries)[ThemeStorageKey := ThemeName(theme)]
      ensures Applied(doc, theme)
      ensures doc.classList - {DarkClass} == old(doc.classList) - {DarkClass}
    {
      var next := Toggled(theme);
      var _ := storage.SetItem(ThemeStorageKey, ThemeName(next));
      doc.ApplyTheme(next);
      theme := next;
    }
  }

  /** After mounting and toggling twice, the theme is the initial one again and the document shows it. */
  method ToggleTwice(storage: Storage, doc: DocumentRoot)
    modifies storage`entries, doc
  {
    var hook := new ThemeHook(storage, doc);
    var start := hook.theme;
    hook.Toggle(storage, doc);
    hook.Toggle(storage, doc);
    assert hook.theme == start;
    assert Applied(doc, start);
  }
}
