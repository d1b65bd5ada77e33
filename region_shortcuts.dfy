/** src/region_shortcuts.cpp: the names of the region shortcuts the
    cache accepts in its configuration. */
module RegionShortcuts {

  /** The native client's `RegionShortcut` values the addon names, and
      `invalidRegionShortcut`, the value `(RegionShortcut) -1` that no
      named shortcut has. */
  datatype RegionShortcut =
    | Proxy
    | CachingProxy
    | CachingProxyEntryLru
    | Local
    | LocalEntryLru
    | InvalidRegionShortcut

  /** The configuration name of each named shortcut. */
  function ShortcutName(shortcut: RegionShortcut): string
    requires shortcut != InvalidRegionShortcut
  {
    match shortcut
    case Proxy => "PROXY"
    case CachingProxy => "CACHING_PROXY"
    case CachingProxyEntryLru => "CACHING_PROXY_ENTRY_LRU"
    case Local => "LOCAL"
    case LocalEntryLru => "LOCAL_ENTRY_LRU"
  }

  /** `getRegionShortcut`: the shortcut whose name is exactly
      `regionShortcutName`, character for character, and the invalid
      shortcut for every other string, the empty one included. */
  function GetRegionShortcut(regionShortcutName: string): (shortcut: RegionShortcut)
    ensures shortcut != InvalidRegionShortcut ==> ShortcutName(shortcut) == regionShortcutName
    ensures shortcut == InvalidRegionShortcut <==>
      forall s: RegionShortcut :: s != InvalidRegionShortcut ==> ShortcutName(s) != regionShortcutName
  {
    if regionShortcutName == "PROXY" then Proxy
    else if regionShortcutName == "CACHING_PROXY" then CachingProxy
    else if regionShortcutName == "CACHING_PROXY_ENTRY_LRU" then CachingProxyEntryLru
    else if regionShortcutName == "LOCAL" then Local
    else if regionShortcutName == "LOCAL_ENTRY_LRU" then LocalEntryLru
    else InvalidRegionShortcut
  }

  /** Every named shortcut is found under its own name. */
  lemma ShortcutByName(shortcut: RegionShortcut)
    requires shortcut != InvalidRegionShortcut
    ensures GetRegionShortcut(ShortcutName(shortcut)) == shortcut
  {
  }
}
