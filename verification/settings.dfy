/** The plugin's settings (main.ts): six fields, their defaults, and the
    merge loadSettings makes of the defaults and the stored data. */
module Settings {
  import opened Wrappers

  datatype PluginSettings = PluginSettings(
    notionAPI: string,
    databaseID: string,
    bannerUrl: string,
    notionID: string,
    proxy: string,
    allowTags: bool)

  /** DEFAULT_SETTINGS: every text empty, tags off. */
  const DefaultSettings := PluginSettings("", "", "", "", "", false)

  /** The stored settings object as loadData reads it back; a key the file
      does not hold is `None`. */
  datatype StoredSettings = StoredSettings(
    notionAPI: Option<string>,
    databaseID: Option<string>,
    bannerUrl: Option<string>,
    notionID: Option<string>,
    proxy: Option<string>,
    allowTags: Option<bool>)

  /** `Object.assign({}, DEFAULT_SETTINGS, stored)`; with no stored data
      (`null`) the defaults stand. */
  function Merge(stored: Option<StoredSettings>): PluginSettings {
    match stored
    case None => DefaultSettings
    case Some(s) =>
      PluginSettings(
        s.notionAPI.GetOr(DefaultSettings.notionAPI),
        s.databaseID.GetOr(DefaultSettings.databaseID),
        s.bannerUrl.GetOr(DefaultSettings.bannerUrl),
        s.notionID.GetOr(DefaultSettings.notionID),
        s.proxy.GetOr(DefaultSettings.proxy),
        s.allowTags.GetOr(DefaultSettings.allowTags))
  }

  /** The settings as saveSettings stores them: every key present. */
  function Stored(settings: PluginSettings): StoredSettings {
    StoredSettings(Some(settings.notionAPI), Some(settings.databaseID), Some(settings.bannerUrl),
                   Some(settings.notionID), Some(settings.proxy), Some(settings.allowTags))
  }

  /** A stored key wins over its default; a missing key takes the default. */
  lemma StoredKeysOverride(s: StoredSettings)
    ensures var m := Merge(Some(s));
      (s.notionAPI.Some? ==> m.notionAPI == s.notionAPI.value) && (s.notionAPI.None? ==> m.notionAPI == "")
      && (s.databaseID.Some? ==> m.databaseID == s.databaseID.value) && (s.databaseID.None? ==> m.databaseID == "")
      && (s.bannerUrl.Some? ==> m.bannerUrl == s.bannerUrl.value) && (s.bannerUrl.None? ==> m.bannerUrl == "")
      && (s.notionID.Some? ==> m.notionID == s.notionID.value) && (s.notionID.None? ==> m.notionID == "")
      && (s.proxy.Some? ==> m.proxy == s.proxy.value) && (s.proxy.None? ==> m.proxy == "")
      && (s.allowTags.Some? ==> m.allowTags == s.allowTags.value) && (s.allowTags.None? ==> !m.allowTags)
  {
  }

  /** Settings saved and loaded again come back unchanged. */
  lemma SaveLoadRoundTrip(settings: PluginSettings)
    ensures Merge(Some(Stored(settings))) == settings
  {
  }

  /** Loading nothing, or an empty object, gives the defaults. */
  lemma NothingStoredGivesDefaults()
    ensures Merge(None) == DefaultSettings
    ensures Merge(Some(StoredSettings(None, None, None, None, None, None))) == DefaultSettings
  {
  }
}
