/** The settings store: three display flags, decoded field by field from local storage. */
module UserSettings {
  import opened Wrappers
  import opened Json

  const StorageKey: string := "touche:settings"

  datatype Settings = Settings(showCompleted: bool, skipDeleteConfirmation: bool, hidePageTitle: bool)

  /** `DEFAULT_SETTINGS` */
  const DefaultSettings: Settings := Settings(true, false, false)

  /** One flag: the stored boolean when there is one, the default otherwise. */
  function FlagOr(parsed: Json, key: string, default: bool): (r: bool)
    ensures GetBool(parsed, key).Some? ==> r == GetBool(parsed, key).value
    ensures GetBool(parsed, key).None? ==> r == default
  {
    GetBool(parsed, key).GetOr(default)
  }

  /**
   * The field-wise decode of `readFromStorage`.  Reading a property of
   * `null` throws, and the handler returns the defaults; on any other value
   * each missing or non-boolean flag falls back to its default.
   */
  function DecodeSettings(parsed: Json): (r: Settings)
    ensures !parsed.JObj? ==> r == DefaultSettings
  {
    match parsed
    case JNull => DefaultSettings
    case _ =>
      Settings(
        FlagOr(parsed, "showCompleted", DefaultSettings.showCompleted),
        FlagOr(parsed, "skipDeleteConfirmation", DefaultSettings.skipDeleteConfirmation),
        FlagOr(parsed, "hidePageTitle", DefaultSettings.hidePageTitle))
  }

  /** `readFromStorage`; `None` is a missing, empty or unparsable entry. */
  function ReadSettings(stored: Option<Json>): (r: Settings)
    ensures stored.None? ==> r == DefaultSettings
  {
    match stored
    case Some(parsed) => DecodeSettings(parsed)
    case None => DefaultSettings
  }

  /** The persisted form: exactly the three flags, each a boolean that reads back as written. */
  function EncodeSettings(s: Settings): (o: Json)
    ensures o.JObj? && o.fields.Keys == {"showCompleted", "skipDeleteConfirmation", "hidePageTitle"}
    ensures GetBool(o, "showCompleted") == Some(s.showCompleted)
    ensures GetBool(o, "skipDeleteConfirmation") == Some(s.skipDeleteConfirmation)
    ensures GetBool(o, "hidePageTitle") == Some(s.hidePageTitle)
  {
    JObj(map[
      "showCompleted" := JBool(s.showCompleted),
      "skipDeleteConfirmation" := JBool(s.skipDeleteConfirmation),
      "hidePageTitle" := JBool(s.hidePageTitle)])
  }

  /** Each flag is taken from the stored object when it is a boolean there, else from the defaults. */
  lemma DecodeSettingsFields(parsed: Json)
    ensures var r := DecodeSettings(parsed);
      && r.showCompleted == GetBool(parsed, "showCompleted").GetOr(DefaultSettings.showCompleted)
      && r.skipDeleteConfirmation == GetBool(parsed, "skipDeleteConfirmation").GetOr(DefaultSettings.skipDeleteConfirmation)
      && r.hidePageTitle == GetBool(parsed, "hidePageTitle").GetOr(DefaultSettings.hidePageTitle)
  {
  }

  /** Decoding the persisted form of any settings gives them back. */
  lemma SettingsRoundTrip(s: Settings)
    ensures ReadSettings(Some(EncodeSettings(s))) == s
  {
  }

  // ---------------------------------------------------------------------
  // The three toggles, as the callbacks they pass to `update`

  function FlipShowCompleted(s: Settings): (r: Settings)
    ensures r.showCompleted != s.showCompleted
    ensures r.skipDeleteConfirmation == s.skipDeleteConfirmation && r.hidePageTitle == s.hidePageTitle
  {
    s.(showCompleted := !s.showCompleted)
  }

  function FlipSkipDeleteConfirmation(s: Settings): (r: Settings)
    ensures r.skipDeleteConfirmation != s.skipDeleteConfirmation
    ensures r.showCompleted == s.showCompleted && r.hidePageTitle == s.hidePageTitle
  {
    s.(skipDeleteConfirmation := !s.skipDeleteConfirmation)
  }

  function FlipHidePageTitle(s: Settings): (r: Settings)
    ensures r.hidePageTitle != s.hidePageTitle
    ensures r.showCompleted == s.showCompleted && r.skipDeleteConfirmation == s.skipDeleteConfirmation
  {
    s.(hidePageTitle := !s.hidePageTitle)
  }

  /** Each toggle undoes itself. */
  lemma TogglesAreInvolutions(s: Settings)
    ensures FlipShowCompleted(FlipShowCompleted(s)) == s
    ensures FlipSkipDeleteConfirmation(FlipSkipDeleteConfirmation(s)) == s
    ensures FlipHidePageTitle(FlipHidePageTitle(s)) == s
  {
  }

  // ---------------------------------------------------------------------
  // The store

  /** The store returned by `createSettingsStore`. */
  class SettingsStore {
    var settings: Settings

    constructor (stored: Option<Json>)
      ensures settings == ReadSettings(stored)
    {
      settings := ReadSettings(stored);
    }

    /** The store's own `set`. */
    method Set(s: Settings)
      modifies this
      ensures settings == s
    {
      settings := s;
    }

    /** The store's own `update`, with a pure callback. */
    method Update(f: Settings -> Settings)
      modifies this
      ensures settings == f(old(settings))
    {
      settings := f(settings);
    }

    method ToggleShowCompleted()
      modifies this
      ensures settings == FlipShowCompleted(old(settings))
    {
      settings := FlipShowCompleted(settings);
    }

    method ToggleSkipDeleteConfirmation()
      modifies this
      ensures settings == FlipSkipDeleteConfirmation(old(settings))
    {
      settings := FlipSkipDeleteConfirmation(settings);
    }

    method ToggleHidePageTitle()
      modifies this
      ensures settings == FlipHidePageTitle(old(settings))
    {
      settings := FlipHidePageTitle(settings);
    }

    /** The `storage` event handler: a write to this key in another tab replaces the value. */
    method HandleStorage(key: string, stored: Option<Json>)
      modifies this
      ensures key == StorageKey ==> settings == ReadSettings(stored)
      ensures key != StorageKey ==> settings == old(settings)
    {
      if key == StorageKey {
        settings := ReadSettings(stored);
      }
    }
  }
}
