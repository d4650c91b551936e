/**
 * The application context (src/context/AppContext.tsx): the theme and language preferences, the
 * colour palette chosen from the theme, and the translation lookup `t` with its fallback chain.
 * The device key-value store is a map from keys to stored strings.
 */
module AppContext {
  import opened Wrappers

  /** The palette fields of `ThemeColors` (src/types/theme.ts). */
  datatype ThemeColors = ThemeColors(
    background: string,
    text: string,
    primary: string,
    secondary: string,
    card: string,
    border: string,
    error: string,
    success: string
  )

  const LightTheme := ThemeColors("#f5f5f5", "#333333", "#2196F3", "#666666", "#ffffff", "#e0e0e0", "#F44336", "#4CAF50")
  const DarkTheme := ThemeColors("#121212", "#ffffff", "#90CAF9", "#9e9e9e", "#1e1e1e", "#333333", "#EF9A9A", "#81C784")

  /** The translation tables (src/i18n/translations.ts), by language and key. */
  const English: map<string, string> := map[
    "settings" := "Settings", "editProfile" := "Edit Profile", "notifications" := "Notifications",
    "privacy" := "Privacy", "language" := "Language", "darkMode" := "Dark Mode",
    "help" := "Help & Support", "about" := "About Us", "terms" := "Terms & Privacy Policy"]

  const French: map<string, string> := map[
    "settings" := "Paramètres", "editProfile" := "Modifier le profil", "notifications" := "Notifications",
    "privacy" := "Confidentialité", "language" := "Langue", "darkMode" := "Mode sombre",
    "help" := "Aide et support", "about" := "À propos de nous",
    "terms" := "Conditions et politique de confidentialité"]

  const Spanish: map<string, string> := map[
    "settings" := "Ajustes", "editProfile" := "Editar perfil", "notifications" := "Notificaciones",
    "privacy" := "Privacidad", "language" := "Idioma", "darkMode" := "Modo oscuro",
    "help" := "Ayuda y soporte", "about" := "Sobre nosotros",
    "terms" := "Términos y política de privacidad"]

  const Translations: map<string, map<string, string>> := map["en" := English, "fr" := French, "es" := Spanish]

  /** The nine keys every table defines. */
  const Keys: set<string> := {"settings", "editProfile", "notifications", "privacy", "language",
                              "darkMode", "help", "about", "terms"}

  /** Every table defines the same nine keys, none with an empty text. */
  lemma TablesComplete(table: map<string, string>)
    requires table == English || table == French || table == Spanish
    ensures table.Keys == Keys
    ensures forall key :: key in table ==> table[key] != ""
  {
  }

  /** `translations[language]?.[key]`: the entry, when the language and the key are both present. */
  function Entry(language: string, key: string): (e: Option<string>)
    ensures e.Some? <==> language in Translations && key in Translations[language]
    ensures e.Some? ==> e.value == Translations[language][key]
  {
    if language in Translations && key in Translations[language] then Some(Translations[language][key]) else None
  }

  /**
   * `t(key)` (lines 57-59): the current language's entry if non-empty, else the English entry if
   * non-empty, else the key itself.
   */
  function Translate(language: string, key: string): (s: string)
    ensures Truthy(Entry(language, key)) ==> s == Entry(language, key).value
    ensures !Truthy(Entry(language, key)) && Truthy(Entry("en", key)) ==> s == Entry("en", key).value
    ensures !Truthy(Entry(language, key)) && !Truthy(Entry("en", key)) ==> s == key
    ensures key != "" ==> s != ""
  {
    if Truthy(Entry(language, key)) then Entry(language, key).value
    else if Truthy(Entry("en", key)) then Entry("en", key).value
    else key
  }

  /** A language without a table reads English, and a key without an entry reads as itself. */
  lemma UnknownLanguageReadsEnglish(language: string, key: string)
    requires language !in Translations
    ensures Translate(language, key) == if key in English then English[key] else key
  {
    TablesComplete(English);
  }

  /** Every one of the nine keys reads in the chosen language when that language has a table. */
  lemma KnownKeysTranslate(language: string, key: string)
    requires language in Translations && key in Keys
    ensures Translate(language, key) == Translations[language][key]
  {
    assert Translations[language] == English || Translations[language] == French
           || Translations[language] == Spanish;
    TablesComplete(Translations[language]);
  }

  /** The theme `toggleTheme` switches to (line 39): dark from light, light from anything else. */
  function NextTheme(theme: string): (t: string)
    ensures theme == "light" <==> t == "dark"
    ensures t == "light" || t == "dark"
  {
    if theme == "light" then "dark" else "light"
  }

  /** Toggling twice restores light and dark; any other stored value ends up dark. */
  lemma ToggleTwice(theme: string)
    ensures theme == "light" || theme == "dark" ==> NextTheme(NextTheme(theme)) == theme
    ensures theme != "light" && theme != "dark" ==> NextTheme(NextTheme(theme)) == "dark"
  {
  }

  /** `colors` (line 64): the light palette exactly for the light theme. */
  function ColorsFor(theme: string): (c: ThemeColors)
    ensures c == LightTheme <==> theme == "light"
    ensures c == DarkTheme <==> theme != "light"
  {
    if theme == "light" then LightTheme else DarkTheme
  }

  /** A toggle always switches palette. */
  lemma ToggleSwitchesPalette(theme: string)
    ensures ColorsFor(NextTheme(theme)) != ColorsFor(theme)
  {
  }

  /** A stored preference as read back: present when the key is stored. */
  function Stored(storage: map<string, string>, key: string): (v: Option<string>)
    ensures v.Some? <==> key in storage
    ensures v.Some? ==> v.value == storage[key]
  {
    if key in storage then Some(storage[key]) else None
  }

  /** The value handed to consumers of the context. */
  datatype ContextValue = ContextValue(theme: string, colors: ThemeColors, language: string)

  const OutsideProvider := "useApp must be used within an AppProvider"

  /** `useApp()` (lines 73-78): the provider's value, or an error outside any provider. */
  function UseApp(context: Option<ContextValue>): (r: Result<ContextValue>)
    ensures context.None? <==> r == Err(OutsideProvider)
    ensures context.Some? ==> r == Ok(context.value)
  {
    match context
    case None => Err(OutsideProvider)
    case Some(value) => Ok(value)
  }

  class AppProviderState {
    var theme: string
    var language: string
    var storage: map<string, string>

    /** The provider's initial state (lines 19-20): light theme, English; `storage` is what the device holds. */
    constructor(storage: map<string, string>)
      ensures theme == "light" && language == "en" && this.storage == storage
    {
      theme := "light";
      language := "en";
      this.storage := storage;
    }

    /**
     * `t(key)` in the current language (lines 57-59): one of the nine keys reads the current
     * language's table when it has one, and a non-empty key never reads as empty.
     */
    function T(key: string): (s: string)
      reads this
      ensures language in Translations && key in Keys ==> s == Translations[language][key]
      ensures key != "" ==> s != ""
    {
      if language in Translations && key in Keys then KnownKeysTranslate(language, key); Translate(language, key)
      else Translate(language, key)
    }

    /** The context value (lines 61-68). */
    function Value(): (v: ContextValue)
      reads this
      ensures v.theme == theme && v.language == language
      ensures v.colors == LightTheme <==> theme == "light"
    {
      ContextValue(theme, ColorsFor(theme), language)
    }

    /**
     * `loadPreferences()` (lines 26-36): a stored theme or language replaces the current one only
     * when it is present and non-empty; a failing read changes nothing.
     */
    method LoadPreferences(readFails: bool)
      modifies this`theme, this`language
      ensures readFails ==> theme == old(theme) && language == old(language)
      ensures !readFails ==>
        theme == (if Truthy(Stored(storage, "theme")) then storage["theme"] else old(theme))
      ensures !readFails ==>
        language == (if Truthy(Stored(storage, "language")) then storage["language"] else old(language))
    {
      if readFails {
        return;
      }
      var storedTheme := Stored(storage, "theme");
      var storedLanguage := Stored(storage, "language");
      if Truthy(storedTheme) {
        theme := storedTheme.value;
      }
      if Truthy(storedLanguage) {
        language := storedLanguage.value;
      }
    }

    /** `toggleTheme()` (lines 38-46): switches theme and stores the new one. */
    method ToggleTheme()
      modifies this`theme, this`storage
      ensures theme == NextTheme(old(theme))
      ensures storage == old(storage)["theme" := theme]
      ensures Value().colors != old(Value().colors)
    {
      ToggleSwitchesPalette(theme);
      theme := if theme == "light" then "dark" else "light";
      storage := storage["theme" := theme];
    }

    /** `changeLanguage(lang)` (lines 48-55), exposed as `setLanguage` (line 66): sets and stores the language. */
    method ChangeLanguage(lang: string)
      modifies this`language, this`storage
      ensures language == lang
      ensures storage == old(storage)["language" := lang]
      ensures forall key :: T(key) == Translate(lang, key)
    {
      language := lang;
      storage := storage["language" := lang];
    }
  }

  /** A preference written by toggling or changing language is what a later load reads back. */
  lemma SavedPreferenceReloads(storage: map<string, string>, key: string, value: string, current: string)
    requires value != ""
    ensures var s := storage[key := value];
      Truthy(Stored(s, key)) && (if Truthy(Stored(s, key)) then s[key] else current) == value
  {
  }
}
