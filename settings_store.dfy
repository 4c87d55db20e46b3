/**
 * src/store/useSettingsStore.ts: the user's settings, their initial values,
 * and the actions that overwrite them through zustand's `set`.
 *
 * A TypeScript `Partial<T>` argument is a record in which every field may be
 * absent; it is modelled with one `Option` per field (`None` = absent). For a
 * field that is itself optional (`apiKey?`, `baseUrl?`, `biometricsEnabled`,
 * which the initial preferences leave out) the partial record can also carry
 * the key with the value `undefined`, which the spread copies; that is
 * `Some(None)`.
 */
module SettingsStore {
  import opened Types

  // ---- src/constants.ts: DEFAULTS ----

  const DefaultActiveDeck := "rider-waite"
  const DefaultTheme := System
  const DefaultModel := "tngtech/deepseek-r1t2-chimera:free"
  const DefaultProvider := OpenRouter

  /** `aiConfig` initially and after a reset: no `baseUrl` and an empty key. */
  const DefaultAIConfig := AIModelConfig(DefaultProvider, DefaultModel, Some(""), None)

  /** `preferences` initially and after a reset; `biometricsEnabled` is left out. */
  const DefaultPreferences := AppPreferences(
    allowReversed := true,
    hapticsEnabled := true,
    onlyMajorArcana := false,
    animationEnabled := true,
    biometricsEnabled := None,
    theme := System,
    language := "en")

  // ---- partial records and the spread merge ----

  datatype PartialAIConfig = PartialAIConfig(
    provider: Option<Provider>,
    modelId: Option<string>,
    apiKey: Option<Option<string>>,
    baseUrl: Option<Option<string>>)

  datatype PartialPreferences = PartialPreferences(
    allowReversed: Option<bool>,
    hapticsEnabled: Option<bool>,
    onlyMajorArcana: Option<bool>,
    animationEnabled: Option<bool>,
    biometricsEnabled: Option<Option<bool>>,
    theme: Option<ThemeMode>,
    language: Option<string>)

  /** One key of `{ ...base, ...patch }`: the patch's value when the patch has the key. */
  function Override<T>(base: T, patch: Option<T>): T {
    if patch.Some? then patch.value else base
  }

  /** `{ ...c, ...p }` for an `AIModelConfig`. */
  function MergeAIConfig(c: AIModelConfig, p: PartialAIConfig): (r: AIModelConfig)
    ensures p.provider.Some? ==> r.provider == p.provider.value
    ensures p.provider.None? ==> r.provider == c.provider
    ensures p.modelId.Some? ==> r.modelId == p.modelId.value
    ensures p.modelId.None? ==> r.modelId == c.modelId
    ensures p.apiKey.Some? ==> r.apiKey == p.apiKey.value
    ensures p.apiKey.None? ==> r.apiKey == c.apiKey
    ensures p.baseUrl.Some? ==> r.baseUrl == p.baseUrl.value
    ensures p.baseUrl.None? ==> r.baseUrl == c.baseUrl
  {
    AIModelConfig(
      Override(c.provider, p.provider),
      Override(c.modelId, p.modelId),
      Override(c.apiKey, p.apiKey),
      Override(c.baseUrl, p.baseUrl))
  }

  /** `{ ...prefs, ...p }` for `AppPreferences`. */
  function MergePreferences(prefs: AppPreferences, p: PartialPreferences): (r: AppPreferences)
    ensures p.allowReversed.Some? ==> r.allowReversed == p.allowReversed.value
    ensures p.allowReversed.None? ==> r.allowReversed == prefs.allowReversed
    ensures p.hapticsEnabled.Some? ==> r.hapticsEnabled == p.hapticsEnabled.value
    ensures p.hapticsEnabled.None? ==> r.hapticsEnabled == prefs.hapticsEnabled
    ensures p.onlyMajorArcana.Some? ==> r.onlyMajorArcana == p.onlyMajorArcana.value
    ensures p.onlyMajorArcana.None? ==> r.onlyMajorArcana == prefs.onlyMajorArcana
    ensures p.animationEnabled.Some? ==> r.animationEnabled == p.animationEnabled.value
    ensures p.animationEnabled.None? ==> r.animationEnabled == prefs.animationEnabled
    ensures p.biometricsEnabled.Some? ==> r.biometricsEnabled == p.biometricsEnabled.value
    ensures p.biometricsEnabled.None? ==> r.biometricsEnabled == prefs.biometricsEnabled
    ensures p.theme.Some? ==> r.theme == p.theme.value
    ensures p.theme.None? ==> r.theme == prefs.theme
    ensures p.language.Some? ==> r.language == p.language.value
    ensures p.language.None? ==> r.language == prefs.language
  {
    AppPreferences(
      Override(prefs.allowReversed, p.allowReversed),
      Override(prefs.hapticsEnabled, p.hapticsEnabled),
      Override(prefs.onlyMajorArcana, p.onlyMajorArcana),
      Override(prefs.animationEnabled, p.animationEnabled),
      Override(prefs.biometricsEnabled, p.biometricsEnabled),
      Override(prefs.theme, p.theme),
      Override(prefs.language, p.language))
  }

  /** The patch with the keys of both, `q` winning: `{ ...p, ...q }`. */
  function CombineAIConfig(p: PartialAIConfig, q: PartialAIConfig): PartialAIConfig {
    PartialAIConfig(
      if q.provider.Some? then q.provider else p.provider,
      if q.modelId.Some? then q.modelId else p.modelId,
      if q.apiKey.Some? then q.apiKey else p.apiKey,
      if q.baseUrl.Some? then q.baseUrl else p.baseUrl)
  }

  function CombinePreferences(p: PartialPreferences, q: PartialPreferences): PartialPreferences {
    PartialPreferences(
      if q.allowReversed.Some? then q.allowReversed else p.allowReversed,
      if q.hapticsEnabled.Some? then q.hapticsEnabled else p.hapticsEnabled,
      if q.onlyMajorArcana.Some? then q.onlyMajorArcana else p.onlyMajorArcana,
      if q.animationEnabled.Some? then q.animationEnabled else p.animationEnabled,
      if q.biometricsEnabled.Some? then q.biometricsEnabled else p.biometricsEnabled,
      if q.theme.Some? then q.theme else p.theme,
      if q.language.Some? then q.language else p.language)
  }

  /** A patch that carries every key of `c`. */
  function FullAIConfig(c: AIModelConfig): PartialAIConfig {
    PartialAIConfig(Some(c.provider), Some(c.modelId), Some(c.apiKey), Some(c.baseUrl))
  }

  const EmptyAIConfig := PartialAIConfig(None, None, None, None)

  const EmptyPreferences := PartialPreferences(None, None, None, None, None, None, None)

  // ---- properties of the merges ----

  /** An empty patch changes nothing; a patch with every key replaces everything. */
  lemma MergeAIConfigExtremes(c: AIModelConfig, d: AIModelConfig)
    ensures MergeAIConfig(c, EmptyAIConfig) == c
    ensures MergeAIConfig(c, FullAIConfig(d)) == d
  {
  }

  /** Two successive `setAiConfig` calls are one call with the combined patch. */
  lemma MergeAIConfigTwice(c: AIModelConfig, p: PartialAIConfig, q: PartialAIConfig)
    ensures MergeAIConfig(MergeAIConfig(c, p), q) == MergeAIConfig(c, CombineAIConfig(p, q))
  {
  }

  /** Repeating a `setAiConfig` call changes nothing more. */
  lemma MergeAIConfigIdempotent(c: AIModelConfig, p: PartialAIConfig)
    ensures MergeAIConfig(MergeAIConfig(c, p), p) == MergeAIConfig(c, p)
  {
  }

  lemma MergePreferencesEmpty(prefs: AppPreferences)
    ensures MergePreferences(prefs, EmptyPreferences) == prefs
  {
  }

  /** Two successive `updatePreferences` calls are one call with the combined patch. */
  lemma MergePreferencesTwice(prefs: AppPreferences, p: PartialPreferences, q: PartialPreferences)
    ensures MergePreferences(MergePreferences(prefs, p), q) == MergePreferences(prefs, CombinePreferences(p, q))
  {
  }

  lemma MergePreferencesIdempotent(prefs: AppPreferences, p: PartialPreferences)
    ensures MergePreferences(MergePreferences(prefs, p), p) == MergePreferences(prefs, p)
  {
  }

  // ---- the store ----

  class Settings {
    var userName: string
    var themeMode: ThemeMode
    var activeDeckId: string
    var isOnboardingCompleted: bool
    var aiConfig: AIModelConfig
    var preferences: AppPreferences

    /** The initial state. */
    constructor()
      ensures userName == "" && themeMode == DefaultTheme && activeDeckId == DefaultActiveDeck
      ensures !isOnboardingCompleted
      ensures aiConfig == DefaultAIConfig && aiConfig.apiKey == Some("")
      ensures preferences == DefaultPreferences
    {
      userName := "";
      themeMode := DefaultTheme;
      activeDeckId := DefaultActiveDeck;
      isOnboardingCompleted := false;
      aiConfig := DefaultAIConfig;
      preferences := DefaultPreferences;
    }

    method SetUserName(name: string)
      modifies this
      ensures userName == name
      ensures themeMode == old(themeMode) && activeDeckId == old(activeDeckId)
      ensures isOnboardingCompleted == old(isOnboardingCompleted)
      ensures aiConfig == old(aiConfig) && preferences == old(preferences)
    {
      userName := name;
    }

    method SetThemeMode(mode: ThemeMode)
      modifies this
      ensures themeMode == mode
      ensures userName == old(userName) && activeDeckId == old(activeDeckId)
      ensures isOnboardingCompleted == old(isOnboardingCompleted)
      ensures aiConfig == old(aiConfig) && preferences == old(preferences)
    {
      themeMode := mode;
    }

    /** Sets the flag; calling it again leaves the state as it is. */
    method CompleteOnboarding()
      modifies this
      ensures isOnboardingCompleted
      ensures userName == old(userName) && themeMode == old(themeMode) && activeDeckId == old(activeDeckId)
      ensures aiConfig == old(aiConfig) && preferences == old(preferences)
      ensures old(isOnboardingCompleted) ==> unchanged(this)
    {
      isOnboardingCompleted := true;
    }

    method SetActiveDeckId(id: string)
      modifies this
      ensures activeDeckId == id
      ensures userName == old(userName) && themeMode == old(themeMode)
      ensures isOnboardingCompleted == old(isOnboardingCompleted)
      ensures aiConfig == old(aiConfig) && preferences == old(preferences)
    {
      activeDeckId := id;
    }

    method SetAiConfig(newConfig: PartialAIConfig)
      modifies this
      ensures aiConfig == MergeAIConfig(old(aiConfig), newConfig)
      ensures userName == old(userName) && themeMode == old(themeMode) && activeDeckId == old(activeDeckId)
      ensures isOnboardingCompleted == old(isOnboardingCompleted) && preferences == old(preferences)
    {
      aiConfig := MergeAIConfig(aiConfig, newConfig);
    }

    method UpdatePreferences(newPrefs: PartialPreferences)
      modifies this
      ensures preferences == MergePreferences(old(preferences), newPrefs)
      ensures userName == old(userName) && themeMode == old(themeMode) && activeDeckId == old(activeDeckId)
      ensures isOnboardingCompleted == old(isOnboardingCompleted) && aiConfig == old(aiConfig)
    {
      preferences := MergePreferences(preferences, newPrefs);
    }

    /** Restores preferences, AI configuration and the onboarding flag; the
        name, the theme mode and the active deck are kept. */
    method ResetAllSettings()
      modifies this
      ensures preferences == DefaultPreferences
      ensures aiConfig == DefaultAIConfig && aiConfig.apiKey == Some("")
      ensures !isOnboardingCompleted
      ensures userName == old(userName) && themeMode == old(themeMode) && activeDeckId == old(activeDeckId)
    {
      preferences := DefaultPreferences;
      aiConfig := DefaultAIConfig;
      isOnboardingCompleted := false;
    }
  }
}
