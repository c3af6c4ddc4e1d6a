/**
 * The settings store of the chat client: appearance choices, the stored
 * OpenAI credentials and the chatting adapter built from them.
 *
 * The stored values (`@AppStorage` in the app) are plain optional fields of an
 * immutable record, and every mutating member of the settings object is a pure
 * transition from one record to the next. The network round-trip that checks a
 * candidate configuration is not part of this model: it is the oracle
 * `validate`, asked about the candidate adapter's configuration.
 */
module Settings {
  import opened Wrappers

  /** The appearance the user picked; stored by its raw string value. */
  datatype ColorScheme = Automatic | Light | Dark

  /** The platform's own colour scheme (what the view layer is handed). */
  datatype SystemColorScheme = SystemLight | SystemDark

  /** Accent tints offered in the settings screen; stored by raw value. */
  datatype Tint = Green | Yellow | Orange | Brown | Red | Pink | Indigo | Blue

  /** The raw value under which a colour scheme is persisted. */
  function ColorSchemeRaw(c: ColorScheme): string {
    match c
    case Automatic => "automatic"
    case Light => "light"
    case Dark => "dark"
  }

  /**
   * Decoding a raw value into a colour scheme (the enumeration's raw-value
   * initialiser); text that is no scheme's raw value decodes to nothing.
   */
  function ColorSchemeFromRaw(raw: string): (r: Option<ColorScheme>)
    ensures r.Some? ==> ColorSchemeRaw(r.value) == raw
    ensures r.None? ==> forall c :: ColorSchemeRaw(c) != raw
  {
    if raw == "automatic" then Some(Automatic)
    else if raw == "light" then Some(Light)
    else if raw == "dark" then Some(Dark)
    else None
  }

  /** Distinct schemes are persisted under distinct raw values, so reading back what was written gives the same scheme. */
  lemma ColorSchemeRawRoundTrip(c: ColorScheme, d: ColorScheme)
    ensures ColorSchemeFromRaw(ColorSchemeRaw(c)) == Some(c)
    ensures c != d ==> ColorSchemeRaw(c) != ColorSchemeRaw(d)
  {
  }

  /**
   * The scheme handed to the platform: automatic means "no override" (follow the
   * system), the two others pin the corresponding system scheme.
   */
  function SystemScheme(c: ColorScheme): (r: Option<SystemColorScheme>)
    ensures r.None? <==> c == Automatic
    ensures r == Some(SystemLight) <==> c == Light
    ensures r == Some(SystemDark) <==> c == Dark
  {
    match c
    case Automatic => None
    case Light => Some(SystemLight)
    case Dark => Some(SystemDark)
  }

  /** No two choices of the user reach the platform as the same override. */
  lemma SystemSchemeInjective(c: ColorScheme, d: ColorScheme)
    ensures SystemScheme(c) == SystemScheme(d) ==> c == d
  {
  }

  /** The raw value under which a tint is persisted. */
  function TintRaw(t: Tint): string {
    match t
    case Green => "green"
    case Yellow => "yellow"
    case Orange => "orange"
    case Brown => "brown"
    case Red => "red"
    case Pink => "pink"
    case Indigo => "indigo"
    case Blue => "blue"
  }

  /** Decoding a raw value into a tint; text that is no tint's raw value decodes to nothing. */
  function TintFromRaw(raw: string): (r: Option<Tint>)
    ensures r.Some? ==> TintRaw(r.value) == raw
    ensures r.None? ==> forall t :: TintRaw(t) != raw
  {
    if raw == "green" then Some(Green)
    else if raw == "yellow" then Some(Yellow)
    else if raw == "orange" then Some(Orange)
    else if raw == "brown" then Some(Brown)
    else if raw == "red" then Some(Red)
    else if raw == "pink" then Some(Pink)
    else if raw == "indigo" then Some(Indigo)
    else if raw == "blue" then Some(Blue)
    else None
  }

  /** The colour schemes the settings screen lists, in display order. */
  const ColorSchemes: seq<ColorScheme> := [Automatic, Light, Dark]

  /** The tints the settings screen lists, in display order. */
  const Tints: seq<Tint> := [Green, Yellow, Orange, Brown, Red, Pink, Indigo, Blue]

  /** Each list offers every case of its enumeration exactly once. */
  lemma ChoiceListsComplete(c: ColorScheme, t: Tint)
    ensures c in ColorSchemes && t in Tints
    ensures forall i, j :: 0 <= i < j < |ColorSchemes| ==> ColorSchemes[i] != ColorSchemes[j]
    ensures forall i, j :: 0 <= i < j < |Tints| ==> Tints[i] != Tints[j]
  {
  }

  /** The configuration an adapter is built from: an optional proxy domain and the API key. */
  datatype AdapterConfig = AdapterConfig(domain: Option<string>, apiKey: string)

  /** The ChatGPT adapter, immutable once built: a new configuration means a new adapter. */
  datatype Adapter = ChatGPTAdapter(config: AdapterConfig)

  /** Everything the settings object holds: stored appearance, stored credentials and the installed adapter. */
  datatype SettingsState = SettingsState(
    colorScheme: ColorScheme,
    tint: Option<Tint>,
    domain: Option<string>,
    apiKey: Option<string>,
    adapter: Option<Adapter>)

  /** A chatting adapter is installed. */
  predicate AdapterReady(s: SettingsState) {
    s.adapter.Some?
  }

  /** A key is stored and it is not the empty string. */
  predicate HasUsableKey(s: SettingsState) {
    s.apiKey.Some? && s.apiKey.value != ""
  }

  /** The installed adapter, if any, was built from exactly the stored domain and key. */
  predicate Coherent(s: SettingsState) {
    s.adapter.Some? ==>
      s.apiKey == Some(s.adapter.value.config.apiKey) && s.domain == s.adapter.value.config.domain
  }

  /** Appearance and stored credentials are the same in both records. */
  predicate SameStored(s: SettingsState, t: SettingsState) {
    s.colorScheme == t.colorScheme && s.tint == t.tint && s.domain == t.domain && s.apiKey == t.apiKey
  }

  /**
   * Builds an adapter from the stored credentials. A missing or empty key
   * leaves everything as it was (an adapter installed earlier stays); a usable
   * key installs an adapter whose configuration is the stored domain and key.
   */
  function InitiateAdapter(s: SettingsState): (r: SettingsState)
    ensures !HasUsableKey(s) ==> r == s
    ensures HasUsableKey(s) ==> SameStored(s, r) && AdapterReady(r) && Coherent(r)
    ensures Coherent(s) ==> Coherent(r)
  {
    match s.apiKey
    case Some(key) =>
      if key == "" then s
      else s.(adapter := Some(ChatGPTAdapter(AdapterConfig(s.domain, key))))
    case None => s
  }

  /**
   * The settings object as constructed from what storage holds: no adapter
   * yet, then `InitiateAdapter`. An adapter is present exactly when a usable
   * key was stored, and it matches the stored credentials.
   */
  function Init(colorScheme: ColorScheme, tint: Option<Tint>, domain: Option<string>, apiKey: Option<string>): (r: SettingsState)
    ensures r.colorScheme == colorScheme && r.tint == tint && r.domain == domain && r.apiKey == apiKey
    ensures AdapterReady(r) <==> apiKey.Some? && apiKey.value != ""
    ensures Coherent(r)
  {
    InitiateAdapter(SettingsState(colorScheme, tint, domain, apiKey, None))
  }

  /** Stores a new colour scheme and nothing else. */
  function AdjustColorScheme(s: SettingsState, c: ColorScheme): (r: SettingsState)
    ensures r.colorScheme == c
    ensures r.tint == s.tint && r.domain == s.domain && r.apiKey == s.apiKey && r.adapter == s.adapter
  {
    s.(colorScheme := c)
  }

  /** Stores a new tint (or none) and nothing else. */
  function AdjustTint(s: SettingsState, t: Option<Tint>): (r: SettingsState)
    ensures r.tint == t
    ensures r.colorScheme == s.colorScheme && r.domain == s.domain && r.apiKey == s.apiKey && r.adapter == s.adapter
  {
    s.(tint := t)
  }

  /** The settings after a configuration attempt, and whether validation succeeded. */
  datatype Configured = Configured(settings: SettingsState, validated: bool)

  /**
   * Builds a candidate adapter from the given key and domain and asks the
   * network (the oracle `validate`) about the candidate's configuration. On
   * success the adapter, the key and the domain are committed together; on
   * failure nothing changes. The answer is the validation outcome itself.
   */
  function ValidateAndConfigOpenAI(s: SettingsState, apiKey: string, domain: Option<string>, validate: AdapterConfig -> bool): (r: Configured)
    ensures r.validated == validate(AdapterConfig(domain, apiKey))
    ensures r.validated ==>
      && r.settings.apiKey == Some(apiKey)
      && r.settings.domain == domain
      && AdapterReady(r.settings)
      && Coherent(r.settings)
      && r.settings.colorScheme == s.colorScheme
      && r.settings.tint == s.tint
    ensures !r.validated ==> r.settings == s
  {
    var candidate := ChatGPTAdapter(AdapterConfig(domain, apiKey));
    var validated := validate(candidate.config);
    if validated then
      Configured(s.(adapter := Some(candidate), apiKey := Some(apiKey), domain := domain), true)
    else
      Configured(s, false)
  }

  /**
   * Every transition of the settings object keeps the installed adapter in step
   * with the stored credentials, whatever the network answers.
   */
  lemma CoherenceInvariant(s: SettingsState, apiKey: string, domain: Option<string>, validate: AdapterConfig -> bool, c: ColorScheme, t: Option<Tint>)
    requires Coherent(s)
    ensures Coherent(InitiateAdapter(s))
    ensures Coherent(ValidateAndConfigOpenAI(s, apiKey, domain, validate).settings)
    ensures Coherent(AdjustColorScheme(s, c)) && Coherent(AdjustTint(s, t))
  {
  }

  /**
   * Readiness never goes away: no transition of the settings object removes an
   * installed adapter, and only a usable stored key or a validated
   * configuration makes a settings object ready.
   */
  lemma ReadinessSticky(s: SettingsState, apiKey: string, domain: Option<string>, validate: AdapterConfig -> bool, c: ColorScheme, t: Option<Tint>)
    ensures AdapterReady(InitiateAdapter(s)) <==> AdapterReady(s) || HasUsableKey(s)
    ensures AdapterReady(ValidateAndConfigOpenAI(s, apiKey, domain, validate).settings) <==>
      AdapterReady(s) || validate(AdapterConfig(domain, apiKey))
    ensures AdapterReady(AdjustColorScheme(s, c)) == AdapterReady(s)
    ensures AdapterReady(AdjustTint(s, t)) == AdapterReady(s)
  {
  }
}
