/**
 * The "chat source" configuration form: two text fields (API key, proxy
 * domain) and a "Validate and Save" button that hands the fields to the
 * settings object. One press of the button is one save attempt; its two halves
 * (before and after the awaited validation) are separate transitions so the
 * `validating` flag can be observed in between.
 */
module SourceConfig {
  import opened Wrappers
  import opened Settings

  /** The form's state: the two fields as typed, and whether a validation is pending. */
  datatype Form = Form(apiKeyField: string, domainField: string, validating: bool)

  /** The two alert kinds the app can show; only which one is produced is modelled. */
  datatype Alert = ErrorAlert(message: string) | GeneralAlert(title: string, message: string)

  const MissingKeyMessage := "Please input API key"
  const SuccessTitle := "Success"
  const SuccessMessage := "Success validated the config and saved."
  const FailureMessage := "Failed to validate"

  /** What a text field shows for an optional stored value: blank when nothing, or a blank string, is stored. */
  function FieldText(stored: Option<string>): (r: string)
    ensures r == "" <==> stored.None? || stored == Some("")
    ensures stored.Some? ==> r == stored.value
  {
    stored.GetOr("")
  }

  /** The domain passed on from the form: an empty field means "no domain". */
  function NormalizeDomain(field: string): (r: Option<string>)
    ensures r != Some("")
    ensures FieldText(r) == field
  {
    if field == "" then None else Some(field)
  }

  /** Normalising what a field shows gives back the stored value, unless that value is an empty domain. */
  lemma NormalizeDomainRoundTrip(stored: Option<string>)
    ensures NormalizeDomain(FieldText(stored)) == stored <==> stored != Some("")
  {
  }

  /** The form as opened: fields pre-filled from the stored settings, nothing pending. */
  function OpenForm(s: SettingsState): (f: Form)
    ensures !f.validating
    ensures f.apiKeyField == FieldText(s.apiKey) && f.domainField == FieldText(s.domain)
    ensures f.apiKeyField == "" <==> !HasUsableKey(s)
    ensures HasUsableKey(s) ==> f.apiKeyField == s.apiKey.value
    ensures s.domain != Some("") ==> NormalizeDomain(f.domainField) == s.domain
  {
    NormalizeDomainRoundTrip(s.domain);
    Form(FieldText(s.apiKey), FieldText(s.domain), false)
  }

  /** The save button is disabled while a validation is pending. */
  predicate SaveEnabled(f: Form) {
    !f.validating
  }

  /** The first half of an attempt: either it stops at once with an alert, or a validation call is issued. */
  datatype Start =
    | Rejected(alert: Alert)
    | Pending(form: Form, apiKey: string, domain: Option<string>)

  /**
   * An empty key is refused with an error alert before anything is validated;
   * otherwise the domain field is normalised, the form is marked as validating
   * and the key and domain are what will be validated.
   */
  function BeginSave(f: Form): (r: Start)
    ensures r.Rejected? <==> f.apiKeyField == ""
    ensures r.Rejected? ==> r.alert == ErrorAlert(MissingKeyMessage)
    ensures r.Pending? ==>
      && r.apiKey == f.apiKeyField
      && r.apiKey != ""
      && FieldText(r.domain) == f.domainField
      && r.domain != Some("")
      && r.form == f.(validating := true)
      && !SaveEnabled(r.form)
  {
    if f.apiKeyField == "" then Rejected(ErrorAlert(MissingKeyMessage))
    else Pending(f.(validating := true), f.apiKeyField, NormalizeDomain(f.domainField))
  }

  /** The form, the settings and the alerts after (part of) an attempt. */
  datatype Outcome = Outcome(form: Form, settings: SettingsState, alerts: seq<Alert>)

  /**
   * The second half: the awaited configuration call returns, `validating` is
   * cleared and exactly one alert reports whether the settings were saved.
   */
  function FinishSave(f: Form, s: SettingsState, apiKey: string, domain: Option<string>, validate: AdapterConfig -> bool): (r: Outcome)
    ensures !r.form.validating
    ensures r.form.apiKeyField == f.apiKeyField && r.form.domainField == f.domainField
    ensures |r.alerts| == 1
    ensures r.alerts[0].GeneralAlert? <==> validate(AdapterConfig(domain, apiKey))
    ensures r.alerts == [GeneralAlert(SuccessTitle, SuccessMessage)] || r.alerts == [ErrorAlert(FailureMessage)]
    ensures r.alerts[0].GeneralAlert? ==> r.settings.apiKey == Some(apiKey) && r.settings.domain == domain && AdapterReady(r.settings)
    ensures r.alerts[0].GeneralAlert? ==> r.settings.adapter == Some(ChatGPTAdapter(AdapterConfig(domain, apiKey)))
    ensures r.settings.colorScheme == s.colorScheme && r.settings.tint == s.tint
    ensures r.alerts[0].ErrorAlert? ==> r.settings == s
  {
    var configured := ValidateAndConfigOpenAI(s, apiKey, domain, validate);
    var alert := if configured.validated then GeneralAlert(SuccessTitle, SuccessMessage) else ErrorAlert(FailureMessage);
    Outcome(f.(validating := false), configured.settings, [alert])
  }

  /**
   * One whole save attempt. An empty key yields one error alert and leaves the
   * settings untouched with no validation; otherwise the key and normalised
   * domain are validated, and one alert says whether they were committed.
   */
  function ValidateAndSave(f: Form, s: SettingsState, validate: AdapterConfig -> bool): (r: Outcome)
    ensures |r.alerts| == 1
    ensures f.apiKeyField == "" ==> r.alerts == [ErrorAlert(MissingKeyMessage)] && r.settings == s && r.form == f
    ensures f.apiKeyField != "" ==> !r.form.validating
    ensures f.apiKeyField != "" ==>
      r.alerts == [GeneralAlert(SuccessTitle, SuccessMessage)] || r.alerts == [ErrorAlert(FailureMessage)]
    ensures r.alerts[0].GeneralAlert? <==> f.apiKeyField != "" && validate(AdapterConfig(NormalizeDomain(f.domainField), f.apiKeyField))
    ensures r.alerts[0].GeneralAlert? ==> r.settings.apiKey == Some(f.apiKeyField) && r.settings.domain == NormalizeDomain(f.domainField)
    ensures r.alerts[0].GeneralAlert? ==> r.settings.adapter == Some(ChatGPTAdapter(Candidate(f)))
    ensures r.settings.colorScheme == s.colorScheme && r.settings.tint == s.tint
    ensures r.form.apiKeyField == f.apiKeyField && r.form.domainField == f.domainField
    ensures r.alerts[0].ErrorAlert? ==> r.settings == s
  {
    match BeginSave(f)
    case Rejected(alert) => Outcome(f, s, [alert])
    case Pending(pending, apiKey, domain) => FinishSave(pending, s, apiKey, domain, validate)
  }

  /** A press of the button: ignored while it is disabled, a save attempt otherwise. */
  function PressSave(f: Form, s: SettingsState, validate: AdapterConfig -> bool): (r: Outcome)
    ensures !SaveEnabled(f) ==> r == Outcome(f, s, [])
    ensures SaveEnabled(f) ==> |r.alerts| == 1 && SaveEnabled(r.form)
    ensures SaveEnabled(f) ==> r.form.apiKeyField == f.apiKeyField && r.form.domainField == f.domainField
    ensures SaveEnabled(f) ==> (r.alerts[0].GeneralAlert? <==> f.apiKeyField != "" && validate(Candidate(f)))
    ensures SaveEnabled(f) && r.alerts[0].GeneralAlert? ==>
      r.settings == s.(apiKey := Some(f.apiKeyField), domain := NormalizeDomain(f.domainField), adapter := Some(ChatGPTAdapter(Candidate(f))))
    ensures SaveEnabled(f) && r.alerts[0].ErrorAlert? ==> r.settings == s
  {
    if SaveEnabled(f) then ValidateAndSave(f, s, validate) else Outcome(f, s, [])
  }

  /**
   * While the validation started by an attempt is pending, the button is
   * disabled: pressing it again changes nothing and shows no alert.
   */
  lemma PressWhilePending(f: Form, s: SettingsState, validate: AdapterConfig -> bool)
    requires BeginSave(f).Pending?
    ensures PressSave(BeginSave(f).form, s, validate) == Outcome(BeginSave(f).form, s, [])
  {
  }

  /**
   * The settings every run of the app can reach through this form: the adapter
   * matches the stored credentials, a stored key is never empty and a stored
   * domain is never the empty string.
   */
  predicate FormReachable(s: SettingsState) {
    Coherent(s) && s.apiKey != Some("") && s.domain != Some("")
  }

  /** The settings as first constructed from storage that this form wrote. */
  lemma InitReachable(c: ColorScheme, t: Option<Tint>, domain: Option<string>, apiKey: Option<string>)
    requires apiKey != Some("") && domain != Some("")
    ensures FormReachable(Init(c, t, domain, apiKey))
    ensures AdapterReady(Init(c, t, domain, apiKey)) <==> apiKey.Some?
  {
  }

  /** A save attempt through the form never commits an empty key, whatever validation answers. */
  lemma SavePreservesReachable(f: Form, s: SettingsState, validate: AdapterConfig -> bool)
    requires FormReachable(s)
    ensures FormReachable(ValidateAndSave(f, s, validate).settings)
  {
  }

  /**
   * Opening the form on reachable settings and saving it unchanged asks to
   * validate exactly the stored configuration: the absent domain becomes the
   * empty field and comes back absent.
   */
  lemma ResaveUnchanged(s: SettingsState)
    requires FormReachable(s) && s.apiKey.Some?
    ensures BeginSave(OpenForm(s)) == Pending(OpenForm(s).(validating := true), s.apiKey.value, s.domain)
  {
  }

  /**
   * Runs a series of save attempts, one per form as submitted, collecting all
   * alerts. The network may answer each attempt differently: attempt number
   * `attempt` is validated by `validate(attempt)`.
   */
  function RunAttempts(s: SettingsState, submitted: seq<Form>, validate: nat -> AdapterConfig -> bool, attempt: nat): (r: Outcome)
    requires |submitted| > 0
    decreases |submitted|
  {
    var first := ValidateAndSave(submitted[0], s, validate(attempt));
    if |submitted| == 1 then first
    else
      var rest := RunAttempts(first.settings, submitted[1..], validate, attempt + 1);
      Outcome(rest.form, rest.settings, first.alerts + rest.alerts)
  }

  /** The key and normalised domain a submitted form asks to validate. */
  function Candidate(f: Form): AdapterConfig {
    AdapterConfig(NormalizeDomain(f.domainField), f.apiKeyField)
  }

  /**
   * Over any series of attempts, there is exactly one alert per attempt, the
   * reachable-settings invariant holds throughout, and the key in force at the
   * end is the initial one or one that some submitted form carried and that
   * attempt's validation accepted.
   */
  lemma {:induction false} RunAttemptsInvariant(s: SettingsState, submitted: seq<Form>, validate: nat -> AdapterConfig -> bool, attempt: nat)
    requires |submitted| > 0
    requires FormReachable(s)
    ensures var r := RunAttempts(s, submitted, validate, attempt);
      && |r.alerts| == |submitted|
      && FormReachable(r.settings)
      && (r.settings.apiKey == s.apiKey ||
          exists i :: 0 <= i < |submitted| && r.settings.apiKey == Some(submitted[i].apiKeyField)
                      && validate(attempt + i)(Candidate(submitted[i])))
    decreases |submitted|
  {
    var first := ValidateAndSave(submitted[0], s, validate(attempt));
    SavePreservesReachable(submitted[0], s, validate(attempt));
    if |submitted| > 1 {
      RunAttemptsInvariant(first.settings, submitted[1..], validate, attempt + 1);
      var r := RunAttempts(s, submitted, validate, attempt);
      if r.settings.apiKey != s.apiKey && r.settings.apiKey != first.settings.apiKey {
        var i :| 0 <= i < |submitted[1..]| && r.settings.apiKey == Some(submitted[1..][i].apiKeyField)
                 && validate(attempt + 1 + i)(Candidate(submitted[1..][i]));
        assert submitted[1..][i] == submitted[i + 1];
      }
    }
  }

  /**
   * Submitting the same form twice can get two different answers: the first
   * validation fails and the retry succeeds.
   */
  lemma RetryCanSucceed(s: SettingsState, f: Form)
    requires f.apiKeyField != ""
    ensures var r := RunAttempts(s, [f, f], (k: nat) => (c: AdapterConfig) => k > 0, 0);
      r.alerts == [ErrorAlert(FailureMessage), GeneralAlert(SuccessTitle, SuccessMessage)]
      && r.settings.apiKey == Some(f.apiKeyField)
  {
    var v := (k: nat) => (c: AdapterConfig) => k > 0;
    var first := ValidateAndSave(f, s, v(0));
    assert first.settings == s;
    assert [f, f][1..] == [f];
  }
}
