# AssisChat decision logic, modelled in Dafny

AssisChat is a chat client for OpenAI-style language-model backends. In front of
its streaming exchange pipeline sits a thin layer of decision logic, and this
project models that layer:

- **Backend configuration** (`Settings`, `settings_feature.dfy`). The settings
  object stores an optional API key and an optional proxy domain, and it holds the
  chatting adapter built from them. `InitiateAdapter` installs an adapter only
  when a non-empty key is stored. `ValidateAndConfigOpenAI` builds a candidate
  adapter and has the network validate it. It commits the adapter, key and domain
  together, or it changes nothing. The same module covers the colour-scheme and
  tint enumerations and their stored raw values.
- **Configuration form** (`SourceConfig`, `chat_source_config.dfy`). This is the
  "Validate and Save" form. An empty key is refused before any validation. An
  empty domain field becomes "no domain". A `validating` flag disables the button
  while a validation is pending. Each attempt produces exactly one alert. Together
  with the settings rule, this proves that a key committed through the form is
  never empty.
- **Chat screen** (`ChattingView`, `chatting_view.dfy`; records in `ChatModel`,
  `chat_model.dfy`). This covers send gating and the text handed to the pipeline,
  which is `prefix + "\n\n" + text`. It also covers the single-selection toggle on
  messages, what an assistant bubble shows, and which actions a selected message
  offers.
- **Message list order** (`MessageOrder`, `message_order.dfy`). The chat's
  messages are fetched newest first; the view then draws the list bottom-up, so
  the newest message appears at the bottom. When timestamps are distinct, the
  fetched order is unique.

Every action is one atomic transition over immutable records. The network
validation of a configuration is the oracle parameter `validate: AdapterConfig ->
bool`, and it is asked about the candidate adapter's configuration. A series of
save attempts gets one such oracle per attempt, so a retry may be answered
differently. Calls into the
exchange pipeline are returned as `Request` values and are not executed:
streaming send, resend, deletion and copying to the pasteboard.

Three facts about the code shape the model:

- The processed content puts a blank line (`"\n\n"`) between the chat's prefix and
  the typed text.
- The chat input's `adapterReady` looks the chat's model up in a model-to-adapter
  table. The settings object in the modelled files exposes only one adapter and
  no such table. The chat side is therefore modelled with
  its own generic lookup `map<string, A>`, independent of `Settings.AdapterReady`.
- `validateAndConfigOpenAI` does not itself reject an empty key. Only the form
  guarantees a non-empty key, so the "never empty" invariant is stated for the
  form path (`SourceConfig.FormReachable`).

## Model

| member | source | states |
|---|---|---|
| Settings.ColorSchemeFromRaw | AssisChat/Features/Settings/SettingsFeature.swift:85-86 | decoding a raw value yields the scheme whose raw value it is; text that is no scheme's raw value decodes to none |
| Settings.ColorSchemeRawRoundTrip | AssisChat/Features/Settings/SettingsFeature.swift:85-86 | the three raw values are pairwise distinct, and reading back a written scheme gives the same scheme |
| Settings.SystemScheme | AssisChat/Features/Settings/SettingsFeature.swift:88-94 | automatic is the only choice that gives no override; light pins the system light scheme and dark pins dark, each in both directions |
| Settings.SystemSchemeInjective | AssisChat/Features/Settings/SettingsFeature.swift:88-94 | no two colour-scheme choices reach the platform as the same override |
| Settings.TintFromRaw | AssisChat/Features/Settings/SettingsFeature.swift:97-105 | decoding a raw value is the inverse of the tint's raw value; text that is no tint's raw value decodes to none |
| Settings.ChoiceListsComplete | AssisChat/Features/Settings/SettingsFeature.swift:68-83 | the colour-scheme and tint lists each offer every case exactly once |
| Settings.InitiateAdapter | AssisChat/Features/Settings/SettingsFeature.swift:44-50 | a missing or empty stored key changes nothing; a usable key installs an adapter whose config is exactly the stored domain and key, and the stored values stay the same |
| Settings.Init | AssisChat/Features/Settings/SettingsFeature.swift:30-34 | after construction an adapter is ready exactly when a non-empty key was stored, and it matches the stored credentials |
| Settings.AdjustColorScheme | AssisChat/Features/Settings/SettingsFeature.swift:36-38 | the chosen scheme is stored and nothing else changes |
| Settings.AdjustTint | AssisChat/Features/Settings/SettingsFeature.swift:40-42 | the chosen tint is stored and nothing else changes |
| Settings.ValidateAndConfigOpenAI | AssisChat/Features/Settings/SettingsFeature.swift:52-64 | the answer is the validation outcome of the candidate (domain, key); on success the adapter, key and domain are replaced together and appearance is kept; on failure nothing changes |
| Settings.ReadinessSticky | AssisChat/Features/Settings/SettingsFeature.swift:24-64 | `adapterReady` (an adapter is installed) never goes from true to false; initiating makes it true exactly when a usable key is stored, validating exactly when the candidate passes, and the appearance setters leave it alone |
| Settings.CoherenceInvariant | AssisChat/Features/Settings/SettingsFeature.swift:44-64 | every settings transition keeps the installed adapter in step with the stored domain and key, whatever validation answers |
| SourceConfig.NormalizeDomain | AssisChat/Features/Settings/ChatSourceConfigView.swift:77 | an empty domain field is passed as absent and a non-empty one verbatim; the result is never an empty domain |
| SourceConfig.NormalizeDomainRoundTrip | AssisChat/Features/Settings/ChatSourceConfigView.swift:77 | showing a stored domain in the field and normalising it gives it back, exactly when it is not the empty string |
| SourceConfig.OpenForm | AssisChat/Features/Settings/ChatSourceConfigView.swift:15 | the opened form shows the stored key (or "") and the stored domain (or ""), and nothing is pending |
| SourceConfig.BeginSave | AssisChat/Features/Settings/ChatSourceConfigView.swift:72-79 | an empty key is refused with the "Please input API key" error and no validation; otherwise the form turns to validating, with the save button disabled, and the typed key and normalised domain go to validation |
| SourceConfig.FinishSave | AssisChat/Features/Settings/ChatSourceConfigView.swift:81-89 | appearance settings are kept and, on success, the installed adapter is the candidate; after the call, validating is cleared and exactly one alert is shown, with the exact title and message texts: success exactly when validation accepted, in which case key and domain are committed; error otherwise, with settings untouched |
| SourceConfig.ValidateAndSave | AssisChat/Features/Settings/ChatSourceConfigView.swift:70-92 | the typed fields and the appearance settings are kept; on success the adapter is the candidate built from the typed key and normalised domain; each attempt yields exactly one alert with its exact text ("Please input API key", the success alert or "Failed to validate"); success iff the key is non-empty and validation accepts it; an empty key leaves the settings and form untouched |
| SourceConfig.PressSave | AssisChat/Features/Settings/ChatSourceConfigView.swift:46-64 | a press while validating does nothing; an enabled press runs one save: one alert, success iff the key is non-empty and validation accepts the candidate, in which case exactly key, domain and adapter are replaced; otherwise settings untouched; the typed fields stay |
| SourceConfig.InitReachable | AssisChat/Features/Settings/SettingsFeature.swift:30-34 | settings constructed from what the form wrote satisfy the form invariant, and an adapter is ready exactly when a key is stored |
| SourceConfig.SavePreservesReachable | AssisChat/Features/Settings/ChatSourceConfigView.swift:72-81 | a save through the form never commits an empty key or empty domain and keeps the adapter coherent |
| SourceConfig.ResaveUnchanged | AssisChat/Features/Settings/ChatSourceConfigView.swift:15 | opening the form and saving it unchanged validates exactly the stored key and domain, so an absent domain stays absent |
| SourceConfig.RunAttemptsInvariant | AssisChat/Features/Settings/ChatSourceConfigView.swift:70-92 | over any series of attempts, each validated by its own answer from the network, there is one alert per attempt, the form invariant holds, and the final key is the initial one or a submitted key that its attempt's validation accepted |
| SourceConfig.RetryCanSucceed | AssisChat/Features/Settings/SettingsFeature.swift:55-63 | the same form submitted twice can fail validation and then succeed on retry, committing the key the second time |
| SourceConfig.PressWhilePending | AssisChat/Features/Settings/ChatSourceConfigView.swift:64 | while an attempt's validation is pending the button is disabled: another press changes nothing and shows no alert |
| SourceConfig.FieldText | AssisChat/Features/Settings/ChatSourceConfigView.swift:15 | a field is blank exactly when nothing, or a blank string, is stored, and otherwise shows the stored text |
| ChattingView.SendGates | AssisChat/Features/Chating/ChattingView.swift:331-337 | send is available exactly when text is non-empty, the chat is not receiving and the chat's model has a lookup entry; which adapter the entry holds does not matter, and a receiving chat ignores presses |
| ChattingView.SelectionIsExclusive | AssisChat/Features/Chating/ChattingView.swift:130-132 | all message items share one selection, so among distinct messages at most one is active, and one is exactly when the selection names a listed message |
| ChattingView.SentMessageShowsTypedText | AssisChat/Features/Chating/ChattingView.swift:264 | a user message created from a send shows the typed text, which differs from the processed content whenever the chat has a prefix |
| ChattingView.ActionClosesBar | AssisChat/Features/Chating/ChattingView.swift:209-226 | pressing copy or resend closes the action bar it was pressed on; delete leaves the selection unchanged |
| ChattingView.NoModelNotReady | AssisChat/Features/Chating/ChattingView.swift:331-333 | a chat with no model never has a ready adapter, so send is unavailable |
| ChattingView.ProcessedContent | AssisChat/Features/Chating/ChattingView.swift:373 | the typed text ends the processed content; with a prefix, the content is the prefix, then the two-newline separator, then the text; without one, it is the text alone |
| ChattingView.StripPrefixRoundTrip | AssisChat/Features/Chating/ChattingView.swift:372-373 | removing the prefix inverts processing, and every successful removal inverts processing |
| ChattingView.EditText | AssisChat/Features/Chating/ChattingView.swift:351 | the text field takes edits only while the adapter is ready |
| ChattingView.EditsIgnoredWhenNotReady | AssisChat/Features/Chating/ChattingView.swift:343-360 | while the adapter is not ready, no series of edits changes the field or makes send available |
| ChattingView.PressSend | AssisChat/Features/Chating/ChattingView.swift:362-374 | a send happens exactly when text is non-empty, the chat is not receiving and the adapter is ready; it sends the typed text as a user message of this chat, with processed content carrying the prefix, and clears the field |
| ChattingView.NoDoubleSend | AssisChat/Features/Chating/ChattingView.swift:365-366 | pressing send again right after a send does nothing, because the field was cleared |
| ChattingView.ToggleActive | AssisChat/Features/Chating/ChattingView.swift:146-154 | after a tap the message is selected exactly when it was not, and no other message is selected |
| ChattingView.ToggleTwice | AssisChat/Features/Chating/ChattingView.swift:130-154 | a tap always changes the selection; two taps on one message restore it exactly when it started empty or on that message |
| ChattingView.AssistantBubble | AssisChat/Features/Chating/ChattingView.swift:169-175 | content takes precedence over the spinner, and the spinner over the failure reason; nothing is shown exactly when there is no content, nothing in flight and no reason |
| ChattingView.BubbleNeverEmpty | AssisChat/Features/Chating/ChattingView.swift:169-175 | a message in a legal state always shows something (content, spinner or reason), and a receiving one never shows a failure |
| ChattingView.UserBubbleText | AssisChat/Features/Chating/ChattingView.swift:264 | a user bubble shows the content, or "" when there is none |
| ChattingView.OfferedActions | AssisChat/Features/Chating/ChattingView.swift:193-301 | actions appear only on the selected message; resend appears exactly on a selected assistant message that is not receiving; a user message offers copy and delete |
| ChattingView.PressAction | AssisChat/Features/Chating/ChattingView.swift:195-306 | delete removes just this message; copy and resend clear the selection; resend targets the same message record |
| MessageOrder.ChatMessages | AssisChat/Features/Chating/ChattingView.swift:23 | a message is listed exactly when it is stored and belongs to the chat |
| MessageOrder.Insert | AssisChat/Features/Chating/ChattingView.swift:22 | inserting into a newest-first list keeps it newest first and adds exactly that message |
| MessageOrder.Fetch | AssisChat/Features/Chating/ChattingView.swift:21-23 | the fetched list is newest first and holds exactly the chat's stored messages, each as often as stored |
| MessageOrder.OrderDetermined | AssisChat/Features/Chating/ChattingView.swift:22 | with distinct timestamps, two newest-first lists of the same messages are equal |
| MessageOrder.FetchDetermined | AssisChat/Features/Chating/ChattingView.swift:21-23 | with distinct timestamps, the chat's newest-first message list is unique |

## Left out

- The streaming exchange pipeline is not part of this model. That covers the chatting feature's streaming send and resend, the message feature's deletion, and the ChatGPT adapter with its `validateConfig` HTTP round-trip. The view's calls into the pipeline are modelled as `Request` values. The settings object's validation call is modelled as the oracle parameter.
- The `Task { ... }` scheduling and `@Published` observation are left out. Each button action is one atomic transition. So the model does not cover two presses of "Validate and Save" that both start before `validating` is set inside the task.
- Persistence (`@AppStorage` keys, `@FetchRequest`/Core Data) is left out. Stored settings are plain optional fields, and the message store is a sequence.
- `Tint.color`, layout, animations, colours, the empty-state view, the send button's spinner, placeholder and localised strings, and alert rendering are presentation only. Only the kind and text of each alert are modelled.
- The failure-reason type of a message is defined outside the modelled files. `ChatModel.FailReason` is an assumed enumeration; the model only copies a reason from a message into what its bubble shows.
- ChattingView.NoDoubleSend: holds only because a press and the `Task` it starts are one step. In the code the availability guard runs at press time, but the text is cleared inside the task, so a second press before that task runs passes the guard and its own task can send an empty message. The model does not cover this window.
- ChattingView.BubbleNeverEmpty: promises that something is shown, not that it is non-blank. A receiving message whose content is the empty string shows that empty content and no spinner, because content takes precedence.
- ChatModel.WellFormed: the message record is defined outside the modelled files. The three-state message invariant (receiving, complete or failed) is an assumption about it, and `BubbleNeverEmpty` takes it as a hypothesis.
- Settings.ColorSchemeFromRaw: models only the raw-value initialiser. When stored text decodes to nothing, the stored colour scheme falls back to its default `automatic`; that fallback belongs to the storage layer and is not modelled.
- MessageOrder.ChatMessages: the chat's message predicate is defined outside the modelled files. The model assumes it selects exactly the messages whose chat is this one (`ChatModel.BelongsTo`).
- MessageOrder.Fetch: the sort key `rawTimestamp` is defined outside the modelled files and is modelled as an integer. The bottom-up drawing of the list is presentation and is left out.
- MessageOrder.Fetch: equal timestamps keep an unspecified relative order in the platform's sort. The contract fixes the order only up to ties, and `OrderDetermined` shows that it is unique once timestamps are distinct.
