# UAM paper-reference chat session, modelled in Dafny

This project models the session logic of a single-page Streamlit chat app (`app.py`). The app
forwards questions about Urban Air Mobility literature to an Azure OpenAI chat deployment. The
model covers:

- **configuration lookup** (`get_config`): a non-empty environment value wins, then the secrets
  store, then the default;
- **the credential gate**: the script stops unless both endpoint and key are truthy;
- **the session keys** in `st.session_state`: `messages`, `system_prompt`, `temperature` and
  `system_prompt_draft`. Each key is initialised only if it is absent. Applying the draft takes
  effect; editing it alone does not. Reset clears only the history;
- **the effective system prompt**: the applied system prompt plus one of three fixed search-mode
  suffixes, or nothing;
- **the turn**: a chat-box entry wins over a preset card. The user message is appended. The
  request is the system message followed by the whole history. The reply is appended after the
  remote call returns;
- **a whole rerun** of the script, and sequences of reruns.

Modules:

- `Wrappers`: `Option`, `Result`, Python truthiness of an optional string.
- `Chat`: messages, the outbound request, the completion outcome, and message-list shape predicates.
- `Config`: `get_config` and the credential gate.
- `Prompts`: the fixed texts, the mode suffix, the effective prompt, preset cards and prompt selection.
- `Session`: the session state as a value (`State`), where a missing key is `None`. It has pure
  transitions on that value and the class `Session`, whose fields are overwritten in place. Each
  method's postcondition ties the new `Snapshot()` to the pure transition.
- `Script`: one rerun, as the function `Run` and the method `Rerun`. The method drives a
  `Session` object, and the proof shows it matches `Run`. `RunAll` folds reruns and carries
  the multi-run invariants.

The remote completion is a parameter `complete: Request -> Completion`, where a completion is
either the reply text or a transport failure. The environment and the secrets store are
parameters of type `map<string, string>`. Temperature is a plain `real` that no contract does arithmetic on.

Three helpers have no row of their own in the table below. `Wrappers.Truthy` is Python truthiness of an
optional string, used by the tests at app.py:24, 38 and 328-335. `Config.Lookup` stands in for `os.getenv`
(app.py:23). `Script.RunAll` is a session's sequence of reruns, each with its own completion; the last three
rows of the table are about it.

Three behaviours of the code that the model keeps as written:

- The code does not catch errors from the completion call. The exception ends the rerun after the
  user message was appended, so the history keeps the user message and gets no assistant message.
  `TakeTurn` returns `Failed` with exactly that history.
- The code does not clamp or check the temperature. The slider widget bounds it, and its value is
  stored as given (`TemperatureSet`).
- Reset calls `st.experimental_rerun()`, so the rest of that rerun does not run: no preset and no
  turn. `Run` returns `Restarted` with the cleared state.

## Model

| member | source | states |
|---|---|---|
| `Config.GetConfig` | app.py:18-29 | A non-empty environment value is returned. An unset or empty one falls through to the secrets value when the key is there, even an empty one. Otherwise the default is returned. |
| `Config.EmptyEnvFallsThrough` | app.py:23-25 | An environment value set to "" gives the same result as the key being absent from the environment. |
| `Config.GetConfigProvenance` | app.py:18-29 | The result is the environment value, the secrets value or the default, and nothing else. |
| `Config.Startup` | app.py:34-46 | The gate opens exactly when the resolved endpoint and key are both truthy. The settings then carry exactly the resolved endpoint, key and deployment. |
| `Config.EnvironmentCredentialsSuffice` | app.py:34-38 | A non-empty endpoint and key in the environment open the gate whatever the secrets store holds, and they are the values used. |
| `Config.MissingCredentialStops` | app.py:38-46 | If the endpoint or the key is absent or empty in both stores, the script stops with the configuration error. |
| `Config.DeploymentDefaultsToMini` | app.py:36 | With no deployment configured in either store, the deployment is "gpt-4o-mini". |
| `Chat.ApiMessages` | app.py:342-345 | The API message list is one longer than the history. The system message with the effective prompt comes first, then the history unchanged. |
| `Chat.ApiMessagesHaveOneSystemMessage` | app.py:342-345 | If the history has no system message, the list sent has exactly one system message, at index 0. |
| `Prompts.ModeSuffix` | app.py:205-220 | Each of the three listed modes gets its fixed suffix. The suffix is empty exactly for the basic mode and for any string that is not one of those three. |
| `Prompts.EffectivePrompt` | app.py:222 | The effective prompt is the applied prompt followed by the mode suffix: its prefix is the prompt, the rest is the suffix, and the lengths add up. |
| `Prompts.EffectivePromptDeterminesSuffix` | app.py:205-222 | For a fixed applied prompt, two modes give equal effective prompts if and only if they give equal suffixes. |
| `Prompts.BasicModeAddsNothing` | app.py:205 | In the basic mode the effective prompt is the applied prompt itself. |
| `Prompts.MenuModesDistinct` | app.py:199-222 | For any applied prompt, the four radio entries give four pairwise distinct effective prompts. |
| `Prompts.PressedPreset` | app.py:260-312 | No preset unless a card was clicked. Otherwise it is the text of the last clicked card in page order, and it is non-empty. |
| `Prompts.SelectPrompt` | app.py:328-335 | Truthy chat input is the prompt. Otherwise a truthy preset is the prompt. There is no prompt exactly when neither is truthy, and a chosen prompt is always truthy. |
| `Session.Initialized` | app.py:151-173 | Every key becomes present. Present keys are kept. Absent ones get an empty history, the default role prompt, temperature 0.5, and a draft equal to the system prompt after its initialisation. |
| `Session.InitializedIdempotent` | app.py:151-173 | Running initialisation again (as every rerun does) changes nothing. |
| `Session.InitializedKeepsReadyState` | app.py:151-173 | A session whose keys are all present is left exactly as it is. |
| `Session.DraftApplied` | app.py:189-190 | Applying sets the system prompt to the draft. History, temperature and draft are unchanged. |
| `Session.DraftAppliedIdempotent` | app.py:189-190 | Applying twice is the same as applying once. |
| `Session.DraftAppliedDrivesEffectivePrompt` | app.py:189-222 | After applying, the effective prompt in every mode is the draft plus that mode's suffix. |
| `Session.DraftEdited` | app.py:182-187 | Editing the text area sets the draft only. |
| `Session.DraftEditKeepsEffectivePrompt` | app.py:182-222 | Editing the draft without applying it leaves the effective prompt unchanged in every mode. |
| `Session.TemperatureSet` | app.py:194-195 | The slider value becomes the stored temperature. Nothing else changes. |
| `Session.Cleared` | app.py:225-226 | Reset leaves the history empty. System prompt, draft and temperature are untouched. |
| `Session.TakeTurn` | app.py:335-357 | With no truthy prompt nothing happens. Otherwise the request has length history + 2: the effective prompt as system message, the old history, then the user message, with the stored temperature and the deployment. A reply appends exactly {user, prompt} then {assistant, reply}; a failed call appends only the user message. |
| `Session.TakeTurnAppends` | app.py:338-357 | A turn only appends: the old history is a prefix of the new one, which is at most two messages longer. |
| `Session.TakeTurnPreservesShape` | app.py:338-357 | A turn adds no system message to the history. Every assistant message directly follows a user message. The request sent has exactly one system message, at index 0. |
| `Session.FirstTurnAnswered` | app.py:335-357 | From an empty history, a completion answering "R1" to "입지선정 논문 추천해줘" leaves [{user, question}, {assistant, "R1"}]. |
| `Session.FirstTurnFailed` | app.py:338-352 | From an empty history, a failing completion leaves only the user message, after sending the system message and the question. |
| `Session.Session.constructor` | app.py:151 | A new session has none of the four keys. |
| `Session.Session.Init` | app.py:151-173 | The in-place initialisation produces exactly `Initialized` of the old state. |
| `Session.Session.ApplyDraft` | app.py:189-190 | The in-place assignment produces exactly `DraftApplied` of the old state. |
| `Session.Session.EditDraft` | app.py:182-187 | The widget's write produces exactly `DraftEdited` of the old state. |
| `Session.Session.SetTemperature` | app.py:194-195 | The in-place assignment produces exactly `TemperatureSet` of the old state. |
| `Session.Session.Reset` | app.py:225-226 | The in-place clear produces exactly `Cleared` of the old state. |
| `Session.Session.Turn` | app.py:335-357 | The two in-place appends around the remote call produce the history and result of `TakeTurn`. Prompt, temperature and draft are unchanged. |
| `Script.Run` | app.py:34-357 | A closed gate leaves the session untouched and stops. An open gate leaves every key present. A reset ends the rerun with an empty history. |
| `Script.Rerun` | app.py:34-357 | Running the script in place on a session object yields exactly the state and outcome of `Run`. |
| `Script.RunTurn` | app.py:189-357 | Outside a reset, a rerun keeps the applied prompt, draft and history it found, stores the slider's temperature, and sends what the applied prompt (the draft if applied in this rerun) plus the mode suffix gives. |
| `Script.RunPromptChoice` | app.py:326-335 | Chat input, when truthy, is the user message sent. Otherwise a clicked preset is. With neither there is no turn and the history is unchanged. |
| `Script.DraftEditWithoutApplyChangesNoRequest` | app.py:182-222 | An unapplied draft edit changes neither what a rerun sends nor the history it leaves. |
| `Script.ResetKeepsConfiguration` | app.py:225-227 | Reset (without an apply) yields an empty history with the same system prompt and draft, the slider's temperature, and ends the rerun. |
| `Script.RunPreservesWellFormed` | app.py:335-357 | A rerun keeps the history well formed, and any request it sends has exactly one system message, in front. |
| `Script.GateClosedLeavesSessionAlone` | app.py:38-46 | With the gate closed, no sequence of reruns changes the session, whatever each rerun's completion. |
| `Script.RunAllPreservesWellFormed` | app.py:335-357 | Every sequence of reruns keeps the history well formed: no system messages, and every reply right after a user message. Each rerun has its own completion, so the same request may get a different answer, or fail and then succeed, across reruns. |
| `Script.RunAllAppendOnly` | app.py:338-357 | Without a reset the history is append-only across reruns, each with its own completion. The old history stays a prefix, and each rerun adds at most two messages. |

## Left out

- Streamlit rendering (page config, CSS, hero and card HTML, chat bubbles, spinner, success and error notices): display only.
- Building the Azure OpenAI client and the network call itself: the completion is the parameter `complete`, and the API version string plays no part.
- `load_dotenv` and reading the environment and the secrets store: I/O, so both stores are parameters. Secrets values are modelled as strings.
- Temperature's slider bounds [0.0, 1.5] and step 0.1: floating point, enforced by the widget. Temperature is a plain `real`.
- The rerun Streamlit starts after a reset: `Run` ends with `Restarted`, and the follow-up rerun is the next `Run` with no clicks.
- When Streamlit writes the draft text area's value into the session: the edit is a separate transition (`DraftEdited`, `Session.Session.EditDraft`) between reruns.
- A reply whose content is `None` (the API allows it): the reply is always a string.
- Single-flight handling of concurrent submissions: the model is sequential, one rerun at a time, so turns cannot interleave.
- Errors escaping the script (the completion's exception, or a missing key before initialisation): a failed call is the `Failed` result, and the error display is not modelled.
