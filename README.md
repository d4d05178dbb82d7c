# Bluelink connector selection and UI test harness, in Dafny

This project models two small pieces of the Bluelink scriptable client and proves properties of them.

1. **The connector-selection validator** `initRegionalBluelink` (module `Bluelink`, `bluelink.dfy`).
   It takes a configuration and a `refreshAuth` flag that defaults to true. It throws "… is not
   supported" unless the manufacturer, lower-cased, is `hyundai`. Then it throws "… region is not
   supported" unless the region is exactly `usa`. Otherwise it returns whatever the United States
   connector's `init` returns for the same configuration and flag. The model is a function that
   returns a `Result`. The United States connector's `init` is passed in as a function parameter
   `usaInit`, because its body is not part of this model.

2. **The UI test harness** (module `UiTestMode`, `ui_test_mode.dfy`). This is a browser page that
   simulates the vehicle app with canned scenario fixtures. Its single mutable `state` record is
   the class `UiState`, which has the fields `selectedScenario`, `status`, `vehicle`, `events`,
   `setup` and `loggedIn`. The page's handlers update that record in place, and each is a method
   with a `modifies` frame:
   - `AddEvent` adds to the bounded, newest-first event log;
   - `TouchStatus` and `HandleAction` cover the eight vehicle actions;
   - `LoadScenario` loads a fixture;
   - `SubmitSetup` and `ResetSetup` are the setup form handlers;
   - `Login` and `Logout` are the session handlers.

   What the page shows is derived by functions of the record: the summary rows, the
   enabled/disabled controls and the session line. Each method's postcondition gives the whole new
   state in terms of specification functions (`PushEvent`, `ApplyAction`, `ActionEvent`,
   `Touched`, `FindScenario`, `VehicleFor`). The lemmas about those functions state what the
   harness promises.

`wrappers.dfy` holds the `Option` and `Result` datatypes.

The regional connector itself is not part of this model. That covers the session manager, the
status cache and the command dispatcher. It lives in `src/lib/bluelink-regions/base` and
`src/lib/bluelink-regions/usa`, which are not part of this model. The validator does not check for
missing credentials either. The code only checks manufacturer and region, so the model does the
same.

## Model

| member | source | states |
|---|---|---|
| `Bluelink.ToLowerAscii` | src/lib/bluelink.ts:6 | lower-casing keeps the length and lower-cases every character in place |
| `Bluelink.ErrorMessage` | src/lib/bluelink.ts:7-11 | the manufacturer error message is the manufacturer followed by " is not supported"; the region error message is the region followed by " region is not supported" |
| `Bluelink.InitRegionalBluelink` | src/lib/bluelink.ts:5-15 | the result is a success iff the lower-cased manufacturer is `hyundai` and the region is exactly `usa`; a success carries exactly `usaInit(config, refreshAuth)`; a bad manufacturer gives the manufacturer error whatever the region; a good manufacturer with a region other than `usa` gives the region error |
| `Bluelink.LowerSupportedIsFixed` | src/lib/bluelink.ts:6 | lower-casing `hyundai` gives `hyundai` back |
| `Bluelink.ManufacturerIgnoresCase` | src/lib/bluelink.ts:6 | the manufacturer guard accepts exactly the strings equal to `hyundai` up to ASCII letter case |
| `Bluelink.CaseExamples` | src/lib/bluelink.ts:6-12 | `Hyundai` and `HYUNDAI` are accepted; `Kia` and `hyundai ` are rejected; the region guard accepts `usa` and rejects `USA` and `Usa` |
| `Bluelink.ManufacturerErrorFirst` | src/lib/bluelink.ts:6-12 | with an unsupported manufacturer the result is the manufacturer error with its message, whatever the region, and `usaInit` plays no part |
| `Bluelink.ManufacturerCaseIrrelevant` | src/lib/bluelink.ts:6 | two configurations whose manufacturers differ only in letter case are both accepted or both rejected |
| `Bluelink.RefreshAuthDefaultsToTrue` | src/lib/bluelink.ts:5-14 | when `refreshAuth` is omitted, a valid configuration yields `usaInit(config, true)` |
| `UiTestMode.Fixtures` | tools/ui-test-mode/app.js:3-60 | the four scenario fixtures have distinct keys, and each is stamped with the page-load time |
| `UiTestMode.FindScenario` | tools/ui-test-mode/app.js:306-307 | the lookup fails iff no scenario has the key; otherwise it returns the first scenario with that key |
| `UiTestMode.FindByOwnKey` | tools/ui-test-mode/app.js:306 | when keys are distinct, looking up a scenario's own key returns that scenario |
| `UiTestMode.FixturesFound` | tools/ui-test-mode/app.js:3-60 | the four fixtures have distinct keys and each is found by its key |
| `UiTestMode.ParkedFixture` | tools/ui-test-mode/app.js:3-17 | the `parked` scenario exists and shows 58% fuel, locked doors, engine off and climate off |
| `UiTestMode.PushEvent` | tools/ui-test-mode/app.js:110-111 | adding an entry puts it at index 0 and keeps at most 10 entries; the surviving older entries follow in their old order; only the oldest is dropped when the log was full |
| `UiTestMode.Newest` | tools/ui-test-mode/app.js:111 | the newest ten of a log are its prefix of length exactly ten, or the whole log when it has fewer than ten entries |
| `UiTestMode.PushAllIsNewest` | tools/ui-test-mode/app.js:109-113 | adding several entries one at a time equals putting them, newest first, in front of the old log and keeping the first ten |
| `UiTestMode.OldEntriesForgotten` | tools/ui-test-mode/app.js:109-113 | after ten or more new entries, the log no longer depends on what it held before |
| `UiTestMode.Configured` | tools/ui-test-mode/app.js:133-135 | configured iff there is a setup whose username, password and PIN are all present and non-empty |
| `UiTestMode.VehicleFor` | tools/ui-test-mode/app.js:310-312 | the installed vehicle is the "Family SUV" of 2024; it is a Tucson iff the setup's manufacturer is exactly `hyundai`, otherwise a Sportage |
| `UiTestMode.VehicleChoiceIsCaseSensitive` | tools/ui-test-mode/app.js:310 | unlike the connector validator, `Hyundai` gives a Sportage; `hyundai` gives a Tucson; no setup gives a Sportage |
| `UiTestMode.KeyOf` | tools/ui-test-mode/app.js:62-71 | every action's key is one of the eight action-button keys |
| `UiTestMode.ActionOfKey` | tools/ui-test-mode/app.js:257-288 | a key selects an action iff it is that action's button key; every button key selects an action and any other key selects none |
| `UiTestMode.ApplyAction` | tools/ui-test-mode/app.js:261-287 | an action sets at most the one flag its effect names; every other flag and every reading is unchanged, and so is `lastUpdated`; refresh and horn change nothing |
| `UiTestMode.ActionEvent` | tools/ui-test-mode/app.js:258-287 | an action's log entry has class `warn` iff the action is unlock, engineOff or climateOff, never `error`, and carries the current local time |
| `UiTestMode.Touched` | tools/ui-test-mode/app.js:250-252 | touching sets `lastUpdated` to the current ISO time and changes no flag and no reading |
| `UiTestMode.FlagActions` | tools/ui-test-mode/app.js:261-287 | lock/unlock make `isLocked` true/false; engineOn/engineOff make `isRunning` true/false; climateOn/climateOff make `climateOn` true/false; lock leaves the other flags alone |
| `UiTestMode.ActionIdempotent` | tools/ui-test-mode/app.js:261-287 | applying the same action twice has the same effect as applying it once |
| `UiTestMode.FmtBool` | tools/ui-test-mode/app.js:98-100 | the result is "Yes" or "No", and "Yes" exactly for true |
| `UiTestMode.OrElse` | tools/ui-test-mode/app.js:161-170 | `x || fallback` on a string: the value itself when it is non-empty, otherwise the fallback |
| `UiTestMode.UnitFor` | tools/ui-test-mode/app.js:104 | distances are shown in miles iff the setup's `distanceUnit` is exactly `mi`, otherwise in kilometres |
| `UiTestMode.SummaryRows` | tools/ui-test-mode/app.js:157-172 | no status gives no rows; a status gives ten rows under the fixed terms, in order |
| `UiTestMode.SummaryVehicleCells` | tools/ui-test-mode/app.js:161-170 | the vehicle row shows the nickname or "Unknown"; the model row shows year and model trimmed; the last row shows `lastUpdated` or "N/A" |
| `UiTestMode.SummaryReadingCells` | tools/ui-test-mode/app.js:163-169 | the fuel row shows the fuel percentage; range and odometer are shown in the unit the setup chooses |
| `UiTestMode.SummaryFlagCells` | tools/ui-test-mode/app.js:165-168 | the engine, doors, climate and tire rows show "Yes" exactly when their flag is set |
| `UiTestMode.SummaryView` | tools/ui-test-mode/app.js:176 | logged out, the summary is the single "Login required" row; logged in, it is exactly the summary rows of the current status, vehicle and setup, so empty when there is no status |
| `UiTestMode.Trim` | tools/ui-test-mode/app.js:162 | `.trim()` never lengthens its input and leaves no whitespace at either end of the result |
| `UiTestMode.TrimStartSpec` | tools/ui-test-mode/app.js:162 | trimming the start drops exactly the leading whitespace: the result is a suffix of the input, everything dropped is whitespace, and the result does not start with whitespace |
| `UiTestMode.TrimEndSpec` | tools/ui-test-mode/app.js:162 | trimming the end drops exactly the trailing whitespace, symmetrically |
| `UiTestMode.TrimSpec` | tools/ui-test-mode/app.js:162 | `trim` returns a contiguous part of its input with only whitespace removed on either side, and the result has no whitespace at either end |
| `UiTestMode.ModelRow` | tools/ui-test-mode/app.js:162 | with a vehicle installed by `loadScenario`, the model row reads "2024 Tucson" or "2024 Sportage" |
| `UiTestMode.ControlState` | tools/ui-test-mode/app.js:242-248 | action and scenario buttons are enabled iff logged in; login is enabled iff configured and logged out; logout is enabled iff logged in; login and logout are never both enabled |
| `UiTestMode.SessionText` | tools/ui-test-mode/app.js:137-145 | without a configuration the line asks for setup; configured and logged out it says so; logged in it is "Logged in as ", the username, then the manufacturer and region in parentheses separated by a slash, a missing field printed as `undefined` |
| `UiTestMode.UiState.constructor` | tools/ui-test-mode/app.js:73-84 | the initial record: scenario `parked`, no status, a Sportage, empty log, no setup, logged out; the fixtures are stamped with the page-load time |
| `UiTestMode.UiState.AddEvent` | tools/ui-test-mode/app.js:109-113 | only the log changes, and the new log is the old one with the entry pushed; the log stays at most ten entries long |
| `UiTestMode.UiState.TouchStatus` | tools/ui-test-mode/app.js:250-252 | a present status is stamped with the current time; an absent one stays absent |
| `UiTestMode.UiState.HandleAction` | tools/ui-test-mode/app.js:254-293 | with no status or no session nothing changes; otherwise a known action applies its effect, stamps the status and adds exactly one entry; an unknown key only stamps the status; only status and log can change |
| `UiTestMode.UiState.LoadScenario` | tools/ui-test-mode/app.js:305-320 | an unknown key changes nothing; a known key selects it, installs a copy of its fixture as status, installs the vehicle for the setup and logs "Scenario loaded: " with the scenario's name |
| `UiTestMode.UiState.SubmitSetup` | tools/ui-test-mode/app.js:334-346 | stores the form as setup and logs out; logs "Setup saved", then reloads the selected scenario (status reset to its fixture, vehicle from the new setup); afterwards only login can be enabled, and only if the form is configured |
| `UiTestMode.UiState.ResetSetup` | tools/ui-test-mode/app.js:348-359 | clears the setup, logs out and logs a `warn` "Setup reset"; every control is then disabled and the summary asks for login; status is kept |
| `UiTestMode.UiState.Login` | tools/ui-test-mode/app.js:363-377 | not configured: only an `error` entry is logged and `loggedIn` is unchanged; configured: logged in with "Login successful", after which actions, scenarios and logout are enabled and login is not |
| `UiTestMode.UiState.Logout` | tools/ui-test-mode/app.js:379-386 | logs out with a `warn` entry; actions and logout are then disabled, login is enabled iff configured, and the summary asks for login |

Other properties stated by the model:
- The fixtures are a `const` of `UiState`, so no action can alter them, and a loaded status is always a copy.
- `UiState.Valid()` holds in every state reached by the methods. It says that the log has at most ten entries and that the selected scenario is the key of one of the fixtures. This is why `SubmitSetup` always reloads a scenario.

## Left out

- The regional connector: login and session handling, status caching and command confirmation. It lives behind the imports at `src/lib/bluelink.ts:1` and `:3`, which are not part of this model.
- The body of the United States connector's `init` and the `Bluelink` base class: `init` is the parameter `usaInit` and its result type is a type parameter.
- ToLowerAscii: does not model Unicode case mapping; only the ASCII letters A–Z are lower-cased. This changes no outcome of the manufacturer guard: no non-ASCII character lower-cases to a single letter of `hyundai` (the Kelvin sign becomes `k`, and `İ` becomes `i` followed by a combining dot, which never matches), so `ManufacturerSupported` decides exactly as the source does. Only `ToLowerAscii` applied to other strings differs from JavaScript's `toLowerCase`.
- `tools/ui-test-mode/server.mjs`: a static file server; it is I/O only.
- The DOM: element construction in `renderEvents`, `renderSummary`, `renderWidgets`, the scenario and action buttons and their wiring, the setup form fields and the `active` button highlighting. Only the derived rows, booleans and strings are modelled.
- The widget preview (`renderWidgets`): rendering only.
- Browser storage: `saveSetup`, `loadSetup`, `clearSetup` and `bootstrapSetupFromStorage`, as well as the start-up sequence at app.js:404-413. The constructor models the initial `state` literal. The start-up call to `loadScenario` is `LoadScenario` called by the client.
- The wall clock: every transition takes a `Timestamp` holding the ISO and local-time renderings of one instant. The separate `new Date()` calls within one handler, and those that stamp the four fixtures, are taken to read the same instant.
- The 550 ms wait in the login handler: login is one atomic step. In the page, the setup form can be submitted, or the setup reset, during the wait. The handler then sets `loggedIn` to true afterwards anyway, leaving the page logged in with no setup or an unconfigured one. The model cannot reach that state, because in the model a successful login requires the setup to be configured at that moment.
- Number formatting: fuel, range and odometer are kept as numbers in the `Cell` datatype. The mile conversion with `toFixed(1)` and the `toLocaleString` rendering of kilometres use floating point and are not modelled; only the choice of unit is. The "N/A" branch of `asDistance` for non-numbers is not reachable with a present status, so it is left out.
- Trim: only the space, tab, line-feed and carriage-return characters are treated as whitespace, not all of JavaScript's whitespace characters.
- The setup is the map of form entries. Setups read back from storage with non-string values are not modelled.
