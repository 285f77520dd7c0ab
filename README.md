# Feature gating and screen decisions, verified in Dafny

This project models three small pieces of decision logic from the browser and
its JavaScript engine, and proves what their code and doc comments promise.

- **WebAssembly feature gating** (`wasm_features.dfy`, module `WasmFeatures`).
  The `WasmFeatureStage` enum becomes the datatype `Stage`. The
  `JS_FOR_WASM_FEATURES` X-macro becomes the constant `Features`, twelve
  `Feature` records. The stage rules become `ApplyShellFlag`: a shell flag
  enables, disables, is ignored (the stage default stays), or is rejected.
  Flag and preference names are built from their stems by `ShellFlagName` and
  `PreferenceName`. Each `WASM_*_ENABLED` macro is defined from its
  `ENABLE_WASM_*` configure switch (`SwitchMacroValue`). Only the switches and
  the runtime checks (`AnyCompilerAvailable(cx)`, `IonAvailable(cx)`,
  `JitSupportsWasmSimd()`, `IsSimdPrivilegedContext(cx)`, `WasmGcFlag(cx)`) are
  uninterpreted. An `Env` lists the switches that are defined and the checks
  that hold.
- **MDN suggestions in the address bar** (`mdn_suggestions.dfy`, module
  `UrlbarMdnSuggestions`). The class `MDNSuggestions` has four fields: the
  preference store, the blocked-URL set, the host's `isEnabled` verdict and the
  private suggestion map (`None` until a sync completes). The code of
  `SuggestionsMap.add` is not part of this model, so the sync takes `add` as a
  function parameter. Its proved contract holds for every `add`: the map is
  replaced by the left fold of `add` over the records' results, and only when
  every checkpoint finds the feature enabled.
  The `Matches` lemmas hold only under an assumption, and say so. That
  assumption is one behaviour of `add`, the function `Add`: each result is
  stored once under each distinct key that `mapKeyword` gives for its
  keywords. `Matches` is a separate reference definition of what a key then
  holds. Under that assumption, a completed sync followed by a query returns
  exactly the matching suggestions.
- **Onboarding screen decisions** (`proton_screen.dfy`, module `ProtonScreen`).
  This covers the screen class string, centre position, the hidden steps
  indicator and the step numbers, the action-button block and its
  primary-disabled rule, the checkbox state behind the primary button's value,
  and the lazy/eager choice for the logo. `Words` splits a class string into
  class names. The class-string property is proved on those names, not on the
  raw spacing.

`wrappers.dfy` holds the shared `Option` and `Result` types.

Where the code and its comments differ, the model follows the code:

- `isCenterPosition` is `content.position === "center" || !content.position`.
  An empty position is falsy, so it also counts as centred.
- `getScreenClassName` tests `order % 2 !== 0`. When `order` is undefined this
  is `NaN !== 0`, which is true, so an undefined order gets "screen-1". The
  steps indicator counts the same undefined order as 0.
- JavaScript's `%` truncates toward zero. `JsRemainder` writes this out, and
  `OrderIsOdd` proves that for integers the test is "odd".

## Model

| member | source | states |
|---|---|---|
| `WasmFeatures.StageFromValue` | js/public/WasmFeatures.h:104-108 | exactly the values 0, 1, 2 name a stage, and it is the stage with that enumerator value |
| `WasmFeatures.StagesAreOrdered` | js/public/WasmFeatures.h:104-108 | three stages, Experimental (0) < Tentative < Default, and the value/stage round trip |
| `WasmFeatures.DefaultEnabled` | js/public/WasmFeatures.h:16-27 | a feature with no flag given is on exactly unless its stage is Experimental |
| `WasmFeatures.FlagEffectOf` | js/public/WasmFeatures.h:16-27 | `--wasm-X` can only enable and `--no-wasm-X` only disable; only `--wasm-X` of Default is refused; a flag asking for what the stage already gives is ignored, except that refused one |
| `WasmFeatures.ApplyShellFlag` | js/public/WasmFeatures.h:16-27 | only `--wasm-X` on a Default feature is rejected; an accepted `--wasm-X` leaves the feature on and `--no-wasm-X` leaves it off; the outcome differs from the stage default exactly when the flag has an effect |
| `WasmFeatures.DefaultStageRules` | js/public/WasmFeatures.h:18-20 | Default: on by default, `--no-wasm-X` disables, `--wasm-X` is an error |
| `WasmFeatures.TentativeStageRules` | js/public/WasmFeatures.h:22-23 | Tentative: on by default, `--no-wasm-X` disables, `--wasm-X` is ignored and the default stays |
| `WasmFeatures.ExperimentalStageRules` | js/public/WasmFeatures.h:25-27 | Experimental: off by default, `--wasm-X` enables, `--no-wasm-X` is ignored |
| `WasmFeatures.ShellFlagName` | js/public/WasmFeatures.h:47-48 | the argument reads as `--wasm-` or `--no-wasm-`, by polarity, followed by the stem |
| `WasmFeatures.ShellFlagNameInjective` | js/public/WasmFeatures.h:47-48 | `--wasm-`/`--no-wasm-` + stem spell the same argument only for the same stem and polarity |
| `WasmFeatures.PreferenceName` | js/public/WasmFeatures.h:29-30 | the preference reads as `javascript.options.wasm-` followed by the preference stem, whatever the stage |
| `WasmFeatures.PreferenceNameInjective` | js/public/WasmFeatures.h:29-30 | `javascript.options.wasm-` + stem is the same preference only for the same stem, for every stage |
| `WasmFeatures.PreferenceDefault` | js/public/WasmFeatures.h:52-54 | the preference is never declared on for a feature that starts off, and on nightly builds it is declared with the stage default |
| `WasmFeatures.PreferenceDefaultAgrees` | js/public/WasmFeatures.h:52-54 | the preference's declared value (true / nightly flag / false) equals the stage default exactly unless a Tentative feature is built outside nightly |
| `WasmFeatures.SwitchMacroValue` | js/public/WasmFeatures.h:58-102 | each `WASM_*_ENABLED` macro is 0 or 1, and is 1 exactly when its `ENABLE_WASM_*` switch is defined |
| `WasmFeatures.TableShape` | js/public/WasmFeatures.h:111-231 | the table has 12 entries and none has stage Default |
| `WasmFeatures.CapitalizedNamesDistinct` | js/public/WasmFeatures.h:111-231 | capitalized names are pairwise distinct |
| `WasmFeatures.LowerCaseNamesDistinct` | js/public/WasmFeatures.h:111-231 | lower-case names are pairwise distinct |
| `WasmFeatures.ShellFlagStemsDistinct` | js/public/WasmFeatures.h:111-231 | shell-flag stems are pairwise distinct |
| `WasmFeatures.PreferenceStemsDistinct` | js/public/WasmFeatures.h:111-231 | preference stems are pairwise distinct |
| `WasmFeatures.OnlyFunctionReferencesForceEnables` | js/public/WasmFeatures.h:132-141 | an entry's "flag force enable" is something other than literal `false` exactly when it is FunctionReferences |
| `WasmFeatures.ForceEnableOnlyForFunctionReferences` | js/public/WasmFeatures.h:139 | in every environment, a "flag force enable" that holds belongs to FunctionReferences, and `WasmGcFlag(cx)` holds |
| `WasmFeatures.NoTableFlagIsRejected` | js/public/WasmFeatures.h:111-231 | no shell flag of any table feature is rejected |
| `WasmFeatures.ShellArgumentsIdentifyFeature` | js/public/WasmFeatures.h:111-231 | two table features' shell flags are the same argument exactly when they are the same feature and polarity |
| `WasmFeatures.PreferencesIdentifyFeature` | js/public/WasmFeatures.h:111-231 | two table features share a preference exactly when they are the same feature |
| `UrlbarMdnSuggestions.ShouldEnableWith` | browser/components/urlbar/private/MDNSuggestions.sys.mjs:30-44 | the gate holds exactly when every enabling preference (`mdn.featureGate`, `suggest.mdn`, `suggest.quicksuggest.nonsponsored`) is true |
| `UrlbarMdnSuggestions.MDNSuggestions.ShouldEnable` | browser/components/urlbar/private/MDNSuggestions.sys.mjs:30-36 | `shouldEnable` on the feature's current preferences holds exactly when every enabling preference is on |
| `UrlbarMdnSuggestions.ShouldEnableReadsOnlyEnablingPreferences` | browser/components/urlbar/private/MDNSuggestions.sys.mjs:38-44 | two preference stores that agree on the three enabling preferences give the same gate |
| `UrlbarMdnSuggestions.SuggestMdnOffDisables` | browser/components/urlbar/private/MDNSuggestions.sys.mjs:165-166 | setting `suggest.mdn` to false closes the gate whatever the other preferences are |
| `UrlbarMdnSuggestions.AddUnderKeysLookup` | browser/components/urlbar/private/MDNSuggestions.sys.mjs:80-83 | assumed `add`: storing one suggestion under its keys appends it once under each distinct key, after what the key held, and adds exactly those keys |
| `UrlbarMdnSuggestions.AddLookup` | browser/components/urlbar/private/MDNSuggestions.sys.mjs:80-83 | assumed `add`: afterwards a key holds its old suggestions followed by the reference `Matches` of the new results |
| `UrlbarMdnSuggestions.AddConcat` | browser/components/urlbar/private/MDNSuggestions.sys.mjs:73-87 | assumed `add`: adding record after record into one map is the same as adding all their results at once |
| `UrlbarMdnSuggestions.SyncedMapLookup` | browser/components/urlbar/private/MDNSuggestions.sys.mjs:71-89 | assumed `add`: the map a complete sync builds holds, under each key, exactly the matching suggestions of all records in order |
| `UrlbarMdnSuggestions.SyncedMapIsOneAdd` | browser/components/urlbar/private/MDNSuggestions.sys.mjs:71-89 | assumed `add`: folding `add` over the records from an empty map is one `add` of all their results |
| `UrlbarMdnSuggestions.MatchesSelects` | browser/components/urlbar/private/MDNSuggestions.sys.mjs:80-83 | assumed `add`: the reference matches are a selection of the results, exactly those having the key among their map keys |
| `UrlbarMdnSuggestions.ResultCommandsAreHandled` | browser/components/urlbar/private/MDNSuggestions.sys.mjs:121-172 | every command the menu offers except the separator and `help` selects a case of `handleCommand` that acts; `help` is left to the input field |
| `UrlbarMdnSuggestions.ResultCommands` | browser/components/urlbar/private/MDNSuggestions.sys.mjs:121-150 | the leaf commands, in menu order, are `not_relevant`, `not_interested`, `separator`, `help`; the first entry is an unnamed submenu holding the two dismissals |
| `UrlbarMdnSuggestions.ActionFor` | browser/components/urlbar/private/MDNSuggestions.sys.mjs:152-172 | `dismiss` and `not_relevant` block the URL, `not_interested` disables the feature, every other selection (`help` among them) does nothing |
| `UrlbarMdnSuggestions.MDNSuggestions.constructor` | browser/components/urlbar/private/MDNSuggestions.sys.mjs:174 | the suggestion map starts absent |
| `UrlbarMdnSuggestions.MDNSuggestions.QueryRemoteSettings` | browser/components/urlbar/private/MDNSuggestions.sys.mjs:58-63 | `[]` with no synced map or no entry; otherwise a list of the same length whose elements equal the stored suggestions field by field |
| `UrlbarMdnSuggestions.MDNSuggestions.MakeResult` | browser/components/urlbar/private/MDNSuggestions.sys.mjs:92-106 | no result exactly when the feature is disabled; otherwise the payload carries the suggestion's URL, title, description, the MDN icon, `shouldShowUrl` true and the bottom-text id `firefox-suggest-mdn-bottom-text` |
| `UrlbarMdnSuggestions.MDNSuggestions.OnRemoteSettingsSync` | browser/components/urlbar/private/MDNSuggestions.sys.mjs:65-90 | for any `add`: if any checkpoint (after the fetch, a download or an add) finds the feature disabled, the map is unchanged; otherwise it is replaced by the fold of `add` over all records from an empty map; preferences and blocked set unchanged |
| `UrlbarMdnSuggestions.MDNSuggestions.HandleCommand` | browser/components/urlbar/private/MDNSuggestions.sys.mjs:152-172 | `dismiss`/`not_relevant` add the result's URL to the blocked set only; `not_interested` sets `suggest.mdn` false only, after which the gate is closed; any other selection changes nothing |
| `UrlbarMdnSuggestions.QueryAfterSync` | browser/components/urlbar/private/MDNSuggestions.sys.mjs:58-90 | assumed `add` and exact-key `get`: after a completed sync, a query returns exactly the matching suggestions of all synced records |
| `ProtonScreen.OrderIsOdd` | browser/components/newtab/content-src/aboutwelcome/components/MultiStageProtonScreen.jsx:155 | with JavaScript's truncating `%`, `order % 2 !== 0` holds for odd integers and for an undefined order |
| `ProtonScreen.ScreenClassName` | browser/components/newtab/content-src/aboutwelcome/components/MultiStageProtonScreen.jsx:148-168 | video onboarding gives "with-video", else the add-ons picker gives "addons-picker", else the class string ends in "screen-1" (odd order) or "screen-2" |
| `ProtonScreen.ScreenClassNameWords` | browser/components/newtab/content-src/aboutwelcome/components/MultiStageProtonScreen.jsx:148-168 | "with-video" whenever video is set; else "addons-picker" when that flag is set; else the class names are "dialog-initial" iff first, "dialog-last" iff last, "with-noodles" iff noodles, then "screen-1" for odd order or "screen-2" |
| `ProtonScreen.IsCenterPosition` | browser/components/newtab/content-src/aboutwelcome/components/MultiStageProtonScreen.jsx:417 | a screen is centred when its position is "center", absent or empty |
| `ProtonScreen.PosAttribute` | browser/components/newtab/content-src/aboutwelcome/components/MultiStageProtonScreen.jsx:445 | the `pos` attribute is never empty: the given position, or "center" when the position is absent or empty |
| `ProtonScreen.CenterPositionIsPosCenter` | browser/components/newtab/content-src/aboutwelcome/components/MultiStageProtonScreen.jsx:417-445 | the screen counts as centred exactly when its `pos` attribute (`position \|\| "center"`) reads "center" |
| `ProtonScreen.StepValues` | browser/components/newtab/content-src/aboutwelcome/components/MultiStageProtonScreen.jsx:333-345 | current step is `(order ?? 0) + 1`, previous step `(previousOrder ?? -1) + 1`, total `total ?? 0`; consecutive orders give consecutive steps |
| `ProtonScreen.Layout` | browser/components/newtab/content-src/aboutwelcome/components/MultiStageProtonScreen.jsx:404-537 | the screen class is empty and the secondary section rendered exactly when not centred; a centred screen's class is `getScreenClassName` of its props; the steps indicator is omitted exactly when autoAdvance, video, single screen or force-hide holds, and otherwise shows the `StepValues` of order, previous order and total; the main content is "no-steps" exactly when it is omitted |
| `ProtonScreen.IsPrimaryDisabled` | browser/components/newtab/content-src/aboutwelcome/components/MultiStageProtonScreen.jsx:83-88 | for "hasActiveMultiSelect" the result is a boolean, true exactly when the selection is absent or empty; any other value is returned unchanged |
| `ProtonScreen.PrimaryDisabled` | browser/components/newtab/content-src/aboutwelcome/components/MultiStageProtonScreen.jsx:107 | without a primary button the disabled value is undefined; otherwise it is the button's `disabled` passed through `isPrimaryDisabled` |
| `ProtonScreen.MultiSelectGatesPrimary` | browser/components/newtab/content-src/aboutwelcome/components/MultiStageProtonScreen.jsx:83-107 | on a multi-select screen the primary button is enabled exactly when at least one item is selected |
| `ProtonScreen.InitialChecked` | browser/components/newtab/content-src/aboutwelcome/components/MultiStageProtonScreen.jsx:71-73 | the checkbox starts as its given default, and unchecked when no default is given |
| `ProtonScreen.PrimaryButtonValue` | browser/components/newtab/content-src/aboutwelcome/components/MultiStageProtonScreen.jsx:102-106 | the value is "checkbox" exactly when checked, and "primary_button" otherwise |
| `ProtonScreen.ActionButtons` | browser/components/newtab/content-src/aboutwelcome/components/MultiStageProtonScreen.jsx:69-141 | nothing is rendered exactly when primary, secondary and additional buttons are all absent; otherwise the primary value follows the checkbox, the disabled value follows `isPrimaryDisabled`, and the additional button, checkbox and secondary button show exactly when the content has them |
| `ProtonScreen.CheckboxState.constructor` | browser/components/newtab/content-src/aboutwelcome/components/MultiStageProtonScreen.jsx:71-73 | the checkbox starts as `defaultValue \|\| false` |
| `ProtonScreen.CheckboxState.OnChange` | browser/components/newtab/content-src/aboutwelcome/components/MultiStageProtonScreen.jsx:127-129 | each change flips the state and keeps the invariant that the state is the initial one flipped once per change |
| `ProtonScreen.LogoURLs` | browser/components/newtab/content-src/aboutwelcome/components/MultiStageProtonScreen.jsx:185-199 | four URLs in order, the first being `imageURL` or, when absent, the branding logo |
| `ProtonScreen.GetLoadingStrategy` | browser/components/newtab/content-src/aboutwelcome/components/MultiStageProtonScreen.jsx:193-205 | "lazy" exactly when some one of the four URLs is judged lazy, otherwise "eager" |

## Left out

- The preprocessor itself is not modelled. Whether a `ENABLE_WASM_*` switch is defined, and the values of the engine's runtime checks, are inputs (`Env`). These are build configuration and foreign functions.
- How "flag force enable" combines with the compile, compiler and flag predicates is not defined in the header, so the model does not say it. Only the table's values are modelled.
- JS shell option parsing and `ContextOptions` live outside the header. `ApplyShellFlag` covers one flag for one feature. What happens when several flags are given is not modelled.
- The MDN feature's `enable` registration with the remote-settings client and the `merinoProvider` constant are host plumbing, so they are not modelled.
- `BaseFeature`, which sets `isEnabled`, is not part of this model. `isEnabled` is a field. During a sync, the values it takes at each await are an input sequence.
- Async scheduling, `rs.get`, `rs.attachments.download`, `TextDecoder` and `JSON.parse` are not modelled. They are network I/O and decoding. Each record arrives already decoded into its suggestions.
- `SuggestionsMap`, whose code is not part of this model, is not modelled. Its `add` with the bound `mapKeyword` option (`MAP_KEYWORD_PREFIXES_STARTING_AT_FIRST_WORD`) is the function parameter `add` of `OnRemoteSettingsSync`. A new `SuggestionsMap` is assumed empty.
- The assumed `Add` stores each result once under each distinct key its keywords map to, after what the key held. The seven lemmas below hold for it and say nothing about the real `add`.
- `QueryAfterSync`: holds only for the assumed `Add` and the exact-key `get`, not for the real `SuggestionsMap`.
- `SyncedMapLookup`: holds only for the assumed `Add`.
- `SyncedMapIsOneAdd`: holds only for the assumed `Add`.
- `AddLookup`: holds only for the assumed `Add`.
- `AddConcat`: holds only for the assumed `Add`.
- `AddUnderKeysLookup`: holds only for the assumed `Add`.
- `MatchesSelects`: `Matches` describes what a key holds only under the assumed `Add`.
- `SuggestionsMap.get` is assumed to be an exact-key lookup that gives no suggestions for an unknown key (`Lookup`).
- `makeResult` is modelled up to the payload's `icon`, `url`, `title`, `description`, `shouldShowUrl` and the `id` of `bottomTextL10n`. The title's highlight pair, `showFeedbackMenu`, `UrlbarResult` construction, Merino and `view.acknowledgeDismissal` are UI.
- Suggestion copies (`{ ...suggestion }`) are field-equal values. Object identity is not modelled.
- The onboarding screen's elements are not modelled: the DOM tree, `Localized`, the child components and the focus set in `componentDidMount`. Neither are the auto-advance timer and `AboutWelcomeUtils.getLoadingStrategyFor`. The last is the parameter `strategyFor`.
- JavaScript values are reduced to the cases the code tests. Props used as booleans are already coerced to their truthiness. `checkbox.defaultValue` is a boolean.
- The two translations telemetry tests are browser-UI test scripts, and the code they exercise is not part of this model.
