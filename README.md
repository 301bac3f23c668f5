# Linguist background startup, translator registry and options editing — a Dafny model

This project models the stateful core of the Linguist browser extension:

- **Background lifecycle** (`src/app/index.ts`). `App.main` migrates persisted data and then builds the configuration storage, the background and the application. `App.start` is a one-shot sequence guarded by `isStarted`. It starts the background, calls every request-handler factory in list order (only in the background context), and then subscribes the configuration watchers. Each watcher's callback runs once when it subscribes, on the configuration held in storage, and again on every commit that changes its projected value; the callbacks clear the translation cache, forget remembered text, and enable or disable the two context menus. The steps of `main` and `start`, including the reactions of the callbacks on subscription, are recorded in order in the trace of a `Host`, which stands for the browser process. Reactions to later commits are not recorded there; `OnCommit` states them.
- **Request-handler list** (`src/app/Background/requestHandlers.ts`). This is the constant, ordered list of factories. `pingFactory` comes last, so a successful ping means every other handler is live.
- **Translator registry** (`src/requests/backend/translators/`). `applyTranslators`' `update` falls back to `DEFAULT_TRANSLATOR` when the configured custom translator has no class. It then hands the classes to the translate manager. `deleteTranslator` validates that its payload is a number, deletes the stored translator, re-applies the translators, and clears only that translator's cache scope.
- **Options page editing** (`src/pages/options/layout/OptionsPage.tsx`). `setOptionValue` keeps a sparse map of pending edits that differ from the saved configuration and drops the edited path's error. Both maps are `null` when empty. `cancelChanges` and `saveChanges` reset or commit that state.

Files: `wrappers.dfy` (Option, Outcome), `config.dfy` (the configuration record), `request_handlers.dfy`, `lifecycle.dfy`, `translators.dfy`, `options.dfy`.

Modelling choices:

- `isCustomTranslatorId`, `formatToCustomTranslatorId`, `getTranslatorsClasses` and `DEFAULT_TRANSLATOR` are defined outside the modelled files. They are uninterpreted: they are fields of a `Registry` value. Properties that depend on them take their assumptions as `requires` (for example, "the default translator is not a custom id").
- The entries that `ttsRequestHandlers` spreads into the list are not part of this model. They are `TtsHandler(i)` for `i < ttsCount`, where `ttsCount` is a parameter.
- `App.main` is `App.Launch`. The `await` structure of `start` is modelled by two methods. `BeginStart` is the synchronous guard and flag. `CompleteStart` is the awaited remainder, and it may modify only the host. So any `start` issued while startup is awaited finds `isStarted` already set. The thrown error is `StartError.AlreadyStarted`, whose `Message()` is "Application already started".
- `ObservableAsyncStorage` is not part of this model. Its watch contract is stated in `OnSubscribe` and `OnCommit`: a callback fires once on subscription, and again on each commit that changes its projected value.
- On the options page, the saved configuration is a map from full option path to value. lodash `get` on that map, and on the flat pending map, is direct key lookup (the helper `Options.Get`). `V` stands for option values; Dafny equality stands for lodash `isEqual`.
- Custom ids are recognised by `isCustomTranslatorId`, and their name is the id without its first character: JavaScript `slice(1)` is the helper `Translators.SliceFirst`, which drops the first element of a non-empty string and keeps the empty string empty. Migration runs in `main` before `start`.
- `ConfigStorage` is reduced to the configuration it holds once migration has run, a parameter of `App.Launch`; the watchers read it when they subscribe.

## Model

| member | source | states |
|---|---|---|
| `RequestHandlers.PingIsLast` | src/app/Background/requestHandlers.ts:42-85 | The list has 31 + (number of TTS entries) factories. `pingFactory` is its last element, and every other position, including each spread TTS entry, holds a different factory. |
| `RequestHandlers.HandlersDistinct` | src/app/Background/requestHandlers.ts:42-85 | No factory appears twice in the list, whatever the number of TTS entries. |
| `RequestHandlers.TranslatorManagementBeforePing` | src/app/Background/requestHandlers.ts:74-84 | The five translator-management factories (add, delete, update, get, apply) are all in the list, and each comes before `pingFactory`. |
| `Lifecycle.App.constructor` | src/app/index.ts:42-47 | A new application holds the given configuration and background and is not started. |
| `Lifecycle.App.Launch` | src/app/index.ts:28-38 | `main` records data migration before it creates the configuration storage, the observable configuration, the background and the application, in that order. Then it starts the application successfully, with the background built over that same configuration and the storage holding the given configuration. |
| `Lifecycle.App.Start` | src/app/index.ts:48-59 | A second `start` fails with `AlreadyStarted` and does nothing. A first `start` sets the flag and appends exactly the start sequence: background start, then handler registration, then watcher subscription with the reactions to the stored configuration. |
| `Lifecycle.App.BeginStart` | src/app/index.ts:49-53 | The guard fails when already started; otherwise the flag is set before anything is awaited. Either way, the flag is set afterwards. |
| `Lifecycle.App.CompleteStart` | src/app/index.ts:55-58 | The awaited part of `start` appends background start, registrations and watcher subscriptions with their reactions, in that order. It cannot modify `isStarted`. |
| `Lifecycle.App.SetupRequestHandlers` | src/app/index.ts:61-71 | In the background context, each factory of the list is called once, in list order, with the application's configuration and background. Outside it, nothing happens. |
| `Lifecycle.App.CallEach` | src/app/index.ts:64-69 | The `forEach` walk calls each given factory once, in list order, with the application's configuration and background, and records nothing else. |
| `Lifecycle.App.HandleConfigUpdates` | src/app/index.ts:73-134 | The six watchers are subscribed in source order: broadcast, icon, cache, remembered text, selection menu, page menu. Each subscription is followed at once by its callback's reactions to the stored configuration. |
| `Lifecycle.App.Watch` | src/app/index.ts:83-87 | One `.map(...).watch(...)` records the subscription and then the callback's reactions to the configuration currently stored. |
| `Lifecycle.SubscribeTraceEvents` | src/app/index.ts:73-134 | Subscribing records only subscriptions and reactions, and a reaction is recorded if and only if `OnSubscribe` owes it to the configuration. |
| `Lifecycle.StartReactsToStoredConfig` | src/app/index.ts:55-58 | The reactions a `start` records are exactly those the watchers owe the stored configuration on subscription. |
| `Lifecycle.NoFactoryOutsideBackground` | src/app/index.ts:61-71 | Outside the background context, a successful `start` calls no handler factory. |
| `Lifecycle.EachFactoryCalledOnce` | src/app/index.ts:63-70 | Every factory of the list is called. No two calls are equal, so each factory is called exactly once. Every call passes the same configuration and background. |
| `Lifecycle.PingLiveImpliesAllLive` | src/app/Background/requestHandlers.ts:83-84 | In every prefix of the registration sequence, once `pingFactory` has been called, every factory of the list has been called. |
| `Lifecycle.StartOrder` | src/app/index.ts:55-58 | The start sequence begins with the background start. After that, every step is a factory call, a watcher subscription or a watcher reaction, and no factory call follows a subscription or a reaction. |
| `Lifecycle.FireDependsOnlyOnProjection` | src/app/index.ts:83-133 | Each watcher callback depends only on its `.map` projection: two configurations with equal projections trigger the same reactions. |
| `Lifecycle.UnchangedProjectionStaysSilent` | src/app/index.ts:77-133 | A watcher whose `.map` projection a commit leaves unchanged performs none of its reactions on that commit, whatever the other watchers do. |
| `Lifecycle.SubscribeClearsCacheIff` | src/app/index.ts:90-96 | On subscription, the cache is cleared if and only if `scheduler.useCache` is false. |
| `Lifecycle.CommitClearsCacheIff` | src/app/index.ts:90-96 | A commit clears the cache if and only if it switches `scheduler.useCache` from true to false. |
| `Lifecycle.SubscribeForgetsTextIff` | src/app/index.ts:99-106 | Remembered text is forgotten if and only if `textTranslator.rememberText` is false. |
| `Lifecycle.SelectionMenuMirrorsConfig` | src/app/index.ts:109-122 | The selection context menu is enabled if and only if `selectTranslator.enabled` holds and the mode is `"contextMenu"`. It is disabled if and only if that does not hold. |
| `Lifecycle.SelectionMenuFollowsCommit` | src/app/index.ts:109-122 | A commit touches the selection context menu only when its projection flips. When it flips, the menu is enabled if and only if the new projection holds, and disabled if and only if it does not. |
| `Lifecycle.PageMenuMirrorsConfig` | src/app/index.ts:124-133 | The page context menu is enabled if and only if `pageTranslator.enableContextMenu` holds, and disabled otherwise. |
| `Lifecycle.PageMenuFollowsCommit` | src/app/index.ts:124-133 | A commit touches the page context menu only when `enableContextMenu` flips. When it flips, the menu is enabled if and only if the new value is true, and disabled if and only if it is false. |
| `Translators.FallbackWriteIff` | src/requests/backend/translators/applyTranslators.ts:17-30 | Configuration is written if and only if `translatorModule` is a custom id whose sliced name is not a key of the classes map. A non-custom id is never written. The write sets `translatorModule` to the default and keeps every other field. |
| `Translators.ApplyEstablishesAvailability` | src/requests/backend/translators/applyTranslators.ts:17-30 | If the default is not a custom id, then after `update` the configured translator is builtin or has a class. |
| `Translators.ApplyIsIdempotent` | src/requests/backend/translators/applyTranslators.ts:17-30 | If the default is not a custom id, a second `update` with unchanged classes writes no configuration and leaves it as the first left it. |
| `Translators.TranslatorService.Update` | src/requests/backend/translators/applyTranslators.ts:11-36 | `update` leaves the configuration as the fallback rule gives it. It sets the manager's translators to the classes of the stored translators on every path, after any configuration write. |
| `Translators.TranslatorService.ApplyTranslatorsFactory` | src/requests/backend/translators/applyTranslators.ts:10-41 | Registering the handler runs `update` exactly once. |
| `Translators.ClearScope` | src/requests/backend/translators/deleteTranslator.ts:19-23 | Clearing a scope removes that scope's entries and leaves every other scope present and unchanged. |
| `Translators.TranslatorService.DeleteTranslator` | src/requests/backend/translators/deleteTranslator.ts:12-24 | A non-number payload is rejected with nothing changed. For a number, the id is removed from the table, and the translators are re-applied against the table without it, so a configured custom translator that has lost its class falls back to the default. Only the scope `formatToCustomTranslatorId(id)` is cleared. The steps are recorded in the order delete, apply, clear. |
| `Translators.DeleteClearsCacheAfterDeletion` | src/requests/backend/translators/deleteTranslator.ts:15-23 | In a successful deletion, the persisted delete comes first and the cache clear comes last and happens once. The translators are set between the two. |
| `Options.Normalize` | src/pages/options/layout/OptionsPage.tsx:242-244 | An empty map is stored as `null`, never as `{}`, and the entries are preserved. |
| `Options.CopyStillDiffering` | src/pages/options/layout/OptionsPage.tsx:221-229 | The copy loop keeps exactly the old pending entries whose value is not the saved value at their path, with their values. |
| `Options.PendingAfterEditCases` | src/pages/options/layout/OptionsPage.tsx:231-244 | The source's branches give the declarative pending map. Nothing is set or deleted when the pending map already holds the value. Otherwise the path is deleted when the value is the saved one and set when it is not. An empty result is `null`. |
| `Options.EditPending` | src/pages/options/layout/OptionsPage.tsx:220-246 | The copy loop, the conditional set or delete, and the normalization compute the declarative pending map `PendingAfterEdit`. |
| `Options.PendingDiffersFromSaved` | src/pages/options/layout/OptionsPage.tsx:221-240 | After an edit, every remaining pending entry differs from the saved value at its path. |
| `Options.EditedPathRecordedIffDiffers` | src/pages/options/layout/OptionsPage.tsx:232-240 | Setting a path to its saved value removes it from the pending map. Setting it to any other value records exactly that value. |
| `Options.OtherPathsKept` | src/pages/options/layout/OptionsPage.tsx:222-229 | An entry at any other path remains if and only if it still differs from the saved configuration, and it keeps its value. |
| `Options.PendingNullIffNoEdits` | src/pages/options/layout/OptionsPage.tsx:242-246 | The pending map becomes `null`, which ends edit mode, if and only if the edited value is the saved one and every other old entry equals its saved value. |
| `Options.EditIsIdempotent` | src/pages/options/layout/OptionsPage.tsx:232-240 | Setting the same path to the same value twice yields the same pending map as setting it once. |
| `Options.ErrorsAfterEditDropsOnlyPath` | src/pages/options/layout/OptionsPage.tsx:249-258 | The edited path's error is gone and every other error is untouched. If the path had an error, an error map left empty becomes `null`. |
| `Options.OptionsPage.constructor` | src/pages/options/layout/OptionsPage.tsx:58-62 | The page starts with no configuration, no pending edits and no errors. |
| `Options.OptionsPage.SetOptionValue` | src/pages/options/layout/OptionsPage.tsx:218-261 | The new pending map and error map are exactly the edit rules applied to the old state. The saved configuration is not changed. |
| `Options.OptionsPage.CancelChanges` | src/pages/options/layout/OptionsPage.tsx:173-176 | Both the pending map and the error map become `null`. |
| `Options.OptionsPage.SaveChanges` | src/pages/options/layout/OptionsPage.tsx:178-198 | With a `null` pending map, nothing is sent and nothing changes. Otherwise the pending map is sent. A rejection keeps it and stores the returned errors. A success stores the reloaded configuration and clears both maps. A failed request changes nothing. |

## Left out

- Message channel, request router and `buildBackendRequest`: their code is not part of this model. The payload validator appears only as the number check in `DeleteTranslator`. Payloads are integers or "not a number"; non-integer JavaScript numbers are not modelled.
- `ObservableAsyncStorage`, `ConfigStorage`, `TranslatorsCacheStorage`, the translator database, `migrateAll`, `AppThemeControl` and the context-menu classes: their code is not part of this model. They appear only as state (configuration record, translator table, cache scopes) and as recorded steps or reactions.
- `Lifecycle.App.Launch`, `Lifecycle.App.Start`: only successful runs of the awaited steps are modelled. A rejection of `migrateAll` (`src/app/index.ts` line 30), `background.start`, a handler factory or `getObservableStore` (lines 55-58, 64-69 and 74) is not, so neither is the state it leaves behind: `isStarted` stays true and the application cannot be started again.
- `Translators.TranslatorService.DeleteTranslator`: a rejection of the database deletion, after which neither the re-apply nor the cache clear runs, is not modelled; the database is not part of this model.
- `Translators.SliceFirst` works on Dafny characters; JavaScript `slice(1)` works on UTF-16 code units, which differs only for ids starting with a character outside the Basic Multilingual Plane.
- `Translators.Available`, `Translators.FallbackWrite`: the classes map is a Dafny `map`, so the JavaScript `in` test, which also finds keys inherited from the object prototype (such as `constructor`), is modelled as plain key membership.
- Asynchrony: each handler runs as a sequential method. Interleavings other than a second `start` during startup are not modelled.
- `getTranslatorsClasses` is modelled as a function of the stored translator table. A builtin class set that changes between calls is not captured.
- `sendAppConfigUpdateEvent` and the icon preference: these appear only as reactions (`SendConfigUpdate`, `SetIconPreferences`). Nothing further is proved about them.
- Options page: JSX rendering, toasts, import/export through file dialogs, `JSON.parse` and `saveFile`, `resetConfig`, `clearCache` and loading are browser I/O or rendering and are not modelled. lodash `get` parsing a dotted path into nested objects is not modelled (both maps are looked up by full key). `isEqual` is Dafny equality.
- `src/pages/options/layout/OptionsPage.components/Editor/Editor.tsx` (a modal whose only rule, a non-blank name, depends on JavaScript `trim`) and `src/components/primitives/Select/Select.registry/desktop.ts` (UI registry) are not part of this model.
- `src/requests/backend/translate.ts` is a pass-through to the external translation scheduler and is not modelled.
