# DataStoreService and FastLogTool in Dafny

This project models two parts of an emulation of a game platform's cloud
key-value storage:

- **DataStoreService** (`src/Classes/Services/DataStoreService.ts`) hands out data store handles. It keeps:
  - a registry of handles by name and scope, one map for standard stores and one for ordered stores;
  - a single legacy "global" handle.

  It also decides between the v1 and v2 data store APIs from a feature flag and the caller's options. Its asynchronous operations list data stores and read a key from the empty scope.
- **FastLogTool** (`Source/Tools/FastLogTool.ts`) is the fast-variable registry. It holds the log levels, flags, integers and strings in module-level records. The first registration helper to run imports the client settings into those records, and each helper then gives its variable a default. The `DF*` lookups refresh a `cache` before they read. The tool's sprintf-like `format` expands `%` placeholders.

Modules:

- `JsValue` (js_value.dfy) holds the JavaScript values the code stores and tests, with truthiness, `||` as the function `Or`, and a property read that gives `undefined` for a missing key.
- `FastLog` (fast_log.dfy):
  - The class `FastLogTool` holds the records, `FSettings` and `d.setup` as fields.
  - `SetUpFLog`, the registration helpers (`Reference` for the plain helpers, `Variable` for the `*VARIABLE` helpers) and `DynamicLookup` (for DFLog, DFFlag, DFInt and DFString) are methods.
  - Each method is proved against pure functions of the old state: `Imported`, `SetDefault`, `KeepTruthy` and `DynamicValue`.
- `LogFormat` (log_format.dfy):
  - `Format` is the scanning loop, proved equal to the specification `Formatted`.
  - `Formatted` is defined through a tokenizer (`Tokens`, with the inverse `Spell`) and a renderer with an argument cursor (`Render`).
- `DataStores` (data_stores.dfy):
  - The registry is a value (`Registry`) with a step function `Internal` and a run over any sequence of calls (`Run`).
  - The class `DataStoreService` holds the same state in fields, and its methods are proved against those functions.
  - Object identity of handles is a counter `nextId`.
  - The flags, the place and universe ids and the name validator's verdict are inputs, grouped in `Env`.

Where the documented behaviour and the code disagree, the model follows the code, with one exception. The handle registry follows its doc comments: repeated requests for one name and scope return the same object. The code as written never finds a stored handle; `DataStores.InternalAsWritten` models it, and "## Findings" records the difference. Otherwise the model follows the code:

- With the v2 flag on and no options, `useNewApi` answers false: the old API is used and nothing is thrown.
- `ListDataStoresAsync` tests the v2 flag before it asks whether API access is enabled.
- When the place id is below 1 and the pcall-fix flag is off, the process exits with code 1. The model returns an `Exited(1)` outcome.
- Inside an async Promise executor, an error thrown by `getDataStoreInternal` leaves the returned promise unsettled (`Unsettled`). It does not reject it.

## Model

| member | source | states |
|---|---|---|
| JsValue.Or | Source/Tools/FastLogTool.ts:548-553 | `a \|\| b` is one of its operands, is truthy exactly when either operand is, is `a` whenever `a` is truthy and `b` whenever `a` is falsy |
| FastLog.SetupOrderCoversAllGroups | Source/Tools/FastLogTool.ts:237-266 | setUpFLog's twelve copy steps cover every (tier, kind) record group |
| FastLog.SetDefault | Source/Tools/FastLogTool.ts:535-540 | a plain helper defines `name`; it keeps a value that is already defined, even a falsy one, and writes the default only where the entry reads `undefined`; every other entry is unchanged |
| FastLog.KeepTruthy | Source/Tools/FastLogTool.ts:548-553 | a `*VARIABLE` helper keeps a truthy value and replaces a falsy or missing one by the default; every other entry is unchanged |
| FastLog.SetDefaultIdempotent | Source/Tools/FastLogTool.ts:608-613 | registering a plain variable twice is the same as registering it once, whatever the second default |
| FastLog.KeepTruthyIdempotent | Source/Tools/FastLogTool.ts:617-622 | repeating a `*VARIABLE` registration changes nothing |
| FastLog.RulesDifferOnFalsyValue | Source/Tools/FastLogTool.ts:635-640 | on a stored `false`, a plain helper keeps it while a `*VARIABLE` helper with default `true` overwrites it |
| FastLog.DynamicValueTiers | Source/Tools/FastLogTool.ts:80-90 | with a live settings table, a dynamic lookup answers the live value when truthy, else the cached value (refreshed from the live table), else the kind's default |
| FastLog.NoLiveTableIgnoresCache | Source/Tools/FastLogTool.ts:46-56 | without a live table, the lookup reads a property of the `cache` object itself: the default for any variable name, and a map object for the names DFLog, DFFlag, DFInt and DFString |
| FastLog.ImportLeavesCache | Source/Tools/FastLogTool.ts:237-269 | setUpFLog writes the dynamic settings onto the DF* function objects and never touches `cache` |
| FastLog.ImportedHoldsSettings | Source/Tools/FastLogTool.ts:252-266 | after setUpFLog every entry of a non-null settings group is in its record with the settings' value |
| FastLog.FastLogTool.constructor | Source/Tools/FastLogTool.ts:23-184 | at module load every record and `cache` is empty, FSettings is empty and `d.setup` is false |
| FastLog.FastLogTool.CopyInto | Source/Tools/FastLogTool.ts:252 | `for (const k in src) T[k] = src[k]` leaves T as T overwritten by src, and every other table as it was |
| FastLog.FastLogTool.PushSettings | Source/Tools/FastLogTool.ts:268 | FSettings gains the pushed entries at its end, in order |
| FastLog.FastLogTool.SetUpFLog | Source/Tools/FastLogTool.ts:237-270 | every record becomes its old contents overwritten by the matching settings group, `cache` is untouched, FSettings gains the settings array (nothing for a non-array), and `d.setup` becomes true, setUpFLog having run exactly once |
| FastLog.FastLogTool.Reference | Source/Tools/FastLogTool.ts:535-540 | the plain helpers (LOGGROUP, FASTFLAG, DYNAMIC_FASTINT, ...) run setUpFLog only when `d.setup` is false, then apply the defaulting rule to the helper's table; DYNAMIC_* helpers write `cache`; nothing else changes |
| FastLog.FastLogTool.Variable | Source/Tools/FastLogTool.ts:635-640 | the `*VARIABLE` helpers run setUpFLog at most once, then set the entry to `existing \|\| default` in the helper's table; nothing else changes |
| FastLog.FastLogTool.DynamicLookup | Source/Tools/FastLogTool.ts:114-124 | DFLog, DFFlag, DFInt and DFString answer the tiered value, copy the live table into the kind's cache when there is one, and leave every other table alone |
| LogFormat.Spelling | Source/Tools/FastLogTool.ts:196 | every placeholder of the pattern is `%` followed by one or two characters |
| LogFormat.MatchAt | Source/Tools/FastLogTool.ts:196 | a match is a placeholder spelled at the start of the text; no match means no placeholder is a prefix |
| LogFormat.SpellTokens | Source/Tools/FastLogTool.ts:196 | cutting a template into literal characters and placeholders loses nothing: spelling the tokens back gives the template |
| LogFormat.Lower | Source/Tools/FastLogTool.ts:218-220 | `%x`'s case folding keeps the length, leaves no upper-case ASCII letter, keeps every other character and moves each upper-case letter to its lower-case form (code point + 32) |
| LogFormat.Upper | Source/Tools/FastLogTool.ts:221-223 | `%X`'s case folding keeps the length, leaves no lower-case ASCII letter, keeps every other character and moves each lower-case letter to its upper-case form (code point - 32) |
| LogFormat.RenderAppend | Source/Tools/FastLogTool.ts:193-230 | formatting a concatenation is formatting the first part and then the second with the argument cursor advanced past what the first part consumed |
| LogFormat.LiteralTextUnchanged | Source/Tools/FastLogTool.ts:193-230 | a template with no `%` comes back unchanged whatever the arguments |
| LogFormat.LeadingPlaceholder | Source/Tools/FastLogTool.ts:196-229 | a template starting with a placeholder becomes that placeholder's replacement followed by the rest formatted: `%lf` takes no argument, every other placeholder takes the argument at the cursor and moves it on |
| LogFormat.LfTakesNoArgument | Source/Tools/FastLogTool.ts:199-200 | `%lf` followed by any text is replaced by its third character, `f`, and leaves the cursor where it was |
| LogFormat.PercentTakesArgument | Source/Tools/FastLogTool.ts:199-227 | `%%` has no third character, so it takes the argument at the cursor and prints it as text, exactly as `%s` does, before any following text |
| LogFormat.OnlyDAndIParse | Source/Tools/FastLogTool.ts:206-217 | for any following text and any non-null argument at the cursor, `%d` parses it as a float and `%i` as an integer, while `%f` and `%u` print it as text |
| LogFormat.HexFoldsCase | Source/Tools/FastLogTool.ts:218-223 | `%x` and `%X` print a string argument, or a number's radix-16 digits, with its case folded; with no argument left they fail with the TypeError of `undefined.toString` |
| LogFormat.NullAsIs | Source/Tools/FastLogTool.ts:203-204 | a `null` argument skips every conversion and is written as `null` |
| LogFormat.Format | Source/Tools/FastLogTool.ts:193-230 | the replace loop computes exactly the rendering of the template's tokens, with arguments taken from the second one on |
| DataStores.Internal | src/Classes/Services/DataStoreService.ts:95-142 | below place id 1: state unchanged, and an Error when the pcall-fix flag is on, else exit(1). Otherwise the request's slot returns the handle it holds, or is filled with a new object built from the request: its name and scope, DataStore2 only for a standard request with useNewApi, AllScopes as requested except for ordered stores. Every other slot is unchanged, the registry only grows, and its invariant (handles built for their slot, distinct identities) is kept |
| DataStores.CreationFixesGeneration | src/Classes/Services/DataStoreService.ts:126-141 | a new key gets a fresh DataStore2 exactly when useNewApi was requested, with the requested AllScopes; a later request for that key gets the same handle whatever it asks |
| DataStores.LegacyIgnoresArguments | src/Classes/Services/DataStoreService.ts:110-115 | once the legacy slot is filled, every legacy request returns that handle whatever its name, scope or AllScopes |
| DataStores.ComposedKeyCollision | src/Classes/Services/DataStoreService.ts:127 | the key `${name}-${scope}` makes ("a-b", "c") and ("a", "b-c") the same store: the second call gets the first handle, named "a-b" and not v2 |
| DataStores.KindsAreSeparate | src/Classes/Services/DataStoreService.ts:110-141 | a request touches only its own map or the legacy slot |
| DataStores.Apply | src/Classes/Services/DataStoreService.ts:165-216 | each public getter and the internal step: a returned handle is left in the call's slot and is the one the slot already held, if any; a throw or exit leaves the registry unchanged; the registry only grows and keeps its invariant |
| DataStores.Run | src/Classes/Services/DataStoreService.ts:165-216 | a run of getter calls yields one outcome per call |
| DataStores.RunExtends | src/Classes/Services/DataStoreService.ts:165-216 | over any sequence of getter calls the registry only grows and its invariant holds throughout |
| DataStores.RunReturnsHeld | src/Classes/Services/DataStoreService.ts:116-141 | once a slot holds a handle, every later getter call for that slot that returns anything returns that handle |
| DataStores.RunSingleton | src/Classes/Services/DataStoreService.ts:170-216 | "subsequent calls with the same name/scope return the same object": in any sequence of GetGlobalDataStore, GetDataStore, GetOrderedDataStore and internal calls, two calls for one slot that return a handle return the same one |
| DataStores.OmittedScopeSharesHandle | src/Classes/Services/DataStoreService.ts:187-189 | GetDataStore(name) and a later GetDataStore(name, 'global') return the same object |
| DataStores.InternalAsWritten | src/Classes/Services/DataStoreService.ts:116-141 | as written, every standard or ordered request with a valid place builds a new handle |
| DataStores.AsWrittenRebuildsHandle | src/Classes/Services/DataStoreService.ts:118-119 | as written, two consecutive requests for the same name and scope return two different objects |
| DataStores.UseNewApi | src/Classes/Services/DataStoreService.ts:72-90 | v2 exactly when the flag is on and DataStoreOptions hold a boolean `true` under 'v2'; a ReferenceError naming the options' class for other DataStoreOptions with the flag on; a TypeError for any options other than undefined or null with the flag off; v1 otherwise |
| DataStores.GlobalStore | src/Classes/Services/DataStoreService.ts:165-167 | GetGlobalDataStore returns the legacy handle, creating it as ('', 'u') on first use |
| DataStores.NamedStore | src/Classes/Services/DataStoreService.ts:187-201 | GetDataStore validates the name and scope first, then negotiates the API version, then runs the registry step with AllScopes taken from the options; it never touches the ordered map or the legacy slot |
| DataStores.OrderedStore | src/Classes/Services/DataStoreService.ts:213-216 | GetOrderedDataStore throws the validator's error for a bad name or scope and otherwise is the registry step on the ordered slot for (name, scope or 'global'), never negotiating a version: an ordered, non-v2 handle, with the standard map and the legacy slot untouched |
| DataStores.ScopeDefaultsToGlobal | src/Classes/Services/DataStoreService.ts:189 | an omitted scope behaves as 'global' for both getters |
| DataStores.OrderedIgnoresV2Flag | src/Classes/Services/DataStoreService.ts:213-216 | the v2 flag has no effect on GetOrderedDataStore |
| DataStores.NegotiatedGeneration | src/Classes/Services/DataStoreService.ts:187-201 | with the flag on and options requesting v2, a new key gets a v2 handle; with the flag off and no options, a v1 handle without AllScopes |
| DataStores.CheckStudioApiAccess | src/Classes/Services/DataStoreService.ts:56-67 | the access probe is asked once; the answer is the probe's; on a refusal the fixed message is reported, only when there is an error callback |
| DataStores.ListDataStoresAsync | src/Classes/Services/DataStoreService.ts:272-291 | flag off: rejected with "400: API not supported" and the probe not asked. Probe refuses: rejected with the access message. Otherwise resolved with a page for (universe, prefix or '', page size or 0), advanced exactly once |
| DataStores.EmptyScopeRead | src/Classes/Services/DataStoreService.ts:226-248 | rejects, in this order: feature property falsy, empty name, name longer than the key length limit. Otherwise requests a standard v1 handle with scope '' (the registry answers with whatever store already holds that key) and resolves with what it reads; with no valid place the promise never settles (flag on) or the process exits |
| DataStores.DataStoreService.constructor | src/Classes/Services/DataStoreService.ts:47-51 | at class load both maps are empty and there is no legacy handle |
| DataStores.DataStoreService.Construct | src/Classes/Services/DataStoreService.ts:114 | a constructed handle is a new object carrying its constructor's arguments |
| DataStores.DataStoreService.GetDataStoreInternal | src/Classes/Services/DataStoreService.ts:95-142 | the new fields and the outcome are the registry step applied to the old fields; the registry invariant is kept |
| DataStores.DataStoreService.GetGlobalDataStore | src/Classes/Services/DataStoreService.ts:165-167 | the fields and the outcome follow GlobalStore; the invariant is kept |
| DataStores.DataStoreService.GetDataStore | src/Classes/Services/DataStoreService.ts:187-201 | the fields and the outcome follow NamedStore; the invariant is kept |
| DataStores.DataStoreService.GetOrderedDataStore | src/Classes/Services/DataStoreService.ts:213-216 | the fields and the outcome follow OrderedStore; the invariant is kept |
| DataStores.DataStoreService.GetDataFromEmptyScopeDataStoreAsyncTemporary | src/Classes/Services/DataStoreService.ts:226-248 | the fields and the settled promise follow EmptyScopeRead; the invariant is kept |
| DataStores.RegisterServiceVariables | src/Classes/Services/DataStoreService.ts:23-28 | the module's registrations run setUpFLog unless it already ran, then leave the 'DataStore' log level as it was if defined and 0 otherwise, each of the three flags in the flag cache as `existing \|\| false`, and the key length limit in the integer cache as it was if defined and 0 otherwise; every other table is as imported |
| DataStores.RegisteredDefinesServiceVariables | src/Classes/Services/DataStoreService.ts:23-28 | after the registrations the log group, the three flags and the key length limit are all defined, and each flag is on exactly when its imported value was truthy |
| DataStores.ServiceFlagsOffWithoutLiveTable | src/Classes/Services/DataStoreService.ts:24-26 | with no live dynamic-flag settings, each of the three service flags reads false whatever was registered |

## Left out

- Logging I/O is not modelled: `printMessage`, `FastLog` and the `FASTLOG*` wrappers (console, log files, timestamps, process id), and the diagnostic lines written when a handle is created or the place id guard fails.
- Numbers are integers only. The number-to-text, parseFloat, parseInt and radix-16 conversions are parameters (`LogFormat.Runtime`) rather than definitions.
- LogFormat.Lower and LogFormat.Upper fold ASCII letters only, not the full Unicode case mapping of `toLowerCase`/`toUpperCase`.
- FastLog.FastLogTool.SetUpFLog: a dynamic settings group with a key `name` or `length` makes the source throw a TypeError, because those are read-only own properties of the DF* function objects and the module runs in strict mode. The model copies such keys like any other.
- Inherited prototype properties are not modelled. Names such as `constructor` or `toString` read as `undefined` from the records, not as the inherited functions.
- Lengths are counted in characters, not UTF-16 code units, in the empty-scope read's name length check.
- DataStores.EmptyScopeRead: the key length limit is a plain integer. JavaScript's coercion of a non-numeric DFInt value in `>` is not modelled.
- DataStores.ListDataStoresAsync: the page fetch cannot fail in the model. A rejection of `AdvanceToNextPageAsync` or of the access probe is not modelled.
- DataStores.EmptyScopeRead: `GetAsync` cannot fail in the model. Its result is the parameter `read`.
- The handle classes (DataStore, DataStore2, OrderedDataStore, DataStoreListingPages), the input validator, the web service probe and the URL construction are not part of this model. Each appears only through the values it passes in or out.
- Interleaving of concurrent asynchronous calls is not modelled: each operation runs to completion.
- The service flags in `Env` are inputs, each the truthiness of its `DFFlag` call. `FastLog.DynamicValue` defines what those calls answer, but the two are not composed in one state.

## Findings

| source | as written | input that shows it | evidently intended | confidence | as-written member | corrected member |
|---|---|---|---|---|---|---|
| src/Classes/Services/DataStoreService.ts:116-141 | `Map.has(key)` tests the Map's entries, but handles are stored and read with bracket property access, which `has` never sees, so every standard or ordered request builds a new handle | `GetDataStore("a")` twice with a valid place: two different DataStore objects | the documented promise that subsequent calls with the same name and scope return the same object | not executed | DataStores.AsWrittenRebuildsHandle | DataStores.RunSingleton |
