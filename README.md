# Adjust Lua binding for Android — a Dafny model

This project models the two pieces of the Adjust plugin for the Corona game
runtime that hold decisions of their own:

- the binding object `LuaLoader`, which reads a configuration or event table
  from Lua, builds the vendor SDK's configuration or event, starts the SDK,
  holds one pending URL until the SDK has started, and keeps six listener
  handles that decide which vendor callbacks are wired;
- the converters in `LuaUtil`, which turn each vendor result record into
  the flat string map that is delivered to a Lua listener.

Each converter is a total function to `map<string, string>`. A Dafny string
cannot be null, so every value in every map is a real string.

The vendor SDK and the Lua runtime are outside the model. Each entry point
receives its table already decoded into a record of optional fields. The
binding's effect on the SDK is recorded as a ghost trace of the calls it
issues: `OnCreate(config)`, `OnResume`, `OpenUrl(url)` and `Track(event)`.
The references it hands to `deleteRef` are recorded the same way.

Files:

- `optional.dfy`: the `Option` type used for null and nil.
- `casing.dfy`: lower-casing as the keyword comparisons use it, with its lemmas.
- `vendor.dfy`: the vendor values the binding produces and the calls it issues.
- `loader_rules.dfy`: the pure rules for log level, environment, app secret and revenue.
- `lua_util.dfy`: the six converters, a reader for each map, and round-trip lemmas.
- `lua_loader.dfy`: the class `LuaLoader`, the configuration and event it builds, and two client scenarios.

Four behaviours of the code worth noting:

- A null result record gives the **empty** map, not a map with every key set to "" (LuaUtil.java:64-66 and the same guard in each converter). `NullAttributionIsDistinct` states the consequence.
- `onExiting` resets the six listeners only (LuaLoader.java:214-229), although the class comment asks for the plugin to be re-initialised for each new runtime (LuaLoader.java:100-102). The started flag, the pending URL and the deep-link flag survive, so a second `create` in a new runtime starts the SDK again. A URL opened before that second `create` is forwarded at once, not held. `RecreateAfterExit` shows this.
- Revenue is attached when currency is present and the amount differs from the sentinel -1.0. An explicit -1.0 counts as absent (LuaLoader.java:550).
- The app secret is applied when some part differs from the sentinel -1. An explicit -1 counts as absent (LuaLoader.java:434).

## Model

| member | source | states |
|---|---|---|
| `LuaUtil.AttributionToMap` | plugin/android/plugin/src/main/java/plugin/adjust/LuaUtil.java:61-78 | A null attribution gives the empty map. A non-null one gives exactly the 8 attribution keys, each holding its field's text, or "" when the field is null. |
| `LuaUtil.EventSuccessToMap` | plugin/android/plugin/src/main/java/plugin/adjust/LuaUtil.java:80-94 | Null gives the empty map. Otherwise the keys are exactly message, timestamp, adid, eventToken, jsonResponse, each holding its field or "". |
| `LuaUtil.EventFailureToMap` | plugin/android/plugin/src/main/java/plugin/adjust/LuaUtil.java:96-111 | Null gives the empty map. Otherwise the keys are the event-success keys plus willRetry. The retry flag is exactly "true" or "false" as the flag says. |
| `LuaUtil.SessionSuccessToMap` | plugin/android/plugin/src/main/java/plugin/adjust/LuaUtil.java:113-126 | Null gives the empty map. Otherwise the keys are exactly message, timestamp, adid, jsonResponse, each holding its field or "". |
| `LuaUtil.SessionFailureToMap` | plugin/android/plugin/src/main/java/plugin/adjust/LuaUtil.java:128-142 | Null gives the empty map. Otherwise the keys are the session-success keys plus willRetry, rendered "true"/"false". |
| `LuaUtil.DeferredDeeplinkToMap` | plugin/android/plugin/src/main/java/plugin/adjust/LuaUtil.java:144-154 | A null URI gives the empty map. Otherwise the only key is "uri", holding the URI's text. |
| `LuaUtil.KeyCounts` | plugin/android/plugin/src/main/java/plugin/adjust/LuaUtil.java:28-59 | The key sets have 8, 5, 6, 4 and 5 members. |
| `LuaUtil.AttributionRoundTrip` | plugin/android/plugin/src/main/java/plugin/adjust/LuaUtil.java:61-78 | Reading the map back gives the record with every empty field read as null. A null record comes back as null. |
| `LuaUtil.EventSuccessRoundTrip` | plugin/android/plugin/src/main/java/plugin/adjust/LuaUtil.java:80-94 | The same round trip for event success. |
| `LuaUtil.EventFailureRoundTrip` | plugin/android/plugin/src/main/java/plugin/adjust/LuaUtil.java:96-111 | The same round trip for event failure; the retry flag comes back exactly. |
| `LuaUtil.SessionSuccessRoundTrip` | plugin/android/plugin/src/main/java/plugin/adjust/LuaUtil.java:113-126 | The same round trip for session success. |
| `LuaUtil.SessionFailureRoundTrip` | plugin/android/plugin/src/main/java/plugin/adjust/LuaUtil.java:128-142 | The same round trip for session failure; the retry flag comes back exactly. |
| `LuaUtil.DeferredDeeplinkRoundTrip` | plugin/android/plugin/src/main/java/plugin/adjust/LuaUtil.java:144-154 | The URI comes back exactly, and null comes back as null. |
| `LuaUtil.NullAttributionIsDistinct` | plugin/android/plugin/src/main/java/plugin/adjust/LuaUtil.java:64-66 | A null attribution's map differs from every record's map, even a record whose fields are all null. |
| `LoaderRules.LogLevelFor` | plugin/android/plugin/src/main/java/plugin/adjust/LuaLoader.java:312-331 | An absent level sets none. A keyword (verbose, debug, info, warn, error, assert, suppress) in any case selects its level. Any other text selects INFO. |
| `LoaderRules.SuppressFlagMatchesLevel` | plugin/android/plugin/src/main/java/plugin/adjust/LuaLoader.java:283-290 | The constructor's suppress flag is raised exactly when the level chosen is SUPPRESS. |
| `LoaderRules.LogLevelRoundTrip` | plugin/android/plugin/src/main/java/plugin/adjust/LuaLoader.java:312-331 | Each level's keyword selects that level, whether written in lower case or in upper case. |
| `LoaderRules.LogLevelCaseInsensitive` | plugin/android/plugin/src/main/java/plugin/adjust/LuaLoader.java:312-331 | Lower-casing a level string first never changes the level chosen. |
| `LoaderRules.EnvironmentFor` | plugin/android/plugin/src/main/java/plugin/adjust/LuaLoader.java:297-307 | "sandbox" and "production", in any case, select the SDK's constants. Any other name passes through unchanged. |
| `LoaderRules.EnvironmentCaseInsensitive` | plugin/android/plugin/src/main/java/plugin/adjust/LuaLoader.java:297-307 | Lower-casing the name never changes which constant is chosen. |
| `LoaderRules.EnvironmentUpperCase` | plugin/android/plugin/src/main/java/plugin/adjust/LuaLoader.java:300-305 | "SANDBOX" and "PRODUCTION" select the constants. |
| `LoaderRules.AppSecretFor` | plugin/android/plugin/src/main/java/plugin/adjust/LuaLoader.java:407-436 | The secret is applied iff some part is present and differs from -1. When applied, it carries the given parts, with -1 for each missing one. |
| `LoaderRules.RevenueFor` | plugin/android/plugin/src/main/java/plugin/adjust/LuaLoader.java:535-552 | Revenue is attached iff currency is present and the amount is present and differs from -1.0. When attached, it carries both values. |
| `Loader.ConfigFor` | plugin/android/plugin/src/main/java/plugin/adjust/LuaLoader.java:282-497 | Fails iff appToken or environment is missing, naming appToken first. Otherwise applies the log-level, environment and secret rules. Optional settings pass through, the SDK prefix is fixed, and the given callbacks are wired. |
| `Loader.ParamsForMeaning` | plugin/android/plugin/src/main/java/plugin/adjust/LuaLoader.java:562-610 | A parameter list is accepted iff every element has a key and a value. Then element i becomes parameter i, in list order. |
| `Loader.CollectParameters` | plugin/android/plugin/src/main/java/plugin/adjust/LuaLoader.java:563-584 | The loop adds exactly the parameters the list specifies, in order. Otherwise it fails and returns the index of the first element that lacks its key or value, the one whose `checkString` raises. |
| `Loader.EventFor` | plugin/android/plugin/src/main/java/plugin/adjust/LuaLoader.java:516-610 | Fails iff the event token is missing or a parameter list has an incomplete element. Otherwise the event carries the token, the revenue rule's result, the order id and both parameter lists. |
| `Loader.StartKeepsOrder` | plugin/android/plugin/src/main/java/plugin/adjust/LuaLoader.java:499-506 | Appending onCreate, onResume and the replayed URL keeps every forwarded URL after an onCreate. |
| `Loader.LuaLoader.constructor` | plugin/android/plugin/src/main/java/plugin/adjust/LuaLoader.java:72-96 | All six listeners start at REFNIL, with no pending URL, not started, deep-link launching on, and nothing issued. |
| `Loader.LuaLoader.Wired` | plugin/android/plugin/src/main/java/plugin/adjust/LuaLoader.java:438-497 | Each of the six callbacks is wired iff its listener is not REFNIL. |
| `Loader.LuaLoader.Create` | plugin/android/plugin/src/main/java/plugin/adjust/LuaLoader.java:255-509 | A non-table or a missing required field changes nothing and issues nothing. Otherwise the trace gains onCreate(config), with config built from the listeners registered when `create` was called, then onResume, then the pending URL exactly once. The SDK is marked started, the slot is cleared, and the deep-link flag updates only when given. The class invariant is kept. |
| `Loader.LuaLoader.TrackEvent` | plugin/android/plugin/src/main/java/plugin/adjust/LuaLoader.java:516-614 | A non-table or a field error issues nothing. Otherwise exactly one trackEvent with the built event is issued, started or not. |
| `Loader.LuaLoader.AppWillOpenUrl` | plugin/android/plugin/src/main/java/plugin/adjust/LuaLoader.java:642-651 | After start, the URL is forwarded at once and the slot is untouched. Before start, nothing is issued and the slot holds only this URL. |
| `Loader.LuaLoader.SetAttributionListener` | plugin/android/plugin/src/main/java/plugin/adjust/LuaLoader.java:788-797 | Only its own field changes, and only when a listener is supplied. The class invariant is kept. |
| `Loader.LuaLoader.SetEventTrackingSuccessListener` | plugin/android/plugin/src/main/java/plugin/adjust/LuaLoader.java:799-808 | Only its own field changes, and only when a listener is supplied. The class invariant is kept. |
| `Loader.LuaLoader.SetEventTrackingFailureListener` | plugin/android/plugin/src/main/java/plugin/adjust/LuaLoader.java:810-819 | Only its own field changes, and only when a listener is supplied. The class invariant is kept. |
| `Loader.LuaLoader.SetSessionTrackingSuccessListener` | plugin/android/plugin/src/main/java/plugin/adjust/LuaLoader.java:821-830 | Only its own field changes, and only when a listener is supplied. The class invariant is kept. |
| `Loader.LuaLoader.SetSessionTrackingFailureListener` | plugin/android/plugin/src/main/java/plugin/adjust/LuaLoader.java:832-841 | Only its own field changes, and only when a listener is supplied. The class invariant is kept. |
| `Loader.LuaLoader.SetDeferredDeeplinkListener` | plugin/android/plugin/src/main/java/plugin/adjust/LuaLoader.java:843-852 | Only its own field changes, and only when a listener is supplied. The class invariant is kept. |
| `Loader.LuaLoader.OnExiting` | plugin/android/plugin/src/main/java/plugin/adjust/LuaLoader.java:214-229 | All six references are released, in source order, whether set or not. All six become REFNIL and no callback stays wired. The started flag and the pending URL are kept, and so is the class invariant. |
| `Loader.ReplayOnlyLatestUrl` | plugin/android/plugin/src/main/java/plugin/adjust/LuaLoader.java:642-651 | Two URLs opened before create leave only the later one, replayed once, right after onCreate and onResume. |
| `Loader.RecreateAfterExit` | plugin/android/plugin/src/main/java/plugin/adjust/LuaLoader.java:214-229 | After exit and a second create, no callback is wired. Because the started flag survives, a later URL is forwarded at once. |

## Left out

- Lua stack plumbing (`getField`, `pop`, `rawGet`, `length`) and registration (`invoke`, the `NamedJavaFunction` wrappers, LuaLoader.java:111-147 and 854-1164). Inputs arrive as decoded records. A parameter list is a sequence, so Lua's length of a table with holes is not modelled.
- Type-check failures on optional fields (`checkBoolean`, `checkNumber`, `checkString` on a value of the wrong type). The decoded record is typed. Only a missing required field (appToken, environment, eventToken, a parameter's key or value, the URL argument) is modelled, as a `LuaError` that changes nothing.
- Callback delivery (`dispatchEvent`, the listener adapters and the deep-link adapter's return of `shouldLaunchDeeplink`). These post to the runtime's task dispatcher on another thread, which is concurrency into a foreign runtime.
- The vendor SDK's behaviour and `AdjustConfig`/`AdjustEvent` internals. Only the calls issued are recorded. Whether the SDK keeps duplicate parameters is its own business.
- JSON serialisation of the maps, `jsonResponse.toString()`, `Uri.parse` and `uri.toString()`. JSON responses and URLs are taken as already-rendered text.
- `newRef`, `deleteRef` and `isListener`. A setter receives the handle `newRef` returned, or nothing when the argument is not a listener. A setter that replaces a handle does not release the old one, as in the source.
- The pure forwarding entry points and hooks: setEnabled, isEnabled, setPushToken, sendFirstPackage, the session parameter calls, setOfflineMode, setReferrer, getIdfa, getAttribution, getAdid, getGoogleAdId, getAmazonAdId, onSuspended, onResumed, and the empty onLoaded and onStarted. They only forward, or turn null into "".
- Numeric conversions. Secret parts are taken as integers after the `double`-to-`long` cast. Revenue and `delayStart` are reals, with no floating-point rounding or NaN.
- Android `Log`.
- LoaderRules.LogLevelFor: folds only the ASCII letters A-Z. Java's `toLowerCase` uses the default locale (a Turkish locale folds "I" differently), which is not modelled.
- LoaderRules.EnvironmentFor: folds only the ASCII letters A-Z, for the same reason.
