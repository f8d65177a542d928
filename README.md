# Budgie notification-listener bridge: a verified model

Budgie's Android activity (`MainActivity`) connects the Flutter UI layer to Android's
notification-listener permission and service. It does four things, and this project models
each one in Dafny:

- **Settings parser** (`ListenerSettings`). `isNotificationServiceEnabled` reads the secure
  setting `enabled_notification_listeners`. That setting is a colon-separated list of
  `package/class` component names. The app is enabled when one entry names its own package.
  `Split` follows Kotlin's `String.split` with one delimiter: empty fields are kept, so
  `"a::b"` gives `["a", "", "b"]`, and `""` gives `[""]`. `Enabled` is the specification. The
  method `IsNotificationServiceEnabled` is the source's loop with its early return, proved
  equal to `Enabled`.
- **Method-channel dispatch** (`MethodDispatch`). The handler on channel
  `com.kai.budgie/notification_listener` maps a method name to a reply: success with an int,
  with a bool, or with null; notImplemented; or error `METHOD_ERROR`. The SDK version, the
  enabled flag and any exception raised while a branch runs are parameters.
- **Settings-intent fallback chains** (`SettingsIntents`). `requestNotificationAccess` tries
  four screens and `openNotificationSettings` tries three. Each opens the first screen whose
  `startActivity` does not throw. `launches: Screen -> bool` is the oracle for
  `startActivity`. `TryChain` is the nested try/catch written as recursion. `OpenFirst` is
  the same thing as a loop, proved equal to `TryChain`.
- **Connection bookkeeping** (`ListenerConnection.Activity`). This class holds the two
  nullable references: the listener-service singleton and the method channel. Its methods
  are connect, ensure, start, the delayed start retry, and stop. A ghost log of effects
  records each call made on the listener (`setMethodChannel`, `startListening`,
  `stopListening`), each delayed retry posted, and each run of the access-request chain.
  Each result of `NotificationListener.getInstance()` and each read of the setting is an
  input of the method that makes it.

## Model

| member | source | states |
|---|---|---|
| ListenerSettings.Split | android/app/src/main/kotlin/com/kai/budgie/MainActivity.kt:149-151 | there is one field more than there are delimiters (empty fields kept); no field contains the delimiter |
| ListenerSettings.JoinSplit | android/app/src/main/kotlin/com/kai/budgie/MainActivity.kt:149-151 | joining the fields of a split with the delimiter gives back the original string |
| ListenerSettings.SplitJoin | android/app/src/main/kotlin/com/kai/budgie/MainActivity.kt:149-151 | splitting a join of delimiter-free fields gives back those fields |
| ListenerSettings.KotlinSplitKeepsEmptyFields | android/app/src/main/kotlin/com/kai/budgie/MainActivity.kt:149 | `"a::b"` splits to `["a","","b"]`, `"a:"` to `["a",""]`, `""` to `[""]` |
| ListenerSettings.ComponentMatchIff | android/app/src/main/kotlin/com/kai/budgie/MainActivity.kt:151-152 | an entry matches (two `/`-parts, first equals the package) exactly when it is the package, one `/`, and a class part without `/` |
| ListenerSettings.AnyClassMatches | android/app/src/main/kotlin/com/kai/budgie/MainActivity.kt:152 | the class part is ignored: `pkg/cls` matches for every class without `/`, the empty class included |
| ListenerSettings.SlashCountMustBeOne | android/app/src/main/kotlin/com/kai/budgie/MainActivity.kt:151-152 | an entry with no `/`, or with two or more, never matches |
| ListenerSettings.PackageComparedByEquality | android/app/src/main/kotlin/com/kai/budgie/MainActivity.kt:152 | if `q/cls` matches package `pkg` then `q == pkg` |
| ListenerSettings.LongerPackageRejected | android/app/src/main/kotlin/com/kai/budgie/MainActivity.kt:152 | an entry whose package extends `pkg` never matches `pkg` |
| ListenerSettings.MissingOrEmptyIsDisabled | android/app/src/main/kotlin/com/kai/budgie/MainActivity.kt:147-148 | a null or empty setting gives false |
| ListenerSettings.EmptyEntryNeverMatches | android/app/src/main/kotlin/com/kai/budgie/MainActivity.kt:148-152 | the empty entry never matches, so the emptiness test at line 148 cannot change the answer |
| ListenerSettings.EnabledIff | android/app/src/main/kotlin/com/kai/budgie/MainActivity.kt:149-155 | the setting enables `pkg` exactly when some colon-separated entry is `pkg/cls` with `cls` free of `/` |
| ListenerSettings.EnabledDependsOnlyOnEntries | android/app/src/main/kotlin/com/kai/budgie/MainActivity.kt:150-156 | two settings with the same set of entries give the same answer |
| ListenerSettings.EnabledUnderReordering | android/app/src/main/kotlin/com/kai/budgie/MainActivity.kt:150-156 | reordering the colon-separated entries of a setting does not change the answer |
| ListenerSettings.IsNotificationServiceEnabled | android/app/src/main/kotlin/com/kai/budgie/MainActivity.kt:145-160 | the loop with early return computes exactly `Enabled(flat, pkg)` |
| MethodDispatch.Route | android/app/src/main/kotlin/com/kai/budgie/MainActivity.kt:29-67 | a name selects a branch exactly when it is one of the seven known names; the selected action is called by that name |
| MethodDispatch.RouteInvertsMethodName | android/app/src/main/kotlin/com/kai/budgie/MainActivity.kt:29-67 | each action is selected by its own name and by no other |
| MethodDispatch.Dispatch | android/app/src/main/kotlin/com/kai/budgie/MainActivity.kt:27-72 | error iff a branch raised, always with code `METHOD_ERROR`, message quoting the name and the exception's message as details; otherwise notImplemented iff the name is unknown, the SDK int for `getAndroidSdkVersion`, the enabled flag for the two access queries, null for the four void operations |
| MethodDispatch.AccessQueriesAgree | android/app/src/main/kotlin/com/kai/budgie/MainActivity.kt:34-63 | `checkNotificationAccess` and `isNotificationServiceEnabled` give the same bool; on failure only the error message differs |
| MethodDispatch.KnownActionReply | android/app/src/main/kotlin/com/kai/budgie/MainActivity.kt:39-58 | a known name never gets notImplemented; it gets success(null) exactly when its action is one of the four void operations |
| SettingsIntents.TryChain | android/app/src/main/kotlin/com/kai/budgie/MainActivity.kt:162-231 | at most one screen is opened, and it launched; the attempted screens are a prefix of the chain ending at the opened one, and all before it failed; nothing is opened iff every launch fails, and then every screen was tried |
| SettingsIntents.OpensFirstLaunchable | android/app/src/main/kotlin/com/kai/budgie/MainActivity.kt:162-198 | when screen k is the first that launches, it is the one opened and the attempts are exactly the screens up to k |
| SettingsIntents.OpenFirst | android/app/src/main/kotlin/com/kai/budgie/MainActivity.kt:162-231 | the loop that stops at the first successful launch returns the screen and attempts of `TryChain` |
| SettingsIntents.RequestNotificationAccess | android/app/src/main/kotlin/com/kai/budgie/MainActivity.kt:162-198 | runs the four-screen chain (listener settings by literal action, by platform constant, app notification settings, app details); between one and four attempts |
| SettingsIntents.OpenNotificationSettings | android/app/src/main/kotlin/com/kai/budgie/MainActivity.kt:200-231 | runs the three-screen chain (app notification settings, general notification settings, app details); between one and three attempts |
| SettingsIntents.AppDetailsIsLastResort | android/app/src/main/kotlin/com/kai/budgie/MainActivity.kt:184-194 | in both chains, app details is opened exactly when every earlier screen failed and it launches |
| ListenerConnection.ConnectSetsChannelIff | android/app/src/main/kotlin/com/kai/budgie/MainActivity.kt:122-124 | connecting hands over the channel exactly when both listener and channel are present |
| ListenerConnection.ConnectRetryIff | android/app/src/main/kotlin/com/kai/budgie/MainActivity.kt:132-141 | connecting schedules a retry exactly when the channel is present and the listener is absent |
| ListenerConnection.ConnectStartsIff | android/app/src/main/kotlin/com/kai/budgie/MainActivity.kt:123-131 | connecting starts listening exactly when both references are present and the setting is enabled |
| ListenerConnection.Activity.constructor | android/app/src/main/kotlin/com/kai/budgie/MainActivity.kt:18-19 | a new activity holds neither reference |
| ListenerConnection.Activity.ConfigureFlutterEngine | android/app/src/main/kotlin/com/kai/budgie/MainActivity.kt:22-27 | the channel becomes the activity's own channel, then the connection rule runs |
| ListenerConnection.Activity.ConnectToNotificationListener | android/app/src/main/kotlin/com/kai/budgie/MainActivity.kt:120-143 | the listener becomes the lookup's result, the channel is unchanged, and the effects of the connection rule are appended |
| ListenerConnection.Activity.EnsureNotificationListenerConnection | android/app/src/main/kotlin/com/kai/budgie/MainActivity.kt:108-118 | a present listener is never replaced; an absent one becomes the lookup's result; the channel is handed over only when both are present |
| ListenerConnection.Activity.StartNotificationListener | android/app/src/main/kotlin/com/kai/budgie/MainActivity.kt:233-277 | after connecting: with a listener, start it and run the access-request chain if the setting is disabled; without one, schedule the delayed retry |
| ListenerConnection.Activity.RunStartRetry | android/app/src/main/kotlin/com/kai/budgie/MainActivity.kt:262-276 | the retry replaces the listener by the lookup's result, then hands over the channel and starts listening only when both are present |
| ListenerConnection.Activity.StopNotificationListener | android/app/src/main/kotlin/com/kai/budgie/MainActivity.kt:287-294 | a present listener is stopped; with none nothing changes; the references are unchanged |

Every `Activity` method keeps `Valid()`. `Valid()` says that the channel, when present, is
the activity's own channel, and that no other channel is ever handed to a listener.

Observations from the model:

- The first two candidates of `requestNotificationAccess` are built from the literal action
  `"android.settings.ACTION_NOTIFICATION_LISTENER_SETTINGS"` and from the platform constant
  `Settings.ACTION_NOTIFICATION_LISTENER_SETTINGS`. The constant's value is not part of
  this model, so the model keeps them as two distinct screens. If the two are equal, the
  first fallback repeats the first attempt.
- `StartNotificationListener` calls `startListening` whenever a listener is present, even
  when no channel was handed to it (channel absent).

## Left out

- Android platform calls are inputs or oracles, not models: `Settings.Secure.getString`,
  `startActivity`, intent resolution, `Build.VERSION.SDK_INT` and the `packageName` lookup.
  They are host services whose code is not part of this model.
- The timing of `Handler().postDelayed` (lines 138-140, 262-276) is left out. The model only
  records that a retry was posted. `RunStartRetry` and `ConnectToNotificationListener` model
  what the posted callbacks do when they run. Delays and main-looper scheduling are time and
  concurrency.
- `NotificationListener` itself (`getInstance`, `startListening`, `stopListening`,
  `isListening`, `setMethodChannel`) is not part of this model. Lookups are inputs, and calls
  are entries in the effect log. The `isListening` check at lines 252-256 only logs, so it
  is not modelled.
- Logging (`Log.d/w/e`) is not modelled, because it has no effect on state or replies.
- The lifecycle overrides `onResume`, `onPause`, `onDestroy` and `onStart` (lines 81-106,
  280-285) are left out. They only forward to connect, ensure and start, which are modelled.
- The dispatch table is a pure function. A void operation's side effect is the
  corresponding `Activity` or `SettingsIntents` method.
- `SDK_INT` is modelled as an unbounded `int`. The value is only passed
  through, so the 32-bit width does not matter.
- The `FLAG_ACTIVITY_NEW_TASK` flag on every intent is not part of `Screen`, because all
  candidates carry it.
