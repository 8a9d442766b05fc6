# App review, haptics and SMS plugins — a Dafny model

This project models the decision logic of three Flutter plugins:

- **app_review** on iOS, macOS and Android:
  - choosing how to ask for a review prompt, and whether one can be asked for at all;
  - building the App Store and Play Store page URLs, with their guards and error codes;
  - turning an iTunes directory lookup into an App Store id;
  - on Android, the plugin's state: the attached activity, the Play review manager and the cached `ReviewInfo`.
- **flutter_vibrate** on Android: the `onMethodCall` table that maps a method name and the SDK level to a haptic constant, a vibration, a boolean reply or "not implemented".
- **flutter_sms** on Android: the capability guards and the `smsto:` compose intent.

Each platform call becomes a function-typed parameter:
- `URL(string:)` and `java.net.URL` accepting a string (`urlParses`);
- `UIApplication.open`, `NSWorkspace.open` and `startActivity`;
- the JSON parsers.

Each asynchronous outcome is an input value:
- how the Play review-flow and launch tasks completed;
- how the URLSession task or the HTTP connection ended.

Modules:

| file | module | what it holds |
|---|---|---|
| wrappers.dfy | `Wrappers` | `Option`, `Result` |
| limits.dfy | `Limits` | the 32- and 64-bit signed integer bounds of Java and Swift |
| itunes.dfy | `Itunes` | the iTunes lookup URL both the Apple and the Android plugins request |
| decimal.dfy | `Decimal` | decimal rendering of integers (`String(Int)`, `String.valueOf`) and its reading direction |
| json.dfy | `Json` | a parsed JSON value (RFC 8259) or "not JSON" |
| apple_review.dfy | `AppleReview` | what iOS and macOS share: `#available`, the review tiers, the App Store URLs, the lookup |
| ios_app_review.dfy | `IosAppReview` | the iOS plugin: scene-dependent tier choice and the `UIApplication.open` opener |
| macos_app_review.dfy | `MacosAppReview` | the macOS plugin: its two tiers and the `NSWorkspace.open` opener |
| android_app_review.dfy | `AndroidAppReview` | the Android plugin as a class with its three fields, its state steps, the store fallback and the lookup loop |
| lookup_platforms.dfy | `LookupPlatforms` | where the Apple and Android lookups agree and where they differ |
| vibrate_handler.dfy | `Vibrate` | `VibrateMethodCallHandler` |
| sms_plugin.dfy | `Sms` | `FlutterSmsPlugin` |

The macOS `lookupAppId` (packages/app_review/macos/Classes/AppReviewPlugin.swift:79-110) is the same code as the iOS one, so both platforms use `AppleReview.LookupAppId`. The iTunes lookup URL is one function, `Itunes.LookupUrl`, which the Apple lookup and the Android `lookupAppId` both request. The macOS store-page guards (lines 45-77) reuse `AppleReview.OpenStorePage` too, with `NSWorkspace.open` answering at once instead of in a completion handler.

The Android methods that change the plugin's fields are methods of `AndroidAppReview.AppReviewPlugin`. Each is proved equal to a pure step function on a `PluginState` value; the lemmas about the review flow are stated on those step functions.

## Model

| member | source | states |
|---|---|---|
| Decimal.NatToDecimal | packages/app_review/ios/Classes/AppReviewPlugin.swift:112 | the digits of a natural number are non-empty, all digits, with no leading zero except for 0 itself |
| Decimal.IntToDecimal | packages/app_review/ios/Classes/AppReviewPlugin.swift:112 | `String(trackId)` starts with '-' exactly for a negative id, followed by digits with no leading zero; it starts with '0' only for 0, which is "0" |
| Decimal.NatToDecimalValue | packages/app_review/ios/Classes/AppReviewPlugin.swift:112 | the digits of `n` have the value `n` |
| Decimal.DecimalRoundTrip | packages/app_review/android/src/main/java/com/appleeducate/appreview/AppReviewPlugin.java:117 | reading back a rendered id gives the id, so the reply loses nothing of the number |
| Decimal.DecimalInjective | packages/app_review/android/src/main/java/com/appleeducate/appreview/AppReviewPlugin.java:117 | distinct ids are answered as distinct strings |
| Decimal.RenderExample | packages/app_review/ios/Classes/AppReviewPlugin.swift:112 | the id 123456789 is answered as "123456789" |
| Itunes.LookupUrl | packages/app_review/ios/Classes/AppReviewPlugin.swift:91-92 | the URL both platforms request (also packages/app_review/android/src/main/java/com/appleeducate/appreview/AppReviewPlugin.java:95-96): `https://itunes.apple.com/`, the country code or "" for none, then exactly `/lookup?bundleId=`, then the bundle id at the end |
| Itunes.LookupUrlNamesBundle | packages/app_review/ios/Classes/AppReviewPlugin.swift:91-92 | two bundle ids with the same country give the same lookup URL only when they are the same id |
| AppleReview.TierReply | packages/app_review/ios/Classes/AppReviewPlugin.swift:23-36 | the completion says "Review not available" exactly for the unavailable tier, "Requested Review via SwiftUI" exactly for the SwiftUI tier, and "Requested Review" exactly for the scene-scoped and global tiers |
| AppleReview.WriteReviewExtendsListing | packages/app_review/ios/Classes/AppReviewPlugin.swift:57-76 | the review URL is the listing URL followed by `?action=write-review`; the concrete URLs for id 123456789 |
| AppleReview.StoreUrl | packages/app_review/ios/Classes/AppReviewPlugin.swift:57-76 | the URL is `https://apps.apple.com/app/id` followed by the store id; it carries `?action=write-review` after the id exactly for the review page, and nothing after the id for the listing |
| AppleReview.StoreUrlRoundTrip | packages/app_review/ios/Classes/AppReviewPlugin.swift:57-76 | the page kind and the store id can be read back from a built store URL |
| AppleReview.OpenStorePage | packages/app_review/ios/Classes/AppReviewPlugin.swift:52-88 | a nil or empty id fails with 404 and opens nothing, exactly; an unformable URL fails with 400 and opens nothing; otherwise the store URL of that id is opened, and only that URL is ever opened; success exactly when the opener reports true; an opener that reports false gives the 500 error of that page |
| AppleReview.SwiftInt | packages/app_review/ios/Classes/AppReviewPlugin.swift:111 | `as? Int` succeeds exactly for a whole number within the 64-bit range, written as an integer or as a whole-valued decimal such as `5.0`, and then gives that number |
| AppleReview.FirstTrackId | packages/app_review/ios/Classes/AppReviewPlugin.swift:108-111 | an id is found only in an object whose `results` is a non-empty array of objects whose first element holds an `Int` `trackId`, and it is that `trackId`; conversely every such body gives exactly that `trackId` read as `Int` |
| AppleReview.FirstTrackIdOfListedApp | packages/app_review/ios/Classes/AppReviewPlugin.swift:108-112 | for the directory's answer for a listed app, the first result's id is found, whatever else that result and later results hold |
| AppleReview.FirstTrackIdShapeMismatch | packages/app_review/ios/Classes/AppReviewPlugin.swift:108-115 | a body that is not an object, has no `results`, has a `results` that is not an array of objects, or has an empty `results` gives no id |
| AppleReview.InterpretCompletion | packages/app_review/ios/Classes/AppReviewPlugin.swift:98-119 | a transport error is passed on; a body JSONSerialization refuses, including a top-level scalar it does not accept without `.fragmentsAllowed`, is an error; these are the only failures; no data or a shape mismatch is `nil`, exactly; a returned string reads back as the first result's `trackId`, and a body with such an id always answers it in decimal |
| AppleReview.CompletionIgnoresStatus | packages/app_review/ios/Classes/AppReviewPlugin.swift:98-119 | the HTTP status plays no part in the reply |
| AppleReview.LookupAppId | packages/app_review/ios/Classes/AppReviewPlugin.swift:90-121 | a lookup URL that `URL(string:)` refuses fails with 400 and requests nothing, exactly; otherwise `https://itunes.apple.com/{country or ""}/lookup?bundleId={id}` is requested and the completion interpreted |
| AppleReview.LookupExamples | packages/app_review/ios/Classes/AppReviewPlugin.swift:90-121 | a listed app gives its id, an empty `results` gives `nil`, a non-JSON body, a bare number and a transport error fail |
| IosAppReview.ForegroundWindowSceneIsFirst | packages/app_review/ios/Classes/AppReviewPlugin.swift:14-25 | the scene used is the first foreground-active one, and it is used only when it is a window scene |
| IosAppReview.SelectTier | packages/app_review/ios/Classes/AppReviewPlugin.swift:12-37 | the tier chosen is possible on that version and scene set, and is the most preferred such tier: SwiftUI from 16, scene-scoped from 14 with a foreground window scene, global from 10.3 |
| IosAppReview.RequestReview | packages/app_review/ios/Classes/AppReviewPlugin.swift:11-38 | every branch completes with success and the message of the tier chosen (`TierReply`); "Review not available" exactly for the unavailable tier; the SwiftUI tier reports success even without a key window; the host view is attached exactly when that tier found a key window in the foreground window scene |
| IosAppReview.IsRequestReviewAvailable | packages/app_review/ios/Classes/AppReviewPlugin.swift:40-46 | always succeeds; true exactly when some review tier is possible, whatever the scenes |
| IosAppReview.AvailableIffRequestAnswersRequested | packages/app_review/ios/Classes/AppReviewPlugin.swift:32-45 | availability is true exactly when `requestReview` does not answer "Review not available" |
| IosAppReview.GetBundleId | packages/app_review/ios/Classes/AppReviewPlugin.swift:48-50 | the bundle identifier, or "" when there is none; never an error |
| IosAppReview.OpenStoreListing | packages/app_review/ios/Classes/AppReviewPlugin.swift:52-69 | 404 exactly for a nil or empty id; 400 with nothing opened when `https://apps.apple.com/app/id{id}` is not a URL; otherwise that URL is opened with `UIApplication.open`, success exactly when it reports true and the 500 error otherwise |
| IosAppReview.OpenAppStoreReview | packages/app_review/ios/Classes/AppReviewPlugin.swift:71-88 | 404 exactly for a nil or empty id; 400 with nothing opened when the write-review URL is not a URL; otherwise `https://apps.apple.com/app/id{id}?action=write-review` is opened with `UIApplication.open`, success exactly when it reports true and the 500 error otherwise |
| MacosAppReview.SelectTier | packages/app_review/macos/Classes/AppReviewPlugin.swift:13-31 | the most preferred tier possible: SwiftUI from 14.0, global from 10.14; never the scene-scoped tier |
| MacosAppReview.RequestReview | packages/app_review/macos/Classes/AppReviewPlugin.swift:13-31 | every branch completes with success and the message of the tier chosen (`TierReply`); "Review not available" exactly for the unavailable tier; the SwiftUI tier reports success even with no window; the host view is attached exactly when the first window has a content view |
| MacosAppReview.IsRequestReviewAvailable | packages/app_review/macos/Classes/AppReviewPlugin.swift:33-39 | always succeeds; true exactly when some review tier is possible |
| MacosAppReview.AvailableIffRequestAnswersRequested | packages/app_review/macos/Classes/AppReviewPlugin.swift:13-39 | availability is true exactly when `requestReview` does not answer "Review not available" |
| MacosAppReview.GetBundleId | packages/app_review/macos/Classes/AppReviewPlugin.swift:41-43 | the bundle identifier, or "" when there is none |
| MacosAppReview.OpenStoreListing | packages/app_review/macos/Classes/AppReviewPlugin.swift:45-60 | 404 exactly for a nil or empty id; 400 with nothing opened when the listing URL is not a URL; otherwise `https://apps.apple.com/app/id{id}` is opened with `NSWorkspace.open`, success exactly when it reports true and the 500 error otherwise |
| MacosAppReview.OpenAppStoreReview | packages/app_review/macos/Classes/AppReviewPlugin.swift:62-77 | 404 exactly for a nil or empty id; 400 with nothing opened when the write-review URL is not a URL; otherwise `https://apps.apple.com/app/id{id}?action=write-review` is opened with `NSWorkspace.open`, success exactly when it reports true and the 500 error otherwise |
| AndroidAppReview.NextManager | packages/app_review/android/src/main/java/com/appleeducate/appreview/AppReviewPlugin.java:146-152 | the manager is a fake exactly in test mode; a real manager is kept outside test mode; a new manager is bound to the current activity |
| AndroidAppReview.NextManagerIdempotent | packages/app_review/android/src/main/java/com/appleeducate/appreview/AppReviewPlugin.java:146-152 | settling the manager a second time, as the re-entry after a fetch does, changes nothing |
| AndroidAppReview.RequestReviewStep | packages/app_review/android/src/main/java/com/appleeducate/appreview/AppReviewPlugin.java:139-166 | no activity: the "Android activity not available" error with the state unchanged; a cached `ReviewInfo` is launched and then dropped, replying "Success: " plus the launch outcome; with none cached, a failed flow request replies "Requesting review not possible" and launches nothing, a successful one launches the fetched `ReviewInfo` |
| AndroidAppReview.FetchInfoStep | packages/app_review/android/src/main/java/com/appleeducate/appreview/AppReviewPlugin.java:168-185 | no manager: the "ReviewManager not initialized" error with the state unchanged; a failed flow request replies "Requesting review not possible" with the state unchanged; a successful one caches the `ReviewInfo` and re-enters the review step: with an activity attached it launches that info, keeps the activity and settles the manager by `NextManager`; otherwise it fails with the activity error, keeping the info cached |
| AndroidAppReview.RequestReviewNeedsActivity | packages/app_review/android/src/main/java/com/appleeducate/appreview/AppReviewPlugin.java:140-144 | without an attached activity a review request fails with "Android activity not available" and changes no field |
| AndroidAppReview.RequestReviewOutcome | packages/app_review/android/src/main/java/com/appleeducate/appreview/AppReviewPlugin.java:140-185 | with an activity: the flow is launched exactly when a `ReviewInfo` was cached or could be fetched, and with that one; afterwards none is cached; the reply is "Success: " plus the launch outcome, or "Requesting review not possible"; the activity is untouched and the manager follows `NextManager` |
| AndroidAppReview.IsAvailableStep | packages/app_review/android/src/main/java/com/appleeducate/appreview/AppReviewPlugin.java:43-61 | an error exactly when there is no manager; otherwise whether the review-flow request succeeded; a successful request caches its `ReviewInfo`; activity and manager are unchanged |
| AndroidAppReview.AvailabilityCacheFeedsRequest | packages/app_review/android/src/main/java/com/appleeducate/appreview/AppReviewPlugin.java:53-55 | the `ReviewInfo` an availability check caches is the one the next review request launches |
| AndroidAppReview.AppReviewPlugin.OpenStoreListing | packages/app_review/android/src/main/java/com/appleeducate/appreview/AppReviewPlugin.java:63-84 | no activity: an error and nothing started, exactly; with an activity the market URL is always tried first; an exception other than "no activity found" on it ends the call with that error; the Play web URL is tried second, exactly when no activity handled the first, and fails with "no activity found" or its exception; success exactly when the last intent started; a null id is rendered as "null" |
| AndroidAppReview.AppReviewPlugin.OpenAppStoreReview | packages/app_review/android/src/main/java/com/appleeducate/appreview/AppReviewPlugin.java:86-89 | behaves exactly as `openStoreListing` |
| AndroidAppReview.Wrap32 | packages/app_review/android/src/main/java/com/appleeducate/appreview/AppReviewPlugin.java:117 | narrowing to `int` keeps the value modulo 2^32 within the `int` range, and keeps every `int` unchanged |
| AndroidAppReview.Saturate32 | packages/app_review/android/src/main/java/com/appleeducate/appreview/AppReviewPlugin.java:117 | a `double` to `int` conversion clamps to the `int` range |
| AndroidAppReview.Saturate64 | packages/app_review/android/src/main/java/com/appleeducate/appreview/AppReviewPlugin.java:117 | a `double` to `long` conversion clamps to the `long` range |
| AndroidAppReview.TruncateTowardZero | packages/app_review/android/src/main/java/com/appleeducate/appreview/AppReviewPlugin.java:117 | the integer part of a number, rounded toward zero |
| AndroidAppReview.JavaInt | packages/app_review/android/src/main/java/com/appleeducate/appreview/AppReviewPlugin.java:117 | `getInt` yields an `int`; an `int` literal is kept, a `long` literal keeps its low 32 bits; null, booleans, arrays and objects are refused |
| AndroidAppReview.JavaLong | packages/app_review/android/src/main/java/com/appleeducate/appreview/AppReviewPlugin.java:117 | `getLong` yields a `long` and keeps every `long` literal; null, booleans, arrays and objects are refused |
| AndroidAppReview.InterpretBodyWith | packages/app_review/android/src/main/java/com/appleeducate/appreview/AppReviewPlugin.java:112-121 | every failure is a JSON error; a non-JSON body, a non-object and a missing `results` fail; `nil` exactly for an empty `results` or a first object without `trackId`; a returned string reads back as the number read from the first `trackId`; when the first result has a `trackId`, the reply succeeds exactly when that number can be read, and then answers it in decimal |
| AndroidAppReview.InterpretBodyAsWritten | packages/app_review/android/src/main/java/com/appleeducate/appreview/AppReviewPlugin.java:112-121 | the code as written (`getInt`): any id answered lies in the `int` range, and a first `trackId` that is a 64-bit integer is answered as its low 32 bits |
| AndroidAppReview.InterpretBody | packages/app_review/android/src/main/java/com/appleeducate/appreview/AppReviewPlugin.java:112-121 | the corrected reading (`getLong`): any id answered lies in the `long` range, and a first `trackId` that is a 64-bit integer is answered exactly |
| AndroidAppReview.Concat | packages/app_review/android/src/main/java/com/appleeducate/appreview/AppReviewPlugin.java:105-109 | a single line is the response itself, and every line fits inside the response |
| AndroidAppReview.ConcatAppend | packages/app_review/android/src/main/java/com/appleeducate/appreview/AppReviewPlugin.java:105-109 | appending the lines of a longer body appends their text, so the response can be built one line at a time |
| AndroidAppReview.GetIntWrapsLargeTrackIds | packages/app_review/android/src/main/java/com/appleeducate/appreview/AppReviewPlugin.java:117 | the id 6448311069 is answered as the number -2141623523, not as itself |
| AndroidAppReview.ListedAppIdIsExact | packages/app_review/android/src/main/java/com/appleeducate/appreview/AppReviewPlugin.java:112-118 | read with `getLong`, a listed app's 64-bit id is answered exactly |
| AndroidAppReview.LookupSpec | packages/app_review/android/src/main/java/com/appleeducate/appreview/AppReviewPlugin.java:92-128 | a refused URL is an error and nothing is requested, exactly; otherwise the lookup URL (null country as "") is requested; a failed connection is an error; a status other than 200 is `nil`; a 200 body is interpreted as a whole with the corrected `getLong` reading (`InterpretBody`), not the `getInt` of line 117 |
| AndroidAppReview.AppReviewPlugin.constructor | packages/app_review/android/src/main/java/com/appleeducate/appreview/AppReviewPlugin.java:25-31 | a new plugin has no activity, no manager and no cached `ReviewInfo` |
| AndroidAppReview.AppReviewPlugin.IsRequestReviewAvailable | packages/app_review/android/src/main/java/com/appleeducate/appreview/AppReviewPlugin.java:43-61 | the new fields and the reply are those of `IsAvailableStep` on the old fields |
| AndroidAppReview.AppReviewPlugin.RequestReview | packages/app_review/android/src/main/java/com/appleeducate/appreview/AppReviewPlugin.java:139-166 | the new fields, the `ReviewInfo` launched and the reply are those of the review step on the old fields |
| AndroidAppReview.AppReviewPlugin.GetReviewInfoAndRequestReview | packages/app_review/android/src/main/java/com/appleeducate/appreview/AppReviewPlugin.java:168-185 | the new fields, the `ReviewInfo` launched and the reply are those of the fetch step on the old fields |
| AndroidAppReview.AppReviewPlugin.GetBundleId | packages/app_review/android/src/main/java/com/appleeducate/appreview/AppReviewPlugin.java:130-137 | an error exactly when no activity is attached; otherwise the activity's package name |
| AndroidAppReview.AppReviewPlugin.ReadResponse | packages/app_review/android/src/main/java/com/appleeducate/appreview/AppReviewPlugin.java:103-110 | the response is the body's lines joined in order without their line terminators |
| AndroidAppReview.AppReviewPlugin.LookupAppId | packages/app_review/android/src/main/java/com/appleeducate/appreview/AppReviewPlugin.java:91-128 | the lookup requests the shared iTunes lookup URL and replies as `LookupSpec` does, the body read line by line through `ReadResponse` and interpreted with the corrected `getLong` reading (`InterpretBody`) |
| AndroidAppReview.AppReviewPlugin.OnAttachedToActivity | packages/app_review/android/src/main/java/com/appleeducate/appreview/AppReviewPlugin.java:187-191 | sets the activity and a real manager for it; the cached `ReviewInfo` is kept |
| AndroidAppReview.AppReviewPlugin.OnDetachedFromActivityForConfigChanges | packages/app_review/android/src/main/java/com/appleeducate/appreview/AppReviewPlugin.java:193-196 | clears the activity and the manager; the cached `ReviewInfo` is kept |
| AndroidAppReview.AppReviewPlugin.OnReattachedToActivityForConfigChanges | packages/app_review/android/src/main/java/com/appleeducate/appreview/AppReviewPlugin.java:198-201 | as attaching |
| AndroidAppReview.AppReviewPlugin.OnDetachedFromActivity | packages/app_review/android/src/main/java/com/appleeducate/appreview/AppReviewPlugin.java:203-207 | clears the activity and the manager; the cached `ReviewInfo` is kept |
| LookupPlatforms.PlatformsAgreeOnListedApp | packages/app_review/android/src/main/java/com/appleeducate/appreview/AppReviewPlugin.java:112-118 | for a listed app with a 64-bit id and status 200, Apple and the corrected Android reading both answer the id in decimal; Android as written agrees exactly when the id lies within the `int` range, and gives a different answer for every other 64-bit id |
| LookupPlatforms.PlatformsAgreeOnDirectoryAnswer | packages/app_review/ios/Classes/AppReviewPlugin.swift:108-112 | for any directory answer whose `results` is a non-empty list of objects with a 64-bit `trackId` first, whatever other fields it carries, Apple and the corrected Android reading answer that id |
| LookupPlatforms.OnlyAndroidReadsStatus | packages/app_review/android/src/main/java/com/appleeducate/appreview/AppReviewPlugin.java:102-123 | for any bundle id and country code whose lookup URL parses, a listed app's body with a status other than 200 gives the id on Apple and `nil` on Android |
| LookupPlatforms.MissingResultsDiffers | packages/app_review/android/src/main/java/com/appleeducate/appreview/AppReviewPlugin.java:113 | an object without `results` is `nil` on Apple and an error on Android, as written and corrected alike |
| LookupPlatforms.MixedResultsDiffer | packages/app_review/ios/Classes/AppReviewPlugin.swift:109 | a `results` array holding a non-object after the first result is `nil` on Apple; on Android it is the first id, exactly with the corrected reading and narrowed to 32 bits as written |
| Vibrate.VibrateMethodCallHandler.constructor | packages/flutter_vibrate/android/src/main/java/flutter/plugins/vibrate/VibrateMethodCallHandler.java:17-22 | `hasVibrator` is the vibrator's answer; the legacy API is used exactly below SDK 26; no activity yet |
| Vibrate.VibrateMethodCallHandler.SetActivity | packages/flutter_vibrate/android/src/main/java/flutter/plugins/vibrate/VibrateMethodCallHandler.java:24-26 | only the activity changes; the vibrator flags are constants |
| Vibrate.VibrateMethodCallHandler.Vibrate | packages/flutter_vibrate/android/src/main/java/flutter/plugins/vibrate/VibrateMethodCallHandler.java:29-37 | nothing exactly without a vibrator; the millisecond API with that duration exactly with a vibrator below SDK 26; from SDK 26 a positive duration is always a one-shot of that duration at the default amplitude, and a duration of 0 or less is refused, exactly |
| Vibrate.VibrateMethodCallHandler.Feedback | packages/flutter_vibrate/android/src/main/java/flutter/plugins/vibrate/VibrateMethodCallHandler.java:39-50 | nothing exactly when there is no activity; otherwise that haptic constant |
| Vibrate.VibrateMethodCallHandler.OnMethodCall | packages/flutter_vibrate/android/src/main/java/flutter/plugins/vibrate/VibrateMethodCallHandler.java:52-112 | "not implemented" exactly for unrecognised names, with no effect; only `vibrate` can fail; `canVibrate` answers `hasVibrator`; the fixed haptic table; the notification methods give CONFIRM/REJECT from SDK 30 and 50/250/500 ms before it, and succeed; `vibrate` with a 32-bit integer duration has the effect of `vibrate` on that duration, and succeeds exactly when the vibrator does not refuse it; a refused one-shot replies with the channel's error; any other `duration` is an error with no effect |
| Vibrate.NoActivityNoHaptics | packages/flutter_vibrate/android/src/main/java/flutter/plugins/vibrate/VibrateMethodCallHandler.java:39-50 | without an activity no method produces haptic feedback |
| Vibrate.NotificationFallbackIsVibrate | packages/flutter_vibrate/android/src/main/java/flutter/plugins/vibrate/VibrateMethodCallHandler.java:71-94 | below SDK 30 `success`, `warning` and `error` dispatch exactly as a `vibrate` call with 50, 250 or 500 ms |
| Vibrate.EffectImpliesReply | packages/flutter_vibrate/android/src/main/java/flutter/plugins/vibrate/VibrateMethodCallHandler.java:54-110 | every effect other than the refused one-shot comes with a success reply |
| Sms.SplitOn | packages/flutter_sms/android/src/main/kotlin/com/example/flutter_sms/FlutterSmsPlugin.kt:57 | cutting a string at the separator always gives at least one part |
| Sms.SplitWithoutSeparator | packages/flutter_sms/android/src/main/kotlin/com/example/flutter_sms/FlutterSmsPlugin.kt:57 | a string without the separator is one part |
| Sms.SplitAfterPart | packages/flutter_sms/android/src/main/kotlin/com/example/flutter_sms/FlutterSmsPlugin.kt:57 | a part, the separator and a rest cut into the part followed by the rest's parts |
| Sms.JoinSplitRoundTrip | packages/flutter_sms/android/src/main/kotlin/com/example/flutter_sms/FlutterSmsPlugin.kt:57 | recipients without ';' joined with ';' cut back into the same recipients in the same order |
| Sms.JoinWith | packages/flutter_sms/android/src/main/kotlin/com/example/flutter_sms/FlutterSmsPlugin.kt:57 | `joinToString`: no recipients give the empty string; the text starts with the first recipient; two or more recipients put the separator in the text |
| Sms.FlutterSmsPlugin.constructor | packages/flutter_sms/android/src/main/kotlin/com/example/flutter_sms/FlutterSmsPlugin.kt:18-19 | a new plugin has no activity |
| Sms.FlutterSmsPlugin.OnAttachedToActivity | packages/flutter_sms/android/src/main/kotlin/com/example/flutter_sms/FlutterSmsPlugin.kt:22-24 | sets the activity |
| Sms.FlutterSmsPlugin.OnDetachedFromActivity | packages/flutter_sms/android/src/main/kotlin/com/example/flutter_sms/FlutterSmsPlugin.kt:26-28 | clears the activity |
| Sms.FlutterSmsPlugin.OnDetachedFromActivityForConfigChanges | packages/flutter_sms/android/src/main/kotlin/com/example/flutter_sms/FlutterSmsPlugin.kt:30-32 | clears the activity |
| Sms.FlutterSmsPlugin.OnReattachedToActivityForConfigChanges | packages/flutter_sms/android/src/main/kotlin/com/example/flutter_sms/FlutterSmsPlugin.kt:34-36 | sets the activity |
| Sms.FlutterSmsPlugin.CheckCanSendSms | packages/flutter_sms/android/src/main/kotlin/com/example/flutter_sms/FlutterSmsPlugin.kt:66-84 | false without an activity, without telephony, or without an exported `smsto:` handler; true exactly when all three hold |
| Sms.FlutterSmsPlugin.CanSendSms | packages/flutter_sms/android/src/main/kotlin/com/example/flutter_sms/FlutterSmsPlugin.kt:61-64 | always succeeds, with the guard's verdict |
| Sms.FlutterSmsPlugin.SendSms | packages/flutter_sms/android/src/main/kotlin/com/example/flutter_sms/FlutterSmsPlugin.kt:51-93 | an incapable device gets `device_not_capable` and nothing is started, exactly; a capable device always starts the intent and replies "SMS Sent!"; the intent is one `ACTION_SENDTO` with request code 205, data "smsto:" plus the recipients joined by ';', the message under both `sms_body` and `EXTRA_TEXT` |
| Sms.IntentNamesRecipientsInOrder | packages/flutter_sms/android/src/main/kotlin/com/example/flutter_sms/FlutterSmsPlugin.kt:57-88 | the intent's data is "smsto:" followed by text that cuts back into exactly the recipients, in order |

## Findings

| source | as written | input that shows it | evidently intended | confidence | as-written member | corrected member |
|---|---|---|---|---|---|---|
| packages/app_review/android/src/main/java/com/appleeducate/appreview/AppReviewPlugin.java:117 | the `trackId` is read with `getInt`, which narrows a `long` to its low 32 bits | a lookup answering `{"results":[{"trackId":6448311069}]}`, an id of the size the App Store now issues, gives "-2141623523" | the id as the directory gives it, "6448311069", as the iOS and macOS plugins answer (read with `getLong`) | high; not executed | AndroidAppReview.GetIntWrapsLargeTrackIds | AndroidAppReview.ListedAppIdIsExact |

The as-written reading is `AndroidAppReview.InterpretBodyAsWritten`. The corrected one is `AndroidAppReview.InterpretBody`, which `LookupSpec` and the `LookupAppId` method use.

## Left out

- Network I/O, the background thread, timeouts and `Handler.post` are left out. The transport outcome is an input: the URLSession completion's error, data and status, or the Android connection's failure or status and lines.
- JSON parsing is left out. The body is given already parsed, or as "not JSON", by a parser parameter. An empty body is therefore whatever the parser makes of it. The code does not treat an empty body specially, and the model does not either. Of the parsed values, `JSONSerialization.jsonObject(with:)` without `.fragmentsAllowed` accepts only an object or an array at the top level (`AppleReview.Deserializes`); every other parser refusal is "not JSON".
- The Play review tasks are left out. `requestReviewFlow` and `launchReviewFlow` are given as their outcomes, and they complete before the method returns, so the model has no interleaving of callbacks.
- `AndroidAppReview.RequestReviewStep` uses the same fetch outcome when it re-enters after fetching, and a fresh `FakeManager` is identified only by its activity. A second fake manager created on re-entry is not told apart from the first.
- The garbage collection of the weakly referenced activity is not an operation. It appears only as a state whose `WeakRef` has no referent.
- `AndroidAppReview.JavaInt` reads a string `trackId` only when it is a plain integer numeral (an optional '-' and digits), read by its exact value. Every other string is outside the model and is treated as a type mismatch, though `Double.parseDouble` would accept some of them: fractions, exponents, a leading '+', surrounding whitespace, `NaN`, `Infinity` and hexadecimal. It also does not model the precision a `double` loses: a numeral string beyond 2^53, a `JDecimal` that no `double` holds exactly, and a literal beyond the `long` range are each read by their exact value rather than through the nearest `double`.
- `AndroidAppReview.JavaLong` has the same limits as `JavaInt`.
- `AppleReview.SwiftInt` treats a JSON boolean as not an `Int`. On Apple platforms `as? Int` of an `NSNumber` boolean may succeed.
- Plugin registration, messenger setup and the engine attach and detach hooks are host plumbing and are left out.
- The SwiftUI hosting view is left out beyond a flag saying whether it was attached. The review-prompt call itself is also left out.
- `IosAppReview.RequestReview` and `MacosAppReview.RequestReview` take `testMode` and ignore it, as the Apple code does.
- `Vibrate.VibrateMethodCallHandler.Vibrate` models `VibrationEffect.createOneShot` refusing a duration of 0 or less as the platform documents. The refusal reaches the caller as the channel's error reply, as an exception escaping `onMethodCall` does.
- `Vibrate.VibrateMethodCallHandler.OnMethodCall` gives a reply but not its code text. A missing or non-integer `duration` unboxing fails and is modelled as that same error reply.
- `Vibrate.VibrateMethodCallHandler.OnMethodCall` passes the `duration` read on line 59 to `vibrate`. Line 60 of the handler passes an undeclared `d`, so the file as written does not compile, and there is no as-written behaviour to model for that line.
- `AndroidAppReview.AppReviewPlugin.OpenStoreListing` models an exception other than "no activity found" on the first attempt, which escapes the method, as an error reply. This is what the generated messenger does with an escaping exception.
- The iOS SMS and haptics plugins and the Android `VibratePlugin` wiring only forward to platform APIs and are left out.
