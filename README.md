# Knets Jr — a verified model of the child-device app

Knets Jr is the Android app a parent installs on a child's phone. The model
covers five of its components and the preference store they share:

- **MainActivity** (`enrollment.dfy`): the three-step enrollment. Step 1 is
  a 10-character parent code checked by the server. Step 2 is a 4-character
  secret code checked by the server. Step 3 is granting device admin, which
  completes the setup. The class keeps the same fields as the activity.
  Each server round trip is split into the method that builds the request
  and the callback method that receives the reply.
- **ServerPollingService** (`polling.dfy`, `commands.dfy`): the `isPolling`
  guard and the polling thread's loop, given as a schedule of iterations and
  destructions. It also covers the command batch. Each command runs its
  handler against the device and is then acknowledged, and a malformed
  element ends the batch.
- **SecretCodeVerificationActivity** (`guard.dfy`): the secret check that
  must pass before device admin is removed. There is no attempt limit.
- **KnetsDeviceAdminReceiver** (`admin_receiver.dfy`): the answer to a
  disable request, which depends on whether both codes are stored.
- **BootReceiver** (`boot.dfy`): what a boot broadcast starts.

Shared pieces:
- `store.dfy`: the SharedPreferences files.
- `device.dfy`: the admin and WiFi status of the phone.
- `common.dfy`: `Option` and Java's `String.trim`.
- `scenario.dfy`: properties that link the components.

Each server reply is an input datatype. The platform facts a handler
consults come in as a `Platform` value: whether a WifiManager exists, how
setWifiEnabled answers, whether lockNow throws, and the location providers.
The device id and the clock come in as parameters.

## Model

| member | source | states |
|---|---|---|
| Common.Trim | app/src/main/java/com/knets/jr/MainActivity.java:302 | `String.trim`: the result is the stretch of the input that starts at some index and has only blanks outside it; it has no blank at either end, and is the input itself when nothing is blank at the ends |
| Common.TrimFullLength | app/src/main/java/com/knets/jr/SecretCodeVerificationActivity.java:78 | a trim that keeps the full length returns its input unchanged |
| Enrollment.DeriveStep | app/src/main/java/com/knets/jr/MainActivity.java:200-205 | the step lies in 1..4 and is one past the index of the first false flag among parent-verified, secret-verified and admin-active |
| Enrollment.StepNamesFirstMissing | app/src/main/java/com/knets/jr/MainActivity.java:200-205 | step 4 holds iff all three conditions hold; steps 1, 2 and 3 each hold iff their condition is the first one missing |
| Enrollment.StepMonotone | app/src/main/java/com/knets/jr/MainActivity.java:200-205 | gaining a condition never lowers the derived step |
| Enrollment.LateScreensUnreachable | app/src/main/java/com/knets/jr/MainActivity.java:235-286 | a derived step never selects the location, registration or finalisation case of updateUI |
| Enrollment.ScreenFor | app/src/main/java/com/knets/jr/MainActivity.java:235-286 | the switch of updateUI: no screen iff the step is outside 1 to 7; the completed screen iff the step is 4 |
| Enrollment.Progress | app/src/main/java/com/knets/jr/MainActivity.java:295 | `min(step*100/3, 100)` gives 33, 66, 100 and 100 for steps 1 to 4 |
| Enrollment.ServerBaseUrl | app/src/main/java/com/knets/jr/MainActivity.java:735-748 | the stored `server_url` when it is non-empty, else `https://knets.replit.app`; never empty |
| Enrollment.CompletedStore | app/src/main/java/com/knets/jr/MainActivity.java:565-582 | sets `workflow_completed`; writes `device_imei` only for a non-empty id; no other key changes |
| Enrollment.MainActivity.constructor | app/src/main/java/com/knets/jr/MainActivity.java:181-198 | loadStoredData: the fields copy the store and the live admin status, and the step is derived from them; the device id it is given has at least four characters, since the log line of getDeviceImei (MainActivity.java:644) throws for a shorter one |
| Enrollment.MainActivity.UpdateUI | app/src/main/java/com/knets/jr/MainActivity.java:207-297 | shows one of the four enrollment screens and a progress of 33, 66 or 100; changes no state |
| Enrollment.MainActivity.VerifyCodeWithServer | app/src/main/java/com/knets/jr/MainActivity.java:332-355 | no request iff no parent code is stored; otherwise a verify-code request to the base URL with the code and the device id |
| Enrollment.MainActivity.HandleConnectStep | app/src/main/java/com/knets/jr/MainActivity.java:299-330 | in step 1 a trimmed 10-character code, and in step 2 a trimmed 4-character secret, is stored before its request is built; any other input, and steps 3 and 4, change nothing and send nothing; no flag and not the step changes |
| Enrollment.MainActivity.OnVerifyCodeReply | app/src/main/java/com/knets/jr/MainActivity.java:356-399 | only a 2xx reply with `valid=true` sets `parent_code_verified` and re-derives the step; any other reply changes nothing and keeps the code stored |
| Enrollment.MainActivity.OnVerifySecretReply | app/src/main/java/com/knets/jr/MainActivity.java:402-465 | only a 2xx reply with `success=true` sets `secret_code_verified`; any other reply changes nothing |
| Enrollment.MainActivity.CompleteSetup | app/src/main/java/com/knets/jr/MainActivity.java:565-587 | the store becomes CompletedStore of the old store, `workflowCompleted` holds and the step is forced to 4 |
| Enrollment.MainActivity.OnActivityResult | app/src/main/java/com/knets/jr/MainActivity.java:686-699 | for request 1001 the admin status is re-read, and completeSetup (which starts polling) runs iff admin is active; any other request changes nothing; the codes, the verified flags and the device id never change |
| Enrollment.MainActivity.OnRequestPermissionsResult | app/src/main/java/com/knets/jr/MainActivity.java:702-730 | a granted READ_PHONE_STATE request replaces the device id with what getDeviceImei finds, which must have at least four characters for its log line not to throw; any other answer keeps the id; no other field changes |
| Enrollment.MainActivity.HandleBackAction | app/src/main/java/com/knets/jr/MainActivity.java:792-800 | the app moves to the back iff the workflow is completed |
| Commands.Classify | app/src/main/java/com/knets/jr/ServerPollingService.java:178-205 | the switch on the type string: unknown iff the string is none of the eight case labels |
| Commands.ClassifyTypeName | app/src/main/java/com/knets/jr/ServerPollingService.java:178-205 | each case label selects its own handler |
| Commands.ReadCommand | app/src/main/java/com/knets/jr/ServerPollingService.java:172-174 | an object element keeps its id; its kind is missing iff `type` is; the kind is unknown iff `type` is not a case label, and otherwise is the kind whose case label is `type` |
| Commands.EnableLocationEffects | app/src/main/java/com/knets/jr/ServerPollingService.java:213-259 | with a LocationManager three effects, the first naming GPS if enabled, else the network provider if enabled, else "starting"; without one only the last two: the location service started without an immediate update, then the activated notification |
| Commands.RequestLocationEffects | app/src/main/java/com/knets/jr/ServerPollingService.java:261-275 | the location service is started first, with an immediate update; the only other effect is a notification |
| Commands.LockEffects | app/src/main/java/com/knets/jr/ServerPollingService.java:277-303 | lockNow runs iff admin is active and the call does not throw; without admin the only effect is "Lock failed - Enable device admin" |
| Commands.UnlockEffects | app/src/main/java/com/knets/jr/ServerPollingService.java:305-315 | nothing is unlocked: MainActivity is started with `command=unlock_device`; the only other effect is a notification |
| Commands.DisableWifiEffects | app/src/main/java/com/knets/jr/ServerPollingService.java:320-357 | setWifiEnabled(false) is called iff admin is active, a WifiManager exists and WiFi is on; WiFi ends off only when the platform accepts the call |
| Commands.EnableWifiEffects | app/src/main/java/com/knets/jr/ServerPollingService.java:359-387 | no admin check; setWifiEnabled(true) is called iff a WifiManager exists and WiFi is off |
| Commands.AttemptSystemLevelDataDisable | app/src/main/java/com/knets/jr/ServerPollingService.java:431-453 | reports success iff device admin is active |
| Commands.ApplyNetworkRestriction | app/src/main/java/com/knets/jr/ServerPollingService.java:458-476 | reports success iff device admin is active |
| Commands.AttemptSystemLevelDataEnable | app/src/main/java/com/knets/jr/ServerPollingService.java:520-542 | reports success iff device admin is active |
| Commands.RemoveNetworkRestriction | app/src/main/java/com/knets/jr/ServerPollingService.java:547-565 | reports success iff device admin is active |
| Commands.DisableMobileDataEffects | app/src/main/java/com/knets/jr/ServerPollingService.java:389-476 | with admin, always the direct success notification, because the attempt re-checks the same condition; without admin only "Mobile data control requires device admin" |
| Commands.EnableMobileDataEffects | app/src/main/java/com/knets/jr/ServerPollingService.java:478-565 | the same for enabling: the direct branch with admin, so the restriction fallback never runs |
| Commands.Handle | app/src/main/java/com/knets/jr/ServerPollingService.java:178-205 | handlers never acknowledge; only the two WiFi kinds change WiFi; an unknown kind has no effect |
| Commands.AckFor | app/src/main/java/com/knets/jr/ServerPollingService.java:567-581 | an acknowledgment to the cycle's endpoint carrying the command id, the device id, status `processed` and the cycle's time |
| Commands.BatchOutcome | app/src/main/java/com/knets/jr/ServerPollingService.java:171-211 | the batch as a value: handler effects and acks in array order, the WiFi state after, and whether the loop ran to the end; its properties are the lemmas below |
| Commands.BatchCompletedIff | app/src/main/java/com/knets/jr/ServerPollingService.java:171-211 | a batch is reported completed iff every element is an object with a type and an id |
| Commands.AckIdsAppend | app/src/main/java/com/knets/jr/ServerPollingService.java:171-211 | the acknowledged ids of two effect runs are those of the first run followed by those of the second |
| Commands.BatchStepped | app/src/main/java/com/knets/jr/ServerPollingService.java:172-209 | one well-formed element: its handler's effects, then its ack, then the rest of the batch from the new WiFi state |
| Commands.BatchStopped | app/src/main/java/com/knets/jr/ServerPollingService.java:172-209 | a malformed element ends the batch incomplete; its handler runs first when only its id is missing |
| Commands.AcksFollowCommands | app/src/main/java/com/knets/jr/ServerPollingService.java:171-211 | a batch of well-formed commands completes, and its ack ids are the command ids in array order |
| Commands.MalformedHead | app/src/main/java/com/knets/jr/ServerPollingService.java:172-174 | a malformed first element ends the batch with no acknowledgment, whatever follows |
| Commands.MalformedSkipsRest | app/src/main/java/com/knets/jr/ServerPollingService.java:164-166 | nothing after the first malformed element affects the outcome |
| Commands.MalformedEndsBatch | app/src/main/java/com/knets/jr/ServerPollingService.java:164-209 | a batch whose first malformed element is at n is incomplete, and only the n commands before it are acknowledged, in order |
| Commands.AckPayloads | app/src/main/java/com/knets/jr/ServerPollingService.java:567-602 | every ack goes to the acknowledge endpoint with the device id and status `processed` |
| Commands.HandleMonotone | app/src/main/java/com/knets/jr/ServerPollingService.java:320-387 | a handler that turns WiFi on from off also leaves it on from on |
| Commands.BatchMonotone | app/src/main/java/com/knets/jr/ServerPollingService.java:171-211 | the WiFi state after a batch is monotone in the state before it, whatever the ack context |
| Commands.ReplayKeepsWifi | app/src/main/java/com/knets/jr/ServerPollingService.java:171-211 | processing a redelivered batch again leaves WiFi where the first run left it |
| Commands.WifiRedeliveryNoToggle | app/src/main/java/com/knets/jr/ServerPollingService.java:320-387 | after a WiFi command took effect, a redelivery calls setWifiEnabled no more |
| Polling.ServiceServerBaseUrl | app/src/main/java/com/knets/jr/ServerPollingService.java:634-644 | the stored `server_url` when non-empty, else the development host; never empty |
| Polling.DeviceIdentity | app/src/main/java/com/knets/jr/ServerPollingService.java:55-59 | the stored `device_imei`, else ANDROID_ID; empty iff both are |
| Polling.ReplyOutcome | app/src/main/java/com/knets/jr/ServerPollingService.java:141-167 | a failure, a non-2xx reply, an unparsable body or a body without a `commands` array processes nothing; an array is processed as a batch |
| Polling.LeadingTicks | app/src/main/java/com/knets/jr/ServerPollingService.java:109-127 | the number of iterations before the first destruction: all of them are ticks, and the next step is a destruction |
| Polling.ServerPollingService.constructor | app/src/main/java/com/knets/jr/ServerPollingService.java:44-60 | onCreate: not polling, no thread, and the device id from DeviceIdentity |
| Polling.ServerPollingService.CheckCommandsUrl | app/src/main/java/com/knets/jr/ServerPollingService.java:134 | the base URL, then `/api/knets-jr/check-commands/`, then the device id |
| Polling.ServerPollingService.AckContextAt | app/src/main/java/com/knets/jr/ServerPollingService.java:567-581 | every acknowledgment of a cycle posts to the base URL plus `/api/knets-jr/acknowledge-command`, with the service's device id and the cycle's time |
| Polling.ServerPollingService.StartPolling | app/src/main/java/com/knets/jr/ServerPollingService.java:98-130 | a no-op when already polling or when the id is empty; otherwise polling is on and one thread is started |
| Polling.ServerPollingService.OnStartCommand | app/src/main/java/com/knets/jr/ServerPollingService.java:63-70 | returns START_STICKY; a thread is started, uninterrupted, iff polling was off and the id is non-empty; otherwise the polling flag and the thread state are unchanged |
| Polling.ServerPollingService.OnDestroy | app/src/main/java/com/knets/jr/ServerPollingService.java:620-629 | polling is off, and a started thread is interrupted |
| Polling.ServerPollingService.RunPollingThread | app/src/main/java/com/knets/jr/ServerPollingService.java:106-127 | one check-commands request per iteration before the first destruction and none after; a destruction ends polling and leaves the thread interrupted; without one nothing else changes |
| Polling.ServerPollingService.Dispatch | app/src/main/java/com/knets/jr/ServerPollingService.java:178-205 | the handler of the kind runs against the device; the device's WiFi becomes the handler's result |
| Polling.ServerPollingService.RunWellFormedPrefix | app/src/main/java/com/knets/jr/ServerPollingService.java:172-209 | the loop stops at the end or at the first malformed element, and the rest of the batch from there completes BatchOutcome |
| Polling.ServerPollingService.ProcessCommands | app/src/main/java/com/knets/jr/ServerPollingService.java:171-211 | the effects, the completion and the new WiFi state are those of BatchOutcome at the old device state |
| Polling.ServerPollingService.OnCommandsReply | app/src/main/java/com/knets/jr/ServerPollingService.java:147-167 | the effects and WiFi state are those of ReplyOutcome for the reply |
| Polling.LeadingTicksIs | app/src/main/java/com/knets/jr/ServerPollingService.java:109-127 | k ticks followed by a destruction or by the end of the schedule give exactly k iterations |
| DisableGuard.Decide | app/src/main/java/com/knets/jr/SecretCodeVerificationActivity.java:77-117 | no secret stored iff the secret is empty; a match iff the trimmed entry equals a non-empty stored secret; the revocation fails exactly when removeActiveAdmin throws |
| DisableGuard.StoreAfter | app/src/main/java/com/knets/jr/SecretCodeVerificationActivity.java:94-106 | only a completed revocation writes, and it sets `workflow_completed` and `device_admin_enabled` to false; every other key keeps its entry |
| DisableGuard.ToastsFor | app/src/main/java/com/knets/jr/SecretCodeVerificationActivity.java:81-116 | "verified" is shown iff the codes match; "disabled successfully" is shown iff the revocation succeeded |
| DisableGuard.Session | app/src/main/java/com/knets/jr/SecretCodeVerificationActivity.java:77-117 | entries submitted in turn: the verdict is the one on the first entry that is not a wrong code, every earlier entry being wrong; no verdict iff every entry is wrong |
| DisableGuard.NoLockout | app/src/main/java/com/knets/jr/SecretCodeVerificationActivity.java:110-116 | any number of wrong entries first leaves the verdict on the next entry unchanged; no attempt counter exists |
| DisableGuard.EnabledEntryMatchesExactly | app/src/main/java/com/knets/jr/SecretCodeVerificationActivity.java:59-60 | with the button enabled (four characters) and a four-character secret, only the exact secret is accepted |
| DisableGuard.SameTypingAccepted | app/src/main/java/com/knets/jr/SecretCodeVerificationActivity.java:78-87 | a secret stored trimmed accepts the same raw text it was typed as |
| DisableGuard.SecretCodeVerificationActivity.OnTextChanged | app/src/main/java/com/knets/jr/SecretCodeVerificationActivity.java:59-61 | the verify button is enabled iff the text is exactly four characters |
| DisableGuard.SecretCodeVerificationActivity.VerifySecretCode | app/src/main/java/com/knets/jr/SecretCodeVerificationActivity.java:77-117 | the store becomes StoreAfter of the verdict; admin is removed only on a successful revocation; a wrong code clears the field and disables the button, and the screen stays open; every other verdict closes the screen |
| DisableGuard.SecretCodeVerificationActivity.Cancel | app/src/main/java/com/knets/jr/SecretCodeVerificationActivity.java:65-68 | cancel shows a toast and closes the screen; the store and the device are not touched |
| DisableGuard.SecretCodeVerificationActivity.OnBackPressed | app/src/main/java/com/knets/jr/SecretCodeVerificationActivity.java:124-127 | back only shows a toast and changes nothing |
| AdminReceiver.OnDisableRequested | app/src/main/java/com/knets/jr/KnetsDeviceAdminReceiver.java:28-55 | MainActivity is launched with `action=verify_disable`, and the security warning returned, iff both codes are stored; otherwise nothing is launched and the fallback warning is returned; the store is only read |
| AdminReceiver.ResponseDependsOnCodesOnly | app/src/main/java/com/knets/jr/KnetsDeviceAdminReceiver.java:32-36 | two stores that agree on the two code entries get the same response |
| AdminReceiver.IsProtected | app/src/main/java/com/knets/jr/KnetsDeviceAdminReceiver.java:32-36 | both `secret_code` and `parent_code` are stored non-empty |
| Boot.LaunchInBackground | app/src/main/java/com/knets/jr/BootReceiver.java:70-84 | the launch happens unless startActivity throws, and a failure has no other effect |
| Boot.OnReceive | app/src/main/java/com/knets/jr/BootReceiver.java:18-65 | any action other than the five has no effect; with `workflow_completed` in `knets_jr_prefs`, polling starts, then location, then the launch; without it, only the launch |
| Boot.ServicesNeedFlag | app/src/main/java/com/knets/jr/BootReceiver.java:22-63 | services start iff a boot action meets the completed flag; the two services start together; the launch, when present, is last |
| Boot.IndependentOfMainFile | app/src/main/java/com/knets/jr/BootReceiver.java:31-32 | whatever is written to `knets_jr` leaves the receiver's decision unchanged |
| Boot.IsBootAction | app/src/main/java/com/knets/jr/BootReceiver.java:22-26 | the action is present and one of the five boot and package-replaced actions |
| Scenario.DefaultHostsDiffer | app/src/main/java/com/knets/jr/ServerPollingService.java:634-644 | with no `server_url` stored, the service polls a different host from the one MainActivity verifies codes with (MainActivity.java:735-748) |
| Scenario.ServiceUsesEnrolledId | app/src/main/java/com/knets/jr/ServerPollingService.java:55-59 | the device id stored by completeSetup is the id the service uses |
| Scenario.EnrolledCodesProtect | app/src/main/java/com/knets/jr/KnetsDeviceAdminReceiver.java:33-36 | codes accepted by handleConnectStep (MainActivity.java:302-324) make the device protected |
| Scenario.GuardKeepsProtection | app/src/main/java/com/knets/jr/SecretCodeVerificationActivity.java:98-101 | no verdict of the guard changes whether the device counts as protected |
| Scenario.CompletedEnrollmentStartsNoBootServices | app/src/main/java/com/knets/jr/BootReceiver.java:31-34 | on a phone where only the enrollment has written (`knets_jr`, MainActivity.java:565-582), a boot never starts the services |
| Scenario.RejectedParentCodeIsKept | app/src/main/java/com/knets/jr/MainActivity.java:308-313 | a well-formed parent code the server does not confirm stays stored, and the step stays 1 |
| Scenario.AdminGrantedCompletesSetup | app/src/main/java/com/knets/jr/MainActivity.java:686-699 | once the user grants admin, the activity result completes setup: step 4, polling started, the completed flag and the device id stored |
| Scenario.RevokeThenRelaunch | app/src/main/java/com/knets/jr/SecretCodeVerificationActivity.java:87-101 | after a successful revocation, MainActivity started anew derives a step of at most 3 and refuses the back button |

## Left out

- HTTP and JSON are not modelled. Each reply is an input datatype: `Enrollment.Reply` or `Polling.PollReply`. A command element arrives as `Commands.RawCommand`.
- Commands.RawCommand: the `type` string is held already classified by the switch. `Commands.ReadCommand` states how the two fields become a `RawCommand`; the batch functions take `RawCommand` values directly, so that link is documentary. A JSON `null` type is modelled like a missing one, since both throw.
- Asynchronous callbacks and threads are modelled at the granularity of one callback or one loop iteration. The 30-second `Thread.sleep` and the interleaving of the thread with the callbacks are not modelled.
- The loop's catch branch for exceptions other than an interrupt, with its extra sleep, is not modelled.
- Polling.ServerPollingService.OnCommandsReply: the source reads `System.currentTimeMillis` separately for each acknowledgment. The model gives all acknowledgments of one reply a single timestamp.
- Acknowledgment replies are only logged in the source, so the model contains no reply for them and no retry.
- Toasts and notification texts are tokens; `Commands.Text` and `DisableGuard.Text` give their wording. Log lines, views, visibility and the notification channel are not modelled.
- Java string lengths count UTF-16 code units; the model counts characters. `String.trim` is taken over characters up to U+0020.
- A preference key holding a value of the other type makes Android throw ClassCastException. The model returns the default instead.
- The device id that `getDeviceImei` finds, and ANDROID_ID, are parameters and are taken to be non-null. A null ANDROID_ID would pass the log line of getDeviceImei but make `completeSetup` throw a NullPointerException (MainActivity.java:571), and likewise the service's `startPolling` (ServerPollingService.java:99). The model has no null id; in the service a null ANDROID_ID is taken as the empty string.
- `registerDevice` is not modelled. It is reachable only through updateUI case 6, which `Enrollment.LateScreensUnreachable` shows is never selected.
- `requestLocationPermissions`, run by the location button that updateUI case 5 makes visible, only asks the platform for location permissions. It is not modelled, and neither are the location branches of onRequestPermissionsResult, which only show toasts and may ask for background location.
- Enrollment.MainActivity.OnRequestPermissionsResult: `updateDeviceInfo`, which only refreshes a view, is not modelled.
- Enrollment.MainActivity.constructor: the device id is what getDeviceImei leaves when loadStoredData runs (MainActivity.java:193). Before Android 13 no permission is requested: without READ_PHONE_STATE, or when getDeviceId gives nothing, the id is ANDROID_ID (MainActivity.java:628-641). On Android 13 and later without READ_PHONE_STATE, the permission is requested and the id stays "" (MainActivity.java:69 and 623-625). The same happens when READ_PHONE_STATE is granted but there is no TelephonyManager (MainActivity.java:610-615). In both cases the log line at MainActivity.java:644 throws and onCreate does not finish, on every launch until the permission is granted some other way. `OnRequestPermissionsResult` is modelled for an answer that reaches a running activity, which needs that grant to exist already.
- Enrollment.MainActivity.constructor, Enrollment.MainActivity.OnRequestPermissionsResult and Scenario.RevokeThenRelaunch: the log line at MainActivity.java:644 throws StringIndexOutOfBoundsException for a non-null id shorter than four characters. The crash is not modelled as an outcome. These members instead require an id of at least four characters (`Enrollment.LoggedIdLength`), so they describe only the launches and permission answers that do not crash.
- Enrollment.MainActivity.HandleConnectStep: `parentField` is the field's text after its TextWatcher has upper-cased it (MainActivity.java:132-138). The upper-casing itself is not modelled, and neither is the watcher's enabling of the button at ten characters.
- Enrollment.MainActivity.HandleBackAction and Scenario.RevokeThenRelaunch: the back callbacks are registered only on Android 13 and later (MainActivity.java:92-94 and 772-779). Below that, back has the platform's default behaviour and finishes MainActivity, so the refusal these members state holds only on Android 13 and later.
- The enhanced and plain location services are opaque start effects. Their code is not part of this model.
- `startForegroundService` for the polling service in completeSetup is reported by `OnActivityResult`'s result, not modelled as an effect.
- An exception from `startForeground` or `startForegroundService` would propagate in the source; the model does not raise it.
- Boot.OnReceive: the SDK-version choice between `startForegroundService` and `startService` gives the same effect in the model.
- The `verify_disable` extra is never read by MainActivity, and nothing shown starts SecretCodeVerificationActivity. The model links neither.
- `onEnabled` and `onDisabled` of the admin receiver only log and show a toast, and the password callbacks only log. None of them is modelled, since none changes stored or device state.
- The system's own handling of the warning returned from onDisableRequested is not modelled.
- DisableGuard.SecretCodeVerificationActivity.constructor: the verify button's initial enabled state comes from a layout file that is not part of this model, so it is a parameter.
- A `WifiManager` is used but not imported in ServerPollingService; the model assumes the intended `android.net.wifi.WifiManager`.
- When the device-policy service is absent, the source's null handling is not modelled; the service is taken as present.
