/** The enrollment workflow of MainActivity: the current step is derived
    from three persisted flags and the live admin status; entered codes are
    checked for length and persisted before the server is asked; each
    verified flag is set only on a positive server verdict; granting device
    admin completes the setup. Server round trips are split into the request
    a method issues and the callback that later receives the reply. */
module Enrollment {
  import opened Common
  import opened Store
  import opened Device

  const DeviceAdminRequest := 1001
  const PhoneStatePermissionRequest := 1003
  /** getDeviceImei logs the first four characters of the id it found
      (`substring(0, 4)`), which throws for a shorter one: an activity only
      exists with an id at least this long. */
  const LoggedIdLength := 4
  const ParentCodeLength := 10
  const SecretCodeLength := 4
  const DefaultServerUrl := "https://knets.replit.app"
  const VerifyCodePath := "/api/knets-jr/verify-code"
  const VerifyCodesPath := "/api/knets-jr/verify-codes"

  /** The index of the first false flag, or |flags| when all are true. */
  function FirstFalse(flags: seq<bool>): (i: nat)
    ensures i <= |flags|
    ensures forall j :: 0 <= j < i ==> flags[j]
    ensures i < |flags| ==> !flags[i]
  {
    if flags == [] || !flags[0] then 0 else 1 + FirstFalse(flags[1..])
  }

  /** updateCurrentStep: the step is one past the index of the first false
      flag among parent-verified, secret-verified and admin-active, so it
      only ever takes the values 1 to 4. */
  function DeriveStep(parentVerified: bool, secretVerified: bool, adminActive: bool): (step: int)
    ensures 1 <= step <= 4
    ensures step == FirstFalse([parentVerified, secretVerified, adminActive]) + 1
  {
    ghost var flags := [parentVerified, secretVerified, adminActive];
    assert flags[0] == parentVerified && flags[1] == secretVerified && flags[2] == adminActive;
    if !parentVerified then 1
    else if !secretVerified then 2
    else if !adminActive then 3
    else 4
  }

  /** The screens the `switch (currentStep)` of updateUI can show. */
  datatype Screen =
    | ParentCodeEntry | SecretCodeEntry | DeviceAdminPrompt | Completed
    | LocationPrompt | Registering | Finalizing | NoScreen

  /** The screen of each step: the four enrollment steps, the three that
      nothing assigns, and nothing at all outside 1 to 7. */
  function ScreenFor(step: int): (s: Screen)
    ensures s == NoScreen <==> step < 1 || step > 7
    ensures s == Completed <==> step == 4
  {
    match step
    case 1 => ParentCodeEntry
    case 2 => SecretCodeEntry
    case 3 => DeviceAdminPrompt
    case 4 => Completed
    case 5 => LocationPrompt
    case 6 => Registering
    case 7 => Finalizing
    case _ => NoScreen
  }

  /** The progress bar value `Math.min(currentStep * 100 / 3, 100)`. */
  function Progress(step: int): (p: int)
    requires 1 <= step <= 4
    ensures p == [33, 66, 100, 100][step - 1]
    ensures 0 < p <= 100
  {
    var raw := step * 100 / 3;
    if raw < 100 then raw else 100
  }

  /** getServerBaseUrl: the stored `server_url` unless it is empty. */
  function ServerBaseUrl(p: Prefs): (url: string)
    ensures url != ""
    ensures GetString(p, "server_url", "") != "" ==> url == GetString(p, "server_url", "")
    ensures GetString(p, "server_url", "") == "" ==> url == DefaultServerUrl
  {
    var custom := GetString(p, "server_url", "");
    if custom != "" then custom else DefaultServerUrl
  }

  /** Writing a code leaves the server URL as it was. */
  lemma UrlIgnoresCodeWrite(p: Prefs, key: string, code: string)
    requires key == "parent_code" || key == "secret_code"
    ensures ServerBaseUrl(p[key := Str(code)]) == ServerBaseUrl(p)
  {
    assert GetString(p[key := Str(code)], "server_url", "") == GetString(p, "server_url", "");
  }

  /** The store after completeSetup: `workflow_completed` is set, and
      `device_imei` is written only when the device id is known. */
  function CompletedStore(p: Prefs, deviceImei: string): (r: Prefs)
    ensures GetBoolean(r, "workflow_completed", false)
    ensures deviceImei != "" ==> GetString(r, "device_imei", "") == deviceImei
    ensures deviceImei == "" ==> SameAt(r, p, "device_imei")
    ensures forall k :: k != "workflow_completed" && k != "device_imei" ==> SameAt(r, p, k)
  {
    var withImei := if deviceImei != "" then p["device_imei" := Str(deviceImei)] else p;
    withImei["workflow_completed" := Flag(true)]
  }

  /** The requests the workflow sends; the JSON body is given by the fields. */
  datatype Request =
    | VerifyCode(url: string, parentCode: string, deviceImei: string)
    | VerifyCodes(url: string, parentCode: string, secretCode: string)

  /** What the HTTP callback receives: a transport failure (onFailure), a
      non-2xx status, a 2xx body that does not parse or lacks the field, or a
      2xx body whose boolean field (`valid` or `success`) has this value. */
  datatype Reply = TransportFailure | NotSuccessful | ParseError | Verdict(value: bool)

  /** The toast a verification callback shows. */
  datatype Toast = VerificationSuccessful | InvalidCode | ResponseError | VerificationFailed

  function ReplyToast(reply: Reply): Toast {
    match reply
    case TransportFailure => VerificationFailed
    case NotSuccessful => VerificationFailed
    case ParseError => ResponseError
    case Verdict(v) => if v then VerificationSuccessful else InvalidCode
  }

  datatype BackAction = MoveTaskToBack | ShowCompleteSetupToast

  /** The four entries MainActivity keeps a copy of in its fields. */
  predicate Caches(p: Prefs, parentCode: string, secretCode: string, parentVerified: bool, secretVerified: bool) {
    && parentCode == GetString(p, "parent_code", "")
    && secretCode == GetString(p, "secret_code", "")
    && parentVerified == GetBoolean(p, "parent_code_verified", false)
    && secretVerified == GetBoolean(p, "secret_code_verified", false)
  }

  lemma CacheParentCode(p: Prefs, pc: string, sc: string, pv: bool, sv: bool, code: string)
    requires Caches(p, pc, sc, pv, sv)
    ensures Caches(p["parent_code" := Str(code)], code, sc, pv, sv)
  {
  }

  lemma CacheSecretCode(p: Prefs, pc: string, sc: string, pv: bool, sv: bool, code: string)
    requires Caches(p, pc, sc, pv, sv)
    ensures Caches(p["secret_code" := Str(code)], pc, code, pv, sv)
  {
  }

  lemma CacheParentVerified(p: Prefs, pc: string, sc: string, pv: bool, sv: bool)
    requires Caches(p, pc, sc, pv, sv)
    ensures Caches(p["parent_code_verified" := Flag(true)], pc, sc, true, sv)
  {
  }

  lemma CacheSecretVerified(p: Prefs, pc: string, sc: string, pv: bool, sv: bool)
    requires Caches(p, pc, sc, pv, sv)
    ensures Caches(p["secret_code_verified" := Flag(true)], pc, sc, pv, true)
  {
  }

  lemma CacheCompleted(p: Prefs, pc: string, sc: string, pv: bool, sv: bool, deviceImei: string)
    requires Caches(p, pc, sc, pv, sv)
    ensures Caches(CompletedStore(p, deviceImei), pc, sc, pv, sv)
  {
    var r := CompletedStore(p, deviceImei);
    assert SameAt(r, p, "parent_code") && SameAt(r, p, "secret_code");
    assert SameAt(r, p, "parent_code_verified") && SameAt(r, p, "secret_code_verified");
  }

  class MainActivity {
    const prefs: SharedPreferences
    const device: DeviceState
    var deviceImei: string
    var storedParentCode: string
    var storedSecretCode: string
    var currentStep: int
    var parentCodeVerified: bool
    var secretCodeVerified: bool
    var deviceAdminEnabled: bool
    var workflowCompleted: bool

    /** The codes and verified flags this activity caches agree with the
        `knets_jr` store. */
    ghost predicate Synced()
      reads this, prefs
    {
      && prefs.name == MainFile
      && Caches(prefs.entries, storedParentCode, storedSecretCode, parentCodeVerified, secretCodeVerified)
    }

    /** Synced, and the step is either the one derived from the flags or 4,
        which completeSetup forces. */
    ghost predicate Valid()
      reads this, prefs
    {
      && Synced()
      && 1 <= currentStep <= 4
      && (currentStep == 4 || currentStep == DeriveStep(parentCodeVerified, secretCodeVerified, deviceAdminEnabled))
    }

    /** onCreate: open the store, load the state (loadStoredData) and derive
        the step. `deviceImei` is what getDeviceImei found; with fewer than
        four characters its log line throws and onCreate never finishes. */
    constructor (prefs: SharedPreferences, device: DeviceState, deviceImei: string)
      requires prefs.name == MainFile
      requires |deviceImei| >= LoggedIdLength
      ensures this.prefs == prefs && this.device == device && this.deviceImei == deviceImei
      ensures Valid()
      ensures deviceAdminEnabled == device.adminActive
      ensures workflowCompleted == GetBoolean(prefs.entries, "workflow_completed", false)
      ensures currentStep == DeriveStep(parentCodeVerified, secretCodeVerified, deviceAdminEnabled)
    {
      this.prefs := prefs;
      this.device := device;
      this.deviceImei := deviceImei;
      storedParentCode := GetString(prefs.entries, "parent_code", "");
      storedSecretCode := GetString(prefs.entries, "secret_code", "");
      parentCodeVerified := GetBoolean(prefs.entries, "parent_code_verified", false);
      secretCodeVerified := GetBoolean(prefs.entries, "secret_code_verified", false);
      deviceAdminEnabled := device.adminActive;
      workflowCompleted := GetBoolean(prefs.entries, "workflow_completed", false);
      currentStep := DeriveStep(
        GetBoolean(prefs.entries, "parent_code_verified", false),
        GetBoolean(prefs.entries, "secret_code_verified", false),
        device.adminActive);
    }

    /** updateUI: the screen and progress shown. Because the step is always
        in 1..4, the location, registration and finalisation branches (which
        would call registerDevice or completeSetup) never run, so updateUI
        changes no state. */
    method UpdateUI() returns (screen: Screen, progress: int)
      requires Valid()
      ensures screen == ScreenFor(currentStep) && progress == Progress(currentStep)
      ensures screen in {ParentCodeEntry, SecretCodeEntry, DeviceAdminPrompt, Completed}
      ensures progress in {33, 66, 100}
    {
      screen := ScreenFor(currentStep);
      progress := Progress(currentStep);
    }

    /** verifyCodeWithServer: the request it sends, or none when no parent
        code is stored. */
    method VerifyCodeWithServer() returns (request: Option<Request>)
      requires Valid()
      ensures request.None? <==> storedParentCode == ""
      ensures request.Some? ==>
        request.value == VerifyCode(ServerBaseUrl(prefs.entries) + VerifyCodePath, storedParentCode, deviceImei)
    {
      if storedParentCode == "" {
        return None;
      }
      request := Some(VerifyCode(ServerBaseUrl(prefs.entries) + VerifyCodePath, storedParentCode, deviceImei));
    }

    /** handleConnectStep with the two text fields' contents. In step 1 a
        trimmed 10-character code, and in step 2 a trimmed 4-character
        secret, is persisted before its verification request is sent; any
        other input, and steps 3 and 4, change nothing and send nothing. No
        flag and not the step change here. */
    method HandleConnectStep(parentField: string, secretField: string) returns (request: Option<Request>)
      requires Valid()
      modifies this, prefs
      ensures Valid()
      ensures currentStep == old(currentStep) && deviceImei == old(deviceImei)
      ensures parentCodeVerified == old(parentCodeVerified) && secretCodeVerified == old(secretCodeVerified)
      ensures deviceAdminEnabled == old(deviceAdminEnabled) && workflowCompleted == old(workflowCompleted)
      ensures old(currentStep) == 1 && |Trim(parentField)| == ParentCodeLength ==>
        && storedParentCode == Trim(parentField) && storedSecretCode == old(storedSecretCode)
        && prefs.entries == old(prefs.entries)["parent_code" := Str(Trim(parentField))]
        && request == Some(VerifyCode(ServerBaseUrl(old(prefs.entries)) + VerifyCodePath, Trim(parentField), deviceImei))
      ensures old(currentStep) == 2 && |Trim(secretField)| == SecretCodeLength ==>
        && storedSecretCode == Trim(secretField) && storedParentCode == old(storedParentCode)
        && prefs.entries == old(prefs.entries)["secret_code" := Str(Trim(secretField))]
        && request == Some(VerifyCodes(ServerBaseUrl(old(prefs.entries)) + VerifyCodesPath, storedParentCode, Trim(secretField)))
      ensures (!(old(currentStep) == 1 && |Trim(parentField)| == ParentCodeLength)
               && !(old(currentStep) == 2 && |Trim(secretField)| == SecretCodeLength)) ==>
        && request == None && prefs.entries == old(prefs.entries)
        && storedParentCode == old(storedParentCode) && storedSecretCode == old(storedSecretCode)
    {
      request := None;
      if currentStep == 1 {
        var code := Trim(parentField);
        if |code| == ParentCodeLength {
          CacheParentCode(prefs.entries, storedParentCode, storedSecretCode, parentCodeVerified, secretCodeVerified, code);
          UrlIgnoresCodeWrite(prefs.entries, "parent_code", code);
          storedParentCode := code;
          prefs.PutString("parent_code", code);
          request := VerifyCodeWithServer();
        }
      } else if currentStep == 2 {
        var secretCode := Trim(secretField);
        if |secretCode| == SecretCodeLength {
          CacheSecretCode(prefs.entries, storedParentCode, storedSecretCode, parentCodeVerified, secretCodeVerified, secretCode);
          UrlIgnoresCodeWrite(prefs.entries, "secret_code", secretCode);
          storedSecretCode := secretCode;
          prefs.PutString("secret_code", secretCode);
          request := Some(VerifyCodes(ServerBaseUrl(prefs.entries) + VerifyCodesPath, storedParentCode, secretCode));
        }
      }
    }

    /** The reply callback of verifyCodeWithServer: only a 2xx reply with
        `valid=true` sets `parent_code_verified` and re-derives the step;
        every other reply changes nothing, and the entered code stays stored. */
    method OnVerifyCodeReply(reply: Reply) returns (toast: Toast)
      requires Valid()
      modifies this, prefs
      ensures Valid()
      ensures toast == ReplyToast(reply)
      ensures storedParentCode == old(storedParentCode) && storedSecretCode == old(storedSecretCode)
      ensures secretCodeVerified == old(secretCodeVerified) && deviceAdminEnabled == old(deviceAdminEnabled)
      ensures workflowCompleted == old(workflowCompleted) && deviceImei == old(deviceImei)
      ensures reply == Verdict(true) ==>
        && parentCodeVerified
        && prefs.entries == old(prefs.entries)["parent_code_verified" := Flag(true)]
        && currentStep == DeriveStep(true, secretCodeVerified, deviceAdminEnabled)
      ensures reply != Verdict(true) ==>
        && parentCodeVerified == old(parentCodeVerified)
        && prefs.entries == old(prefs.entries) && currentStep == old(currentStep)
    {
      toast := ReplyToast(reply);
      if reply == Verdict(true) {
        CacheParentVerified(prefs.entries, storedParentCode, storedSecretCode, parentCodeVerified, secretCodeVerified);
        parentCodeVerified := true;
        prefs.PutBoolean("parent_code_verified", true);
        currentStep := DeriveStep(parentCodeVerified, secretCodeVerified, deviceAdminEnabled);
      }
    }

    /** The reply callback of verifySecretCodeWithServer: only a 2xx reply
        with `success=true` sets `secret_code_verified`; every other reply
        changes nothing, and the entered secret stays stored. */
    method OnVerifySecretReply(reply: Reply) returns (toast: Toast)
      requires Valid()
      modifies this, prefs
      ensures Valid()
      ensures toast == ReplyToast(reply)
      ensures storedParentCode == old(storedParentCode) && storedSecretCode == old(storedSecretCode)
      ensures parentCodeVerified == old(parentCodeVerified) && deviceAdminEnabled == old(deviceAdminEnabled)
      ensures workflowCompleted == old(workflowCompleted) && deviceImei == old(deviceImei)
      ensures reply == Verdict(true) ==>
        && secretCodeVerified
        && prefs.entries == old(prefs.entries)["secret_code_verified" := Flag(true)]
        && currentStep == DeriveStep(parentCodeVerified, true, deviceAdminEnabled)
      ensures reply != Verdict(true) ==>
        && secretCodeVerified == old(secretCodeVerified)
        && prefs.entries == old(prefs.entries) && currentStep == old(currentStep)
    {
      toast := ReplyToast(reply);
      if reply == Verdict(true) {
        CacheSecretVerified(prefs.entries, storedParentCode, storedSecretCode, parentCodeVerified, secretCodeVerified);
        secretCodeVerified := true;
        prefs.PutBoolean("secret_code_verified", true);
        currentStep := DeriveStep(parentCodeVerified, secretCodeVerified, deviceAdminEnabled);
      }
    }

    /** completeSetup: start the polling service (reported by the caller),
        store the device id when known, set `workflow_completed` and force
        the step to 4. */
    method CompleteSetup()
      requires Synced()
      modifies this, prefs
      ensures Valid()
      ensures workflowCompleted && currentStep == 4
      ensures prefs.entries == CompletedStore(old(prefs.entries), deviceImei)
      ensures storedParentCode == old(storedParentCode) && storedSecretCode == old(storedSecretCode)
      ensures parentCodeVerified == old(parentCodeVerified) && secretCodeVerified == old(secretCodeVerified)
      ensures deviceAdminEnabled == old(deviceAdminEnabled) && deviceImei == old(deviceImei)
    {
      CacheCompleted(prefs.entries, storedParentCode, storedSecretCode, parentCodeVerified, secretCodeVerified, deviceImei);
      if deviceImei != "" {
        prefs.PutString("device_imei", deviceImei);
      }
      workflowCompleted := true;
      prefs.PutBoolean("workflow_completed", true);
      currentStep := 4;
    }

    /** onActivityResult: for the device-admin request the live admin
        status is re-read, and completeSetup runs iff it is active; the
        result says whether the polling service was started. */
    method OnActivityResult(requestCode: int) returns (pollingStarted: bool)
      requires Valid()
      modifies this, prefs
      ensures Valid()
      ensures pollingStarted <==> requestCode == DeviceAdminRequest && device.adminActive
      ensures storedParentCode == old(storedParentCode) && storedSecretCode == old(storedSecretCode)
      ensures parentCodeVerified == old(parentCodeVerified) && secretCodeVerified == old(secretCodeVerified)
      ensures deviceImei == old(deviceImei)
      ensures requestCode != DeviceAdminRequest ==>
        && deviceAdminEnabled == old(deviceAdminEnabled) && workflowCompleted == old(workflowCompleted)
        && currentStep == old(currentStep) && prefs.entries == old(prefs.entries)
      ensures requestCode == DeviceAdminRequest ==> deviceAdminEnabled == device.adminActive
      ensures requestCode == DeviceAdminRequest && device.adminActive ==>
        && workflowCompleted && currentStep == 4
        && prefs.entries == CompletedStore(old(prefs.entries), deviceImei)
      ensures requestCode == DeviceAdminRequest && !device.adminActive ==>
        && workflowCompleted == old(workflowCompleted)
        && currentStep == old(currentStep) && prefs.entries == old(prefs.entries)
    {
      pollingStarted := false;
      if requestCode == DeviceAdminRequest {
        deviceAdminEnabled := device.adminActive;
        if deviceAdminEnabled {
          CompleteSetup();
          pollingStarted := true;
        }
      }
    }

    /** onRequestPermissionsResult for the READ_PHONE_STATE request: once it
        is granted, getDeviceImei runs again and what it finds (`found`)
        replaces the device id; its log line throws when that id has fewer
        than four characters. Any other answer changes nothing modelled;
        the location request's answers only show toasts. */
    method OnRequestPermissionsResult(requestCode: int, granted: bool, found: string)
      requires Valid()
      requires requestCode == PhoneStatePermissionRequest && granted ==> |found| >= LoggedIdLength
      modifies this
      ensures Valid()
      ensures requestCode == PhoneStatePermissionRequest && granted ==> deviceImei == found
      ensures !(requestCode == PhoneStatePermissionRequest && granted) ==> deviceImei == old(deviceImei)
      ensures storedParentCode == old(storedParentCode) && storedSecretCode == old(storedSecretCode)
      ensures parentCodeVerified == old(parentCodeVerified) && secretCodeVerified == old(secretCodeVerified)
      ensures deviceAdminEnabled == old(deviceAdminEnabled) && workflowCompleted == old(workflowCompleted)
      ensures currentStep == old(currentStep)
    {
      if requestCode == PhoneStatePermissionRequest && granted {
        deviceImei := found;
      }
    }

    /** handleBackAction: move to the background once the workflow is
        completed, otherwise refuse to leave with a toast. */
    method HandleBackAction() returns (action: BackAction)
      ensures action == MoveTaskToBack <==> workflowCompleted
    {
      action := if workflowCompleted then MoveTaskToBack else ShowCompleteSetupToast;
    }
  }

  /** The step is 4 exactly when both codes are verified and admin is active,
      and otherwise names the first missing condition. */
  lemma StepNamesFirstMissing(parentVerified: bool, secretVerified: bool, adminActive: bool)
    ensures var step := DeriveStep(parentVerified, secretVerified, adminActive);
      && (step == 4 <==> parentVerified && secretVerified && adminActive)
      && (step == 1 <==> !parentVerified)
      && (step == 2 <==> parentVerified && !secretVerified)
      && (step == 3 <==> parentVerified && secretVerified && !adminActive)
  {
  }

  /** Gaining a condition never moves the step back. */
  lemma StepMonotone(a: bool, b: bool, c: bool, a2: bool, b2: bool, c2: bool)
    requires (a ==> a2) && (b ==> b2) && (c ==> c2)
    ensures DeriveStep(a, b, c) <= DeriveStep(a2, b2, c2)
  {
  }

  /** A derived step only ever shows one of the four enrollment screens, so
      the location, registration and finalisation cases of updateUI are
      unreachable. */
  lemma LateScreensUnreachable(parentVerified: bool, secretVerified: bool, adminActive: bool)
    ensures ScreenFor(DeriveStep(parentVerified, secretVerified, adminActive))
      !in {LocationPrompt, Registering, Finalizing, NoScreen}
  {
  }
}
