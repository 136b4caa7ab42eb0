/** How the components meet in the shared store and on the device:
    properties that only hold, or only fail, when two of them are put side
    by side, and short client runs that drive the activities in the order
    the platform calls them. */
module Scenario {
  import opened Common
  import opened Store
  import opened Device
  import Enrollment
  import Polling
  import DisableGuard
  import AdminReceiver
  import Boot

  /** With no `server_url` stored, the service polls a different host from
      the one the enrollment screen verifies codes with. */
  lemma DefaultHostsDiffer(p: Prefs)
    requires GetString(p, "server_url", "") == ""
    ensures Enrollment.ServerBaseUrl(p) != Polling.ServiceServerBaseUrl(p)
  {
    assert |Enrollment.DefaultServerUrl| != |Polling.DevelopmentServerUrl|;
  }

  /** A device id stored by completeSetup is the id the polling service
      reports afterwards, whatever ANDROID_ID is. */
  lemma ServiceUsesEnrolledId(p: Prefs, deviceImei: string, androidId: string)
    requires deviceImei != ""
    ensures Polling.DeviceIdentity(Enrollment.CompletedStore(p, deviceImei), androidId) == deviceImei
  {
  }

  /** Codes accepted by handleConnectStep make the device protected against
      a disable request. */
  lemma EnrolledCodesProtect(p: Prefs, parentField: string, secretField: string)
    requires |Trim(parentField)| == Enrollment.ParentCodeLength
    requires |Trim(secretField)| == Enrollment.SecretCodeLength
    ensures AdminReceiver.IsProtected(p["parent_code" := Str(Trim(parentField))]["secret_code" := Str(Trim(secretField))])
  {
    var q := p["parent_code" := Str(Trim(parentField))]["secret_code" := Str(Trim(secretField))];
    assert GetString(q, "secret_code", "") == Trim(secretField);
    assert GetString(q, "parent_code", "") == Trim(parentField);
  }

  /** No verdict of the guard changes whether the device counts as
      protected: the codes themselves are never erased. */
  lemma GuardKeepsProtection(p: Prefs, entered: string, removeThrows: bool)
    ensures var q := DisableGuard.StoreAfter(p, DisableGuard.Decide(p, entered, removeThrows));
      AdminReceiver.IsProtected(q) == AdminReceiver.IsProtected(p)
  {
    var q := DisableGuard.StoreAfter(p, DisableGuard.Decide(p, entered, removeThrows));
    assert SameAt(q, p, "secret_code") && SameAt(q, p, "parent_code");
    AdminReceiver.ResponseDependsOnCodesOnly(q, p);
  }

  /** The boot receiver reads a file nothing else writes: on a device where
      only the enrollment has written (to MainFile), a boot never starts
      the background services, even once the workflow is completed. */
  lemma CompletedEnrollmentStartsNoBootServices(action: Option<string>, files: Files, deviceImei: string, launchThrows: bool)
    requires Boot.BootPrefsFile !in files
    ensures var completed := files[MainFile := Enrollment.CompletedStore(FileNamed(files, MainFile), deviceImei)];
      Boot.OnReceive(action, completed, launchThrows)
        == (if Boot.IsBootAction(action) then Boot.LaunchInBackground(launchThrows) else [])
  {
    Boot.IndependentOfMainFile(action, files, Enrollment.CompletedStore(FileNamed(files, MainFile), deviceImei), launchThrows);
    assert FileNamed(files, Boot.BootPrefsFile) == map[];
  }

  /** Step 1 with a well-formed code that the server does not confirm: the
      code stays stored, the step stays 1 and no flag is set. */
  method RejectedParentCodeIsKept(a: Enrollment.MainActivity, parentField: string, reply: Enrollment.Reply)
      returns (toast: Enrollment.Toast)
    requires a.Valid() && a.currentStep == 1
    requires |Trim(parentField)| == Enrollment.ParentCodeLength && reply != Enrollment.Verdict(true)
    modifies a, a.prefs
    ensures a.Valid() && a.currentStep == 1 && !a.parentCodeVerified
    ensures GetString(a.prefs.entries, "parent_code", "") == Trim(parentField)
    ensures toast == Enrollment.ReplyToast(reply) && toast != Enrollment.VerificationSuccessful
  {
    var request := a.HandleConnectStep(parentField, "");
    toast := a.OnVerifyCodeReply(reply);
  }

  /** The third step: the user accepts the system's activation dialog and
      the activity receives its result. Setup completes, polling starts and
      the enrolled device id is stored for the service. */
  method AdminGrantedCompletesSetup(a: Enrollment.MainActivity) returns (pollingStarted: bool)
    requires a.Valid() && a.deviceImei != ""
    modifies a, a.prefs, a.device
    ensures a.Valid() && pollingStarted
    ensures a.workflowCompleted && a.currentStep == 4 && a.deviceAdminEnabled
    ensures GetString(a.prefs.entries, "device_imei", "") == a.deviceImei
    ensures GetBoolean(a.prefs.entries, "workflow_completed", false)
  {
    a.device.GrantAdmin();
    pollingStarted := a.OnActivityResult(Enrollment.DeviceAdminRequest);
  }

  /** The right secret on the guard screen, then MainActivity started anew
      on the same store and device: admin is off, so the derived step is at
      most 3, and the back button no longer lets the child leave. */
  method RevokeThenRelaunch(prefs: SharedPreferences, device: DeviceState, entered: string, deviceImei: string)
      returns (step: int, back: Enrollment.BackAction)
    requires prefs.name == MainFile
    requires DisableGuard.StoredSecret(prefs.entries) != ""
    requires Trim(entered) == DisableGuard.StoredSecret(prefs.entries)
    requires |deviceImei| >= Enrollment.LoggedIdLength
    modifies prefs, device
    ensures !device.adminActive
    ensures step == Enrollment.DeriveStep(
      GetBoolean(old(prefs.entries), "parent_code_verified", false),
      GetBoolean(old(prefs.entries), "secret_code_verified", false),
      false)
    ensures step <= 3
    ensures back == Enrollment.ShowCompleteSetupToast
  {
    var guard := new DisableGuard.SecretCodeVerificationActivity(prefs, device, false);
    guard.OnTextChanged(entered);
    var toasts := guard.VerifySecretCode(false);
    assert DisableGuard.Decide(old(prefs.entries), entered, false) == DisableGuard.Revoked;
    var main := new Enrollment.MainActivity(prefs, device, deviceImei);
    step := main.currentStep;
    back := main.HandleBackAction();
  }
}
