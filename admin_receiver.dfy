/** KnetsDeviceAdminReceiver.onDisableRequested: when the system asks whether
    device admin may be switched off, a device with both codes stored is
    "protected": the receiver launches MainActivity with the verify_disable
    extra and returns the security warning; otherwise it launches nothing
    and returns a short fallback warning. It reads the store and never
    writes it (the function has no store in its result). */
module AdminReceiver {
  import opened Common
  import opened Store

  const VerifyDisableAction := "verify_disable"

  /** An activity start: MainActivity with the `action` extra, flags
      NEW_TASK | CLEAR_TOP. */
  datatype Launch = LaunchMainActivity(action: string)

  /** The warning the system shows in its confirmation dialog. */
  datatype Warning = SecurityProtectionActive | FallbackWarning

  function Text(w: Warning): string {
    match w
    case SecurityProtectionActive =>
      "\U{1F512} SECURITY PROTECTION ACTIVE\n\n"
      + "This device is protected by Knets parental controls.\n\n"
      + "To disable device admin:\n"
      + "1. Open Knets Jr app\n"
      + "2. Enter your 4-digit secret code\n"
      + "3. Follow the disable instructions\n\n"
      + "\U{26A0}\U{FE0F} Unauthorized attempts are logged and reported to parents."
    case FallbackWarning =>
      "Disabling Knets Jr will remove parental controls from this device."
  }

  datatype DisableResponse = DisableResponse(launch: Option<Launch>, warning: Warning)

  /** Both codes are present in the store. */
  predicate IsProtected(p: Prefs) {
    GetString(p, "secret_code", "") != "" && GetString(p, "parent_code", "") != ""
  }

  function OnDisableRequested(p: Prefs): (r: DisableResponse)
    ensures r.launch.Some? <==> IsProtected(p)
    ensures r.launch.Some? ==> r.launch.value == LaunchMainActivity(VerifyDisableAction)
    ensures r.warning == SecurityProtectionActive <==> IsProtected(p)
  {
    var storedSecretCode := GetString(p, "secret_code", "");
    var storedParentCode := GetString(p, "parent_code", "");
    if storedSecretCode != "" && storedParentCode != "" then
      DisableResponse(Some(LaunchMainActivity(VerifyDisableAction)), SecurityProtectionActive)
    else
      DisableResponse(None, FallbackWarning)
  }

  /** The response depends on nothing but the two code entries. */
  lemma ResponseDependsOnCodesOnly(p: Prefs, q: Prefs)
    requires SameAt(p, q, "secret_code") && SameAt(p, q, "parent_code")
    ensures OnDisableRequested(p) == OnDisableRequested(q)
  {
    assert GetString(p, "secret_code", "") == GetString(q, "secret_code", "");
    assert GetString(p, "parent_code", "") == GetString(q, "parent_code", "");
  }
}
