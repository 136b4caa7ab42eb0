/** SecretCodeVerificationActivity: the screen that must be passed before
    device admin may be switched off. The entered code, trimmed, is compared
    with the stored secret; a match removes the admin and clears two flags,
    a mismatch clears the field and keeps the screen, with no attempt limit. */
module DisableGuard {
  import opened Common
  import opened Store
  import opened Device

  /** The entry length that enables the verify button. */
  const EntryLength := 4

  /** How verifySecretCode ends. */
  datatype Verdict =
    | NoSecretStored   // no `secret_code`: the screen closes
    | Revoked          // match, removeActiveAdmin returned: admin off, flags cleared
    | RevokeFailed     // match, removeActiveAdmin threw: nothing else changes
    | WrongCode        // mismatch: the field is cleared and the screen stays

  /** The toasts the screen shows. */
  datatype Toast =
    | NoSecretContactParent | VerifiedDisabling | DisabledSuccessfully
    | DisableFailed | WrongSecretDenied | DisableCancelled | EnterCodeOrCancel

  function Text(t: Toast): string {
    match t
    case NoSecretContactParent => "No secret code set - Contact parent"
    case VerifiedDisabling => "Secret code verified. Disabling device admin..."
    case DisabledSuccessfully => "Parental controls disabled successfully"
    case DisableFailed => "Failed to disable device admin"
    case WrongSecretDenied => "Wrong secret code. Access denied."
    case DisableCancelled => "Device admin disable cancelled"
    case EnterCodeOrCancel => "Enter secret code or cancel to exit"
  }

  function StoredSecret(p: Prefs): string {
    GetString(p, "secret_code", "")
  }

  /** The decision verifySecretCode takes on the store, the field's text and
      whether removeActiveAdmin throws. */
  function Decide(p: Prefs, entered: string, removeThrows: bool): (v: Verdict)
    ensures v == NoSecretStored <==> StoredSecret(p) == ""
    ensures (v == Revoked || v == RevokeFailed) <==> StoredSecret(p) != "" && Trim(entered) == StoredSecret(p)
    ensures v == Revoked ==> !removeThrows
    ensures v == RevokeFailed ==> removeThrows
  {
    var stored := StoredSecret(p);
    if stored == "" then NoSecretStored
    else if Trim(entered) == stored then (if removeThrows then RevokeFailed else Revoked)
    else WrongCode
  }

  /** The store after a verdict: only a completed revocation writes, and it
      writes `workflow_completed` and `device_admin_enabled` as false. */
  function StoreAfter(p: Prefs, v: Verdict): (r: Prefs)
    ensures v != Revoked ==> r == p
    ensures v == Revoked ==>
      && "workflow_completed" in r && r["workflow_completed"] == Flag(false)
      && "device_admin_enabled" in r && r["device_admin_enabled"] == Flag(false)
    ensures forall k :: k != "workflow_completed" && k != "device_admin_enabled" ==> SameAt(r, p, k)
  {
    if v == Revoked then p["workflow_completed" := Flag(false)]["device_admin_enabled" := Flag(false)] else p
  }

  /** The toasts shown for a verdict, in order. */
  function ToastsFor(v: Verdict): (ts: seq<Toast>)
    ensures (VerifiedDisabling in ts) <==> (v == Revoked || v == RevokeFailed)
    ensures (DisabledSuccessfully in ts) <==> v == Revoked
  {
    match v
    case NoSecretStored => [NoSecretContactParent]
    case Revoked => [VerifiedDisabling, DisabledSuccessfully]
    case RevokeFailed => [VerifiedDisabling, DisableFailed]
    case WrongCode => [WrongSecretDenied]
  }

  /** Every one of the first `n` entries is answered with WrongCode. */
  predicate WrongUpTo(p: Prefs, entries: seq<string>, n: int, removeThrows: bool)
    requires n <= |entries|
  {
    forall j :: 0 <= j < n ==> Decide(p, entries[j], removeThrows) == WrongCode
  }

  /** The verdict that closes the screen when `entries` are submitted one
      after another, each against the store the previous one left, or None
      while the screen is still open: the verdict on the first entry that is
      not a wrong code, or None when every entry was wrong. */
  function Session(p: Prefs, entries: seq<string>, removeThrows: bool): (v: Option<Verdict>)
    ensures v != Some(WrongCode)
    ensures v.Some? ==>
      (exists i :: 0 <= i < |entries| && v.value == Decide(p, entries[i], removeThrows) && WrongUpTo(p, entries, i, removeThrows))
    ensures v.None? ==> WrongUpTo(p, entries, |entries|, removeThrows)
  {
    if entries == [] then None
    else
      var d := Decide(p, entries[0], removeThrows);
      if d == WrongCode then
        var rest := Session(StoreAfter(p, d), entries[1..], removeThrows);
        assert StoreAfter(p, d) == p;
        assert rest.None? ==> WrongUpTo(p, entries, |entries|, removeThrows) by {
          if rest.None? { WrongUpToCons(p, entries, |entries|, removeThrows); }
        }
        assert rest.Some? ==>
          (exists i :: 0 <= i < |entries| && rest.value == Decide(p, entries[i], removeThrows) && WrongUpTo(p, entries, i, removeThrows)) by {
          if rest.Some? {
            var k :| 0 <= k < |entries[1..]| && rest.value == Decide(p, entries[1..][k], removeThrows) && WrongUpTo(p, entries[1..], k, removeThrows);
            WrongUpToCons(p, entries, k + 1, removeThrows);
          }
        }
        rest
      else Some(d)
  }

  /** A wrong first entry followed by `n - 1` wrong ones is `n` wrong ones. */
  lemma WrongUpToCons(p: Prefs, entries: seq<string>, n: int, removeThrows: bool)
    requires 0 < n <= |entries| && Decide(p, entries[0], removeThrows) == WrongCode
    requires WrongUpTo(p, entries[1..], n - 1, removeThrows)
    ensures WrongUpTo(p, entries, n, removeThrows)
  {
    forall j | 0 < j < n ensures Decide(p, entries[j], removeThrows) == WrongCode {
      assert entries[j] == entries[1..][j - 1];
    }
  }

  /** There is no lockout: any number of wrong entries leaves the store as it
      was, so the right code afterwards is judged exactly as it would have
      been first. */
  lemma {:induction false} NoLockout(p: Prefs, wrong: seq<string>, right: string, removeThrows: bool)
    requires forall i :: 0 <= i < |wrong| ==> Decide(p, wrong[i], removeThrows) == WrongCode
    ensures Session(p, wrong + [right], removeThrows) == Session(p, [right], removeThrows)
  {
    if wrong == [] {
      assert wrong + [right] == [right];
    } else {
      assert (wrong + [right])[0] == wrong[0] && (wrong + [right])[1..] == wrong[1..] + [right];
      assert StoreAfter(p, WrongCode) == p;
      NoLockout(p, wrong[1..], right, removeThrows);
    }
  }

  /** When the button is enabled (four characters) and the stored secret is
      four characters without surrounding blanks, only that exact text is
      accepted: the trim has nothing to strip. */
  lemma EnabledEntryMatchesExactly(p: Prefs, entered: string, removeThrows: bool)
    requires |entered| == EntryLength && |StoredSecret(p)| == EntryLength
    requires Decide(p, entered, removeThrows) in {Revoked, RevokeFailed}
    ensures entered == StoredSecret(p)
  {
    TrimFullLength(entered);
  }

  /** A secret stored as the enrollment stores it (trimmed) accepts the same
      raw text it was typed as. */
  lemma SameTypingAccepted(p: Prefs, typed: string, removeThrows: bool)
    requires StoredSecret(p) == Trim(typed) && Trim(typed) != ""
    ensures Decide(p, typed, removeThrows) == (if removeThrows then RevokeFailed else Revoked)
  {
  }

  class SecretCodeVerificationActivity {
    const prefs: SharedPreferences
    const device: DeviceState
    var input: string
    var verifyEnabled: bool
    var finished: bool

    ghost predicate Valid()
      reads this, prefs
    {
      prefs.name == MainFile
    }

    /** onCreate: the views, the empty field and the `knets_jr` store. The
        button's initial enabled state comes from the layout. */
    constructor (prefs: SharedPreferences, device: DeviceState, layoutEnablesVerify: bool)
      requires prefs.name == MainFile
      ensures Valid()
      ensures this.prefs == prefs && this.device == device
      ensures input == "" && verifyEnabled == layoutEnablesVerify && !finished
    {
      this.prefs := prefs;
      this.device := device;
      input := "";
      verifyEnabled := layoutEnablesVerify;
      finished := false;
    }

    /** afterTextChanged: the button is enabled iff the text has exactly
        four characters. */
    method OnTextChanged(s: string)
      modifies this
      ensures input == s && (verifyEnabled <==> |s| == EntryLength)
      ensures finished == old(finished)
    {
      input := s;
      verifyEnabled := |s| == EntryLength;
    }

    /** verifySecretCode: the toasts shown; admin, store, field and screen
        change as the verdict says, and nothing else is written. */
    method VerifySecretCode(removeThrows: bool) returns (toasts: seq<Toast>)
      requires Valid()
      modifies this, prefs, device
      ensures Valid()
      ensures var v := Decide(old(prefs.entries), old(input), removeThrows);
        && toasts == ToastsFor(v)
        && prefs.entries == StoreAfter(old(prefs.entries), v)
        && device.adminActive == (if v == Revoked then false else old(device.adminActive))
        && device.wifiOn == old(device.wifiOn)
        && (v == WrongCode ==> input == "" && !verifyEnabled && finished == old(finished))
        && (v != WrongCode ==> input == old(input) && verifyEnabled == old(verifyEnabled) && finished)
    {
      ghost var v := Decide(prefs.entries, input, removeThrows);
      var entered := Trim(input);
      var stored := GetString(prefs.entries, "secret_code", "");
      if stored == "" {
        toasts := [NoSecretContactParent];
        finished := true;
        return;
      }
      if entered == stored {
        toasts := [VerifiedDisabling];
        if removeThrows {
          toasts := toasts + [DisableFailed];
        } else {
          device.RemoveActiveAdmin();
          toasts := toasts + [DisabledSuccessfully];
          prefs.PutBoolean("workflow_completed", false);
          prefs.PutBoolean("device_admin_enabled", false);
        }
        finished := true;
      } else {
        toasts := [WrongSecretDenied];
        OnTextChanged("");
      }
    }

    /** The cancel button: a toast and the screen closes; nothing is written. */
    method Cancel() returns (toast: Toast)
      modifies this
      ensures toast == DisableCancelled && finished
      ensures input == old(input) && verifyEnabled == old(verifyEnabled)
    {
      toast := DisableCancelled;
      finished := true;
    }

    /** onBackPressed: only a toast; the screen cannot be left this way. */
    method OnBackPressed() returns (toast: Toast)
      ensures toast == EnterCodeOrCancel
    {
      toast := EnterCodeOrCancel;
    }
  }
}
