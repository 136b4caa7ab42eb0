/** BootReceiver.onReceive: after one of five boot or update broadcasts the
    receiver starts the background services when its own store says the
    setup is completed, and in every case tries to launch MainActivity, a
    failure of which is swallowed. Any other broadcast has no effect. */
module Boot {
  import opened Common
  import opened Store

  /** The file this receiver reads; every other component uses MainFile. */
  const BootPrefsFile := "knets_jr_prefs"

  const BootActions := [
    "android.intent.action.BOOT_COMPLETED",
    "android.intent.action.QUICKBOOT_POWERON",
    "android.intent.action.REBOOT",
    "android.intent.action.MY_PACKAGE_REPLACED",
    "android.intent.action.PACKAGE_REPLACED"
  ]

  /** The starts the receiver issues; the launch carries `auto_launched`. */
  datatype BootEffect = StartPollingService | StartEnhancedLocationService | LaunchMainActivity

  /** Whether the broadcast's action (null when absent) is one of the five. */
  predicate IsBootAction(action: Option<string>) {
    action.Some? && action.value in BootActions
  }

  /** launchAppInBackground: the launch, or nothing when startActivity throws. */
  function LaunchInBackground(launchThrows: bool): (effects: seq<BootEffect>)
    ensures effects == [] || effects == [LaunchMainActivity]
    ensures effects == [] <==> launchThrows
  {
    if launchThrows then [] else [LaunchMainActivity]
  }

  function OnReceive(action: Option<string>, files: Files, launchThrows: bool): (effects: seq<BootEffect>)
    ensures !IsBootAction(action) ==> effects == []
    ensures IsBootAction(action) && GetBoolean(FileNamed(files, BootPrefsFile), "workflow_completed", false) ==>
      effects == [StartPollingService, StartEnhancedLocationService] + LaunchInBackground(launchThrows)
    ensures IsBootAction(action) && !GetBoolean(FileNamed(files, BootPrefsFile), "workflow_completed", false) ==>
      effects == LaunchInBackground(launchThrows)
  {
    if !IsBootAction(action) then []
    else
      var workflowCompleted := GetBoolean(FileNamed(files, BootPrefsFile), "workflow_completed", false);
      if workflowCompleted then
        [StartPollingService, StartEnhancedLocationService] + LaunchInBackground(launchThrows)
      else
        LaunchInBackground(launchThrows)
  }

  /** Services start only after a boot action with the completed flag in the
      receiver's own file; the launch, when there is one, comes last. */
  lemma ServicesNeedFlag(action: Option<string>, files: Files, launchThrows: bool)
    ensures var effects := OnReceive(action, files, launchThrows);
      && (StartPollingService in effects <==>
          IsBootAction(action) && GetBoolean(FileNamed(files, BootPrefsFile), "workflow_completed", false))
      && (StartEnhancedLocationService in effects <==> StartPollingService in effects)
      && (LaunchMainActivity in effects <==> IsBootAction(action) && !launchThrows)
      && (LaunchMainActivity in effects ==> effects[|effects| - 1] == LaunchMainActivity)
  {
    var effects := OnReceive(action, files, launchThrows);
    if IsBootAction(action) && GetBoolean(FileNamed(files, BootPrefsFile), "workflow_completed", false) {
      assert effects[0] == StartPollingService && effects[1] == StartEnhancedLocationService;
    }
  }

  /** Whatever is written to MainFile leaves the decision unchanged: the
      two files are distinct. */
  lemma IndependentOfMainFile(action: Option<string>, files: Files, main: Prefs, launchThrows: bool)
    ensures OnReceive(action, files[MainFile := main], launchThrows) == OnReceive(action, files, launchThrows)
  {
    assert |MainFile| != |BootPrefsFile|;
    assert FileNamed(files[MainFile := main], BootPrefsFile) == FileNamed(files, BootPrefsFile);
  }
}
