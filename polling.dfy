/** ServerPollingService: the `isPolling` guard around one polling thread,
    the request each cycle sends, the reply gate of the check-commands
    callback, and the processCommands loop that runs each command's handler
    against the device and acknowledges it. The polling thread and the
    service's own lifecycle calls are interleaved at cycle granularity by a
    schedule; each HTTP reply is an input. */
module Polling {
  import opened Common
  import opened Store
  import opened Device
  import opened Commands

  /** The fallback of this service's getServerBaseUrl, a development host
      that differs from the enrollment screen's default. */
  const DevelopmentServerUrl := "https://109f494a-e49e-4a8a-973f-659f67493858-00-23mfa5oss8rxi.janeway.replit.dev"
  const CheckCommandsPath := "/api/knets-jr/check-commands/"
  const AcknowledgePath := "/api/knets-jr/acknowledge-command"
  /** onStartCommand's return value, Service.START_STICKY. */
  const StartSticky := 1

  /** getServerBaseUrl of the service: its stored `server_url` unless empty. */
  function ServiceServerBaseUrl(p: Prefs): (url: string)
    ensures url != ""
    ensures GetString(p, "server_url", "") != "" ==> url == GetString(p, "server_url", "")
    ensures GetString(p, "server_url", "") == "" ==> url == DevelopmentServerUrl
  {
    var custom := GetString(p, "server_url", "");
    if custom != "" then custom else DevelopmentServerUrl
  }

  /** The device id onCreate settles on: the stored `device_imei`, or the
      ANDROID_ID setting when that is empty. */
  function DeviceIdentity(p: Prefs, androidId: string): (id: string)
    ensures GetString(p, "device_imei", "") != "" ==> id == GetString(p, "device_imei", "")
    ensures GetString(p, "device_imei", "") == "" ==> id == androidId
    ensures id == "" <==> GetString(p, "device_imei", "") == "" && androidId == ""
  {
    var stored := GetString(p, "device_imei", "");
    if stored != "" then stored else androidId
  }

  /** What the check-commands callback receives: onFailure; a non-2xx
      status; a body Gson cannot turn into an object (the exception is
      caught); an object without a `commands` array; or the array. */
  datatype PollReply =
    | PollFailed
    | PollRejected
    | PollUnparsable
    | NoCommandArray
    | CommandBatch(commands: seq<RawCommand>)

  /** The response gate of checkForParentCommands: only a `commands` array
      reaches processCommands; every other reply leaves WiFi as it was and
      produces no effect at all, in particular no acknowledgment. */
  function ReplyOutcome(reply: PollReply, admin: bool, p: Platform, wifiOn: bool, ctx: AckContext): (o: Outcome)
    ensures !reply.CommandBatch? ==> o.effects == [] && o.wifiOn == wifiOn
    ensures reply.CommandBatch? ==> o == BatchOutcome(reply.commands, admin, p, wifiOn, ctx)
  {
    match reply
    case CommandBatch(commands) => BatchOutcome(commands, admin, p, wifiOn, ctx)
    case NoCommandArray => Outcome([], wifiOn, true)
    case _ => Outcome([], wifiOn, false)
  }

  /** One step of the interleaving of the polling thread with the main
      thread: the thread finishes one iteration (a check-commands request
      and the sleep), or the service is destroyed. */
  datatype ThreadStep = Tick | Destroy

  /** The number of iterations the schedule lets the thread run before the
      first destruction of the service. */
  function LeadingTicks(schedule: seq<ThreadStep>): (n: nat)
    ensures n <= |schedule|
    ensures forall j :: 0 <= j < n ==> schedule[j] == Tick
    ensures n < |schedule| ==> schedule[n] == Destroy
  {
    if schedule == [] || schedule[0].Destroy? then 0
    else
      assert schedule[0].Tick?;
      1 + LeadingTicks(schedule[1..])
  }

  class ServerPollingService {
    const prefs: SharedPreferences
    const device: DeviceState
    const deviceImei: string
    var isPolling: bool
    /** Whether `pollingThread` has been assigned. */
    var threadStarted: bool
    /** The interrupt flag of that thread. */
    var threadInterrupted: bool
    /** The check-commands URLs requested so far, in order. */
    var requests: seq<string>

    /** The service reads the shared store, and polling is on only with a
        running, uninterrupted thread. */
    ghost predicate Valid()
      reads this, prefs
    {
      && prefs.name == MainFile
      && (isPolling ==> threadStarted && !threadInterrupted)
    }

    /** onCreate: the device id is read once here and kept. */
    constructor (prefs: SharedPreferences, device: DeviceState, androidId: string)
      requires prefs.name == MainFile
      ensures Valid()
      ensures this.prefs == prefs && this.device == device
      ensures deviceImei == DeviceIdentity(prefs.entries, androidId)
      ensures !isPolling && !threadStarted && !threadInterrupted && requests == []
    {
      this.prefs := prefs;
      this.device := device;
      deviceImei := DeviceIdentity(prefs.entries, androidId);
      isPolling := false;
      threadStarted := false;
      threadInterrupted := false;
      requests := [];
    }

    /** The URL checkForParentCommands requests. */
    function CheckCommandsUrl(): (url: string)
      reads this, prefs
      ensures url == ServiceServerBaseUrl(prefs.entries) + CheckCommandsPath + deviceImei
      ensures |url| > |CheckCommandsPath + deviceImei|
    {
      ServiceServerBaseUrl(prefs.entries) + CheckCommandsPath + deviceImei
    }

    /** Where acknowledgeCommand posts, and what every acknowledgment sent
        at time `now` shares. */
    function AckContextAt(now: int): (ctx: AckContext)
      reads this, prefs
      ensures ctx.url == ServiceServerBaseUrl(prefs.entries) + AcknowledgePath
      ensures ctx.deviceImei == deviceImei && ctx.timestamp == now
    {
      AckContext(ServiceServerBaseUrl(prefs.entries) + AcknowledgePath, deviceImei, now)
    }

    /** startPolling: a no-op when already polling or when the device id is
        empty; otherwise polling is switched on and one new thread started. */
    method StartPolling() returns (started: bool)
      requires Valid()
      modifies this
      ensures Valid()
      ensures started <==> !old(isPolling) && deviceImei != ""
      ensures started ==> isPolling && threadStarted && !threadInterrupted
      ensures !started ==> isPolling == old(isPolling) && threadStarted == old(threadStarted)
                           && threadInterrupted == old(threadInterrupted)
      ensures requests == old(requests)
    {
      if isPolling || deviceImei == "" {
        return false;
      }
      isPolling := true;
      threadStarted := true;
      threadInterrupted := false;
      started := true;
    }

    /** onStartCommand: go to the foreground, start polling, and ask to be
        restarted if killed. */
    method OnStartCommand() returns (policy: int, started: bool)
      requires Valid()
      modifies this
      ensures Valid()
      ensures policy == StartSticky
      ensures started <==> !old(isPolling) && deviceImei != ""
      ensures isPolling <==> old(isPolling) || deviceImei != ""
      ensures started ==> threadStarted && !threadInterrupted
      ensures !started ==> threadStarted == old(threadStarted) && threadInterrupted == old(threadInterrupted)
      ensures requests == old(requests)
    {
      started := StartPolling();
      policy := StartSticky;
    }

    /** onDestroy: polling is switched off and a started thread interrupted. */
    method OnDestroy()
      requires Valid()
      modifies this
      ensures Valid()
      ensures !isPolling && threadStarted == old(threadStarted)
      ensures threadInterrupted == (old(threadInterrupted) || old(threadStarted))
      ensures requests == old(requests)
    {
      isPolling := false;
      if threadStarted {
        threadInterrupted := true;
      }
    }

    /** The polling thread's `while (isPolling)` loop under a schedule of
        iterations and service destructions. The thread issues one
        check-commands request per iteration while polling is on; once the
        service is destroyed, the flag or the interrupt ends it, so no
        request is sent after the first destruction. A thread that finds
        polling off sends nothing. */
    method RunPollingThread(schedule: seq<ThreadStep>)
      requires Valid()
      modifies this
      ensures Valid()
      ensures old(isPolling) ==>
        var url := CheckCommandsUrl(); requests == old(requests) + seq(LeadingTicks(schedule), _ => url)
      ensures !old(isPolling) ==> requests == old(requests) && isPolling == old(isPolling)
      ensures Destroy in schedule ==> !isPolling
      ensures Destroy !in schedule ==> isPolling == old(isPolling)
      ensures threadStarted == old(threadStarted)
      ensures threadInterrupted == (old(threadInterrupted) || (old(isPolling) && Destroy in schedule))
    {
      var url := CheckCommandsUrl();
      var i := 0;
      while i < |schedule| && isPolling
        invariant Valid()
        invariant 0 <= i <= |schedule|
        invariant !old(isPolling) ==> i == 0 && requests == old(requests) && isPolling == old(isPolling)
        invariant old(isPolling) && isPolling ==>
          (forall j :: 0 <= j < i ==> schedule[j] == Tick) && requests == old(requests) + seq(i, _ => url)
        invariant old(isPolling) && !isPolling ==>
          0 < i && schedule[i - 1] == Destroy && (forall j :: 0 <= j < i - 1 ==> schedule[j] == Tick)
          && requests == old(requests) + seq(i - 1, _ => url)
        invariant isPolling ==> Destroy !in schedule[..i]
        invariant threadStarted == old(threadStarted)
        invariant threadInterrupted == (old(threadInterrupted) || (old(isPolling) && !isPolling))
      {
        if schedule[i] == Tick {
          requests := requests + [url];
        } else {
          OnDestroy();
        }
        assert schedule[..i + 1] == schedule[..i] + [schedule[i]];
        i := i + 1;
      }
      if isPolling {
        LeadingTicksIs(schedule, i);
      } else if old(isPolling) {
        LeadingTicksIs(schedule, i - 1);
        assert schedule[i - 1] in schedule;
      }
    }

    /** The `switch (commandType)` of processCommands: the handler of the
        command's kind runs against the device, which carries out a WiFi
        toggle the platform accepts. */
    method Dispatch(k: Kind, p: Platform) returns (h: Handled)
      modifies device
      ensures h == Handle(k, old(device.adminActive), p, old(device.wifiOn))
      ensures device.wifiOn == h.wifiOn && device.adminActive == old(device.adminActive)
    {
      h := Handle(k, device.adminActive, p, device.wifiOn);
      if h.wifiOn != device.wifiOn {
        device.SetWifiEnabled(h.wifiOn);
      }
    }

    /** The loop of processCommands over the leading well-formed commands:
        each one's handler runs and its acknowledgment follows. It stops at
        the end of the batch or at the first element that would throw, and
        what remains of the batch from there completes the batch's outcome. */
    method RunWellFormedPrefix(commands: seq<RawCommand>, p: Platform, ctx: AckContext, ghost whole: Outcome)
      returns (effects: seq<Effect>, i: nat)
      requires whole == BatchOutcome(commands, device.adminActive, p, device.wifiOn, ctx)
      modifies device
      ensures i <= |commands| && (i < |commands| ==> !WellFormed(commands[i]))
      ensures device.adminActive == old(device.adminActive)
      ensures var r := BatchOutcome(commands[i..], device.adminActive, p, device.wifiOn, ctx);
              whole == Outcome(effects + r.effects, r.wifiOn, r.completed)
    {
      ghost var admin := device.adminActive;
      assert commands[0..] == commands;
      assert [] + whole.effects == whole.effects;
      ghost var wifi := device.wifiOn;
      effects := [];
      i := 0;
      while i < |commands| && WellFormed(commands[i])
        invariant 0 <= i <= |commands|
        invariant device.adminActive == admin && device.wifiOn == wifi
        invariant var r := BatchOutcome(commands[i..], admin, p, wifi, ctx);
                  whole == Outcome(effects + r.effects, r.wifiOn, r.completed)
      {
        var c := commands[i];
        var h := Dispatch(c.kind.value, p);
        BatchStepped(commands, i, admin, p, wifi, ctx, effects, whole, h);
        effects := effects + (h.effects + [AckFor(c.id.value, ctx)]);
        wifi := h.wifiOn;
        i := i + 1;
      }
    }

    /** processCommands against the device: each command in array order runs
        its handler and is then acknowledged; a malformed element ends the
        loop with the exception its caller catches, after its handler when
        only its id is missing. The effects, the completion and the new WiFi
        state are those of BatchOutcome. */
    method ProcessCommands(commands: seq<RawCommand>, p: Platform, ctx: AckContext)
      returns (effects: seq<Effect>, completed: bool)
      modifies device
      ensures var o := BatchOutcome(commands, old(device.adminActive), p, old(device.wifiOn), ctx);
              effects == o.effects && completed == o.completed && device.wifiOn == o.wifiOn
      ensures device.adminActive == old(device.adminActive)
    {
      ghost var whole := BatchOutcome(commands, device.adminActive, p, device.wifiOn, ctx);
      var i;
      effects, i := RunWellFormedPrefix(commands, p, ctx, whole);
      if i == |commands| {
        BatchFinished(commands, device.adminActive, p, device.wifiOn, ctx, effects, whole);
        return effects, true;
      }
      var c := commands[i];
      BatchStopped(commands, i, device.adminActive, p, device.wifiOn, ctx, effects, whole);
      if c.CommandObject? && c.kind.Some? {
        var h := Dispatch(c.kind.value, p);
        effects := effects + h.effects;
      }
      completed := false;
    }

    /** The callback of checkForParentCommands at time `now`: only a
        `commands` array is processed; any other reply changes nothing. */
    method OnCommandsReply(reply: PollReply, p: Platform, now: int) returns (effects: seq<Effect>)
      requires Valid()
      modifies device
      ensures var o := ReplyOutcome(reply, old(device.adminActive), p, old(device.wifiOn), AckContextAt(now));
              effects == o.effects && device.wifiOn == o.wifiOn
      ensures device.adminActive == old(device.adminActive)
    {
      effects := [];
      if reply.CommandBatch? {
        var completed;
        effects, completed := ProcessCommands(reply.commands, p, AckContextAt(now));
      }
    }
  }

  /** The one count of leading iterations a schedule can have. */
  lemma {:induction false} LeadingTicksIs(schedule: seq<ThreadStep>, k: nat)
    requires k <= |schedule|
    requires forall j :: 0 <= j < k ==> schedule[j] == Tick
    requires k < |schedule| ==> schedule[k] == Destroy
    ensures LeadingTicks(schedule) == k
  {
    if k > 0 {
      assert schedule[0] == Tick;
      LeadingTicksIs(schedule[1..], k - 1);
    }
  }
}
