/** The command dispatch of ServerPollingService as values: one command's
    handler as a list of effects and the new WiFi state, and a whole batch
    (processCommands) as the effects of the handlers and acknowledgments in
    array order. */
module Commands {
  import opened Common

  /** One element of the `commands` array as processCommands reads it:
      `kind` is the `type` string as the switch classifies it (Classify) and
      `id` the `id` string, each None when the field is missing or not
      readable as a string (the call throws). `NotAnObject` is an element
      getAsJsonObject rejects. */
  datatype RawCommand =
    | CommandObject(kind: Option<Kind>, id: Option<string>)
    | NotAnObject

  datatype Kind =
    | EnableLocation | RequestLocation | LockDevice | UnlockDevice
    | DisableWifi | EnableWifi | DisableMobileData | EnableMobileData | UnknownKind

  const KnownTypes := ["ENABLE_LOCATION", "REQUEST_LOCATION", "LOCK_DEVICE", "UNLOCK_DEVICE",
                       "DISABLE_WIFI", "ENABLE_WIFI", "DISABLE_MOBILE_DATA", "ENABLE_MOBILE_DATA"]

  /** The `switch (commandType)` of processCommands. */
  function Classify(t: string): (k: Kind)
    ensures k == UnknownKind <==> t !in KnownTypes
  {
    match t
    case "ENABLE_LOCATION" => EnableLocation
    case "REQUEST_LOCATION" => RequestLocation
    case "LOCK_DEVICE" => LockDevice
    case "UNLOCK_DEVICE" => UnlockDevice
    case "DISABLE_WIFI" => DisableWifi
    case "ENABLE_WIFI" => EnableWifi
    case "DISABLE_MOBILE_DATA" => DisableMobileData
    case "ENABLE_MOBILE_DATA" => EnableMobileData
    case _ => UnknownKind
  }

  /** The `case` label of a known kind. */
  function TypeName(k: Kind): string
    requires k != UnknownKind
  {
    match k
    case EnableLocation => "ENABLE_LOCATION"
    case RequestLocation => "REQUEST_LOCATION"
    case LockDevice => "LOCK_DEVICE"
    case UnlockDevice => "UNLOCK_DEVICE"
    case DisableWifi => "DISABLE_WIFI"
    case EnableWifi => "ENABLE_WIFI"
    case DisableMobileData => "DISABLE_MOBILE_DATA"
    case EnableMobileData => "ENABLE_MOBILE_DATA"
  }

  /** Each `case` label selects its own handler, and the labels are exactly
      the known types. */
  lemma ClassifyTypeName(k: Kind)
    requires k != UnknownKind
    ensures TypeName(k) in KnownTypes && Classify(TypeName(k)) == k
  {
  }

  /** An element that parsed as a JSON object, with its `type` and `id`
      fields as getAsString returns them. */
  function ReadCommand(typeField: Option<string>, idField: Option<string>): (c: RawCommand)
    ensures c.CommandObject? && c.id == idField
    ensures c.kind.None? <==> typeField.None?
    ensures typeField.Some? ==> (c.kind.value == UnknownKind <==> typeField.value !in KnownTypes)
    ensures typeField.Some? && typeField.value in KnownTypes ==> TypeName(c.kind.value) == typeField.value
  {
    CommandObject(if typeField.Some? then Some(Classify(typeField.value)) else None, idField)
  }

  /** How the platform answers WifiManager.setWifiEnabled: it carries the
      change out and returns true, returns false without changing anything,
      or throws. */
  datatype Toggle = Accepted | Refused | Throws

  /** The platform facts the handlers consult, fixed for one poll cycle. */
  datatype Platform = Platform(
    wifiManagerPresent: bool,
    wifiToggle: Toggle,
    lockNowThrows: bool,
    locationManagerPresent: bool,
    gpsEnabled: bool,
    networkLocationEnabled: bool)

  /** The acknowledge-command JSON body. */
  datatype AckPayload = AckPayload(commandId: string, deviceImei: string, status: string, timestamp: int)

  /** What acknowledgments of one cycle share: the endpoint, the device id
      and the time System.currentTimeMillis gave. */
  datatype AckContext = AckContext(url: string, deviceImei: string, timestamp: int)

  /** The observable actions of the service: a status-notification update;
      starting LocationService (with `immediate_update` or not); lockNow; an
      activity start of MainActivity with a `command` extra; a call to
      setWifiEnabled; and an acknowledge-command POST. */
  datatype Effect =
    | Notify(message: Message)
    | StartLocationService(immediateUpdate: bool)
    | LockNow
    | LaunchMainActivity(command: string)
    | SetWifiEnabled(enabled: bool)
    | Acknowledge(url: string, payload: AckPayload)

  predicate IsAck(e: Effect) {
    e.Acknowledge?
  }

  datatype Handled = Handled(effects: seq<Effect>, wifiOn: bool)

  /** The status-notification texts the handlers show, as tokens; Text
      gives each one's exact wording. */
  datatype Message =
    | LocationGps | LocationNetwork | LocationStarting
    | LocationActivated | SendingLocation | DeviceLocked
    | LockRequested | LockFailed | DeviceUnlocked
    | WifiRequiresAdmin | WifiUnavailable | WifiAlreadyDisabled
    | WifiDisabled | WifiDisableInProgress | WifiAlreadyEnabled
    | WifiEnabled | WifiEnableInProgress | WifiControlFailed
    | DataDisabledDirect | NetworkRestricted | DataControlRequested
    | DataEnabledDirect | NetworkRestored | DataEnableRequested
    | DataRequiresAdmin

  function Text(m: Message): string {
    match m
    case LocationGps => "Location tracking active (GPS)"
    case LocationNetwork => "Location tracking active (Network)"
    case LocationStarting => "Location service starting..."
    case LocationActivated => "Location tracking activated by parent request"
    case SendingLocation => "Sending location to parent..."
    case DeviceLocked => "Device locked by parent"
    case LockRequested => "Lock requested - Device admin required"
    case LockFailed => "Lock failed - Enable device admin"
    case DeviceUnlocked => "Device unlocked by parent"
    case WifiRequiresAdmin => "WiFi control requires device admin"
    case WifiUnavailable => "WiFi control unavailable"
    case WifiAlreadyDisabled => "WiFi already disabled"
    case WifiDisabled => "WiFi disabled by parent - No child intervention"
    case WifiDisableInProgress => "WiFi disable in progress..."
    case WifiAlreadyEnabled => "WiFi already enabled"
    case WifiEnabled => "WiFi enabled by parent - No child intervention"
    case WifiEnableInProgress => "WiFi enable in progress..."
    case WifiControlFailed => "WiFi system control failed"
    case DataDisabledDirect => "Mobile data disabled by parent - No child intervention"
    case NetworkRestricted => "Network restricted by parent"
    case DataControlRequested => "Mobile data control requested"
    case DataEnabledDirect => "Mobile data enabled by parent - No child intervention"
    case NetworkRestored => "Network access restored by parent"
    case DataEnableRequested => "Mobile data enable requested"
    case DataRequiresAdmin => "Mobile data control requires device admin"
  }

  /** handleEnableLocationCommand: one notification naming the provider
      (none without a LocationManager), then startLocationService. */
  function EnableLocationEffects(p: Platform): (r: seq<Effect>)
    ensures |r| >= 2 && r[|r| - 2..] == [StartLocationService(false), Notify(LocationActivated)]
    ensures forall e :: e in r ==> e.Notify? || e == StartLocationService(false)
    ensures |r| == (if p.locationManagerPresent then 3 else 2)
    ensures p.locationManagerPresent ==> r[0] == Notify(
      if p.gpsEnabled then LocationGps else if p.networkLocationEnabled then LocationNetwork else LocationStarting)
  {
    var start := [StartLocationService(false), Notify(LocationActivated)];
    if !p.locationManagerPresent then start
    else if p.gpsEnabled then [Notify(LocationGps)] + start
    else if p.networkLocationEnabled then [Notify(LocationNetwork)] + start
    else [Notify(LocationStarting)] + start
  }

  /** handleLocationRequestCommand: LocationService is started with the
      immediate-update extra, then the notification says a location is
      being sent. */
  function RequestLocationEffects(): (r: seq<Effect>)
    ensures |r| == 2 && r[0] == StartLocationService(true)
    ensures forall e :: e in r ==> e.Notify? || e == StartLocationService(true)
  {
    [StartLocationService(true), Notify(SendingLocation)]
  }

  /** handleLockDeviceCommand: lockNow runs only with admin active; without
      admin the only effect is the "Lock failed" notification. */
  function LockEffects(admin: bool, p: Platform): (r: seq<Effect>)
    ensures LockNow in r <==> admin && !p.lockNowThrows
    ensures !admin ==> r == [Notify(LockFailed)]
  {
    if admin then
      if !p.lockNowThrows then [LockNow, Notify(DeviceLocked)]
      else [LaunchMainActivity("lock_device"), Notify(LockRequested)]
    else [Notify(LockFailed)]
  }

  /** handleUnlockDeviceCommand: nothing is unlocked on the device; the
      activity is started with the `unlock_device` extra and the
      notification updated. */
  function UnlockEffects(): (r: seq<Effect>)
    ensures |r| == 2 && r[0] == LaunchMainActivity("unlock_device")
    ensures forall e :: e in r ==> e.Notify? || e == LaunchMainActivity("unlock_device")
  {
    [LaunchMainActivity("unlock_device"), Notify(DeviceUnlocked)]
  }

  /** handleDisableWifiCommand: needs admin and a WifiManager, and calls
      setWifiEnabled(false) only when WiFi is on. */
  function DisableWifiEffects(admin: bool, p: Platform, wifiOn: bool): (h: Handled)
    ensures SetWifiEnabled(false) in h.effects <==> admin && p.wifiManagerPresent && wifiOn
    ensures SetWifiEnabled(true) !in h.effects
    ensures h.wifiOn == (wifiOn && !(admin && p.wifiManagerPresent && p.wifiToggle == Accepted))
  {
    if !admin then Handled([Notify(WifiRequiresAdmin)], wifiOn)
    else if !p.wifiManagerPresent then Handled([Notify(WifiUnavailable)], wifiOn)
    else if !wifiOn then Handled([Notify(WifiAlreadyDisabled)], wifiOn)
    else match p.wifiToggle
      case Accepted => Handled([SetWifiEnabled(false), Notify(WifiDisabled)], false)
      case Refused => Handled([SetWifiEnabled(false), Notify(WifiDisableInProgress)], wifiOn)
      case Throws => Handled([SetWifiEnabled(false), Notify(WifiControlFailed)], wifiOn)
  }

  /** handleEnableWifiCommand: no admin check; calls setWifiEnabled(true)
      only when WiFi is off. */
  function EnableWifiEffects(p: Platform, wifiOn: bool): (h: Handled)
    ensures SetWifiEnabled(true) in h.effects <==> p.wifiManagerPresent && !wifiOn
    ensures SetWifiEnabled(false) !in h.effects
    ensures h.wifiOn == (wifiOn || (p.wifiManagerPresent && p.wifiToggle == Accepted))
  {
    if !p.wifiManagerPresent then Handled([Notify(WifiUnavailable)], wifiOn)
    else if wifiOn then Handled([Notify(WifiAlreadyEnabled)], wifiOn)
    else match p.wifiToggle
      case Accepted => Handled([SetWifiEnabled(true), Notify(WifiEnabled)], true)
      case Refused => Handled([SetWifiEnabled(true), Notify(WifiEnableInProgress)], wifiOn)
      case Throws => Handled([SetWifiEnabled(true), Notify(WifiControlFailed)], wifiOn)
  }

  /** attemptSystemLevelDataDisable: reports success exactly when device admin is
      active, the same check its caller has just made. */
  function AttemptSystemLevelDataDisable(admin: bool): bool {
    admin
  }

  /** applyNetworkRestriction: reports success exactly when device admin is
      active, the same check its caller has just made. */
  function ApplyNetworkRestriction(admin: bool): bool {
    admin
  }

  /** attemptSystemLevelDataEnable: reports success exactly when device admin is
      active, the same check its caller has just made. */
  function AttemptSystemLevelDataEnable(admin: bool): bool {
    admin
  }

  /** removeNetworkRestriction: reports success exactly when device admin is
      active, the same check its caller has just made. */
  function RemoveNetworkRestriction(admin: bool): bool {
    admin
  }

  /** handleDisableMobileDataCommand. With admin active the direct attempt
      always succeeds, so the restriction fallback never runs. */
  function DisableMobileDataEffects(admin: bool): (r: seq<Effect>)
    ensures r == [Notify(if admin then DataDisabledDirect else DataRequiresAdmin)]
  {
    if admin then
      if AttemptSystemLevelDataDisable(admin) then [Notify(DataDisabledDirect)]
      else if ApplyNetworkRestriction(admin) then [Notify(NetworkRestricted)]
      else [Notify(DataControlRequested)]
    else [Notify(DataRequiresAdmin)]
  }

  /** handleEnableMobileDataCommand. With admin active the direct attempt
      always succeeds, so the restriction-removal fallback never runs. */
  function EnableMobileDataEffects(admin: bool): (r: seq<Effect>)
    ensures r == [Notify(if admin then DataEnabledDirect else DataRequiresAdmin)]
  {
    if admin then
      if AttemptSystemLevelDataEnable(admin) then [Notify(DataEnabledDirect)]
      else if RemoveNetworkRestriction(admin) then [Notify(NetworkRestored)]
      else [Notify(DataEnableRequested)]
    else [Notify(DataRequiresAdmin)]
  }

  /** The handler a command kind dispatches to. Handlers never acknowledge,
      only the two WiFi handlers touch the WiFi state, and an unknown kind
      does nothing. */
  function Handle(k: Kind, admin: bool, p: Platform, wifiOn: bool): (h: Handled)
    ensures forall e :: e in h.effects ==> !IsAck(e)
    ensures k != DisableWifi && k != EnableWifi ==> h.wifiOn == wifiOn
    ensures k == UnknownKind ==> h.effects == []
  {
    match k
    case EnableLocation => Handled(EnableLocationEffects(p), wifiOn)
    case RequestLocation => Handled(RequestLocationEffects(), wifiOn)
    case LockDevice => Handled(LockEffects(admin, p), wifiOn)
    case UnlockDevice => Handled(UnlockEffects(), wifiOn)
    case DisableWifi => DisableWifiEffects(admin, p, wifiOn)
    case EnableWifi => EnableWifiEffects(p, wifiOn)
    case DisableMobileData => Handled(DisableMobileDataEffects(admin), wifiOn)
    case EnableMobileData => Handled(EnableMobileDataEffects(admin), wifiOn)
    case UnknownKind => Handled([], wifiOn)
  }

  /** acknowledgeCommand: a POST to the cycle's endpoint whose body carries
      the command id, the device id, status "processed" and the time. */
  function AckFor(id: string, ctx: AckContext): (e: Effect)
    ensures IsAck(e) && e.url == ctx.url
    ensures e.payload.commandId == id && e.payload.deviceImei == ctx.deviceImei
    ensures e.payload.status == "processed" && e.payload.timestamp == ctx.timestamp
  {
    Acknowledge(ctx.url, AckPayload(id, ctx.deviceImei, "processed", ctx.timestamp))
  }

  /** A command processCommands handles and acknowledges without throwing. */
  predicate WellFormed(c: RawCommand) {
    c.CommandObject? && c.kind.Some? && c.id.Some?
  }

  /** The effects of a batch, the WiFi state after it, and whether the loop
      ran to the end (false when an element made it throw). */
  datatype Outcome = Outcome(effects: seq<Effect>, wifiOn: bool, completed: bool)

  /** processCommands: each element in order runs its handler and then
      sends one acknowledgment. A non-object element or a missing type
      throws before the handler; a missing id throws after it, before the
      acknowledgment. The exception is caught by the caller, so the rest of
      the batch is skipped. */
  function BatchOutcome(cmds: seq<RawCommand>, admin: bool, p: Platform, wifiOn: bool, ctx: AckContext): Outcome
    decreases |cmds|
  {
    if cmds == [] then Outcome([], wifiOn, true)
    else match cmds[0]
      case NotAnObject => Outcome([], wifiOn, false)
      case CommandObject(t, id) =>
        if t.None? then Outcome([], wifiOn, false)
        else
          var h := Handle(t.value, admin, p, wifiOn);
          if id.None? then Outcome(h.effects, h.wifiOn, false)
          else
            var rest := BatchOutcome(cmds[1..], admin, p, h.wifiOn, ctx);
            Outcome(h.effects + [AckFor(id.value, ctx)] + rest.effects, rest.wifiOn, rest.completed)
  }

  /** A batch is reported completed exactly when every element in it is
      well-formed: any element that is not an object, or lacks a type or an
      id, makes the loop throw. */
  lemma {:induction false} BatchCompletedIff(cmds: seq<RawCommand>, admin: bool, p: Platform, wifiOn: bool, ctx: AckContext)
    ensures BatchOutcome(cmds, admin, p, wifiOn, ctx).completed <==> forall i :: 0 <= i < |cmds| ==> WellFormed(cmds[i])
    decreases |cmds|
  {
    if cmds != [] && WellFormed(cmds[0]) {
      var h := Handle(cmds[0].kind.value, admin, p, wifiOn);
      BatchHead(cmds, admin, p, wifiOn, ctx);
      BatchCompletedIff(cmds[1..], admin, p, h.wifiOn, ctx);
      TailWellFormed(cmds);
    }
  }

  /** All of a non-empty batch is well-formed iff its head and its tail are. */
  lemma TailWellFormed(cmds: seq<RawCommand>)
    requires cmds != []
    ensures (forall i :: 0 <= i < |cmds| ==> WellFormed(cmds[i]))
        <==> WellFormed(cmds[0]) && forall i :: 0 <= i < |cmds[1..]| ==> WellFormed(cmds[1..][i])
  {
    assert forall i :: 0 <= i < |cmds[1..]| ==> cmds[1..][i] == cmds[i + 1];
  }

  /** The command ids the acknowledgments among `effects` carry, in order. */
  function AckIds(effects: seq<Effect>): seq<string> {
    if effects == [] then []
    else (if IsAck(effects[0]) then [effects[0].payload.commandId] else []) + AckIds(effects[1..])
  }

  lemma {:induction false} AckIdsAppend(a: seq<Effect>, b: seq<Effect>)
    ensures AckIds(a + b) == AckIds(a) + AckIds(b)
  {
    if a == [] {
      assert a + b == b;
    } else {
      assert (a + b)[0] == a[0] && (a + b)[1..] == a[1..] + b;
      AckIdsAppend(a[1..], b);
    }
  }

  lemma {:induction false} AckIdsNone(a: seq<Effect>)
    requires forall e :: e in a ==> !IsAck(e)
    ensures AckIds(a) == []
  {
    if a != [] {
      assert a[0] in a;
      AckIdsNone(a[1..]);
    }
  }

  /** The ids of a prefix of well-formed commands. */
  function Ids(cmds: seq<RawCommand>): seq<string>
    requires forall i :: 0 <= i < |cmds| ==> WellFormed(cmds[i])
  {
    if cmds == [] then [] else assert WellFormed(cmds[0]); [cmds[0].id.value] + Ids(cmds[1..])
  }

  /** One well-formed command at the head of a batch: its handler's
      effects, then its acknowledgment, then the rest of the batch. */
  lemma BatchHead(cmds: seq<RawCommand>, admin: bool, p: Platform, wifiOn: bool, ctx: AckContext)
    requires cmds != [] && WellFormed(cmds[0])
    ensures var h := Handle(cmds[0].kind.value, admin, p, wifiOn);
            var rest := BatchOutcome(cmds[1..], admin, p, h.wifiOn, ctx);
            BatchOutcome(cmds, admin, p, wifiOn, ctx)
              == Outcome(h.effects + [AckFor(cmds[0].id.value, ctx)] + rest.effects, rest.wifiOn, rest.completed)
  {
  }

  /** The batch from index `i` on, by the element at `i`: unreadable, read
      but without an id, or well-formed. */
  lemma BatchAt(cmds: seq<RawCommand>, i: nat, admin: bool, p: Platform, wifiOn: bool, ctx: AckContext)
    requires i < |cmds|
    ensures !(cmds[i].CommandObject? && cmds[i].kind.Some?) ==>
      BatchOutcome(cmds[i..], admin, p, wifiOn, ctx) == Outcome([], wifiOn, false)
    ensures cmds[i].CommandObject? && cmds[i].kind.Some? && cmds[i].id.None? ==>
      var h := Handle(cmds[i].kind.value, admin, p, wifiOn);
      BatchOutcome(cmds[i..], admin, p, wifiOn, ctx) == Outcome(h.effects, h.wifiOn, false)
    ensures WellFormed(cmds[i]) ==>
      var h := Handle(cmds[i].kind.value, admin, p, wifiOn);
      var rest := BatchOutcome(cmds[i + 1..], admin, p, h.wifiOn, ctx);
      BatchOutcome(cmds[i..], admin, p, wifiOn, ctx)
        == Outcome(h.effects + [AckFor(cmds[i].id.value, ctx)] + rest.effects, rest.wifiOn, rest.completed)
  {
    assert cmds[i..][0] == cmds[i] && cmds[i..][1..] == cmds[i + 1..];
  }

  lemma AppendAssoc<T>(a: seq<T>, b: seq<T>, c: seq<T>)
    ensures a + (b + c) == a + b + c
  {
  }

  /** Running the well-formed element at `i`, whose handler gave `h`,
      extends the effects already emitted, as a loop over the batch would. */
  lemma BatchStepped(cmds: seq<RawCommand>, i: nat, admin: bool, p: Platform, wifiOn: bool, ctx: AckContext,
                     effects: seq<Effect>, whole: Outcome, h: Handled)
    requires i < |cmds| && WellFormed(cmds[i])
    requires h == Handle(cmds[i].kind.value, admin, p, wifiOn)
    requires var r := BatchOutcome(cmds[i..], admin, p, wifiOn, ctx);
             whole == Outcome(effects + r.effects, r.wifiOn, r.completed)
    ensures var r := BatchOutcome(cmds[i + 1..], admin, p, h.wifiOn, ctx);
            whole == Outcome(effects + (h.effects + [AckFor(cmds[i].id.value, ctx)]) + r.effects, r.wifiOn, r.completed)
  {
    var ack := AckFor(cmds[i].id.value, ctx);
    var r := BatchOutcome(cmds[i + 1..], admin, p, h.wifiOn, ctx);
    assert BatchOutcome(cmds[i..], admin, p, wifiOn, ctx) == Outcome(h.effects + [ack] + r.effects, r.wifiOn, r.completed) by {
      BatchAt(cmds, i, admin, p, wifiOn, ctx);
    }
    AppendAssoc(effects, h.effects + [ack], r.effects);
  }

  /** Where a loop over the batch stops at the malformed element at `i`:
      the handler's effects are emitted only when the element has a type. */
  lemma BatchStopped(cmds: seq<RawCommand>, i: nat, admin: bool, p: Platform, wifiOn: bool, ctx: AckContext,
                     effects: seq<Effect>, whole: Outcome)
    requires i < |cmds| && !WellFormed(cmds[i])
    requires var r := BatchOutcome(cmds[i..], admin, p, wifiOn, ctx);
             whole == Outcome(effects + r.effects, r.wifiOn, r.completed)
    ensures !whole.completed
    ensures !(cmds[i].CommandObject? && cmds[i].kind.Some?) ==>
      whole.effects == effects && whole.wifiOn == wifiOn
    ensures cmds[i].CommandObject? && cmds[i].kind.Some? ==>
      var h := Handle(cmds[i].kind.value, admin, p, wifiOn);
      whole.effects == effects + h.effects && whole.wifiOn == h.wifiOn
  {
    BatchAt(cmds, i, admin, p, wifiOn, ctx);
    assert effects + [] == effects;
  }

  /** Where a loop over the batch runs off its end. */
  lemma BatchFinished(cmds: seq<RawCommand>, admin: bool, p: Platform, wifiOn: bool, ctx: AckContext,
                      effects: seq<Effect>, whole: Outcome)
    requires var r := BatchOutcome(cmds[|cmds|..], admin, p, wifiOn, ctx);
             whole == Outcome(effects + r.effects, r.wifiOn, r.completed)
    ensures whole == Outcome(effects, wifiOn, true)
  {
    assert cmds[|cmds|..] == [];
    assert effects + [] == effects;
  }

  /** The ids acknowledged by a handler's effects followed by one ack. */
  lemma HandledThenAck(h: Handled, id: string, ctx: AckContext, more: seq<Effect>)
    requires forall e :: e in h.effects ==> !IsAck(e)
    ensures AckIds(h.effects + [AckFor(id, ctx)] + more) == [id] + AckIds(more)
  {
    AckIdsAppend(h.effects + [AckFor(id, ctx)], more);
    AckIdsAppend(h.effects, [AckFor(id, ctx)]);
    AckIdsNone(h.effects);
    assert [AckFor(id, ctx)][1..] == [];
  }

  /** A batch of well-formed commands is processed to the end, and its
      acknowledgments carry exactly the command ids in array order: every
      command, of a known type or not, is acknowledged exactly once. */
  lemma {:induction false} AcksFollowCommands(cmds: seq<RawCommand>, admin: bool, p: Platform, wifiOn: bool, ctx: AckContext)
    requires forall i :: 0 <= i < |cmds| ==> WellFormed(cmds[i])
    ensures BatchOutcome(cmds, admin, p, wifiOn, ctx).completed
    ensures AckIds(BatchOutcome(cmds, admin, p, wifiOn, ctx).effects) == Ids(cmds)
    decreases |cmds|
  {
    if cmds != [] {
      assert WellFormed(cmds[0]);
      var h := Handle(cmds[0].kind.value, admin, p, wifiOn);
      BatchHead(cmds, admin, p, wifiOn, ctx);
      AcksFollowCommands(cmds[1..], admin, p, h.wifiOn, ctx);
      HandledThenAck(h, cmds[0].id.value, ctx, BatchOutcome(cmds[1..], admin, p, h.wifiOn, ctx).effects);
    }
  }

  /** A malformed element alone: nothing after it is looked at, nothing is
      acknowledged, and the batch is reported incomplete. */
  lemma MalformedHead(bad: RawCommand, rest: seq<RawCommand>, admin: bool, p: Platform, wifiOn: bool, ctx: AckContext)
    requires !WellFormed(bad)
    ensures BatchOutcome([bad] + rest, admin, p, wifiOn, ctx) == BatchOutcome([bad], admin, p, wifiOn, ctx)
    ensures !BatchOutcome([bad], admin, p, wifiOn, ctx).completed
    ensures AckIds(BatchOutcome([bad], admin, p, wifiOn, ctx).effects) == []
  {
    assert ([bad] + rest)[0] == bad;
    if bad.CommandObject? && bad.kind.Some? {
      AckIdsNone(Handle(bad.kind.value, admin, p, wifiOn).effects);
    }
  }

  /** Dropping the head keeps a prefix of well-formed commands. */
  lemma WellFormedTail(cmds: seq<RawCommand>, n: nat)
    requires 0 < n <= |cmds|
    requires forall i :: 0 <= i < n ==> WellFormed(cmds[i])
    ensures forall i :: 0 <= i < n - 1 ==> WellFormed(cmds[1..][i])
  {
    forall i | 0 <= i < n - 1
      ensures WellFormed(cmds[1..][i])
    {
      assert cmds[1..][i] == cmds[i + 1];
    }
  }

  /** The ids of a well-formed prefix, head first. */
  lemma IdsCons(cmds: seq<RawCommand>, n: nat)
    requires 0 < n <= |cmds|
    requires forall i :: 0 <= i < n ==> WellFormed(cmds[i])
    ensures forall i :: 0 <= i < n - 1 ==> WellFormed(cmds[1..][i])
    ensures Ids(cmds[..n]) == [cmds[0].id.value] + Ids(cmds[1..][..n - 1])
  {
    WellFormedTail(cmds, n);
    assert cmds[..n][0] == cmds[0] && cmds[..n][1..] == cmds[1..][..n - 1];
  }

  /** The first malformed element, at `n`, ends the batch: what follows it
      is never looked at. */
  lemma {:induction false} MalformedSkipsRest(cmds: seq<RawCommand>, n: nat,
                                              admin: bool, p: Platform, wifiOn: bool, ctx: AckContext)
    requires n < |cmds|
    requires forall i :: 0 <= i < n ==> WellFormed(cmds[i])
    requires !WellFormed(cmds[n])
    ensures BatchOutcome(cmds, admin, p, wifiOn, ctx) == BatchOutcome(cmds[..n + 1], admin, p, wifiOn, ctx)
    decreases n
  {
    var short := cmds[..n + 1];
    if n == 0 {
      assert cmds == [cmds[0]] + cmds[1..] && short == [cmds[0]];
      MalformedHead(cmds[0], cmds[1..], admin, p, wifiOn, ctx);
    } else {
      var tail := cmds[1..];
      assert WellFormed(cmds[0]);
      var h := Handle(cmds[0].kind.value, admin, p, wifiOn);
      assert short[0] == cmds[0] && short[1..] == tail[..n];
      assert BatchOutcome(tail, admin, p, h.wifiOn, ctx) == BatchOutcome(tail[..n], admin, p, h.wifiOn, ctx) by {
        WellFormedTail(cmds, n);
        MalformedSkipsRest(tail, n - 1, admin, p, h.wifiOn, ctx);
      }
      var ack := AckFor(cmds[0].id.value, ctx);
      var rest := BatchOutcome(tail, admin, p, h.wifiOn, ctx);
      assert BatchOutcome(cmds, admin, p, wifiOn, ctx) == Outcome(h.effects + [ack] + rest.effects, rest.wifiOn, rest.completed) by {
        BatchHead(cmds, admin, p, wifiOn, ctx);
      }
      assert BatchOutcome(short, admin, p, wifiOn, ctx) == Outcome(h.effects + [ack] + rest.effects, rest.wifiOn, rest.completed) by {
        BatchHead(short, admin, p, wifiOn, ctx);
      }
    }
  }

  /** A batch whose first malformed element is at `n` is reported
      incomplete, and only the well-formed commands before it are
      acknowledged, in order. */
  lemma {:induction false} MalformedEndsBatch(cmds: seq<RawCommand>, n: nat,
                                              admin: bool, p: Platform, wifiOn: bool, ctx: AckContext)
    requires n < |cmds|
    requires forall i :: 0 <= i < n ==> WellFormed(cmds[i])
    requires !WellFormed(cmds[n])
    ensures !BatchOutcome(cmds, admin, p, wifiOn, ctx).completed
    ensures AckIds(BatchOutcome(cmds, admin, p, wifiOn, ctx).effects) == Ids(cmds[..n])
    decreases n
  {
    if n == 0 {
      assert cmds == [cmds[0]] + cmds[1..];
      MalformedHead(cmds[0], cmds[1..], admin, p, wifiOn, ctx);
    } else {
      assert WellFormed(cmds[0]);
      var h := Handle(cmds[0].kind.value, admin, p, wifiOn);
      var ack := AckFor(cmds[0].id.value, ctx);
      var tail := BatchOutcome(cmds[1..], admin, p, h.wifiOn, ctx);
      assert BatchOutcome(cmds, admin, p, wifiOn, ctx) == Outcome(h.effects + [ack] + tail.effects, tail.wifiOn, tail.completed) by {
        BatchHead(cmds, admin, p, wifiOn, ctx);
      }
      WellFormedTail(cmds, n);
      MalformedEndsBatch(cmds[1..], n - 1, admin, p, h.wifiOn, ctx);
      HandledThenAck(h, cmds[0].id.value, ctx, tail.effects);
      IdsCons(cmds, n);
    }
  }

  /** Every acknowledgment of a batch goes to the cycle's endpoint and
      carries the device id and status "processed". */
  lemma {:induction false} AckPayloads(cmds: seq<RawCommand>, admin: bool, p: Platform, wifiOn: bool, ctx: AckContext)
    ensures forall e :: e in BatchOutcome(cmds, admin, p, wifiOn, ctx).effects && IsAck(e) ==>
      e.url == ctx.url && e.payload.deviceImei == ctx.deviceImei && e.payload.status == "processed"
    decreases |cmds|
  {
    if cmds != [] && cmds[0].CommandObject? && cmds[0].kind.Some? && cmds[0].id.Some? {
      var h := Handle(cmds[0].kind.value, admin, p, wifiOn);
      AckPayloads(cmds[1..], admin, p, h.wifiOn, ctx);
    }
  }

  /** A handler maps a WiFi-off start to a WiFi-on result only if it maps a
      WiFi-on start to a WiFi-on result. */
  lemma HandleMonotone(k: Kind, admin: bool, p: Platform)
    ensures Handle(k, admin, p, false).wifiOn ==> Handle(k, admin, p, true).wifiOn
  {
  }

  /** The WiFi state after a batch is monotone in the state before it, and
      does not depend on the acknowledgment context. */
  lemma {:induction false} BatchMonotone(cmds: seq<RawCommand>, admin: bool, p: Platform,
                                         w1: bool, w2: bool, ctx1: AckContext, ctx2: AckContext)
    requires w1 ==> w2
    ensures BatchOutcome(cmds, admin, p, w1, ctx1).wifiOn ==> BatchOutcome(cmds, admin, p, w2, ctx2).wifiOn
    decreases |cmds|
  {
    if cmds != [] {
      assert cmds[0..] == cmds;
      BatchAt(cmds, 0, admin, p, w1, ctx1);
      BatchAt(cmds, 0, admin, p, w2, ctx2);
      if cmds[0].CommandObject? && cmds[0].kind.Some? {
        var k := cmds[0].kind.value;
        var h1 := Handle(k, admin, p, w1);
        var h2 := Handle(k, admin, p, w2);
        assert h1.wifiOn ==> h2.wifiOn by {
          HandleMonotone(k, admin, p);
        }
        if cmds[0].id.Some? {
          BatchMonotone(cmds[1..], admin, p, h1.wifiOn, h2.wifiOn, ctx1, ctx2);
        }
      }
    }
  }

  /** Redelivery is harmless: processing the same batch again, in a later
      cycle with a different acknowledgment context, leaves the WiFi state
      where the first processing left it. */
  lemma ReplayKeepsWifi(cmds: seq<RawCommand>, admin: bool, p: Platform, wifiOn: bool, ctx1: AckContext, ctx2: AckContext)
    ensures var once := BatchOutcome(cmds, admin, p, wifiOn, ctx1).wifiOn;
            BatchOutcome(cmds, admin, p, once, ctx2).wifiOn == once
  {
    var once := BatchOutcome(cmds, admin, p, wifiOn, ctx1).wifiOn;
    BatchMonotone(cmds, admin, p, false, true, ctx1, ctx2);
    BatchMonotone(cmds, admin, p, false, true, ctx2, ctx1);
    BatchMonotone(cmds, admin, p, false, false, ctx1, ctx2);
    BatchMonotone(cmds, admin, p, false, false, ctx2, ctx1);
    BatchMonotone(cmds, admin, p, true, true, ctx1, ctx2);
    BatchMonotone(cmds, admin, p, true, true, ctx2, ctx1);
  }

  /** A redelivered WiFi command whose first run took effect finds the
      interface already switched and calls setWifiEnabled no more. */
  lemma WifiRedeliveryNoToggle(k: Kind, admin: bool, p: Platform, wifiOn: bool)
    requires k == DisableWifi || k == EnableWifi
    requires p.wifiToggle == Accepted
    ensures var first := Handle(k, admin, p, wifiOn);
            var again := Handle(k, admin, p, first.wifiOn);
            again.wifiOn == first.wifiOn && SetWifiEnabled(true) !in again.effects && SetWifiEnabled(false) !in again.effects
  {
  }
}
