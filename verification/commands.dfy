/**
 * The bodies of `set_temperature`, `set_fan_mode`, `set_hvac_mode` and
 * `set_swing_mode`: each decides, from its argument and the vendor
 * enumerations, the one `set_device` request it makes, or that it makes none,
 * or that it raises (an enumeration or table lookup that fails).
 */
module Commands {
  import opened Wrappers
  import opened Vendor
  import opened Cloud
  import opened Modes
  import opened Retry

  /** The keyword under which the host passes the new target temperature. */
  const AttrTemperature := "temperature"

  /** True when `a` makes one `set_device` call for device `id`. */
  predicate SetsDevice(a: Action, id: string)
  {
    a.Send? && a.call.SetDevice? && a.call.id == id
  }

  /** `set_temperature(**kwargs)`: the temperature passed, sent as it is, or no call when none is passed. */
  function SetTemperature(id: string, kwargs: map<string, Option<real>>): (r: Action)
    ensures !r.Fail?
    ensures r.Skip? <==> AttrTemperature !in kwargs || kwargs[AttrTemperature].None?
    ensures r.Send? ==>
      && SetsDevice(r, id)
      && Fields(r.call.request) == {"temperature"}
      && r.call.request.temperature == kwargs[AttrTemperature]
  {
    var target := if AttrTemperature in kwargs then kwargs[AttrTemperature] else None;
    match target
    case None => Skip
    case Some(t) => Send(SetDevice(id, EmptyRequest.(temperature := Some(t))))
  }

  /** `set_fan_mode(fan_mode)`: the fan speed named `fanMode`, and nothing else; raises for an unknown name. */
  function SetFanMode(id: string, k: Constants, fanMode: string): (r: Action)
    ensures !r.Skip?
    ensures r.Send? <==> HasName(k.fanSpeed, fanMode)
    ensures r.Send? ==>
      && SetsDevice(r, id)
      && Fields(r.call.request) == {"fanSpeed"}
      && r.call.request.fanSpeed.value in k.fanSpeed
      && r.call.request.fanSpeed.value.name == fanMode
  {
    match Lookup(k.fanSpeed, fanMode)
    case None => Fail
    case Some(f) => Send(SetDevice(id, EmptyRequest.(fanSpeed := Some(f))))
  }

  /**
   * `set_hvac_mode(hvac_mode)`: `Off` sends power off and no mode; any other
   * mode sends power on and the operation mode labelled by the mode's table
   * entry, and raises for a mode outside the table.
   */
  function SetHvacMode(id: string, k: Constants, m: HvacMode): (r: Action)
    ensures !r.Skip?
    ensures m == Off ==> (r.Send? <==> HasName(k.power, "Off"))
    ensures m == Off && r.Send? ==>
      && SetsDevice(r, id)
      && Fields(r.call.request) == {"power"}
      && r.call.request.power.value in k.power
      && r.call.request.power.value.name == "Off"
    ensures m != Off ==>
      (r.Send? <==> HasName(k.power, "On") && Label(m).Some? && HasName(k.operationMode, Label(m).value))
    ensures m != Off && r.Send? ==>
      && SetsDevice(r, id)
      && Fields(r.call.request) == {"power", "mode"}
      && r.call.request.power.value in k.power
      && r.call.request.power.value.name == "On"
      && r.call.request.mode.value in k.operationMode
      && r.call.request.mode.value.name == Label(m).value
  {
    if m == Off then
      match Lookup(k.power, "Off")
      case None => Fail
      case Some(p) => Send(SetDevice(id, EmptyRequest.(power := Some(p))))
    else
      match Lookup(k.power, "On")
      case None => Fail
      case Some(p) =>
        match Label(m)
        case None => Fail
        case Some(name) =>
          match Lookup(k.operationMode, name)
          case None => Fail
          case Some(o) => Send(SetDevice(id, EmptyRequest.(power := Some(p), mode := Some(o))))
  }

  /** The auto-swing member `set_swing_mode` asks for: vertical auto swing for `Auto`, disabled otherwise. */
  function AutoModeName(swingMode: string): string
  {
    if swingMode == "Auto" then "AirSwingUD" else "Disabled"
  }

  /**
   * `set_swing_mode(swing_mode)`: power on, the vertical swing position named
   * `swingMode`, and the auto-swing mode of `AutoModeName`; raises when any of
   * the three lookups fails, including `Auto` when it is not a vertical position.
   */
  function SetSwingMode(id: string, k: Constants, swingMode: string): (r: Action)
    ensures !r.Skip?
    ensures r.Send? <==>
      HasName(k.airSwingAutoMode, AutoModeName(swingMode)) && HasName(k.power, "On") && HasName(k.airSwingUD, swingMode)
    ensures r.Send? ==>
      && SetsDevice(r, id)
      && Fields(r.call.request) == {"power", "airSwingVertical", "fanAutoMode"}
      && r.call.request.power.value in k.power
      && r.call.request.power.value.name == "On"
      && r.call.request.airSwingVertical.value in k.airSwingUD
      && r.call.request.airSwingVertical.value.name == swingMode
      && r.call.request.fanAutoMode.value in k.airSwingAutoMode
      && (r.call.request.fanAutoMode.value.name == "AirSwingUD" <==> swingMode == "Auto")
      && (r.call.request.fanAutoMode.value.name == "Disabled" <==> swingMode != "Auto")
  {
    var automode := Lookup(k.airSwingAutoMode, AutoModeName(swingMode));
    var on := Lookup(k.power, "On");
    var vertical := Lookup(k.airSwingUD, swingMode);
    if automode.None? || on.None? || vertical.None? then Fail
    else Send(SetDevice(id, EmptyRequest.(power := on, airSwingVertical := vertical, fanAutoMode := automode)))
  }

  /** Every command is one the retry policy can wrap: none of them calls `login()` itself. */
  lemma CommandsWrappable(id: string, k: Constants, kwargs: map<string, Option<real>>, m: HvacMode, name: string)
    ensures Wrappable(SetTemperature(id, kwargs))
    ensures Wrappable(SetFanMode(id, k, name))
    ensures Wrappable(SetHvacMode(id, k, m))
    ensures Wrappable(SetSwingMode(id, k, name))
  {
  }

}
